/** Failure-carrying values shared by every part of the player. */
module Base {

  datatype Option<+T> = None | Some(value: T)

  datatype Result<+T> = Success(value: T) | Failure(error: Error)

  /** The exceptions the cog raises, one constructor per cause. */
  datatype Error =
    | BadResponse(reason: string)   // BadResponseError: the only kind `play` reports to the user
    | InvalidClient                 // ValueError: the token endpoint rejected the client id/secret
    | MissingField(field: string)   // KeyError on a response payload
    | NoAudioFormat                 // ValueError: `max` over a video without audio formats
    | NoInstance                    // ValueError: `max` over a directory without usable instances
    | NoSearchResult                // IndexError: the search returned no video
    | NotVolumeTransformer          // ValueError: the audio source has no volume control

}
