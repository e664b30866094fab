/** The error type shared by the client, the downloader and the front ends (`BandcampError`). */
module Errors {

  /** What a `reqwest::Error` carries here: a failed exchange, or an error status turned into an error. */
  datatype NetCause = Transport | Status(code: nat)

  datatype BandcampError =
    | AuthError(message: string)
    | InvalidCredentials
    | NotLoggedIn
    | SessionExpired
    | NetworkError(cause: NetCause)
    | DownloadError(message: string)
    | IoError(message: string)
    | ParseError(message: string)
}
