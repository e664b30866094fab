/** Stored session credentials. */
module Auth {
  import opened Wrappers

  /** `Credentials`; `Credentials::new` is `Credentials(cookie, None, None)`. */
  datatype Credentials = Credentials(identity_cookie: string, client_id: Option<string>, fan_id: Option<string>)
}
