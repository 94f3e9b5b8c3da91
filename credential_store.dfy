/** The device-local key-value storage, reduced to the one key the client uses. */
module CredentialStore {
  import opened Wrappers

  /** The entry stored under the key "@access_token". */
  class AccessTokenStore {
    /** The stored access token, or None when the key is absent. */
    var token: Option<string>

    /** A store as found at start-up: whatever an earlier run left under the key. */
    constructor (initial: Option<string>)
      ensures token == initial
    {
      token := initial;
    }
  }
}
