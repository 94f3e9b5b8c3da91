/** Callers of the client, proved from the operations' contracts alone: a full
    login, a failed answer, signing out twice, and profile calls around them. */
module Scenarios {
  import opened Wrappers
  import opened Provider
  import opened CredentialStore
  import opened Cognito

  /** Log in, then read the session and the profile with the token just stored. */
  method LoginThenProfile()
  {
    var store := new AccessTokenStore(None);
    var _, started := InitiateAuth("+15551230000",
      Success(InitiateAuthOutput(Some("sess-1"), Some(map["isEnrolled" := "false"]))));
    assert started == Success(InitiateAuthResponse("sess-1", None, false));

    var _, answered := RespondToAuthChallenge(store, "sess-1", "+15551230000", "123456",
      Success(RespondToAuthChallengeOutput(Some(AuthenticationResult(Some("tok-abc"))))));
    assert answered.Success?;
    var token := GetAccessToken(store);
    assert token == Some("tok-abc");

    var attrs := [AttributeType("sub", Some("u-1")), AttributeType("phone_number", Some("+15551230000"))];
    var sent, profile := GetUserAttributes(store, Success(GetUserOutput(Some("+15551230000"), Some(attrs))));
    assert sent == Some(GetUserCommand("tok-abc"));
    assert IsFirst(attrs, "phone_number", 1);
    assert profile.Success? && profile.value.phoneNumber == Some("+15551230000");
    assert profile.value.username == Some("+15551230000");
    assert profile.value.email == None && !profile.value.emailVerified;
  }

  /** Whatever the store held and whatever the provider answers, the token read
      right after an answer is the one that answer returned, or the earlier one
      when the answer failed. */
  method RespondThenRead(store: AccessTokenStore, session: string, username: string, answer: string,
                         reply: Reply<RespondToAuthChallengeOutput>)
    returns (r: Result<(), Error>, token: Option<string>)
    modifies store
    ensures r.Success? <==> reply.Success? && IssuedAccessToken(reply.value).Success?
    ensures r.Success? ==>
      Truthy(token) && token == reply.value.authenticationResult.value.accessToken
    ensures r.Failure? ==> token == old(store.token)
  {
    var _, answered := RespondToAuthChallenge(store, session, username, answer, reply);
    r := answered;
    token := GetAccessToken(store);
  }

  /** An answer that yields no token leaves the earlier session in place. */
  method FailedAnswerKeepsSession(previous: Option<string>)
  {
    var store := new AccessTokenStore(previous);
    var _, answered := RespondToAuthChallenge(store, "stale", "+15551230000", "000000",
      Success(RespondToAuthChallengeOutput(Some(AuthenticationResult(Some(""))))));
    assert answered == Failure(NoAccessTokenReturned);
    var token := GetAccessToken(store);
    assert token == previous;
  }

  /** Signing out twice leaves no session, and no profile request can then be sent. */
  method SignOutTwice(previous: Option<string>, email: string)
  {
    var store := new AccessTokenStore(previous);
    ClearAccessToken(store);
    ClearAccessToken(store);
    var token := GetAccessToken(store);
    assert token == None;
    var sent, r := UpdateEmail(store, email, Success(()));
    assert sent == None && r == Failure(NoAccessTokenFound);
  }
}
