/** The passwordless challenge-response client: registration, the custom
    challenge handshake, the stored access token, and the profile operations
    that are gated on it. Each remote send is abstracted: an operation returns
    the request it issues and takes as `reply` what the provider answers. */
module Cognito {
  import opened Wrappers
  import opened Provider
  import opened CredentialStore

  /** Errors the client raises itself, and the provider's own, passed on unchanged. */
  datatype Error =
    | CouldNotStartCustomAuth   // the challenge start came back without a session handle
    | NoAccessTokenReturned     // the challenge answer came back without an access token
    | NoAccessTokenFound        // a profile operation found no stored token
    | Remote(cause: ProviderError)

  /** What initiateAuth hands to its caller between the two steps of a login. */
  datatype InitiateAuthResponse = InitiateAuthResponse(session: string, token: Option<string>, isEnrolled: bool)

  /** The structured profile getUserAttributes builds from the flat attribute list. */
  datatype UserAttributes = UserAttributes(
    username: Option<string>,
    userId: Option<string>,
    phoneNumber: Option<string>,
    email: Option<string>,
    emailVerified: bool,
    givenName: Option<string>,
    familyName: Option<string>)

  /** JavaScript truthiness of an optional string: absent and "" are both falsy. */
  predicate Truthy(s: Option<string>) {
    s.Some? && s.value != ""
  }

  /** The outcome of an awaited send whose output the operation does not inspect. */
  function Passed<T>(reply: Reply<T>): Result<T, Error> {
    match reply
    case Success(v) => Success(v)
    case Failure(e) => Failure(Remote(e))
  }

  // ---------------------------------------------------------------- signUp

  /** Registers `username` with its phone number as the only attribute. The
      password field is a throw-away: `noise` stands for the random base-36
      digits, to which a fixed upper-case letter is appended. */
  method SignUp(username: string, phoneNumber: string, noise: string, reply: Reply<()>)
    returns (sent: Request, r: Result<(), Error>)
    ensures sent.SignUpCommand? && sent.username == username
    ensures sent.userAttributes == [AttributeType("phone_number", Some(phoneNumber))]
    ensures sent.password == noise + "X"
    ensures r.Success? <==> reply.Success?
    ensures r.Failure? ==> r.error == Remote(reply.error)
  {
    sent := SignUpCommand(username, noise + "X", [AttributeType("phone_number", Some(phoneNumber))]);
    r := Passed(reply);
  }

  // ---------------------------------------------------------------- initiateAuth

  /** Shapes the provider's answer to a challenge start. A falsy session handle
      is a protocol violation; otherwise the handle is passed on with the
      delivery token and the enrolment flag from the challenge parameters. */
  function ChallengeStart(out: InitiateAuthOutput): (r: Result<InitiateAuthResponse, Error>)
    ensures r.Failure? <==> !Truthy(out.session)
    ensures r.Failure? ==> r.error == CouldNotStartCustomAuth
    ensures r.Success? ==> out.session == Some(r.value.session) && r.value.session != ""
    ensures r.Success? ==>
      (r.value.isEnrolled <==>
        out.challengeParameters.Some? && "isEnrolled" in out.challengeParameters.value
        && out.challengeParameters.value["isEnrolled"] == "true")
    ensures r.Success? ==>
      (r.value.token.Some? <==> out.challengeParameters.Some? && "token" in out.challengeParameters.value)
    ensures r.Success? && r.value.token.Some? ==>
      out.challengeParameters.Some? && r.value.token.value == out.challengeParameters.value["token"]
  {
    if !Truthy(out.session) then
      Failure(CouldNotStartCustomAuth)
    else
      var token := match out.challengeParameters
        case None => None
        case Some(p) => if "token" in p then Some(p["token"]) else None;
      var isEnrolled := match out.challengeParameters
        case None => false
        case Some(p) => "isEnrolled" in p && p["isEnrolled"] == "true";
      Success(InitiateAuthResponse(out.session.value, token, isEnrolled))
  }

  /** Starts the custom challenge flow for `username`. */
  method InitiateAuth(username: string, reply: Reply<InitiateAuthOutput>)
    returns (sent: Request, r: Result<InitiateAuthResponse, Error>)
    ensures sent == InitiateAuthCommand(CustomAuth, map["USERNAME" := username])
    ensures reply.Failure? ==> r == Failure(Remote(reply.error))
    ensures reply.Success? ==> r == ChallengeStart(reply.value)
  {
    sent := InitiateAuthCommand(CustomAuth, map["USERNAME" := username]);
    match reply
    case Failure(e) =>
      r := Failure(Remote(e));
    case Success(out) =>
      r := ChallengeStart(out);
  }

  // ---------------------------------------------------------------- respondToAuthChallenge

  /** The access token a challenge answer yields; a falsy one is a protocol violation. */
  function IssuedAccessToken(out: RespondToAuthChallengeOutput): (r: Result<string, Error>)
    ensures r.Success? <==>
      out.authenticationResult.Some? && Truthy(out.authenticationResult.value.accessToken)
    ensures r.Success? ==>
      r.value != "" && out.authenticationResult == Some(AuthenticationResult(Some(r.value)))
    ensures r.Failure? ==> r.error == NoAccessTokenReturned
  {
    match out.authenticationResult
    case Some(AuthenticationResult(Some(token))) =>
      if token != "" then Success(token) else Failure(NoAccessTokenReturned)
    case _ => Failure(NoAccessTokenReturned)
  }

  /** Answers the challenge of `session`. This is the only place the store is
      written, and only once a non-empty access token has come back. */
  method RespondToAuthChallenge(store: AccessTokenStore, session: string, username: string, answer: string,
                                reply: Reply<RespondToAuthChallengeOutput>)
    returns (sent: Request, r: Result<(), Error>)
    modifies store
    ensures sent == RespondToAuthChallengeCommand(CustomChallenge, session,
                                                  map["USERNAME" := username, "ANSWER" := answer])
    ensures reply.Failure? ==> r == Failure(Remote(reply.error))
    ensures reply.Success? ==>
      (r.Success? <==> IssuedAccessToken(reply.value).Success?)
    ensures reply.Success? && r.Failure? ==> r.error == NoAccessTokenReturned
    ensures r.Success? ==>
      Truthy(store.token) && store.token == reply.value.authenticationResult.value.accessToken
    ensures r.Failure? ==> store.token == old(store.token)
  {
    sent := RespondToAuthChallengeCommand(CustomChallenge, session,
                                          map["USERNAME" := username, "ANSWER" := answer]);
    match reply
    case Failure(e) =>
      r := Failure(Remote(e));
    case Success(out) =>
      var issued := IssuedAccessToken(out);
      match issued
      case Failure(e) =>
        r := Failure(e);
      case Success(token) =>
        store.token := Some(token);
        r := Success(());
  }

  // ---------------------------------------------------------------- the stored token

  /** Reads the stored token; no remote call. */
  method GetAccessToken(store: AccessTokenStore) returns (token: Option<string>)
    ensures token == store.token
  {
    token := store.token;
  }

  /** Removes the stored token, whether or not one was there. */
  method ClearAccessToken(store: AccessTokenStore)
    modifies store
    ensures store.token == None
  {
    store.token := None;
  }

  // ---------------------------------------------------------------- profile updates

  /** Sets the user's email. Without a stored token nothing is sent; the store is
      only read (no modifies clause). */
  method UpdateEmail(store: AccessTokenStore, email: string, reply: Reply<()>)
    returns (sent: Option<Request>, r: Result<(), Error>)
    ensures sent.None? <==> !Truthy(store.token)
    ensures sent.None? ==> r == Failure(NoAccessTokenFound)
    ensures sent.Some? ==>
      sent.value == UpdateUserAttributesCommand([AttributeType("email", Some(email))], store.token.value)
    ensures sent.Some? ==> (r.Success? <==> reply.Success?)
    ensures sent.Some? && reply.Failure? ==> r == Failure(Remote(reply.error))
  {
    var token := GetAccessToken(store);
    if !Truthy(token) {
      return None, Failure(NoAccessTokenFound);
    }
    sent := Some(UpdateUserAttributesCommand([AttributeType("email", Some(email))], token.value));
    r := Passed(reply);
  }

  /** Sets the user's given and family names, in that order. Without a stored
      token nothing is sent; the store is only read. */
  method UpdateNames(store: AccessTokenStore, givenName: string, familyName: string, reply: Reply<()>)
    returns (sent: Option<Request>, r: Result<(), Error>)
    ensures sent.None? <==> !Truthy(store.token)
    ensures sent.None? ==> r == Failure(NoAccessTokenFound)
    ensures sent.Some? ==>
      sent.value == UpdateUserAttributesCommand([AttributeType("given_name", Some(givenName)),
                                                 AttributeType("family_name", Some(familyName))],
                                                store.token.value)
    ensures sent.Some? ==> (r.Success? <==> reply.Success?)
    ensures sent.Some? && reply.Failure? ==> r == Failure(Remote(reply.error))
  {
    var token := GetAccessToken(store);
    if !Truthy(token) {
      return None, Failure(NoAccessTokenFound);
    }
    sent := Some(UpdateUserAttributesCommand([AttributeType("given_name", Some(givenName)),
                                              AttributeType("family_name", Some(familyName))],
                                             token.value));
    r := Passed(reply);
  }

  // ---------------------------------------------------------------- attribute lookup

  /** `i` is the position of the first attribute called `name`. */
  ghost predicate IsFirst(attrs: seq<AttributeType>, name: string, i: int) {
    0 <= i < |attrs| && attrs[i].name == name && forall j :: 0 <= j < i ==> attrs[j].name != name
  }

  /** Reference meaning of "the value of the first attribute called `name`":
      absent when there is no list or no such attribute, otherwise the value
      (itself optional) at the first position carrying that name. */
  ghost predicate FirstValue(attrs: Option<seq<AttributeType>>, name: string, v: Option<string>) {
    match attrs
    case None => v.None?
    case Some(a) =>
      && ((forall i :: 0 <= i < |a| ==> a[i].name != name) ==> v.None?)
      && (forall i :: IsFirst(a, name, i) ==> v == a[i].value)
  }

  /** Array `find` over the attribute list: the first attribute called `name`. */
  function Find(attrs: seq<AttributeType>, name: string): (r: Option<AttributeType>)
    ensures r.None? <==> forall i :: 0 <= i < |attrs| ==> attrs[i].name != name
    ensures r.Some? ==> r.value in attrs && r.value.name == name
  {
    if |attrs| == 0 then None
    else if attrs[0].name == name then Some(attrs[0])
    else Find(attrs[1..], name)
  }

  /** `Find` returns the attribute at the first position carrying the name. */
  lemma {:induction false} FindIsFirst(attrs: seq<AttributeType>, name: string, i: int)
    requires IsFirst(attrs, name, i)
    ensures Find(attrs, name) == Some(attrs[i])
  {
    if attrs[0].name != name {
      assert IsFirst(attrs[1..], name, i - 1);
      FindIsFirst(attrs[1..], name, i - 1);
    }
  }

  /** Whenever some attribute carries the name, a first one does. */
  lemma {:induction false} FirstMatchExists(attrs: seq<AttributeType>, name: string, k: int)
    requires 0 <= k < |attrs| && attrs[k].name == name
    ensures exists i :: IsFirst(attrs, name, i)
    decreases k
  {
    if forall j :: 0 <= j < k ==> attrs[j].name != name {
      assert IsFirst(attrs, name, k);
    } else {
      var j :| 0 <= j < k && attrs[j].name == name;
      FirstMatchExists(attrs, name, j);
    }
  }

  /** The reference meaning determines the value: at most one `v` satisfies it. */
  lemma FirstValueUnique(attrs: Option<seq<AttributeType>>, name: string, v: Option<string>, w: Option<string>)
    requires FirstValue(attrs, name, v) && FirstValue(attrs, name, w)
    ensures v == w
  {
    if attrs.Some? && exists k :: 0 <= k < |attrs.value| && attrs.value[k].name == name {
      var k :| 0 <= k < |attrs.value| && attrs.value[k].name == name;
      FirstMatchExists(attrs.value, name, k);
    }
  }

  /** A later attribute never shadows an earlier one of the same name. */
  lemma {:induction false} FindAppend(a: seq<AttributeType>, b: seq<AttributeType>, name: string)
    ensures Find(a + b, name) == if Find(a, name).Some? then Find(a, name) else Find(b, name)
  {
    if |a| == 0 {
      assert a + b == b;
    } else {
      assert (a + b)[0] == a[0];
      assert (a + b)[1..] == a[1..] + b;
      FindAppend(a[1..], b, name);
    }
  }

  /** The optional-chained lookup: value of the first attribute called `name`. */
  function AttributeValue(attrs: Option<seq<AttributeType>>, name: string): (v: Option<string>)
    ensures FirstValue(attrs, name, v)
  {
    match attrs
    case None => None
    case Some(a) =>
      var found := Find(a, name);
      assert forall i :: IsFirst(a, name, i) ==> found == Some(a[i]) by {
        forall i | IsFirst(a, name, i) {
          FindIsFirst(a, name, i);
        }
      }
      if found.Some? then found.value.value else None
  }

  /** Maps the provider's flat attribute list to the structured profile. Every
      field is the first match for its key, and the email counts as verified
      only when the first "email_verified" attribute is exactly "true". */
  function ToUserAttributes(out: GetUserOutput): (r: UserAttributes)
    ensures r.username == out.username
    ensures FirstValue(out.userAttributes, "sub", r.userId)
    ensures FirstValue(out.userAttributes, "phone_number", r.phoneNumber)
    ensures FirstValue(out.userAttributes, "email", r.email)
    ensures FirstValue(out.userAttributes, "given_name", r.givenName)
    ensures FirstValue(out.userAttributes, "family_name", r.familyName)
    ensures r.emailVerified <==> FirstValue(out.userAttributes, "email_verified", Some("true"))
  {
    var verified := AttributeValue(out.userAttributes, "email_verified");
    assert FirstValue(out.userAttributes, "email_verified", Some("true")) ==> verified == Some("true") by {
      if FirstValue(out.userAttributes, "email_verified", Some("true")) {
        FirstValueUnique(out.userAttributes, "email_verified", verified, Some("true"));
      }
    }
    UserAttributes(
      out.username,
      AttributeValue(out.userAttributes, "sub"),
      AttributeValue(out.userAttributes, "phone_number"),
      AttributeValue(out.userAttributes, "email"),
      verified == Some("true"),
      AttributeValue(out.userAttributes, "given_name"),
      AttributeValue(out.userAttributes, "family_name"))
  }

  /** Fetches the signed-in user's profile. Without a stored token nothing is
      sent; the store is only read. */
  method GetUserAttributes(store: AccessTokenStore, reply: Reply<GetUserOutput>)
    returns (sent: Option<Request>, r: Result<UserAttributes, Error>)
    ensures sent.None? <==> !Truthy(store.token)
    ensures sent.None? ==> r == Failure(NoAccessTokenFound)
    ensures sent.Some? ==> sent.value == GetUserCommand(store.token.value)
    ensures sent.Some? && reply.Failure? ==> r == Failure(Remote(reply.error))
    ensures sent.Some? && reply.Success? ==> r == Success(ToUserAttributes(reply.value))
  {
    var token := GetAccessToken(store);
    if !Truthy(token) {
      return None, Failure(NoAccessTokenFound);
    }
    sent := Some(GetUserCommand(token.value));
    match reply
    case Failure(e) =>
      r := Failure(Remote(e));
    case Success(out) =>
      r := Success(ToUserAttributes(out));
  }
}
