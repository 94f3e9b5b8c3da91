/** The identity provider's requests and responses, reduced to the fields the
    client builds or reads. Every response field is optional, as in the
    provider's SDK. */
module Provider {
  import opened Wrappers

  /** One entry of a user's attribute list: a name and an optional value. */
  datatype AttributeType = AttributeType(name: string, value: Option<string>)

  /** The only authentication flow the client starts: the custom challenge flow. */
  datatype AuthFlowType = CustomAuth

  /** The only challenge the client answers: the custom challenge. */
  datatype ChallengeNameType = CustomChallenge

  /** A request handed to the transport. The client id on the three sign-in
      requests, and the region the client is built with, are configuration and
      not modelled. */
  datatype Request =
    | SignUpCommand(username: string, password: string, userAttributes: seq<AttributeType>)
    | InitiateAuthCommand(authFlow: AuthFlowType, authParameters: map<string, string>)
    | RespondToAuthChallengeCommand(challengeName: ChallengeNameType, session: string,
                                    challengeResponses: map<string, string>)
    | GetUserCommand(accessToken: string)
    | UpdateUserAttributesCommand(userAttributes: seq<AttributeType>, accessToken: string)

  /** Answer to InitiateAuthCommand: the challenge session handle and the
      challenge parameters the provider attached to it. */
  datatype InitiateAuthOutput =
    InitiateAuthOutput(session: Option<string>, challengeParameters: Option<map<string, string>>)

  datatype AuthenticationResult = AuthenticationResult(accessToken: Option<string>)

  /** Answer to RespondToAuthChallengeCommand. */
  datatype RespondToAuthChallengeOutput =
    RespondToAuthChallengeOutput(authenticationResult: Option<AuthenticationResult>)

  /** Answer to GetUserCommand: the user name and the flat attribute list. */
  datatype GetUserOutput =
    GetUserOutput(username: Option<string>, userAttributes: Option<seq<AttributeType>>)

  /** A rejection or transport failure raised by the send (an existing user name,
      an expired session, a refused token, a network fault), named by the provider. */
  datatype ProviderError = ProviderError(name: string)

  /** What one send yields: the provider's output, or the error it raises. */
  type Reply<T> = Result<T, ProviderError>
}
