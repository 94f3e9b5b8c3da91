# Passwordless Cognito client, modelled in Dafny

The model covers the client in `src/cognito.ts`. That client logs a user in
without a password, through a custom challenge flow on an identity provider
(Amazon Cognito):

- `signUp` registers a user name with a phone number.
- `initiateAuth` starts a challenge. It returns the provider's session handle,
  the delivery token and an "already enrolled" flag.
- `respondToAuthChallenge` answers the challenge. When an access token comes
  back, it stores the token under the storage key `@access_token`.
- `getAccessToken` and `clearAccessToken` read and remove that key.
- `updateEmail`, `updateNames` and `getUserAttributes` read the stored token
  first. They send nothing when no token is stored.

The remote send is abstracted. Each operation returns the `Request` it issues,
and takes the provider's answer as a parameter `reply`. That answer is the
provider's output or the error the send raises. The token-gated operations
return `sent: Option<Request>`, so "no request issued" is `sent == None`.

The storage is a class `CredentialStore.AccessTokenStore` with one field,
`token`, for the one key. Only `RespondToAuthChallenge` and `ClearAccessToken`
name it in a `modifies` clause. Every other operation at most reads it, so
Dafny's framing already proves those operations leave it unchanged.

JavaScript truthiness is kept as `Cognito.Truthy`. An absent string and `""`
are both "missing": for the session handle, for the returned access token and
for the stored token.

Files:

- `wrappers.dfy`: `Option` and `Result`.
- `provider.dfy`: the shapes of the provider's requests and responses.
- `credential_store.dfy`: the store class.
- `cognito.dfy`: the operations and the attribute lookup.
- `scenarios.dfy`: callers proved from the contracts alone. They cover an
  answer followed by a read of the stored token, for all inputs; a full login
  followed by a profile read; a failed answer that keeps the earlier session;
  and signing out twice.

How the code reports errors:

- The code raises no typed errors. It throws three plain errors of its own
  (src/cognito.ts:55, 87, and 107/127/161). The model names them
  `CouldNotStartCustomAuth`, `NoAccessTokenReturned` and `NoAccessTokenFound`.
  Every error raised by the provider's send, a duplicate registration among
  them, is passed on unchanged as `Remote(cause)`.
- The `isEnrolled` flag from the challenge start (src/cognito.ts:61) is only
  returned to the caller. `respondToAuthChallenge` takes no such flag and does
  not check it, and neither does the model.

## Model

| member | source | states |
|---|---|---|
| Cognito.SignUp | src/cognito.ts:21-35 | sends the given user name and exactly one attribute, `phone_number` set to the given number; the password is some random text with `X` appended; the outcome is success exactly when the send succeeds, otherwise the provider's error unchanged |
| Cognito.ChallengeStart | src/cognito.ts:54-62 | fails (could not start custom auth) exactly when the session handle is absent or empty; otherwise the returned session equals the provider's non-empty handle, `isEnrolled` holds exactly when the `isEnrolled` parameter is the string `"true"`, and `token` is present exactly when the parameters carry `token`, with its value |
| Cognito.InitiateAuth | src/cognito.ts:43-63 | sends a custom-auth start carrying only `USERNAME`; a send error is passed on unchanged, otherwise the result is the shaped start response above |
| Cognito.IssuedAccessToken | src/cognito.ts:84-88 | succeeds exactly when the authentication result carries a non-empty access token, and returns that token; otherwise fails with "no access token returned" |
| Cognito.RespondToAuthChallenge | src/cognito.ts:71-91 | sends a custom-challenge answer with the session, `USERNAME` and `ANSWER`; succeeds exactly when a non-empty token came back, and only then stores it (the stored token is the returned one); on every failure the store is unchanged |
| Cognito.GetAccessToken | src/cognito.ts:93-97 | returns the stored token, or none, without any remote call |
| Cognito.ClearAccessToken | src/cognito.ts:99-101 | afterwards no token is stored, whatever was stored before (so clearing twice equals clearing once) |
| Cognito.UpdateEmail | src/cognito.ts:103-121 | no request is sent exactly when the stored token is absent or empty, and then it fails with "no access token found"; otherwise it sends exactly one attribute, `email`, with the stored token; the store is never modified |
| Cognito.UpdateNames | src/cognito.ts:123-145 | no request is sent exactly when the stored token is absent or empty, and then it fails with "no access token found"; otherwise it sends exactly `given_name` then `family_name` with the arguments and the stored token; the store is never modified |
| Cognito.Find | src/cognito.ts:172 | the array `find`: none exactly when no attribute has the name; otherwise an attribute of the list with that name |
| Cognito.FindIsFirst | src/cognito.ts:172 | `find` returns the attribute at the first position with the name (first match wins) |
| Cognito.FindAppend | src/cognito.ts:172 | attributes after a match never shadow it: on a concatenated list the first part's match wins, and the second part is searched only when the first has none |
| Cognito.FirstValueUnique | src/cognito.ts:172-177 | the first-match reference meaning determines a single value for each name |
| Cognito.AttributeValue | src/cognito.ts:172-177 | the optional-chained lookup is absent when there is no list or no attribute with the name, and otherwise is the value of the first attribute with that name |
| Cognito.ToUserAttributes | src/cognito.ts:170-187 | `username` is the provider's user name; `userId`, `phoneNumber`, `email`, `givenName` and `familyName` are the first-match values of `sub`, `phone_number`, `email`, `given_name` and `family_name`; `emailVerified` holds exactly when the first `email_verified` attribute's value is `"true"`, so a missing list or attribute gives false |
| Cognito.GetUserAttributes | src/cognito.ts:157-188 | no request is sent exactly when the stored token is absent or empty, and then it fails with "no access token found"; otherwise it sends a profile request with the stored token, and maps the reply into the structured profile, or passes the provider's error on; the store is never modified |
| Scenarios.RespondThenRead | src/cognito.ts:90-96 | for any earlier store, arguments and answer: the answer succeeds exactly when a non-empty token came back, and the token read right after it is that token; after a failed answer the read gives the earlier stored value |

## Left out

- The SDK client, its command objects and the network send are not modelled. Each send is replaced by its answer, the parameter `reply`.
- The client id on the three sign-in requests (sign-up, initiate-auth, respond-to-challenge) and the region the client is built with are not modelled. They are external constants.
- The placeholder password is not generated. It is random and converted from a floating-point number. The model takes its random digits as the parameter `noise`.
- Durability across restarts is not modelled; the store is one in-memory field. The constructor takes whatever an earlier run left under the key.
- The async interleaving of concurrent calls is not modelled.
- A failing storage write or read is not modelled: the model's store writes always succeed.
- The provider-side effects of registration and attribute updates are not modelled. This includes user creation, conflicts and unverified emails. Only the requests and the error propagation are.
- `index.js` (application bootstrap) and `src/Loading.tsx` (a spinner component) hold no logic and are not part of this model.
