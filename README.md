# Account and authenticator-device routes, modelled in Dafny

This project models the server side of a small authentication service: the
Express route handlers of `src/routes/userRoutes.ts` and the error class and
error handler of `src/errors.ts`. The handlers form a state machine over an
account store keyed by email. Each account has an id, a name, a password
field, an optional current WebAuthn challenge, a `webauthn` flag and an
optional list of registered authenticator devices.

- `POST /register` validates the body, refuses an email already in the store,
  and otherwise creates an account whose password field holds the bcrypt hash.
- `POST /login` validates the body, looks the account up and compares the
  password. It answers 201 with a token signed over the whole stored record.
- `POST /google` decodes a Google ID token and finds or creates the account
  for its email. A created account gets the literal password `"google"`.
- `POST /auth/webauth-registration-options` builds the options for a WebAuthn
  registration (section 5.4 of W3C Web Authentication Level 2). It stores the
  generated challenge as the user's `currentChallenge`, replacing any earlier
  one. Its `excludeCredentials` lists the user's devices in order.
- `POST /auth/webauth-registration-verification` passes the response and the
  stored challenge to the verification library. It appends a device and turns
  `webauthn` on only when the response is verified, carries registration info,
  and has a credential id that no device of that user has.
- `errorHandler` turns an error named `CustomAPIError` into its own status and
  `{message}`, and every other error into 500 "something went wrong".

Files, one module each:

- `wrappers.dfy`: `Option`, `Result`.
- `errors.dfy`: `CustomAPIError`, `ErrorHandler` and their lemmas.
- `accounts.dfy`: accounts, devices, the store value, its integrity
  constraints, and record creation.
- `webauthn.dfy`: the values exchanged with the SimpleWebAuthn library.
- `oracles.dfy`: the collaborators the handlers call. These are hashing,
  comparison, token signing, Google token decoding, zod's email check and
  the two SimpleWebAuthn calls. All are uninterpreted functions.
- `user_routes.dfy`: each handler as a pure transition
  `(store, request) -> Step(reply, store')`.
- `route_properties.dfy`: lemmas that relate several requests.
- `account_store.dfy`: class `AccountStore`. It holds the account table as
  a mutable field. Each handler is a method that updates the table step by
  step, proved equal to its transition.

A thrown error becomes the reply `errorHandler` would send for it. That is
how `express-async-errors` routes it. Randomness is a per-call parameter: the
bcrypt salt, and the challenge drawn by `generateRegistrationOptions`.

Some behaviour of the handlers worth knowing:

- Login tells "User does not exist" apart from "Invalid credentials". Both
  are status 400.
- Google sign-in links accounts by the decoded email alone. The token's
  signature is not checked and `email_verified` is not consulted.
- The registration challenge is never consumed, and it never expires.
- Duplicate credential ids are checked per user, not across accounts.
- Sign counts are stored and never compared.

So the same registration response can be submitted again, and it adds
nothing (`ResubmissionAddsNothing`). On a user record reloaded from its
stored JSON form the reply is `{ok: true}`. On a record whose devices are
still the in-memory objects the duplicate lookup throws and the reply is
500 (see `UserRoutes.FindDevice` under "## Left out"); the store is
unchanged either way.

## Model

| member | source | states |
|---|---|---|
| Errors.CustomAPIError | src/errors.ts:14-19 | the error is named "CustomAPIError", keeps the given message, and carries the given status code or 400 when none is given |
| Errors.ErrorHandler | src/errors.ts:21-34 | an error named "CustomAPIError" yields exactly its statusCode and `{message}`; any other error yields 500 with "something went wrong" |
| Errors.CustomErrorReachesClient | src/errors.ts:15-31 | a constructed CustomAPIError reaches the client with its own message and its status code, 400 by default |
| Errors.OtherErrorsIndistinguishable | src/errors.ts:27-33 | any two errors not named "CustomAPIError" give the same response, so nothing of their message or status leaks |
| Errors.InternalStatusIff | src/errors.ts:27-33 | the response status is 500 exactly when the error is not a CustomAPIError or is one carrying 500 |
| Accounts.Create | src/routes/userRoutes.ts:36-47 | creating a record adds exactly one account under the new email with the given name and password field; no earlier account changes; the new id differs from every existing id; the store's integrity constraints are kept |
| UserRoutes.Thrown | src/errors.ts:27-33 | a handler's thrown error, handed on by express-async-errors, becomes errorHandler's reply: a CustomAPIError's own status and `{message}`, any other error 500 "something went wrong" |
| UserRoutes.ValidationFailure | src/middleware/validationMiddleware.ts:10-18 | a body its schema refuses is answered with status 400 and zod's message for that body |
| UserRoutes.Register | src/routes/userRoutes.ts:18-57 | body outside userSchema's bounds gives 400 and no change; duplicate email gives 400 "User already exists" and no change; otherwise exactly one account is added with that name and email and password hashPassword(password), and the reply is 200 with a token over `{id, name, email}` and `user = {name, email}` |
| UserRoutes.Login | src/routes/userRoutes.ts:60-86 | the store never changes; body outside loginSchema gives 400; unknown email gives 400 "User does not exist"; a failed comparison gives 400 "Invalid credentials"; otherwise 201 with a token over the stored record and its name and email |
| UserRoutes.Google | src/routes/userRoutes.ts:95-145 | a decoding error goes through errorHandler with no change; a known email creates nothing and answers with the existing id, name and email; an unknown email adds exactly one account with the decoded name and password "google" |
| UserRoutes.Descriptors | src/routes/userRoutes.ts:167-172 | the descriptors are the devices mapped in order, each to its credentialID, type "public-key" and transports |
| UserRoutes.RegistrationOptionsFor | src/routes/userRoutes.ts:150-183 | the options name the relying party "Coffee Masters" at "localhost", use the user's email and name, a 60000 ms timeout, attestation "none", required user verification and resident key, algorithms ES256 (-7) and RS256 (-257), and exclude exactly the user's devices (none when the list is absent) |
| UserRoutes.RegistrationOptions | src/routes/userRoutes.ts:147-194 | an unknown email gives 500 and no change; otherwise the user's currentChallenge becomes the generated challenge, nothing else changes, and the generated options are sent |
| UserRoutes.VerifyOptsFor | src/routes/userRoutes.ts:200-213 | the verifier gets the client's response, the stored challenge or the text "undefined" when the user has none, the configured origin and RP id, and requires user verification |
| UserRoutes.FindDevice | src/routes/userRoutes.ts:224-228 | nothing is found exactly when no device has the credential id; otherwise the result is the first device that has it |
| UserRoutes.RegistrationVerification | src/routes/userRoutes.ts:196-247 | an unknown email gives 500 and no change; a throwing verifier gives 400 `{error}` and no change; otherwise the reply is `{ok: true}`, and the user gets exactly one new device `{credentialPublicKey, credentialID, counter, transports}` with webauthn on when the verdict is verified, has registration info and a new credential id, and the store is unchanged otherwise |
| RouteProperties.RegisterTwiceRejected | src/routes/userRoutes.ts:29-34 | registering the same email again gives 400 "User already exists" and leaves the store as the first registration left it |
| RouteProperties.RegisterThenLogin | src/routes/userRoutes.ts:36-86 | after a registration, a login with the same password answers 201 with the registered name and email, given that the comparison accepts the password against its hash |
| RouteProperties.WrongPasswordAfterRegister | src/routes/userRoutes.ts:77-78 | after a registration, a well-formed password the comparison rejects gives 400 "Invalid credentials" and no change |
| RouteProperties.GoogleIdempotent | src/routes/userRoutes.ts:103-144 | a second Google sign-in with the same token creates no duplicate, leaves the store as the first left it, and answers with the same status and user and a token over the same payload |
| RouteProperties.FreshAccountExpectsUndefined | src/routes/userRoutes.ts:200-206 | an account fresh from registration or Google sign-in has no challenge, so its responses are verified against the literal text "undefined" until it requests options |
| RouteProperties.GoogleAddsAtMostOne | src/routes/userRoutes.ts:111-136 | a Google sign-in adds at most one account |
| RouteProperties.LatestChallengeWins | src/routes/userRoutes.ts:189-190 | after two option requests the stored challenge is the one drawn second |
| RouteProperties.VerifierExpectsIssuedChallenge | src/routes/userRoutes.ts:189-206 | after an option request, verification expects exactly the challenge that request handed out |
| RouteProperties.OptionsTouchOnlyChallenge | src/routes/userRoutes.ts:189-191 | an option request changes the user's currentChallenge and nothing else in the store |
| RouteProperties.FindAppended | src/routes/userRoutes.ts:224-228 | the duplicate lookup finds a credential id in a list that ends with a device carrying it |
| RouteProperties.ResubmissionAddsNothing | src/routes/userRoutes.ts:221-246 | verifying the same response a second time leaves the store as the first verification left it |
| RouteProperties.VerificationKeepsCredentialsDistinct | src/routes/userRoutes.ts:224-241 | if a user's devices have distinct credential ids before verification, they still do after it |
| RouteProperties.VerificationOnlyAppends | src/routes/userRoutes.ts:230-243 | verification keeps the user's earlier devices as a prefix, adds at most one, never turns webauthn off, and changes no other account |
| RouteProperties.DeviceAddedIff | src/routes/userRoutes.ts:221-243 | the user's device list grows by one exactly when the verdict is verified, carries registration info and a new credential id, and then webauthn is on |
| Store.AccountStore.Register | src/routes/userRoutes.ts:26-58 | the method keeps the store's integrity constraints, and its reply and new store are those of UserRoutes.Register |
| Store.AccountStore.Login | src/routes/userRoutes.ts:67-87 | the method's reply is that of UserRoutes.Login on the current store, which it does not change |
| Store.AccountStore.Google | src/routes/userRoutes.ts:95-145 | the method keeps the store's integrity constraints, and its reply and new store are those of UserRoutes.Google |
| Store.AccountStore.RegistrationOptions | src/routes/userRoutes.ts:147-194 | the method overwrites currentChallenge in place, and its reply and new store are those of UserRoutes.RegistrationOptions |
| Store.AccountStore.RegistrationVerification | src/routes/userRoutes.ts:196-247 | the method initialises the device list, sets webauthn and pushes the device in place, and its reply and new store are those of UserRoutes.RegistrationVerification |

## Left out

- Hashing, comparison and token signing (bcrypt, jsonwebtoken) are uninterpreted functions. The salt is a per-call parameter. The token's issue time and its 7-day expiry are not modelled, so a token is a function of its payload.
- `decodeGoogleToken` is an uninterpreted function returning claims or an error. Its claims are untrusted, because jwt-decode does not verify the signature. A decoded token without an `email` or `name` field is not modelled.
- zod validation is modelled only by its outcome: accept, or a 400 CustomAPIError. The readable message from zod-validation-error is an uninterpreted function of the refused body and its schema. The email format check is an abstract predicate. Request bodies are typed records, so missing or non-string fields are not modelled. Lengths are counted in Dafny characters, not UTF-16 code units.
- The validation middleware's path for a non-zod exception is not modelled; zod's `parse` throws only ZodError.
- `findUser` and `db` are undefined in the handler file. They are modelled as a lookup in the same store that Prisma writes. An unknown email leads to a TypeError when the handler dereferences the missing record, and errorHandler answers 500. `db.write()` is persistence I/O and is left out.
- `expectedOrigin` and `rpID` in the verification handler are undefined in the file. They are configuration values in `Oracles`.
- `generateRegistrationOptions` and `verifyRegistrationResponse` are uninterpreted functions. Attestation checking happens inside the library. The generated options other than the challenge are opaque. That the library may return a promise is not modelled.
- UserRoutes.FindDevice: compares credential ids as byte sequences, assuming the stored device has been reloaded from JSON, where its `credentialID` takes the `{type, data}` shape. On a device pushed in memory, `credentialID` is the library's Buffer or Uint8Array, which has no `.data`; the lookup then throws a TypeError outside the try block, and errorHandler answers 500 with the store unchanged. The model does not capture that 500.
- Prisma's field defaults are not part of this model. A new account is assumed to have no challenge, `webauthn` off and no device list. Failures of `create` (a unique-index race) and of the database are not modelled.
- The user record is modelled as a value that is replaced in the table. Aliasing of the record object is not captured.
- Nothing is modelled of single-use challenges, challenge expiry, sign-count monotonicity or credential uniqueness across accounts, because the handlers implement none of them.
- `console.log`, `asyncErrorHandler`, `src/server.ts` (Express wiring and the listener), async execution and request concurrency are left out. `decodeToken` is imported but never called by these handlers.
- The frontend (`frontend/src/...`) is not part of this model.
