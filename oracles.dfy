/** The collaborators the route handlers call but do not implement: the
    bcrypt/jsonwebtoken/jwt-decode wrappers of the auth middleware, zod's
    checks, and the SimpleWebAuthn library. Each is an uninterpreted
    function; nothing is assumed about it beyond its type. */
module Oracles {
  import opened Wrappers
  import opened Errors
  import opened Accounts
  import opened WebAuthn

  /** The claims `decodeGoogleToken` reads out of a Google ID token. They
      are decoded, not verified, so they are whatever the caller sent. */
  datatype GoogleClaims = GoogleClaims(email: string, name: string)

  /** The object passed to `generateToken`: the selected `{id, name, email}`
      or a whole stored record. */
  datatype TokenPayload = Claims(id: nat, name: string, email: string) | Record(account: Account)

  /** A request body as the validation middleware hands it to zod, tagged
      with the schema it is checked against. */
  datatype SchemaInput =
    | UserSchemaInput(name: string, email: string, password: string)
    | LoginSchemaInput(email: string, password: string)

  datatype Oracles = Oracles(
    /** zod's `.email()` format check. */
    isEmail: string -> bool,
    /** `fromZodError(e).message`: the readable message, naming the failed
        fields and constraints, that the validation middleware puts in its
        400 error for a body its schema refuses. */
    validationMessage: SchemaInput -> string,
    /** `hashPassword`: bcrypt with a salt drawn per call (the nat). */
    hashPassword: (string, nat) -> string,
    /** `comparePasswords(plainText, hashed)`. */
    comparePasswords: (string, string) -> bool,
    /** `generateToken`: a signed token for the payload. */
    generateToken: TokenPayload -> string,
    /** `decodeGoogleToken`: the claims, or the error jwt-decode throws. */
    decodeGoogleToken: string -> Result<GoogleClaims, Error>,
    /** `generateRegistrationOptions`, with the randomness it draws (the nat). */
    generateRegistrationOptions: (RegistrationOptionsOpts, nat) -> CreationOptions,
    /** `verifyRegistrationResponse`: the verdict, or the `toString()` of
        the error it throws. */
    verifyRegistrationResponse: VerifyOpts -> Result<Verification, string>,
    /** `expectedOrigin` and `rpID`, which the route reads from its environment. */
    expectedOrigin: string,
    expectedRPID: string)
}
