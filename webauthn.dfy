/** The values exchanged with the SimpleWebAuthn server library: the options
    the registration-options route passes to `generateRegistrationOptions`,
    and the inputs and outputs of `verifyRegistrationResponse`
    (section 5.4 of W3C Web Authentication Level 2 for the options). */
module WebAuthn {
  import opened Wrappers
  import opened Accounts

  /** COSE algorithm identifiers: ES256 (section 8.1 of RFC 8152) and
      RS256 (section 2 of RFC 8812). */
  const ES256 := -7
  const RS256 := -257

  /** A PublicKeyCredentialDescriptor in `excludeCredentials`. */
  datatype CredentialDescriptor = CredentialDescriptor(id: Bytes, credentialType: string, transports: Transports)

  datatype AuthenticatorSelection = AuthenticatorSelection(userVerification: string, residentKey: string)

  /** GenerateRegistrationOptionsOpts as the route fills it in. */
  datatype RegistrationOptionsOpts = RegistrationOptionsOpts(
    rpName: string,
    rpID: string,
    userID: string,
    userName: string,
    timeout: nat,
    attestationType: string,
    excludeCredentials: seq<CredentialDescriptor>,
    authenticatorSelection: AuthenticatorSelection,
    supportedAlgorithmIDs: seq<int>)

  /** What `generateRegistrationOptions` returns: the challenge it drew and
      the rest of the creation options, kept opaque. */
  datatype CreationOptions = CreationOptions(challenge: string, rest: string)

  /** The client's registration response (`req.body.data`): the credential
      itself, opaque here, and its `transports`. */
  datatype RegistrationResponse = RegistrationResponse(credential: string, transports: Transports)

  /** The options the verification route passes to `verifyRegistrationResponse`. */
  datatype VerifyOpts = VerifyOpts(
    credential: RegistrationResponse,
    expectedChallenge: string,
    expectedOrigin: string,
    expectedRPID: string,
    requireUserVerification: bool)

  datatype RegistrationInfo = RegistrationInfo(credentialPublicKey: Bytes, credentialID: Bytes, counter: nat)

  /** The library's verdict: `{verified, registrationInfo}`. */
  datatype Verification = Verification(verified: bool, registrationInfo: Option<RegistrationInfo>)
}
