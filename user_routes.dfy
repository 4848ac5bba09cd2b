/** The route handlers of src/routes/userRoutes.ts as transitions of the
    account store: each takes the store and the request and gives the
    response sent and the store afterwards. A thrown error becomes the
    response errorHandler sends for it. */
module UserRoutes {
  import opened Wrappers
  import opened Errors
  import opened Accounts
  import opened WebAuthn
  import opened Oracles

  // Request bodies, after JSON parsing.
  datatype RegisterBody = RegisterBody(name: string, email: string, password: string)
  datatype LoginBody = LoginBody(email: string, password: string)

  /** The `user` object of a session response. */
  datatype UserView = UserView(name: string, email: string)

  /** Response bodies: errorHandler's `{message}`, a session `{token, user}`,
      the generated registration options, `{ok: true}`, and the `{error}`
      of a failed verification. */
  datatype Body =
    | Message(message: string)
    | Session(token: string, user: UserView)
    | Options(options: CreationOptions)
    | Ok
    | VerifyFailed(error: string)

  /** A response: status (None when `res.status` got `undefined`) and body. */
  datatype Reply = Reply(status: Option<int>, body: Body)

  /** One handled request: the response and the store afterwards. */
  datatype Step = Step(reply: Reply, store: StoreState)

  const UserExists := "User already exists"
  const UserMissing := "User does not exist"
  const InvalidCredentials := "Invalid credentials"
  const GooglePassword := "google"

  // Fixed fields of the registration options.
  const RpName := "Coffee Masters"
  const RpID := "localhost"
  const RegistrationTimeout := 60000
  const Required := "required"

  /** What JavaScript throws when a handler dereferences the `undefined`
      that the lookup returns for an unknown email. */
  const UnknownUserError := Error("TypeError", "Cannot read properties of undefined", None)

  /** The response errorHandler sends for a thrown error. */
  function Thrown(err: Error): (r: Reply)
    ensures r.body.Message?
    ensures err.name == CustomErrorName ==> r == Reply(err.statusCode, Message(err.message))
    ensures err.name != CustomErrorName ==> r == Reply(Some(InternalStatus), Message(GenericMessage))
  {
    var h := ErrorHandler(err);
    Reply(h.status, Message(h.message))
  }

  /** The reply for a body its schema refuses: the validation middleware
      throws a CustomAPIError with zod's message and status 400. */
  function ValidationFailure(o: Oracles, input: SchemaInput): (r: Reply)
    ensures r.status == Some(400) && r.body == Message(o.validationMessage(input))
  {
    Thrown(CustomAPIError(o.validationMessage(input), Some(400)))
  }

  /** A session response for the given token payload and profile. */
  function SessionReply(o: Oracles, status: int, payload: TokenPayload, name: string, email: string): Reply {
    Reply(Some(status), Session(o.generateToken(payload), UserView(name, email)))
  }

  // ---------------------------------------------------------------------
  // Request schemas (userSchema, loginSchema)

  predicate NameInBounds(name: string) { 3 <= |name| <= 255 }
  predicate PasswordInBounds(password: string) { 6 <= |password| <= 255 }

  /** `userSchema`: name 3..255, a well-formed email, password 6..255. */
  function UserSchemaBody(b: RegisterBody): SchemaInput {
    UserSchemaInput(b.name, b.email, b.password)
  }

  function LoginSchemaBody(b: LoginBody): SchemaInput {
    LoginSchemaInput(b.email, b.password)
  }

  predicate UserSchemaAccepts(o: Oracles, b: RegisterBody) {
    NameInBounds(b.name) && o.isEmail(b.email) && PasswordInBounds(b.password)
  }

  /** `loginSchema`: a well-formed email, password 6..255. */
  predicate LoginSchemaAccepts(o: Oracles, b: LoginBody) {
    o.isEmail(b.email) && PasswordInBounds(b.password)
  }

  // ---------------------------------------------------------------------
  // POST /register

  function Register(o: Oracles, s: StoreState, b: RegisterBody, salt: nat): (r: Step)
    ensures !UserSchemaAccepts(o, b) ==> r.store == s && r.reply == Reply(Some(400), Message(o.validationMessage(UserSchemaBody(b))))
    ensures UserSchemaAccepts(o, b) && b.email in s.accounts ==>
      r.store == s && r.reply == Reply(Some(400), Message(UserExists))
    ensures UserSchemaAccepts(o, b) && b.email !in s.accounts ==>
      r.store.accounts.Keys == s.accounts.Keys + {b.email} &&
      (forall e | e in s.accounts :: r.store.accounts[e] == s.accounts[e]) &&
      var user := r.store.accounts[b.email];
      user.name == b.name && user.email == b.email &&
      user.password == o.hashPassword(b.password, salt) &&
      r.reply == SessionReply(o, 200, Claims(user.id, b.name, b.email), b.name, b.email)
    ensures Consistent(s) ==> Consistent(r.store)
  {
    if !UserSchemaAccepts(o, b) then
      Step(ValidationFailure(o, UserSchemaBody(b)), s)
    else if b.email in s.accounts then
      Step(Thrown(CustomAPIError(UserExists, Some(400))), s)
    else
      var s' := Create(s, b.email, b.name, o.hashPassword(b.password, salt));
      var user := s'.accounts[b.email];
      Step(SessionReply(o, 200, Claims(user.id, user.name, user.email), user.name, user.email), s')
  }

  // ---------------------------------------------------------------------
  // POST /login

  function Login(o: Oracles, s: StoreState, b: LoginBody): (r: Step)
    ensures r.store == s
    ensures !LoginSchemaAccepts(o, b) ==> r.reply == Reply(Some(400), Message(o.validationMessage(LoginSchemaBody(b))))
    ensures LoginSchemaAccepts(o, b) && b.email !in s.accounts ==> r.reply == Reply(Some(400), Message(UserMissing))
    ensures LoginSchemaAccepts(o, b) && b.email in s.accounts ==>
      var user := s.accounts[b.email];
      if o.comparePasswords(b.password, user.password) then
        r.reply == SessionReply(o, 201, Record(user), user.name, user.email)
      else
        r.reply == Reply(Some(400), Message(InvalidCredentials))
  {
    if !LoginSchemaAccepts(o, b) then
      Step(ValidationFailure(o, LoginSchemaBody(b)), s)
    else if b.email !in s.accounts then
      Step(Thrown(CustomAPIError(UserMissing, Some(400))), s)
    else
      var user := s.accounts[b.email];
      if !o.comparePasswords(b.password, user.password) then
        Step(Thrown(CustomAPIError(InvalidCredentials, Some(400))), s)
      else
        Step(SessionReply(o, 201, Record(user), user.name, user.email), s)
  }

  // ---------------------------------------------------------------------
  // POST /google

  function Google(o: Oracles, s: StoreState, token: string): (r: Step)
    ensures o.decodeGoogleToken(token).Failure? ==>
      r.store == s && r.reply == Thrown(o.decodeGoogleToken(token).error)
    ensures o.decodeGoogleToken(token).Success? && o.decodeGoogleToken(token).value.email in s.accounts ==>
      var user := s.accounts[o.decodeGoogleToken(token).value.email];
      r.store == s &&
      r.reply == SessionReply(o, 200, Claims(user.id, user.name, user.email), user.name, user.email)
    ensures o.decodeGoogleToken(token).Success? && o.decodeGoogleToken(token).value.email !in s.accounts ==>
      var claims := o.decodeGoogleToken(token).value;
      r.store.accounts.Keys == s.accounts.Keys + {claims.email} &&
      (forall e | e in s.accounts :: r.store.accounts[e] == s.accounts[e]) &&
      var user := r.store.accounts[claims.email];
      user.name == claims.name && user.password == GooglePassword &&
      r.reply == SessionReply(o, 200, Claims(user.id, claims.name, claims.email), claims.name, claims.email)
    ensures Consistent(s) ==> Consistent(r.store)
  {
    match o.decodeGoogleToken(token)
    case Failure(err) => Step(Thrown(err), s)
    case Success(claims) =>
      if claims.email in s.accounts then
        var user := s.accounts[claims.email];
        Step(SessionReply(o, 200, Claims(user.id, user.name, user.email), user.name, user.email), s)
      else
        var s' := Create(s, claims.email, claims.name, GooglePassword);
        var user := s'.accounts[claims.email];
        Step(SessionReply(o, 200, Claims(user.id, user.name, user.email), user.name, user.email), s')
  }

  // ---------------------------------------------------------------------
  // POST /auth/webauth-registration-options

  /** The `excludeCredentials` entry for one registered device. */
  function Describe(d: Device): CredentialDescriptor {
    CredentialDescriptor(d.credentialID, "public-key", d.transports)
  }

  /** `devices.map(dev => ({id, type, transports}))`. */
  function Descriptors(devices: seq<Device>): (r: seq<CredentialDescriptor>)
    ensures |r| == |devices|
    ensures forall i | 0 <= i < |devices| ::
      r[i].id == devices[i].credentialID && r[i].credentialType == "public-key" &&
      r[i].transports == devices[i].transports
  {
    if devices == [] then [] else [Describe(devices[0])] + Descriptors(devices[1..])
  }

  /** The options object the route hands to `generateRegistrationOptions`. */
  function RegistrationOptionsFor(user: Account): (opts: RegistrationOptionsOpts)
    ensures opts.rpName == RpName && opts.rpID == RpID && opts.timeout == RegistrationTimeout
    ensures opts.userID == user.email && opts.userName == user.name
    ensures opts.attestationType == "none"
    ensures opts.authenticatorSelection == AuthenticatorSelection(Required, Required)
    ensures opts.supportedAlgorithmIDs == [ES256, RS256]
    ensures user.devices.None? ==> opts.excludeCredentials == []
    ensures |opts.excludeCredentials| == |DeviceList(user.devices)|
    ensures forall i | 0 <= i < |opts.excludeCredentials| ::
      opts.excludeCredentials[i] == Describe(DeviceList(user.devices)[i])
  {
    RegistrationOptionsOpts(
      RpName, RpID, user.email, user.name, RegistrationTimeout, "none",
      match user.devices
        case Some(ds) => Descriptors(ds)
        case None => [],
      AuthenticatorSelection(Required, Required),
      [ES256, RS256])
  }

  /** Generates options for the user and stores their challenge as the
      user's `currentChallenge`, replacing any earlier one. */
  function RegistrationOptions(o: Oracles, s: StoreState, email: string, random: nat): (r: Step)
    ensures email !in s.accounts ==> r.store == s && r.reply == Reply(Some(InternalStatus), Message(GenericMessage))
    ensures email in s.accounts ==>
      var user := s.accounts[email];
      var created := o.generateRegistrationOptions(RegistrationOptionsFor(user), random);
      r.reply == Reply(Some(200), Options(created)) &&
      r.store == s.(accounts := s.accounts[email := user.(currentChallenge := Some(created.challenge))])
    ensures Consistent(s) ==> Consistent(r.store)
  {
    if email !in s.accounts then
      Step(Thrown(UnknownUserError), s)
    else
      var user := s.accounts[email];
      var created := o.generateRegistrationOptions(RegistrationOptionsFor(user), random);
      var user' := user.(currentChallenge := Some(created.challenge));
      Step(Reply(Some(200), Options(created)), s.(accounts := s.accounts[email := user']))
  }

  // ---------------------------------------------------------------------
  // POST /auth/webauth-registration-verification

  /** The template literal `${expectedChallenge}`: the challenge, or the
      text "undefined" when the user has none. */
  function ChallengeText(c: Option<string>): string {
    match c
    case Some(v) => v
    case None => "undefined"
  }

  /** The options the route hands to `verifyRegistrationResponse`. */
  function VerifyOptsFor(o: Oracles, user: Account, data: RegistrationResponse): (opts: VerifyOpts)
    ensures opts.credential == data
    ensures opts.expectedChallenge
         == if user.currentChallenge.Some? then user.currentChallenge.value else "undefined"
    ensures opts.expectedOrigin == o.expectedOrigin && opts.expectedRPID == o.expectedRPID
    ensures opts.requireUserVerification
  {
    VerifyOpts(data, ChallengeText(user.currentChallenge), o.expectedOrigin, o.expectedRPID, true)
  }

  /** `devices.find(device => device.credentialID equals id)`. */
  function FindDevice(devices: seq<Device>, id: Bytes): (r: Option<Device>)
    ensures r.None? <==> forall i | 0 <= i < |devices| :: devices[i].credentialID != id
    ensures r.Some? ==> exists i | 0 <= i < |devices| ::
      devices[i] == r.value && devices[i].credentialID == id &&
      forall j | 0 <= j < i :: devices[j].credentialID != id
  {
    if devices == [] then None
    else if devices[0].credentialID == id then Some(devices[0])
    else
      var r := FindDevice(devices[1..], id);
      assert forall i | 1 <= i < |devices| :: devices[i] == devices[1..][i - 1];
      r
  }

  /** The device a verified registration adds. */
  function NewDevice(info: RegistrationInfo, data: RegistrationResponse): Device {
    Device(info.credentialPublicKey, info.credentialID, info.counter, data.transports)
  }

  /** Whether a verdict adds a device to `user`: verified, with registration
      info, and a credential id none of the user's devices has. */
  predicate Enrols(user: Account, v: Verification) {
    v.verified && v.registrationInfo.Some? &&
    FindDevice(DeviceList(user.devices), v.registrationInfo.value.credentialID).None?
  }

  function RegistrationVerification(o: Oracles, s: StoreState, email: string, data: RegistrationResponse): (r: Step)
    ensures r.store.nextId == s.nextId && r.store.accounts.Keys == s.accounts.Keys
    ensures email !in s.accounts ==> r.store == s && r.reply == Reply(Some(InternalStatus), Message(GenericMessage))
    ensures email in s.accounts ==>
      var user := s.accounts[email];
      match o.verifyRegistrationResponse(VerifyOptsFor(o, user, data))
      case Failure(text) => r.store == s && r.reply == Reply(Some(400), VerifyFailed(text))
      case Success(v) =>
        r.reply == Reply(Some(200), Ok) &&
        if Enrols(user, v) then
          r.store.accounts == s.accounts[email := user.(
            webauthn := true,
            devices := Some(DeviceList(user.devices) + [NewDevice(v.registrationInfo.value, data)]))]
        else
          r.store == s
    ensures Consistent(s) ==> Consistent(r.store)
  {
    if email !in s.accounts then
      Step(Thrown(UnknownUserError), s)
    else
      var user := s.accounts[email];
      match o.verifyRegistrationResponse(VerifyOptsFor(o, user, data))
      case Failure(text) => Step(Reply(Some(400), VerifyFailed(text)), s)
      case Success(v) =>
        if v.verified && v.registrationInfo.Some? then
          var info := v.registrationInfo.value;
          var existing := match user.devices
            case Some(ds) => FindDevice(ds, info.credentialID)
            case None => None;
          if existing.None? then
            var devices := match user.devices
              case Some(ds) => ds
              case None => [];
            var user' := user.(webauthn := true, devices := Some(devices + [NewDevice(info, data)]));
            Step(Reply(Some(200), Ok), s.(accounts := s.accounts[email := user']))
          else
            Step(Reply(Some(200), Ok), s)
        else
          Step(Reply(Some(200), Ok), s)
  }
}
