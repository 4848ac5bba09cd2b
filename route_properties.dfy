/** Properties of the route handlers that relate several requests. */
module RouteProperties {
  import opened Wrappers
  import opened Accounts
  import opened WebAuthn
  import opened Oracles
  import opened UserRoutes

  /** A second registration of the same email is refused and changes nothing. */
  lemma RegisterTwiceRejected(o: Oracles, s: StoreState, b: RegisterBody, salt1: nat, salt2: nat)
    requires UserSchemaAccepts(o, b)
    ensures var s1 := Register(o, s, b, salt1).store;
      Register(o, s1, b, salt2) == Step(Reply(Some(400), Message(UserExists)), s1)
  {
  }

  /** Registering and then logging in with the same password answers 201
      with the registered profile, provided the comparison recognises the
      stored hash of that password. */
  lemma RegisterThenLogin(o: Oracles, s: StoreState, b: RegisterBody, salt: nat)
    requires UserSchemaAccepts(o, b) && b.email !in s.accounts
    requires o.comparePasswords(b.password, o.hashPassword(b.password, salt))
    ensures var s1 := Register(o, s, b, salt).store;
      var l := Login(o, s1, LoginBody(b.email, b.password));
      l.store == s1 && l.reply.status == Some(201) &&
      l.reply.body.Session? && l.reply.body.user == UserView(b.name, b.email)
  {
  }

  /** A well-formed password the comparison rejects against the stored hash
      yields "Invalid credentials", whatever the account. */
  lemma WrongPasswordAfterRegister(o: Oracles, s: StoreState, b: RegisterBody, salt: nat, other: string)
    requires UserSchemaAccepts(o, b) && b.email !in s.accounts && PasswordInBounds(other)
    requires !o.comparePasswords(other, o.hashPassword(b.password, salt))
    ensures var s1 := Register(o, s, b, salt).store;
      Login(o, s1, LoginBody(b.email, other)) == Step(Reply(Some(400), Message(InvalidCredentials)), s1)
  {
  }

  /** Google sign-in is idempotent: repeating it with the same token creates
      no second account and answers exactly as the first time. */
  lemma GoogleIdempotent(o: Oracles, s: StoreState, token: string)
    ensures var r1 := Google(o, s, token); Google(o, r1.store, token) == r1
  {
  }

  /** Google sign-in creates at most one account. */
  lemma GoogleAddsAtMostOne(o: Oracles, s: StoreState, token: string)
    ensures |Google(o, s, token).store.accounts| <= |s.accounts| + 1
  {
    var r := Google(o, s, token);
    if r.store != s {
      var email := o.decodeGoogleToken(token).value.email;
      assert r.store.accounts.Keys == s.accounts.Keys + {email};
    }
  }

  /** Only the latest registration challenge is kept: after two option
      requests the user's challenge is the one drawn second. */
  lemma LatestChallengeWins(o: Oracles, s: StoreState, email: string, random1: nat, random2: nat)
    requires email in s.accounts
    ensures var s2 := RegistrationOptions(o, RegistrationOptions(o, s, email, random1).store, email, random2).store;
      s2.accounts[email].currentChallenge
        == Some(o.generateRegistrationOptions(RegistrationOptionsFor(s.accounts[email]), random2).challenge)
  {
    var s1 := RegistrationOptions(o, s, email, random1).store;
    assert RegistrationOptionsFor(s1.accounts[email]) == RegistrationOptionsFor(s.accounts[email]);
  }

  /** The challenge the verification route expects is the one the last
      option request handed out. */
  lemma VerifierExpectsIssuedChallenge(o: Oracles, s: StoreState, email: string, random: nat, data: RegistrationResponse)
    requires email in s.accounts
    ensures var s1 := RegistrationOptions(o, s, email, random).store;
      VerifyOptsFor(o, s1.accounts[email], data).expectedChallenge
        == o.generateRegistrationOptions(RegistrationOptionsFor(s.accounts[email]), random).challenge
  {
  }

  /** An account fresh from registration or Google sign-in has no challenge,
      so until it requests options its registration responses are verified
      against the literal text "undefined". */
  lemma FreshAccountExpectsUndefined(o: Oracles, s: StoreState, b: RegisterBody, salt: nat, token: string,
                                     data: RegistrationResponse)
    ensures UserSchemaAccepts(o, b) && b.email !in s.accounts ==>
      VerifyOptsFor(o, Register(o, s, b, salt).store.accounts[b.email], data).expectedChallenge == "undefined"
    ensures o.decodeGoogleToken(token).Success? && o.decodeGoogleToken(token).value.email !in s.accounts ==>
      var email := o.decodeGoogleToken(token).value.email;
      VerifyOptsFor(o, Google(o, s, token).store.accounts[email], data).expectedChallenge == "undefined"
  {
  }

  /** Option requests change the user's challenge and nothing else. */
  lemma OptionsTouchOnlyChallenge(o: Oracles, s: StoreState, email: string, random: nat)
    requires email in s.accounts
    ensures var s1 := RegistrationOptions(o, s, email, random).store;
      s1.nextId == s.nextId && s1.accounts.Keys == s.accounts.Keys &&
      (forall e | e in s.accounts && e != email :: s1.accounts[e] == s.accounts[e]) &&
      s1.accounts[email] == s.accounts[email].(currentChallenge := s1.accounts[email].currentChallenge)
  {
  }

  /** A device's credential id is found in a list that ends with it. */
  lemma {:induction false} FindAppended(devices: seq<Device>, d: Device)
    ensures FindDevice(devices + [d], d.credentialID).Some?
  {
    var ds := devices + [d];
    assert ds[|devices|].credentialID == d.credentialID;
  }

  /** Submitting the same registration response again adds nothing: the
      challenge is still the same, so the verdict is the same, and the
      credential id is now on the user. */
  lemma ResubmissionAddsNothing(o: Oracles, s: StoreState, email: string, data: RegistrationResponse)
    ensures var s1 := RegistrationVerification(o, s, email, data).store;
      RegistrationVerification(o, s1, email, data).store == s1
  {
    var s1 := RegistrationVerification(o, s, email, data).store;
    if email in s.accounts {
      var user := s.accounts[email];
      var user1 := s1.accounts[email];
      assert VerifyOptsFor(o, user1, data) == VerifyOptsFor(o, user, data);
      var outcome := o.verifyRegistrationResponse(VerifyOptsFor(o, user, data));
      if outcome.Success? && Enrols(user, outcome.value) {
        FindAppended(DeviceList(user.devices), NewDevice(outcome.value.registrationInfo.value, data));
      }
    }
  }

  /** No two devices of the list share a credential id. */
  ghost predicate DistinctCredentials(devices: seq<Device>) {
    forall i, j | 0 <= i < j < |devices| :: devices[i].credentialID != devices[j].credentialID
  }

  /** The per-user duplicate check keeps a user's credential ids distinct. */
  lemma VerificationKeepsCredentialsDistinct(o: Oracles, s: StoreState, email: string, data: RegistrationResponse)
    requires email in s.accounts && DistinctCredentials(DeviceList(s.accounts[email].devices))
    ensures DistinctCredentials(DeviceList(RegistrationVerification(o, s, email, data).store.accounts[email].devices))
  {
  }

  /** Verification only ever appends: the user's earlier devices stay, in
      order, the list grows by at most one, and no other account changes. */
  lemma VerificationOnlyAppends(o: Oracles, s: StoreState, email: string, data: RegistrationResponse)
    requires email in s.accounts
    ensures var s1 := RegistrationVerification(o, s, email, data).store;
      var before := DeviceList(s.accounts[email].devices);
      var after := DeviceList(s1.accounts[email].devices);
      before <= after && |after| <= |before| + 1 &&
      (s.accounts[email].webauthn ==> s1.accounts[email].webauthn) &&
      (forall e | e in s.accounts && e != email :: s1.accounts[e] == s.accounts[e])
  {
  }

  /** A device is added exactly when the verdict enrols it, and then
      WebAuthn is on for the user. */
  lemma DeviceAddedIff(o: Oracles, s: StoreState, email: string, data: RegistrationResponse)
    requires email in s.accounts
    ensures var user := s.accounts[email];
      var s1 := RegistrationVerification(o, s, email, data).store;
      var outcome := o.verifyRegistrationResponse(VerifyOptsFor(o, user, data));
      ((|DeviceList(s1.accounts[email].devices)| == |DeviceList(user.devices)| + 1) <==>
       (outcome.Success? && Enrols(user, outcome.value))) &&
      (outcome.Success? && Enrols(user, outcome.value) ==> s1.accounts[email].webauthn)
  {
  }
}
