/** The account store as the server holds it: one object whose account
    table the route handlers update in place. Each method carries out one
    handler step by step and is proved to agree with its transition in
    UserRoutes. */
module Store {
  import opened Wrappers
  import opened Errors
  import opened Accounts
  import opened WebAuthn
  import opened Oracles
  import opened UserRoutes

  class AccountStore {
    var accounts: map<string, Account>
    var nextId: nat

    /** The store's current contents as a value. */
    function State(): StoreState
      reads this
    {
      StoreState(accounts, nextId)
    }

    ghost predicate Valid()
      reads this
    {
      Consistent(State())
    }

    constructor ()
      ensures Valid() && State() == StoreState(map[], 0)
    {
      accounts := map[];
      nextId := 0;
    }

    /** POST /register. */
    method Register(o: Oracles, body: RegisterBody, salt: nat) returns (reply: Reply)
      requires Valid()
      modifies this
      ensures Valid()
      ensures Step(reply, State()) == UserRoutes.Register(o, old(State()), body, salt)
    {
      if !UserSchemaAccepts(o, body) {
        reply := ValidationFailure(o, UserSchemaBody(body));
        return;
      }
      if body.email in accounts {
        reply := Thrown(CustomAPIError(UserExists, Some(400)));
        return;
      }
      var user := Account(nextId, body.email, body.name, o.hashPassword(body.password, salt), None, false, None);
      accounts := accounts[body.email := user];
      nextId := nextId + 1;
      reply := SessionReply(o, 200, Claims(user.id, user.name, user.email), user.name, user.email);
    }

    /** POST /login: reads the store and never changes it. */
    method Login(o: Oracles, body: LoginBody) returns (reply: Reply)
      requires Valid()
      ensures reply == UserRoutes.Login(o, State(), body).reply
    {
      if !LoginSchemaAccepts(o, body) {
        reply := ValidationFailure(o, LoginSchemaBody(body));
        return;
      }
      if body.email !in accounts {
        reply := Thrown(CustomAPIError(UserMissing, Some(400)));
        return;
      }
      var user := accounts[body.email];
      var passwordMatches := o.comparePasswords(body.password, user.password);
      if !passwordMatches {
        reply := Thrown(CustomAPIError(InvalidCredentials, Some(400)));
        return;
      }
      reply := SessionReply(o, 201, Record(user), user.name, user.email);
    }

    /** POST /google: find the decoded email, or create its account. */
    method Google(o: Oracles, token: string) returns (reply: Reply)
      requires Valid()
      modifies this
      ensures Valid()
      ensures Step(reply, State()) == UserRoutes.Google(o, old(State()), token)
    {
      var decoded := o.decodeGoogleToken(token);
      if decoded.Failure? {
        reply := Thrown(decoded.error);
        return;
      }
      var data := decoded.value;
      if data.email in accounts {
        var existing := accounts[data.email];
        reply := SessionReply(o, 200, Claims(existing.id, existing.name, existing.email), existing.name, existing.email);
        return;
      }
      var user := Account(nextId, data.email, data.name, GooglePassword, None, false, None);
      accounts := accounts[data.email := user];
      nextId := nextId + 1;
      reply := SessionReply(o, 200, Claims(user.id, user.name, user.email), user.name, user.email);
    }

    /** POST /auth/webauth-registration-options. */
    method RegistrationOptions(o: Oracles, email: string, random: nat) returns (reply: Reply)
      requires Valid()
      modifies this
      ensures Valid()
      ensures Step(reply, State()) == UserRoutes.RegistrationOptions(o, old(State()), email, random)
    {
      if email !in accounts {
        reply := Thrown(UnknownUserError);
        return;
      }
      var user := accounts[email];
      var regOptions := o.generateRegistrationOptions(RegistrationOptionsFor(user), random);
      user := user.(currentChallenge := Some(regOptions.challenge));
      accounts := accounts[email := user];
      reply := Reply(Some(200), Options(regOptions));
    }

    /** POST /auth/webauth-registration-verification. */
    method RegistrationVerification(o: Oracles, email: string, data: RegistrationResponse) returns (reply: Reply)
      requires Valid()
      modifies this
      ensures Valid()
      ensures Step(reply, State()) == UserRoutes.RegistrationVerification(o, old(State()), email, data)
    {
      if email !in accounts {
        reply := Thrown(UnknownUserError);
        return;
      }
      var user := accounts[email];
      var verification := o.verifyRegistrationResponse(VerifyOptsFor(o, user, data));
      if verification.Failure? {
        reply := Reply(Some(400), VerifyFailed(verification.error));
        return;
      }
      var v := verification.value;
      if v.verified && v.registrationInfo.Some? {
        var info := v.registrationInfo.value;
        var existingDevice := if user.devices.Some? then FindDevice(user.devices.value, info.credentialID) else None;
        if existingDevice.None? {
          var newDevice := NewDevice(info, data);
          if user.devices.None? {
            user := user.(devices := Some([]));
          }
          user := user.(webauthn := true);
          user := user.(devices := Some(user.devices.value + [newDevice]));
          accounts := accounts[email := user];
        }
      }
      reply := Reply(Some(200), Ok);
    }
  }
}
