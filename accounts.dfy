/** The account store the route handlers read and write: accounts keyed by
    email, each with its password field, current challenge, WebAuthn flag
    and registered authenticator devices. */
module Accounts {
  import opened Wrappers

  newtype byte = x: int | 0 <= x < 256

  type Bytes = seq<byte>

  /** The `transports` array a client reports; `undefined` is None. */
  type Transports = Option<seq<string>>

  /** One registered authenticator, as pushed by registration-verification. */
  datatype Device = Device(credentialPublicKey: Bytes, credentialID: Bytes, counter: nat, transports: Transports)

  /** A user record. `devices` is None until the first device is added. */
  datatype Account = Account(
    id: nat,
    email: string,
    name: string,
    password: string,
    currentChallenge: Option<string>,
    webauthn: bool,
    devices: Option<seq<Device>>)

  /** The store: accounts keyed by email and the next id the database
      assigns on `create`. */
  datatype StoreState = StoreState(accounts: map<string, Account>, nextId: nat)

  /** The store's integrity constraints: each account sits under its own
      email (the unique index), and ids are assigned once and are distinct. */
  ghost predicate Consistent(s: StoreState) {
    (forall e | e in s.accounts :: s.accounts[e].email == e && s.accounts[e].id < s.nextId) &&
    (forall e1, e2 | e1 in s.accounts && e2 in s.accounts && e1 != e2 ::
       s.accounts[e1].id != s.accounts[e2].id)
  }

  /** The devices of an account, `[]` when the list is absent. */
  function DeviceList(devices: Option<seq<Device>>): seq<Device> {
    match devices
    case Some(ds) => ds
    case None => []
  }

  /** `prisma.user.create({data: {email, name, password}})`: a fresh record
      with a new id, no challenge, WebAuthn off and no device list. The
      database refuses a second record with the same email, and every
      caller looks the email up first. */
  function Create(s: StoreState, email: string, name: string, password: string): (r: StoreState)
    requires email !in s.accounts
    ensures r.accounts.Keys == s.accounts.Keys + {email}
    ensures forall e | e in s.accounts :: r.accounts[e] == s.accounts[e]
    ensures r.accounts[email].email == email && r.accounts[email].name == name
    ensures r.accounts[email].password == password
    ensures r.accounts[email].currentChallenge.None? && !r.accounts[email].webauthn
    ensures r.accounts[email].devices.None?
    ensures Consistent(s) ==> Consistent(r)
    ensures Consistent(s) ==> forall e | e in s.accounts :: s.accounts[e].id != r.accounts[email].id
  {
    StoreState(s.accounts[email := Account(s.nextId, email, name, password, None, false, None)], s.nextId + 1)
  }
}
