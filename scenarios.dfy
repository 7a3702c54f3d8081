/** Runs of several handlers in a row, proved from the handlers' contracts alone. */
module Scenarios {
  import opened Outcomes
  import opened AccountStore
  import opened Service
  import Jwt

  /** A password hasher whose hashes are recognisable: the hash of p is "$2a$" + p, and only
      that hash matches p. */
  function MarkedHasher(): Bcrypt {
    Bcrypt((p: string, cost: int) => Some("$2a$" + p), (h: string, p: string) => h == "$2a$" + p)
  }

  /** Hashing succeeds for `password`, and comparing a successful hash with the password it
      was made from is a match. */
  ghost predicate SoundFor(bcrypt: Bcrypt, password: string) {
    && bcrypt.generateFromPassword(password, PASSWORD_COST).Some?
    && bcrypt.compareHashAndPassword(bcrypt.generateFromPassword(password, PASSWORD_COST).value, password)
  }

  /** What bcrypt does with a stored password too short to be a hash: the empty string
      matches no password. */
  ghost predicate RejectsEmptyHash(bcrypt: Bcrypt) {
    forall p :: !bcrypt.compareHashAndPassword("", p)
  }

  /** Login to an account that has no password yet fails for every password, issues no token
      and changes nothing. */
  method LoginWithoutPassword(store: Store, bcrypt: Bcrypt, codec: Jwt.Codec, email: string, password: string, now: Jwt.Time)
    returns (login: Result<string>)
    requires store.HasOwner(email)
    requires store.GetPasswordByEmail(email) == Ok("")
    requires RejectsEmptyHash(bcrypt)
    modifies store
    ensures login == Err(IncorrectPassword)
    ensures unchanged(store)
  {
    login := Login(store, bcrypt, codec, email, password, now);
  }

  /** Registration as written, on an invited address whose account has no password yet:
      afterwards the requested password is refused at login and the empty password is
      accepted. */
  method RegisterThenLoginAsWritten(codec: Jwt.Codec)
    returns (registered: Result<()>, withRequested: Result<string>, withEmpty: Result<string>)
    ensures registered.Ok?
    ensures withRequested == Err(IncorrectPassword)
    ensures withEmpty == Ok(Jwt.CreateToken(codec, "u1", 100))
  {
    var email := Email("a@x.com", Some("t1"), None, [Invite("org-1")]);
    var store := new Store([email], [Account("u1", "", [0], [])]);
    var bcrypt := MarkedHasher();
    assert store.FindEmail("a@x.com") == Some(0);
    assert store.FirstOwner(0) == Some(0);
    assert Organisations(email.invites) == ["org-1"];
    assert StoredPassword(store, "a@x.com") == "";
    assert |StoredInvitations(store, "a@x.com")| > 0;
    assert "$2a$" + "" == "$2a$";
    registered := Register(store, bcrypt, "a@x.com", "pw1");
    assert store.accounts == [Account("u1", "$2a$", [0], [])];
    assert store.FindEmail("a@x.com") == Some(0);
    assert store.FirstOwner(0) == Some(0);
    withRequested := Login(store, bcrypt, codec, "a@x.com", "pw1", 100);
    withEmpty := Login(store, bcrypt, codec, "a@x.com", "", 100);
  }

  /** Registration with the requested password, then login with the same password: the login
      succeeds, and its token decodes to the uuid of the email's account. */
  method RegisterThenLogin(store: Store, bcrypt: Bcrypt, codec: Jwt.Codec, email: string, password: string, now: Jwt.Time)
    returns (registered: Result<()>, login: Result<string>)
    requires store.HasOwner(email) && store.FindEmail(email).Some?
    requires StoredPassword(store, email) == "" && |StoredInvitations(store, email)| > 0
    requires SoundFor(bcrypt, password)
    requires Jwt.Lawful(codec)
    modifies store
    ensures registered.Ok?
    ensures login.Ok?
    ensures Jwt.DecodeToken(codec, login.value, now) == Ok(Jwt.IssuedClaims(old(store.GetUuidByEmail(email)).value, now))
  {
    ghost var uuid := store.GetUuidByEmail(email).value;
    ghost var node := store.FindEmail(email).value;
    registered := RegisterWithRequestPassword(store, bcrypt, email, password);
    FindFirstAgrees(old(store.accounts), store.accounts, HasEmailEdge(node));
    FindFirstAgrees(old(store.accounts), store.accounts, UuidIs(uuid));
    assert store.GetPasswordByEmail(email) == Ok(bcrypt.generateFromPassword(password, PASSWORD_COST).value);
    assert store.GetUuidByEmail(email) == Ok(uuid);
    login := Login(store, bcrypt, codec, email, password, now);
    Jwt.CreateDecodeRoundTrip(codec, uuid, now, now);
  }

  /** Registration twice: once a (non-empty) hash is stored, the second attempt is refused
      as already registered and changes nothing. */
  method RegisterTwice(store: Store, bcrypt: Bcrypt, email: string, password: string)
    returns (first: Result<()>, second: Result<()>)
    requires store.HasOwner(email) && store.FindEmail(email).Some?
    requires StoredPassword(store, email) == "" && |StoredInvitations(store, email)| > 0
    requires bcrypt.generateFromPassword(password, PASSWORD_COST).Some?
    requires bcrypt.generateFromPassword(password, PASSWORD_COST).value != ""
    modifies store
    ensures first.Ok?
    ensures second == Err(AlreadyHasPassword)
    ensures store.accounts == old(store.accounts)[old(store.OwnerOf(email)) :=
              old(store.accounts)[old(store.OwnerOf(email))].(password :=
                bcrypt.generateFromPassword(password, PASSWORD_COST).value)]
  {
    ghost var node := store.FindEmail(email).value;
    first := RegisterWithRequestPassword(store, bcrypt, email, password);
    FindFirstAgrees(old(store.accounts), store.accounts, HasEmailEdge(node));
    second := RegisterWithRequestPassword(store, bcrypt, email, password);
  }

  /** Logging in and then revoking all tokens with the token just issued: the account that
      received the token ends with no tokens at all. The revoked token itself still decodes,
      since decoding never consults the store. */
  method LoginThenDropAll(store: Store, bcrypt: Bcrypt, codec: Jwt.Codec, email: string, password: string, now: Jwt.Time)
    returns (login: Result<string>, dropped: Result<()>)
    requires store.HasOwner(email)
    requires Jwt.Lawful(codec)
    modifies store
    ensures login.Ok? ==> dropped.Ok?
    ensures login.Ok? ==> old(store.GetUuidByEmail(email)).Ok?
    ensures login.Ok? ==>
              var uuid := old(store.GetUuidByEmail(email)).value;
              && old(store.FindAccount(uuid)).Some?
              && old(store.FindAccount(uuid)).value < |store.accounts|
              && store.accounts[old(store.FindAccount(uuid)).value].tokens == []
    ensures login.Ok? ==> Jwt.DecodeToken(codec, login.value, now).Ok?
  {
    ghost var j: nat := 0;
    ghost var uuid := "";
    if store.GetPasswordByEmail(email).Ok? {
      uuid := store.GetUuidByEmail(email).value;
      if store.FindAccount(uuid).Some? {
        j := store.FindAccount(uuid).value;
      }
    }
    login := Login(store, bcrypt, codec, email, password, now);
    if login.Err? {
      dropped := Err(login.error);
      return;
    }
    Jwt.CreateDecodeRoundTrip(codec, uuid, now, now);
    FindFirstAgrees(old(store.accounts), store.accounts, UuidIs(uuid));
    dropped := DropAllTokens(store, codec, login.value, now);
  }
}
