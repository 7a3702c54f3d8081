/** The authentication service's request handlers: sequences of store reads, checks
    against the password hasher and the token codec, and store writes.

    The password hasher is opaque: a `Bcrypt` value carries hash generation and hash
    comparison as functions. The clock is a parameter. */
module Service {
  import opened Outcomes
  import opened AccountStore
  import Jwt

  /** The work factor passed to the password hasher. */
  const PASSWORD_COST: int := 12

  /** Password hashing: `generateFromPassword` yields a hash or fails; `compareHashAndPassword`
      says whether a password matches a stored hash. */
  datatype Bcrypt = Bcrypt(
    generateFromPassword: (string, int) -> Option<string>,
    compareHashAndPassword: (string, string) -> bool)

  datatype IsEmailRegisteredReply = IsEmailRegisteredReply(isRegistered: bool, accountUuid: string)

  /** Whether an email belongs to an account. A successful lookup always answers "registered"
      with the owner's uuid; an unknown address is an error, never a negative answer. */
  function IsEmailRegistered(store: Store, email: string): (r: Result<IsEmailRegisteredReply>)
    reads store
    requires store.HasOwner(email)
    ensures r.Err? <==> forall k :: 0 <= k < |store.emails| ==> store.emails[k].address != email
    ensures r.Err? ==> r.error == CouldNotFindEmail
    ensures r.Ok? ==> r.value.isRegistered
    ensures r.Ok? ==>
              && store.OwnerOf(email) < |store.accounts|
              && r.value.accountUuid == store.accounts[store.OwnerOf(email)].uuid
  {
    match store.GetUuidByEmail(email)
    case Err(e) => Err(e)
    case Ok(uuid) => Ok(IsEmailRegisteredReply(true, uuid))
  }

  /** The invitations of a list of addresses, concatenated in address order; the first
      unknown address makes the whole result an error. */
  ghost function InvitesOf(store: Store, addresses: seq<string>): Result<seq<string>>
    reads store
    decreases |addresses|
  {
    if addresses == [] then Ok([])
    else
      match InvitesOf(store, addresses[..|addresses| - 1])
      case Err(e) => Err(e)
      case Ok(prefix) =>
        match store.InviteOrganisations(addresses[|addresses| - 1])
        case Err(e) => Err(e)
        case Ok(orgs) => Ok(prefix + orgs)
  }

  /** How many invitations a list of addresses has in all (an unknown address adds none). */
  ghost function InviteCount(store: Store, addresses: seq<string>): nat
    reads store
    decreases |addresses|
  {
    if addresses == [] then 0
    else
      var last := addresses[|addresses| - 1];
      InviteCount(store, addresses[..|addresses| - 1])
        + match store.FindEmail(last) case None => 0 case Some(i) => |store.emails[i].invites|
  }

  /** Gathering invitations succeeds exactly when the invitation lookup of every address
      succeeds, that is, when every address is that of some email node. */
  lemma {:induction false} InvitesOfFails(store: Store, addresses: seq<string>)
    ensures InvitesOf(store, addresses).Ok? <==>
              forall k :: 0 <= k < |addresses| ==> store.InviteOrganisations(addresses[k]).Ok?
    decreases |addresses|
  {
    if addresses != [] {
      var n := |addresses| - 1;
      var prefix := addresses[..n];
      InvitesOfFails(store, prefix);
      assert forall k :: 0 <= k < n ==> prefix[k] == addresses[k];
    }
  }

  /** The gathered invitations are not deduplicated: there are as many as all the addresses'
      invitation lists hold together. */
  lemma {:induction false} InvitesOfLength(store: Store, addresses: seq<string>)
    requires InvitesOf(store, addresses).Ok?
    ensures |InvitesOf(store, addresses).value| == InviteCount(store, addresses)
    decreases |addresses|
  {
    if addresses != [] {
      InvitesOfLength(store, addresses[..|addresses| - 1]);
    }
  }

  /** One more address extends the gathered invitations by that address's invitations. */
  lemma InvitesOfNext(store: Store, addresses: seq<string>, i: nat)
    requires i < |addresses|
    ensures InvitesOf(store, addresses[..i + 1]) ==
              match InvitesOf(store, addresses[..i])
              case Err(e) => Err(e)
              case Ok(prefix) =>
                match store.InviteOrganisations(addresses[i])
                case Err(e) => Err(e)
                case Ok(orgs) => Ok(prefix + orgs)
  {
    assert addresses[..i + 1][..i] == addresses[..i];
  }

  /** Once a prefix of the addresses fails, the whole list fails with the same error. */
  lemma {:induction false} InvitesOfErrorStays(store: Store, addresses: seq<string>, n: nat)
    requires n <= |addresses|
    requires InvitesOf(store, addresses[..n]).Err?
    ensures InvitesOf(store, addresses) == InvitesOf(store, addresses[..n])
    decreases |addresses| - n
  {
    if n < |addresses| {
      InvitesOfNext(store, addresses, n);
      InvitesOfErrorStays(store, addresses, n + 1);
    } else {
      assert addresses[..n] == addresses;
    }
  }

  /** Gathering the invitations of an account's own addresses never fails: each of them is
      the address of some email node. */
  lemma AccountInvitesFound(store: Store, j: nat)
    requires store.Valid() && j < |store.accounts|
    ensures InvitesOf(store, AddressesOf(store, store.accounts[j])).Ok?
  {
    var addresses := AddressesOf(store, store.accounts[j]);
    InvitesOfFails(store, addresses);
    forall k | 0 <= k < |addresses|
      ensures store.InviteOrganisations(addresses[k]).Ok?
    {
      var node := store.accounts[j].emails[k];
      assert store.emails[node].address == addresses[k];
    }
  }

  /** The inner loop of GetInvites: append the organisations one by one, in order. */
  method AppendEach(ret: seq<string>, orgs: seq<string>) returns (r: seq<string>)
    ensures r == ret + orgs
  {
    r := ret;
    for j := 0 to |orgs|
      invariant r == ret + orgs[..j]
    {
      r := r + [orgs[j]];
    }
    assert orgs[..|orgs|] == orgs;
  }

  /** The outer loop of GetInvites: for each address in turn, read its invitations and
      append them. Every address must be known, as the account's own are. */
  method CollectInvites(store: Store, emails: seq<string>) returns (ret: seq<string>)
    requires forall k :: 0 <= k < |emails| ==> store.InviteOrganisations(emails[k]).Ok?
    ensures InvitesOf(store, emails) == Ok(ret)
  {
    ret := [];
    for i := 0 to |emails|
      invariant InvitesOf(store, emails[..i]) == Ok(ret)
    {
      var invites := store.GetInviteOrganizationsByEmail(emails[i]);
      if invites.Err? {
        assert false;
      }
      InvitesOfNext(store, emails, i);
      ret := AppendEach(ret, invites.value);
    }
    assert emails[..|emails|] == emails;
  }

  /** The organisations inviting any of the account's email addresses, in address order and
      then invitation order, without deduplication. Only an unknown account fails. */
  method GetInvites(store: Store, accountUuid: string) returns (r: Result<seq<string>>)
    requires store.Valid()
    ensures r.Err? <==> forall j :: 0 <= j < |store.accounts| ==> store.accounts[j].uuid != accountUuid
    ensures r.Err? ==> r.error == CouldNotFindUuid
    ensures store.FindAccount(accountUuid).Some? ==>
              r == InvitesOf(store, AddressesOf(store, store.accounts[store.FindAccount(accountUuid).value]))
  {
    var emails := store.GetAllEmailsByUuid(accountUuid);
    if emails.Err? {
      return Err(emails.error);
    }
    ghost var account := store.accounts[store.FindAccount(accountUuid).value];
    assert emails.value == AddressesOf(store, account);
    forall k | 0 <= k < |emails.value|
      ensures store.InviteOrganisations(emails.value[k]).Ok?
    {
      assert store.emails[account.emails[k]].address == emails.value[k];
    }
    var ret := CollectInvites(store, emails.value);
    return Ok(ret);
  }

  /** The addresses of an account's email nodes, in edge order. */
  ghost function AddressesOf(store: Store, account: Account): seq<string>
    reads store
    requires forall k :: 0 <= k < |account.emails| ==> account.emails[k] < |store.emails|
  {
    var nodes, edges := store.emails, account.emails;
    seq(|edges|, k requires 0 <= k < |edges| => nodes[edges[k]].address)
  }

  /** The password read at the start of a registration: the stored one, or "" when the
      address is unknown (the lookup's error is not looked at). */
  function StoredPassword(store: Store, email: string): string
    reads store
    requires store.HasOwner(email)
  {
    match store.GetPasswordByEmail(email)
    case Ok(p) => p
    case Err(_) => ""
  }

  /** The invitations read during a registration: none when the address is unknown (the
      lookup's error is not looked at). */
  function StoredInvitations(store: Store, email: string): seq<string>
    reads store
  {
    match store.InviteOrganisations(email)
    case Ok(orgs) => orgs
    case Err(_) => []
  }

  /** Registration. It refuses, changing nothing, when the account already has a password or
      when no organisation invited the email. Otherwise it stores the hash of the password it
      read, which is always the empty string, and not the requested password. */
  method Register(store: Store, bcrypt: Bcrypt, email: string, password: string) returns (r: Result<()>)
    requires store.HasOwner(email)
    modifies store
    ensures old(store.Valid()) ==> store.Valid()
    ensures old(StoredPassword(store, email)) != "" ==>
              r == Err(AlreadyHasPassword) && unchanged(store)
    ensures old(StoredPassword(store, email)) == "" && |old(StoredInvitations(store, email))| == 0 ==>
              r == Err(NotInvited) && unchanged(store)
    ensures old(StoredPassword(store, email)) == "" && |old(StoredInvitations(store, email))| > 0
              && bcrypt.generateFromPassword("", PASSWORD_COST).None? ==>
              r == Err(HashingFailed) && unchanged(store)
    ensures r.Ok? <==>
              old(StoredPassword(store, email)) == "" && |old(StoredInvitations(store, email))| > 0
              && bcrypt.generateFromPassword("", PASSWORD_COST).Some?
    ensures r.Ok? ==>
              var j := old(store.OwnerOf(email));
              && store.emails == old(store.emails)
              && store.accounts == old(store.accounts)[j := old(store.accounts)[j].(password :=
                   bcrypt.generateFromPassword(old(StoredPassword(store, email)), PASSWORD_COST).value)]
  {
    var lookup := store.GetPasswordByEmail(email);
    var pass := if lookup.Ok? then lookup.value else "";
    if pass != "" {
      return Err(AlreadyHasPassword);
    }
    var invitationLookup := store.GetInviteOrganizationsByEmail(email);
    var invitations := if invitationLookup.Ok? then invitationLookup.value else [];
    if |invitations| == 0 {
      return Err(NotInvited);
    }
    var hashedPassword := bcrypt.generateFromPassword(pass, PASSWORD_COST);
    if hashedPassword.None? {
      return Err(HashingFailed);
    }
    r := store.ChangePasswordForEmail(email, hashedPassword.value);
  }

  /** Registration as evidently intended: the same checks, but the hash stored is that of the
      requested password. */
  method RegisterWithRequestPassword(store: Store, bcrypt: Bcrypt, email: string, password: string)
    returns (r: Result<()>)
    requires store.HasOwner(email)
    modifies store
    ensures old(store.Valid()) ==> store.Valid()
    ensures old(StoredPassword(store, email)) != "" ==>
              r == Err(AlreadyHasPassword) && unchanged(store)
    ensures old(StoredPassword(store, email)) == "" && |old(StoredInvitations(store, email))| == 0 ==>
              r == Err(NotInvited) && unchanged(store)
    ensures r.Ok? <==>
              old(StoredPassword(store, email)) == "" && |old(StoredInvitations(store, email))| > 0
              && bcrypt.generateFromPassword(password, PASSWORD_COST).Some?
    ensures r.Err? ==> unchanged(store)
    ensures r.Ok? ==>
              var j := old(store.OwnerOf(email));
              && store.emails == old(store.emails)
              && store.accounts == old(store.accounts)[j := old(store.accounts)[j].(password :=
                   bcrypt.generateFromPassword(password, PASSWORD_COST).value)]
  {
    var lookup := store.GetPasswordByEmail(email);
    var pass := if lookup.Ok? then lookup.value else "";
    if pass != "" {
      return Err(AlreadyHasPassword);
    }
    var invitationLookup := store.GetInviteOrganizationsByEmail(email);
    var invitations := if invitationLookup.Ok? then invitationLookup.value else [];
    if |invitations| == 0 {
      return Err(NotInvited);
    }
    var hashedPassword := bcrypt.generateFromPassword(password, PASSWORD_COST);
    if hashedPassword.None? {
      return Err(HashingFailed);
    }
    r := store.ChangePasswordForEmail(email, hashedPassword.value);
  }

  /** Login. An unknown address or a password the stored hash does not match fails and adds
      no token. Otherwise one token, created for the owner's uuid at `now`, is appended to
      the token list of the first account with that uuid and returned. */
  method Login(store: Store, bcrypt: Bcrypt, codec: Jwt.Codec, email: string, password: string, now: Jwt.Time)
    returns (r: Result<string>)
    requires store.HasOwner(email)
    modifies store
    ensures old(store.Valid()) ==> store.Valid()
    ensures old(store.GetPasswordByEmail(email)).Err? ==>
              r == Err(CouldNotFindEmail) && unchanged(store)
    ensures old(store.GetPasswordByEmail(email)).Ok?
            && !bcrypt.compareHashAndPassword(old(store.GetPasswordByEmail(email)).value, password) ==>
              r == Err(IncorrectPassword) && unchanged(store)
    ensures r.Ok? <==>
              old(store.GetPasswordByEmail(email)).Ok?
              && bcrypt.compareHashAndPassword(old(store.GetPasswordByEmail(email)).value, password)
    ensures r.Ok? ==>
              var uuid := old(store.GetUuidByEmail(email)).value;
              var j := old(store.FindAccount(uuid)).value;
              && old(store.FindAccount(uuid)).Some?
              && r.value == Jwt.CreateToken(codec, uuid, now)
              && store.emails == old(store.emails)
              && store.accounts == old(store.accounts)[j := old(store.accounts)[j].(tokens :=
                   old(store.accounts)[j].tokens + [r.value])]
  {
    var ret := store.GetPasswordByEmail(email);
    if ret.Err? {
      return Err(ret.error);
    }
    if !bcrypt.compareHashAndPassword(ret.value, password) {
      return Err(IncorrectPassword);
    }
    var uuid := store.GetUuidByEmail(email);
    if uuid.Err? {
      // the password lookup has just found the address
      assert false;
    }
    assert store.FindAccount(uuid.value).Some? by {
      assert store.accounts[store.OwnerOf(email)].uuid == uuid.value;
    }
    var tokenString := Jwt.CreateToken(codec, uuid.value, now);
    var added := store.AddJwtTokenToUser(uuid.value, tokenString);
    if added.Err? {
      // the owner of the address carries this uuid
      assert false;
    }
    return Ok(tokenString);
  }

  /** Email activation: the first email carrying the verification token is marked verified at
      `now`; an unknown token fails and changes nothing. */
  method ActivateEmail(store: Store, verificationToken: string, now: Time) returns (r: Result<()>)
    modifies store
    ensures old(store.Valid()) ==> store.Valid()
    ensures old(store.FindEmailByToken(verificationToken)).None? ==>
              r == Err(CouldNotFindToken) && unchanged(store)
    ensures old(store.FindEmailByToken(verificationToken)).Some? ==>
              var i := old(store.FindEmailByToken(verificationToken)).value;
              && r == Ok(())
              && store.emails == old(store.emails)[i := old(store.emails)[i].(verifiedAt := Some(now))]
              && store.accounts == old(store.accounts)
  {
    r := store.VerifyEmailByToken(verificationToken, now);
  }

  /** Revoke one session token, with the assumed contract of the store's single-token drop. */
  method DropSingleToken(store: Store, jwtToken: string) returns (r: Result<()>)
    modifies store
    ensures old(store.Valid()) ==> store.Valid()
    ensures old(FindFirst(store.accounts, HoldsToken(jwtToken))).None? ==>
              r == Err(CouldNotFindToken) && unchanged(store)
    ensures old(FindFirst(store.accounts, HoldsToken(jwtToken))).Some? ==>
              var j := old(FindFirst(store.accounts, HoldsToken(jwtToken))).value;
              && r == Ok(())
              && store.emails == old(store.emails)
              && store.accounts == old(store.accounts)[j := old(store.accounts)[j].(tokens :=
                   SpliceOut(old(store.accounts)[j].tokens, RemovalIndex(old(store.accounts)[j].tokens, jwtToken)))]
  {
    r := store.DropJwtToken(jwtToken);
  }

  /** Revoke every session token of the account a token was issued to. A token the decoder
      rejects fails with the decoder's error and drops nothing; otherwise every token of the
      first account with the decoded uuid is dropped, the presented token included. */
  method DropAllTokens(store: Store, codec: Jwt.Codec, jwtToken: string, now: Jwt.Time) returns (r: Result<()>)
    modifies store
    ensures old(store.Valid()) ==> store.Valid()
    ensures Jwt.DecodeToken(codec, jwtToken, now).Err? ==>
              r == Err(Jwt.DecodeToken(codec, jwtToken, now).error) && unchanged(store)
    ensures Jwt.DecodeToken(codec, jwtToken, now).Ok? ==>
              var uuid := Jwt.DecodeToken(codec, jwtToken, now).value.uuid;
              && (old(store.FindAccount(uuid)).None? ==> r == Err(CouldNotFindUsers) && unchanged(store))
              && (old(store.FindAccount(uuid)).Some? ==>
                    var j := old(store.FindAccount(uuid)).value;
                    && r == Ok(())
                    && store.emails == old(store.emails)
                    && store.accounts == old(store.accounts)[j := old(store.accounts)[j].(tokens := [])])
  {
    var parsedToken := Jwt.DecodeToken(codec, jwtToken, now);
    if parsedToken.Err? {
      return Err(parsedToken.error);
    }
    r := store.DropAllTokensForUuid(parsedToken.value.uuid);
  }
}
