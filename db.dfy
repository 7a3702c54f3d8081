/** The account store: email nodes, account nodes and each account's session tokens, with
    the lookups and updates the service performs on them.

    The graph database is replaced by an in-memory store. An email node is identified by
    its position in `emails`; an account's `email` edges are those positions. The reverse
    edge from an email to the accounts owning it is read off the accounts, in store order;
    the invitations pointing at an email are kept with the email. A query returns the
    records whose key matches, in store order, and the code then reads the first one. */
module AccountStore {
  import opened Outcomes

  /** Seconds since the Unix epoch. */
  type Time = int

  /** An invitation of an email by an organisation, known by the organisation's uuid. */
  datatype Invite = Invite(organisation: string)

  datatype Email = Email(
    address: string,
    verificationToken: Option<string>,
    verifiedAt: Option<Time>,
    invites: seq<Invite>)

  /** An account; an empty password means that no password has been set yet. */
  datatype Account = Account(uuid: string, password: string, emails: seq<nat>, tokens: seq<string>)

  /** The position of the first element satisfying `p`, if there is one. */
  function FindFirst<T>(s: seq<T>, p: T -> bool): (r: Option<nat>)
    ensures r.None? <==> forall k :: 0 <= k < |s| ==> !p(s[k])
    ensures r.Some? ==> r.value < |s| && p(s[r.value]) && forall k :: 0 <= k < r.value ==> !p(s[k])
  {
    if s == [] then None
    else if p(s[0]) then Some(0)
    else
      match FindFirst(s[1..], p)
      case None => None
      case Some(i) => Some(i + 1)
  }

  /** Two lists on which the predicate agrees position by position have the same first match. */
  lemma FindFirstAgrees<T>(s: seq<T>, t: seq<T>, p: T -> bool)
    requires |s| == |t|
    requires forall k :: 0 <= k < |s| ==> p(s[k]) == p(t[k])
    ensures FindFirst(s, p) == FindFirst(t, p)
  {
    match FindFirst(s, p)
    case None =>
    case Some(i) =>
      assert p(t[i]);
  }

  /** The match predicates of the store's queries. */
  function AddressIs(address: string): Email -> bool {
    (e: Email) => e.address == address
  }

  function VerificationTokenIs(token: string): Email -> bool {
    (e: Email) => e.verificationToken == Some(token)
  }

  function UuidIs(uuid: string): Account -> bool {
    (a: Account) => a.uuid == uuid
  }

  function HasEmailEdge(i: nat): Account -> bool {
    (a: Account) => i in a.emails
  }

  function HoldsToken(token: string): Account -> bool {
    (a: Account) => token in a.tokens
  }

  /** The organisation uuids of a list of invitations: one per invitation, in order. */
  function Organisations(invites: seq<Invite>): (r: seq<string>)
    ensures |r| == |invites|
    ensures forall k :: 0 <= k < |invites| ==> r[k] == invites[k].organisation
  {
    if invites == [] then [] else [invites[0].organisation] + Organisations(invites[1..])
  }

  /** The token list with the element at `idx` cut out. */
  function SpliceOut(s: seq<string>, idx: nat): (r: seq<string>)
    requires idx < |s|
    ensures |r| == |s| - 1
    ensures forall k :: 0 <= k < idx ==> r[k] == s[k]
    ensures forall k :: idx <= k < |r| ==> r[k] == s[k + 1]
  {
    s[..idx] + s[idx + 1..]
  }

  /** Which token a single-token removal cuts out: the first one equal to `token`, or the
      first one of all when none is equal. */
  function RemovalIndex(tokens: seq<string>, token: string): (idx: nat)
    requires |tokens| > 0
    ensures idx < |tokens|
    ensures token in tokens ==> tokens[idx] == token && forall k :: 0 <= k < idx ==> tokens[k] != token
    ensures token !in tokens ==> idx == 0
  {
    match FindFirst(tokens, (t: string) => t == token)
    case Some(i) => i
    case None => 0
  }

  /** A single-token removal takes away exactly one token, and it is `token` itself when the
      list holds it. */
  lemma RemovalRemovesOne(tokens: seq<string>, token: string)
    requires |tokens| > 0
    ensures multiset(SpliceOut(tokens, RemovalIndex(tokens, token)))
         == multiset(tokens) - multiset{tokens[RemovalIndex(tokens, token)]}
    ensures token in tokens ==>
              multiset(SpliceOut(tokens, RemovalIndex(tokens, token)))[token] == multiset(tokens)[token] - 1
  {
    var idx := RemovalIndex(tokens, token);
    assert tokens == tokens[..idx] + [tokens[idx]] + tokens[idx + 1..];
    assert SpliceOut(tokens, idx) == tokens[..idx] + tokens[idx + 1..];
  }

  class Store {
    var emails: seq<Email>
    var accounts: seq<Account>

    /** Every `email` edge of an account leads to an email node of the store. */
    ghost predicate Valid()
      reads this
    {
      forall j, k :: 0 <= j < |accounts| && 0 <= k < |accounts[j].emails| ==> accounts[j].emails[k] < |emails|
    }

    constructor (emails: seq<Email>, accounts: seq<Account>)
      ensures this.emails == emails && this.accounts == accounts
      ensures Valid() <==>
                forall j, k :: 0 <= j < |accounts| && 0 <= k < |accounts[j].emails| ==> accounts[j].emails[k] < |emails|
    {
      this.emails := emails;
      this.accounts := accounts;
    }

    /** The first email node with this address. */
    function FindEmail(address: string): Option<nat>
      reads this
    {
      FindFirst(emails, AddressIs(address))
    }

    /** The first email node carrying this verification token. */
    function FindEmailByToken(token: string): Option<nat>
      reads this
    {
      FindFirst(emails, VerificationTokenIs(token))
    }

    /** The first account with this uuid. */
    function FindAccount(uuid: string): Option<nat>
      reads this
    {
      FindFirst(accounts, UuidIs(uuid))
    }

    /** The first account with an `email` edge to email node `i`. */
    function FirstOwner(i: nat): Option<nat>
      reads this
    {
      FindFirst(accounts, HasEmailEdge(i))
    }

    /** The address is unknown, or its first email node is owned by some account. The
        password and uuid lookups read the first owner without checking that there is one. */
    predicate HasOwner(address: string)
      reads this
    {
      match FindEmail(address)
      case None => true
      case Some(i) => FirstOwner(i).Some?
    }

    /** The account owning the first email node with this address. */
    function OwnerOf(address: string): nat
      reads this
      requires HasOwner(address) && FindEmail(address).Some?
    {
      FirstOwner(FindEmail(address).value).value
    }

    /** The stored address of the first email node with this address. */
    function GetEmail(address: string): (r: Result<string>)
      reads this
      ensures r.Err? <==> forall k :: 0 <= k < |emails| ==> emails[k].address != address
      ensures r.Err? ==> r.error == CouldNotFindEmail
      ensures r.Ok? ==> r.value == address
    {
      match FindEmail(address)
      case None => Err(CouldNotFindEmail)
      case Some(i) => Ok(emails[i].address)
    }

    /** The password of the first account owning the first email node with this address. */
    function GetPasswordByEmail(address: string): (r: Result<string>)
      reads this
      requires HasOwner(address)
      ensures r.Err? <==> forall k :: 0 <= k < |emails| ==> emails[k].address != address
      ensures r.Err? ==> r.error == CouldNotFindEmail
      ensures r.Ok? ==> OwnerOf(address) < |accounts| && r.value == accounts[OwnerOf(address)].password
    {
      match FindEmail(address)
      case None => Err(CouldNotFindEmail)
      case Some(i) => Ok(accounts[FirstOwner(i).value].password)
    }

    /** The uuid of the first account owning the first email node with this address. */
    function GetUuidByEmail(address: string): (r: Result<string>)
      reads this
      requires HasOwner(address)
      ensures r.Err? <==> forall k :: 0 <= k < |emails| ==> emails[k].address != address
      ensures r.Err? ==> r.error == CouldNotFindEmail
      ensures r.Ok? ==> OwnerOf(address) < |accounts| && r.value == accounts[OwnerOf(address)].uuid
    {
      match FindEmail(address)
      case None => Err(CouldNotFindEmail)
      case Some(i) => Ok(accounts[FirstOwner(i).value].uuid)
    }

    /** The email addresses of the first account with this uuid, in edge order. */
    method GetAllEmailsByUuid(uuid: string) returns (r: Result<seq<string>>)
      requires Valid()
      ensures r.Err? <==> forall j :: 0 <= j < |accounts| ==> accounts[j].uuid != uuid
      ensures r.Err? ==> r.error == CouldNotFindUuid
      ensures r.Ok? ==>
                && FindAccount(uuid).Some?
                && |r.value| == |accounts[FindAccount(uuid).value].emails|
                && forall k :: 0 <= k < |r.value| ==>
                     r.value[k] == emails[accounts[FindAccount(uuid).value].emails[k]].address
    {
      var found := FindAccount(uuid);
      if found.None? {
        return Err(CouldNotFindUuid);
      }
      var edges := accounts[found.value].emails;
      var ret := new string[|edges|];
      var i := 0;
      while i < |edges|
        invariant 0 <= i <= |edges|
        invariant forall k :: 0 <= k < i ==> ret[k] == emails[edges[k]].address
      {
        ret[i] := emails[edges[i]].address;
        i := i + 1;
      }
      return Ok(ret[..]);
    }

    /** The organisations inviting the first email node with this address (an unknown address
        is reported with the message "couldn't find uuid"). */
    function InviteOrganisations(address: string): (r: Result<seq<string>>)
      reads this
      ensures r.Err? <==> forall k :: 0 <= k < |emails| ==> emails[k].address != address
      ensures r.Err? ==> r.error == CouldNotFindUuid
      ensures r.Ok? ==> FindEmail(address).Some? && r.value == Organisations(emails[FindEmail(address).value].invites)
    {
      match FindEmail(address)
      case None => Err(CouldNotFindUuid)
      case Some(i) => Ok(Organisations(emails[i].invites))
    }

    /** One organisation uuid per invitation of the email, in invitation order. */
    method GetInviteOrganizationsByEmail(address: string) returns (r: Result<seq<string>>)
      ensures r == InviteOrganisations(address)
    {
      var found := FindEmail(address);
      if found.None? {
        return Err(CouldNotFindUuid);
      }
      var all := emails[found.value].invites;
      var invites: seq<string> := [];
      for i := 0 to |all|
        invariant |invites| == i
        invariant forall k :: 0 <= k < i ==> invites[k] == all[k].organisation
      {
        invites := invites + [all[i].organisation];
      }
      assert invites == Organisations(all);
      return Ok(invites);
    }

    /** Mark the first email carrying the token as verified at the given time; nothing else
        changes, and an unknown token changes nothing. */
    method VerifyEmailByToken(token: string, verificationTime: Time) returns (r: Result<()>)
      modifies this
      ensures old(Valid()) ==> Valid()
      ensures old(FindEmailByToken(token)).None? ==>
                r == Err(CouldNotFindToken) && unchanged(this)
      ensures old(FindEmailByToken(token)).Some? ==>
                var i := old(FindEmailByToken(token)).value;
                && r == Ok(())
                && emails == old(emails)[i := old(emails)[i].(verifiedAt := Some(verificationTime))]
                && accounts == old(accounts)
    {
      var found := FindEmailByToken(token);
      if found.None? {
        return Err(CouldNotFindToken);
      }
      var record := emails[found.value];
      record := record.(verifiedAt := Some(verificationTime));
      emails := emails[found.value := record];
      return Ok(());
    }

    /** Set the password of the first account owning the email; nothing else changes, and an
        unknown address changes nothing. */
    method ChangePasswordForEmail(address: string, password: string) returns (r: Result<()>)
      requires HasOwner(address)
      modifies this
      ensures old(Valid()) ==> Valid()
      ensures old(FindEmail(address)).None? ==>
                r == Err(CouldNotFindEmail) && unchanged(this)
      ensures old(FindEmail(address)).Some? ==>
                var j := old(OwnerOf(address));
                && r == Ok(())
                && emails == old(emails)
                && accounts == old(accounts)[j := old(accounts)[j].(password := password)]
    {
      var found := FindEmail(address);
      if found.None? {
        return Err(CouldNotFindEmail);
      }
      var owner := FirstOwner(found.value).value;
      var user := accounts[owner];
      user := user.(password := password);
      accounts := accounts[owner := user];
      return Ok(());
    }

    /** Remove a token from the first account: with `dropAll` every token, otherwise the
        first token equal to `token`, or the first token of all when none is equal. With no
        account at all nothing changes. */
    method RemoveJwtTokenByToken(token: string, dropAll: bool) returns (r: Result<()>)
      requires |accounts| == 0 || dropAll || |accounts[0].tokens| > 0
      modifies this
      ensures old(Valid()) ==> Valid()
      ensures old(|accounts|) == 0 ==>
                r == Err(CouldNotFindUsers) && unchanged(this)
      ensures old(|accounts|) > 0 ==>
                var tokens := old(accounts[0].tokens);
                && r == Ok(())
                && emails == old(emails)
                && accounts == old(accounts)[0 := old(accounts[0]).(tokens :=
                     if dropAll then [] else SpliceOut(tokens, RemovalIndex(tokens, token)))]
    {
      if |accounts| == 0 {
        return Err(CouldNotFindUsers);
      }
      var tokens := accounts[0].tokens;
      if !dropAll {
        var idx := 0;
        var i := 0;
        while i < |tokens|
          invariant 0 <= i <= |tokens|
          invariant forall k :: 0 <= k < i ==> tokens[k] != token
          invariant idx == 0
        {
          if tokens[i] == token {
            idx := i;
            break;
          }
          i := i + 1;
        }
        assert idx == RemovalIndex(tokens, token);
        tokens := tokens[..idx] + tokens[idx + 1..];
      } else {
        tokens := [];
      }
      var user := accounts[0];
      user := user.(tokens := tokens);
      accounts := accounts[0 := user];
      return Ok(());
    }

    /** Append a token to the token list of the first account with this uuid; nothing else
        changes, and an unknown uuid changes nothing. */
    method AddJwtTokenToUser(uuid: string, token: string) returns (r: Result<()>)
      modifies this
      ensures old(Valid()) ==> Valid()
      ensures old(FindAccount(uuid)).None? ==>
                r == Err(CouldNotFindUsers) && unchanged(this)
      ensures old(FindAccount(uuid)).Some? ==>
                var j := old(FindAccount(uuid)).value;
                && r == Ok(())
                && emails == old(emails)
                && accounts == old(accounts)[j := old(accounts)[j].(tokens := old(accounts)[j].tokens + [token])]
    {
      var found := FindAccount(uuid);
      if found.None? {
        return Err(CouldNotFindUsers);
      }
      var user := accounts[found.value];
      user := user.(tokens := user.tokens + [token]);
      accounts := accounts[found.value := user];
      return Ok(());
    }

    /** Assumed contract (the operation's body is not part of this model): revoke one session
        token. The first account holding the token loses the first copy of it; when no
        account holds it, nothing changes and the token is reported as unknown. */
    method DropJwtToken(token: string) returns (r: Result<()>)
      modifies this
      ensures old(Valid()) ==> Valid()
      ensures old(FindFirst(accounts, HoldsToken(token))).None? ==>
                r == Err(CouldNotFindToken) && unchanged(this)
      ensures old(FindFirst(accounts, HoldsToken(token))).Some? ==>
                var j := old(FindFirst(accounts, HoldsToken(token))).value;
                && token in old(accounts)[j].tokens
                && r == Ok(())
                && emails == old(emails)
                && accounts == old(accounts)[j := old(accounts)[j].(tokens :=
                     SpliceOut(old(accounts)[j].tokens, RemovalIndex(old(accounts)[j].tokens, token)))]
    {
      var holder := FindFirst(accounts, HoldsToken(token));
      if holder.None? {
        return Err(CouldNotFindToken);
      }
      var user := accounts[holder.value];
      user := user.(tokens := SpliceOut(user.tokens, RemovalIndex(user.tokens, token)));
      accounts := accounts[holder.value := user];
      return Ok(());
    }

    /** Assumed contract (the operation's body is not part of this model): revoke every
        session token of the first account with this uuid; an unknown uuid changes nothing. */
    method DropAllTokensForUuid(uuid: string) returns (r: Result<()>)
      modifies this
      ensures old(Valid()) ==> Valid()
      ensures old(FindAccount(uuid)).None? ==>
                r == Err(CouldNotFindUsers) && unchanged(this)
      ensures old(FindAccount(uuid)).Some? ==>
                var j := old(FindAccount(uuid)).value;
                && r == Ok(())
                && emails == old(emails)
                && accounts == old(accounts)[j := old(accounts)[j].(tokens := [])]
    {
      var found := FindAccount(uuid);
      if found.None? {
        return Err(CouldNotFindUsers);
      }
      var user := accounts[found.value];
      user := user.(tokens := []);
      accounts := accounts[found.value := user];
      return Ok(());
    }
  }
}
