# Authentication service: a verified model

The authentication service of aCubed keeps accounts, their email addresses, the
organisations that invited those addresses, and the session tokens issued to each
account. Its gRPC handlers check whether an email is registered and list an account's
invitations. They register an invited email by storing a bcrypt hash, log in by comparing
that hash and issuing an HS256-signed JSON Web Token, activate an email by its
verification token, and revoke session tokens.

The model has four modules:

- `Outcomes` (`outcomes.dfy`): `Option`, `Result`, and one `Error` constructor per error
  value the Go code builds.
- `AccountStore` (`db.dfy`): the graph database as an in-memory `Store` class. It holds a
  sequence of email nodes and a sequence of accounts, and each account's `email` edges are
  positions in the email sequence. A query yields the matching records in store order and
  the code reads the first (`FindFirst`). Every lookup and update in `db.go` is a function
  or method of `Store`. The lookups that read through the reverse `~email` edge take the
  first owner without checking that there is one (`User[0]`). The model turns that into the
  precondition `HasOwner`. `Store.Valid` says that every `email` edge leads to an email
  node. The constructor establishes it exactly when the given edges are in range, and every
  store update and every handler that changes the store keeps it.
- `Jwt` (`token.dfy`): compact-serialization tokens. The JSON, base64url and HMAC layers
  are an opaque `Codec`. Modelled are the segment splitting, the parser behaviour the
  service relies on (segment count, header and claims decoding, a registered algorithm,
  claims validation against the clock, signature check) and the service's own extra
  check that the token is valid and uses HS256.
- `Service` (`server.go`'s handlers, `server.dfy`): each handler is a method over a `Store`,
  a `Bcrypt` value (opaque hash generation and comparison) and, where tokens are involved,
  a `Codec` and the current time.

`Scenarios` (`scenarios.dfy`) chains handlers and proves the outcome from their contracts
alone.

Behaviour reproduced from the code:

- Registration ignores both lookup errors. An unknown address reads as "no password" and
  "no invitations".
- Registration hashes the password it read from the store, not the requested one (see
  Findings).
- Single-token removal cuts out the first token of the list when none matches.
- Decoding never consults the store. A revoked token still decodes until it is rejected
  for other reasons.
- The invitation lookup reports an unknown address as "couldn't find uuid".
- Email matching is exact.

## Model

| member | source | states |
|---|---|---|
| AccountStore.FindFirst | db.go:56-60 | the result is absent exactly when no record matches; otherwise it is the position of a match with no match before it |
| AccountStore.FindFirstAgrees | db.go:56-60 | which record a query picks depends only on which records match, so an update that keeps the matching pattern keeps the pick |
| AccountStore.Organisations | db.go:244-247 | one organisation uuid per invitation, in invitation order |
| AccountStore.SpliceOut | db.go:398 | cutting out position idx keeps everything before it and shifts everything after it down by one |
| AccountStore.RemovalIndex | db.go:390-397 | the first token equal to the given one when there is one, and position 0 when there is none |
| AccountStore.RemovalRemovesOne | db.go:390-398 | a single-token removal takes away exactly one token (as a multiset), and that is one copy of the given token when the list holds it |
| AccountStore.Store.GetEmail | db.go:29-61 | fails with "couldn't find email" exactly when no email node has the address; otherwise returns that address |
| AccountStore.Store.GetPasswordByEmail | db.go:159-201 | fails with "couldn't find email" exactly when the address is unknown; otherwise returns the password of the first account owning the first node with that address |
| AccountStore.Store.GetUuidByEmail | db.go:251-289 | the same lookup, returning the owner's uuid |
| AccountStore.Store.GetAllEmailsByUuid | db.go:115-157 | fails with "couldn't find uuid" exactly when no account has the uuid; otherwise returns the addresses of the first such account's email nodes, one per edge in edge order |
| AccountStore.Store.InviteOrganisations | db.go:203-249 | fails with "couldn't find uuid" exactly when the address is unknown; otherwise returns the organisations of the first node's invitations |
| AccountStore.Store.GetInviteOrganizationsByEmail | db.go:240-248 | the loop that collects the organisations computes exactly InviteOrganisations |
| AccountStore.Store.VerifyEmailByToken | db.go:63-113 | an unknown verification token fails with "couldn't find token" and changes nothing; otherwise only the first matching email gets verifiedAt set to the given time |
| AccountStore.Store.ChangePasswordForEmail | db.go:291-344 | an unknown address fails with "couldn't find email" and changes nothing; otherwise only the first owner's password changes |
| AccountStore.Store.RemoveJwtTokenByToken | db.go:347-415 | with no account it fails with "couldn't find users" and changes nothing; otherwise only the first account's tokens change, to none with dropAll and else to the list with RemovalIndex cut out |
| AccountStore.Store.AddJwtTokenToUser | db.go:418-474 | an unknown uuid fails with "couldn't find users" and changes nothing; otherwise only the first account with the uuid changes, by appending the token |
| AccountStore.Store.DropJwtToken | server.go:120-123 | assumed contract: the first account holding the token loses its first copy; otherwise it fails with "couldn't find token" and changes nothing |
| AccountStore.Store.DropAllTokensForUuid | server.go:125-132 | assumed contract: the first account with the uuid loses all its tokens; otherwise it fails with "couldn't find users" and changes nothing |
| Service.IsEmailRegistered | server.go:18-25 | an unknown address is an error, never a negative answer; a success always says registered and gives the owner's uuid |
| Service.InvitesOfFails | server.go:35-43 | gathering invitations over a list of addresses succeeds exactly when every address's invitation lookup succeeds |
| Service.InvitesOfLength | server.go:40-42 | the gathered list is not deduplicated: its length is the total number of invitations of all the addresses |
| Service.InvitesOfNext | server.go:35-42 | one more address extends the gathered list by that address's organisations, or turns it into that address's error |
| Service.InvitesOfErrorStays | server.go:36-39 | once an address fails, the whole gathering fails with that first error |
| Service.AccountInvitesFound | server.go:29-43 | gathering over an account's own addresses never fails, since each of them is the address of an email node |
| Service.AppendEach | server.go:40-42 | the inner loop appends the organisations in order, so the result is the old list followed by them |
| Service.CollectInvites | server.go:34-43 | the outer loop over known addresses computes exactly the gathered invitations InvitesOf |
| Service.GetInvites | server.go:27-48 | fails with "couldn't find uuid" exactly when no account has the uuid; otherwise returns the concatenated invitations of the first such account's addresses, in address order |
| Service.Register | server.go:50-78 | as written: refuses with no change when a password is stored, when there are no invitations, or when hashing fails; succeeds exactly otherwise, and then sets only the owner's password to the hash of the password read from the store |
| Service.RegisterWithRequestPassword | server.go:50-78 | the same refusals; on success only the owner's password changes, to the hash of the requested password |
| Service.Login | server.go:80-109 | an unknown address or a non-matching password fails and changes nothing; it succeeds exactly otherwise, returning the token created for the owner's uuid at the given time and appending it to that account's tokens only |
| Service.ActivateEmail | server.go:111-118 | only the first email carrying the verification token is marked verified at the given time; an unknown token changes nothing |
| Service.DropSingleToken | server.go:120-123 | the first account holding the token loses one copy of it; otherwise it fails and changes nothing |
| Service.DropAllTokens | server.go:125-132 | a token the decoder rejects fails with the decoder's error and changes nothing; otherwise the first account with the decoded uuid loses all its tokens |
| Jwt.Split | token.go:28-30 | splitting at '.' yields dot-free pieces that join back to the input |
| Jwt.SplitPrefix | token.go:28-30 | a dot-free first segment splits off as the first piece |
| Jwt.SplitWhole | token.go:28-30 | a dot-free string is one piece |
| Jwt.SplitJoin | token.go:28-30 | splitting undoes joining dot-free segments |
| Jwt.CreateToken | token.go:17-25 | the token signs the issued claims (the uuid and the issue time) under the HS256 header with the fixed secret: under a lawful codec its segments decode to that header and those claims, and the third is their MAC under the secret; it decodes back to those claims (see Jwt.CreateDecodeRoundTrip) |
| Jwt.SignedStringSegments | token.go:24 | under a lawful codec a signed token splits into exactly its header, claims and signature segments |
| Jwt.ParseWithClaims | token.go:28-34 | a token the parser returns is marked valid and is the input string |
| Jwt.DecodeToken | token.go:27-46 | a parse error is passed through unchanged; a token is accepted exactly when it has three segments, an HS256 header, claims that decode and validate at the given time, and the HS256 MAC under the secret; an accepted token yields exactly its payload's claims |
| Jwt.AlgorithmSubstitutionRejected | token.go:41-43 | a token correctly signed under the secret with HS384 or HS512 passes the parser but is rejected with "failed to verify token" |
| Jwt.OnlyHs256Accepted | token.go:41-43 | a token whose header names another algorithm is never accepted |
| Jwt.ForeignKeyRejected | token.go:28-34 | a token signed under a key whose MAC differs from the secret's is rejected by the parser and the decoder |
| Jwt.CreateDecodeRoundTrip | token.go:17-46 | a created token decodes exactly when the clock has reached its issue time, and then to the issued claims with the uuid it was created for |
| Scenarios.RegisterThenLoginAsWritten | server.go:56-91 | after registering with "pw1" as written, logging in with "pw1" fails with "incorrect password" and logging in with the empty password succeeds |
| Scenarios.RegisterThenLogin | server.go:50-109 | with the corrected registration and a sound hasher, logging in with the registered password succeeds and the token decodes to the owner's uuid |
| Scenarios.LoginWithoutPassword | server.go:80-91 | when bcrypt rejects the empty stored hash, login to an account with no password fails with "incorrect password" for every password and changes nothing |
| Scenarios.RegisterTwice | server.go:56-59 | with the corrected registration, a second registration of the same address is refused as already registered, and only the first one's hash is stored |
| Scenarios.LoginThenDropAll | server.go:80-132 | dropping all tokens with a freshly issued token leaves that account with no tokens, and the revoked token still decodes |

## Left out

- The Dgraph client, query text, JSON decoding of responses, transactions and mutation
  encoding: the store is in memory and an update replaces the record's fields. Storage
  and decoding errors are not modelled. So a per-address invitation lookup inside
  GetInvites cannot fail in the model (see Service.AccountInvitesFound).
- AccountStore.Store.RemoveJwtTokenByToken: the removal query of db.go:351-361 has a root
  block `user` with no root function and a `func:` argument on the nested token edge; as
  written it selects no definite account. The model's choice is to take the first account
  of the store and its whole token list. That choice makes the index-0 quirk of
  db.go:391-398 reachable: when the first account does not hold the token, its first token
  is cut out, even if a later account holds the token. Also not modelled: a mutation with a
  shorter token list does not delete the old token edges in Dgraph (db.go:387).
- AccountStore.Store.GetPasswordByEmail, GetUuidByEmail, ChangePasswordForEmail and the
  handlers that use them require `HasOwner`. In Go, an email node with no owning account
  makes `User[0]` panic; the model excludes that case rather than modelling a crash.
- AccountStore.Store.RemoveJwtTokenByToken requires a non-empty token list for a
  single-token removal, for the same reason: `tokens[idx+1:]` panics on an empty list.
- AccountStore.Store.DropJwtToken and AccountStore.Store.DropAllTokensForUuid: their Go
  bodies are not part of the available source, so their contracts are assumed from their
  names and their call sites.
- bcrypt: hashing and comparison are opaque functions of a `Bcrypt` value; salts, the cost
  parameter's effect and hash format are not modelled.
- Scenarios.LoginWithoutPassword: that an account with no password cannot log in rests on
  bcrypt refusing a stored hash too short to be a hash (the empty string matches no
  password). This is the assumption `RejectsEmptyHash`, not a property the `Bcrypt` value
  is proved to have.
- JSON, base64url and HMAC-SHA256 are opaque functions of a `Codec`. Non-canonical base64
  signatures, JSON duplicate keys and the `aud`/`iss` claims are not modelled, and nor are
  the RSA, ECDSA and "none" verifiers beyond "they reject a byte-string key".
- The claims type assertion (token.go:36-39) always succeeds, because the parser is given a
  `*JwtClaims`; it is not modelled.
- CreateToken's signing error cannot arise with an HMAC key and is not modelled.
- `time.Now()` is a parameter (`now`) of Login, ActivateEmail, DecodeToken and
  DropAllTokens.
- Logging, `context.Context` arguments, gRPC request and reply wrappers, concurrency, and
  main.go (server start-up and the test client).
- Jwt.ParseWithClaims models only the library behaviour the service depends on; its own
  contract is weak, and its behaviour is pinned down through Jwt.DecodeToken's contract.

## Findings

| source | as written | input that shows it | evidently intended | confidence | as-written member | corrected member |
|---|---|---|---|---|---|---|
| server.go:67 | registration hashes `pass`, the stored password it has just checked to be empty | an invited email whose account has no password registers with "pw1"; logging in with "pw1" then fails with "incorrect password" and logging in with "" succeeds | hash the requested password `req.Password` | not executed | Scenarios.RegisterThenLoginAsWritten | Service.RegisterWithRequestPassword |
