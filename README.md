# simplebank in Dafny

A model of the core of simplebank, a small Go banking back end. The model covers:

- **The money-transfer transaction** of the store (`db/sqlc/store.go`). One `TransferTx` inserts a transfer row, then inserts the two entries, then moves both balances (lower account id first). It commits, or rolls everything back.
- **The access-token layer** (`token/`): the payload with its expiry check, the PASETO v2.local maker, and the HS256 JWT maker.
- **The HTTP handlers** (`api/`):
  - the bearer-token middleware;
  - token renewal;
  - transfers;
  - users and login;
  - accounts and pagination.
- **Two parts of the gRPC server** (`gapi/`): LoginUser and the extraction of the caller's metadata.
- **The test-data generators** (`db/util/random.go`).

Modules follow the Go files:

| module | file | models |
|---|---|---|
| `Common` | common.dfy | `Option`, `Result`, bytes, time, uuids |
| `Codec` | codec.dfy | an injective text encoding, standing in for JSON and the token wire formats |
| `TokenPayload` | payload.dfy | `token/payload.go` |
| `Paseto` | paseto.dfy | `token/paseto_maker.go` |
| `Jwt` | jwt.dfy | `token/jwt_maker.go` |
| `TokenMaker` | maker.dfy | the `token.Maker` interface |
| `Ledger` | ledger.dfy | accounts, entries, transfers, and the balance arithmetic of a transfer as functions, with its lemmas |
| `Db` | db.dfy | the store: a class whose fields are the tables; `TransferTx`, `execTx` and `addMoney` are methods on it |
| `ApiServer` | apiserver.dfy | `api/server.go` and the gin request context (a class) the handlers write to |
| `ApiMiddleware` | middleware.dfy | `api/middleware.go` |
| `ApiToken` | apitoken.dfy | `api/token.go` |
| `ApiTransfer` | transfer.dfy | `api/transfer.go` |
| `ApiUser` | user.dfy | `api/user.go` |
| `ApiAccount` | account.dfy | `api/account.go` |
| `GapiMetadata` | metadata.dfy | `gapi/metadata.go` |
| `GapiLogin` | gapilogin.dfy | `gapi/rpc_login_user.go` |
| `RandomUtil` | random.dfy | `db/util/random.go` |

What the code meets from outside is passed in:

- **Clock readings:** `now`. `NewPayload` takes two readings, one for `IssuedAt` and one for `ExpiredAt`. The JWT verifier takes three: the validator's `now`; `nbfClock`, which `GetNotBefore` reads for `nbf`; and `claimsClock`, which the payload's own `Validate` reads when the library calls it as the claims' validator. `renewToken` reads the clock once more for its expiry gate (`gateClock`).
- **Uuid generation:** `Option<Uuid>`, where `None` means it failed.
- **Sealing or signing failures:** a flag.
- **Database faults:** an `Option<DbError>` per statement.
- **A failed JSON binding:** a `None` request.
- **Password hashing and checking:** an outcome and a predicate.

A Go runtime panic in a handler sets `panicked` on the context, and the handler stops there.

A handler that writes an error and does not `return` is modelled as written: the context records every `ctx.JSON` call, in order. In `renewToken`, a username mismatch or an expired session calls `ctx.JSON` with 403 and then once more with 200 and a fresh access token. gin keeps the first status on the wire and appends the second body, so the client receives a 403 whose body carries the error followed by the fresh token. In `loginUser`, a failure to mint a token writes 500 and then dereferences a nil payload, which panics. `createUser` writes the hashing error with status 500 and then inserts the user with an empty hash; the response stays a 500.

Where the code differs from what its comments or its tests suggest, the model follows the code:

- **`getAccount` owner mismatch** (`api/account.go:68-70`): the handler calls `errorResponse(err)` with `err == nil`, so `err.Error()` panics. No 401 is written and the account is never written to another user.
- **`TransferTx` checks neither the amount's sign nor whether the two accounts are the same.** A self-transfer takes the `else` branch and nets out on that account.
- **`CreateToken`'s result:** both makers' `CreateToken` return `(string, error)`, while the callers destructure `(token, payload, err)`. The model gives `CreateToken` that three-value shape. The payload is the one `NewPayload` built.
- **`listAccount` offset:** the offset is computed in `int32`. It wraps for large page ids, and the negative offset then fails the query (see `ApiAccount.LargePageWraps`).

## Model

| member | source | states |
|---|---|---|
| `TokenPayload.NewPayload` | token/payload.go:20-31 | a uuid failure is the only error; otherwise the payload has the generated id, the username, `IssuedAt` = the first clock reading and lifetime = duration plus the gap between the two readings |
| `TokenPayload.Validate` | token/payload.go:33-38 | `ErrExpiredToken` exactly when the clock is strictly after `ExpiredAt`; at `ExpiredAt` itself it passes |
| `TokenPayload.LifetimeAtLeastDuration` | token/payload.go:20-38 | with a clock that does not run backwards, a fresh payload still validates at every instant up to issue time + duration |
| `TokenPayload.NegativeDurationExpired` | token/payload.go:29-35 | a payload made with a negative duration fails Validate with `ErrExpiredToken` at every instant from NewPayload's second clock reading on |
| `TokenPayload.DecPayloadEnc` | token/payload.go:13-18 | the serialized payload decodes back to the same id, username and times |
| `Paseto.NewPasetoMaker` | token/paseto_maker.go:16-24 | the maker is built exactly when the key is 32 bytes long, and keeps that key |
| `Paseto.DecryptEncrypt` | token/paseto_maker.go:31-41 | opening a sealed payload with the same key gives back the payload |
| `Paseto.DecryptWrongKey` | token/paseto_maker.go:31-44 | opening with any other key fails |
| `Paseto.CreateToken` | token/paseto_maker.go:26-36 | fails exactly when the uuid or the sealing fails, with that error; otherwise returns the payload `NewPayload` built and a token that opens to it under the maker's key |
| `Paseto.VerifyToken` | token/paseto_maker.go:38-52 | decrypt then validate: a token that does not open is refused; one that opens is accepted exactly when it has not expired, and then yields the sealed payload |
| `Paseto.RoundTrip` | token/paseto_maker.go:26-52 | a token just created verifies, until its expiry, to its payload, with the same username |
| `Paseto.ExpiredTokenRejected` | token/paseto_maker.go:47-50 | a token made with a negative duration is refused as expired |
| `Paseto.OtherKeyRejected` | token/paseto_maker.go:41-44 | a token created under one key does not verify under another |
| `Jwt.NewJWTMaker` | token/jwt_maker.go:15-25 | refused exactly when the secret is shorter than 30 bytes; otherwise keeps the secret |
| `Jwt.GetExpirationTime` | token/jwt_maker.go:33-35 | `exp` is `ExpiredAt` truncated to the second |
| `Jwt.GetNotBefore` | token/jwt_maker.go:38-40 | `nbf` is the clock reading the getter is given (its own `time.Now()`) truncated to the second: exactly `NumericDate(now)`, at most that reading and less than a second before it |
| `Jwt.GetIssuedAt` | token/jwt_maker.go:43-45 | `iat` is `IssuedAt` truncated to the second |
| `Jwt.GetIssuer` | token/jwt_maker.go:48-50 | the issuer is the constant "none" |
| `Jwt.GetAudience` | token/jwt_maker.go:53-55 | the audience is the constant ["none"] |
| `Jwt.GetSubject` | token/jwt_maker.go:58-60 | the subject is the constant "none" |
| `Jwt.NotBeforeRefusesAcrossSecond` | token/jwt_maker.go:38-40 | because `nbf` is a second reading of the clock, the not-before check refuses exactly when that reading falls in a later second than the validator's `now` |
| `Jwt.FreshTokenNotValidYet` | token/jwt_maker.go:38-97 | even with the corrected verifier, a fresh token checked at the last nanosecond of a second, with `nbf` read 2 ns later, is refused with `ErrTokenInvalidClaims` whose only cause is not-valid-yet |
| `Jwt.NotValidYetRefused` | token/jwt_maker.go:38-97 | a fresh token whose `exp` and payload checks pass is refused with `ErrTokenInvalidClaims` whose only cause is not-valid-yet, whenever the `nbf` reading falls in a later second than `now` |
| `Jwt.ClaimsErrors` | token/jwt_maker.go:28-40 | the claims checks the validator runs after the signature: `exp` fails exactly when `now` has reached it, `nbf` exactly when `now` is before it, and the `Validate` method RegClaims takes from its embedded Payload exactly when it fails at its own clock reading; each cause appears at most once |
| `Jwt.ClaimsClockAfterExpiry` | token/jwt_maker.go:28-97 | a token whose `exp` (truncated to the second) is still ahead of `now` is refused with `ErrTokenInvalidClaims` wrapping `ErrExpiredToken` when the payload's own check reads the clock after `ExpiredAt` |
| `Jwt.VerifyCreated` | token/jwt_maker.go:62-97 | a token the maker created verifies, with the corrected holder, to its payload exactly when no claims check fails, and otherwise fails with `ErrTokenInvalidClaims` joining the failed checks |
| `Jwt.SignedString` | token/jwt_maker.go:68-69 | signing fails only when the signer fails; a signed token is non-empty and free of white space |
| `Jwt.SplitSigned` | token/jwt_maker.go:68-79 | parsing a signed token gives back its algorithm, its claims and the MAC of the signing input |
| `Jwt.KeyFunc` | token/jwt_maker.go:79-87 | the key function refuses every non-HMAC method with `ErrInvalidToken` and otherwise returns the maker's secret |
| `Jwt.ParseWithClaims` | token/jwt_maker.go:75-90 | a by-value claims holder fails the claims decode with `ErrTokenMalformed` before any other check; a parse succeeds only for an HS256 token whose signature is the MAC of its header and claims under the maker's secret, and whose claims checks all pass; otherwise the failed claims checks are joined under `ErrTokenInvalidClaims`. On success `exp` lies after `now`, the payload's own expiry has not passed at its clock reading, and the caller's holder is refilled with the token's claims |
| `Jwt.CreateToken` | token/jwt_maker.go:62-71 | fails exactly when the uuid or the signing fails; otherwise the token parses to HS256, the payload's claims and the MAC under the secret |
| `Jwt.VerifyToken` | token/jwt_maker.go:73-97 | as written: every token is refused with `ErrTokenMalformed` from the claims decode, so the `*RegClaims` assertion is never reached |
| `Jwt.FreshTokenRefused` | token/jwt_maker.go:77-95 | as written, a token the same maker has just created, which the corrected verifier accepts, is refused with `ErrTokenMalformed` |
| `Jwt.VerifyTokenByPointer` | token/jwt_maker.go:73-97 | corrected, with a `*RegClaims` passed to the parser: accepted exactly when the parse is, and then yields the token's payload; otherwise the parse's error |
| `Jwt.RoundTripByPointer` | token/jwt_maker.go:62-97 | corrected: a token just created verifies to its payload before its expiry second, when the `nbf` reading falls in a second begun by `now` and the payload check reads the clock no later than `ExpiredAt` |
| `Jwt.ExpiredClaimsRefused` | token/jwt_maker.go:33-35 | once the clock reaches `exp`, the token is refused with `ErrTokenInvalidClaims` and the expired-`exp` check is among its causes |
| `Jwt.OnlyHS256Accepted` | token/jwt_maker.go:75 | a token signed with any other registered algorithm is refused with `ErrTokenSignatureInvalid` |
| `Jwt.UnregisteredUnverifiable` | token/jwt_maker.go:75-79 | a token whose `alg` names no registered signing method is refused as unverifiable |
| `Jwt.OtherSecretRefused` | token/jwt_maker.go:79-87 | a token signed under another secret is refused |
| `TokenMaker.CreateToken` | token/paseto_maker.go:26-36 | whichever maker: fails exactly when the uuid or the sealing fails; otherwise the payload is the one `NewPayload` built for the username, and the token contains no white space |
| `TokenMaker.VerifyToken` | token/paseto_maker.go:38-52 | the PASETO maker verifies as `Paseto.VerifyToken`, the JWT maker as the corrected `Jwt.VerifyTokenByPointer`; a payload is returned only while it has not expired (for the JWT maker, at each of the two readings that check expiry) |
| `TokenMaker.RoundTrip` | token/paseto_maker.go:26-52 | with either maker, a token just created verifies to its payload before it expires (for the JWT maker, the corrected verifier with an `nbf` reading in a second begun by `now` and a payload-check reading no later than `ExpiredAt`) |
| `Ledger.Neg64` | db/sqlc/store.go:77 | `-amount` in int64: the negation, except that it wraps back to MinInt64 at MinInt64 |
| `Ledger.EntriesDoNotCancelAtMinInt64` | db/sqlc/store.go:75-85 | at amount = MinInt64 the two entries do not cancel out |
| `Ledger.Credit` | db/sqlc/store.go:111-122 | AddAccountBalance: one balance moves by the delta, and every other account is unchanged |
| `Ledger.CreditCommutes` | db/sqlc/store.go:89-94 | the two balance updates give the same table in either order |
| `Ledger.TotalCredit` | db/sqlc/store.go:111-122 | moving one balance by `d` moves the bank's total by `d` |
| `Ledger.UpdateOrder` | db/sqlc/store.go:89-94 | the balances are updated lower id first when from < to, and otherwise `to` first; the order covers exactly the two ids |
| `Ledger.Updates` | db/sqlc/store.go:89-94 | the (id, delta) pairs handed to addMoney; their ids follow the update order, lower id first |
| `Ledger.UpdatesArePair` | db/sqlc/store.go:89-94 | whichever branch is taken, the updates are exactly (from, -amount) and (to, +amount) |
| `Ledger.ApplyUpdates` | db/sqlc/store.go:89-94 | applying the updates in lock order gives the same table as debit-then-credit |
| `Ledger.TransferBalances` | db/sqlc/store.go:61-102 | after a transfer, `from` has lost the amount and `to` has gained it; a self-transfer leaves that account as it was; nothing else changes |
| `Ledger.TransferConserves` | db/sqlc/store.go:61-102 | a transfer leaves the sum of all balances unchanged |
| `Ledger.RepeatedTransfers` | db/sqlc/store.go:61-102 | n transfers of `amt` from A to B leave A at A0 - n*amt and B at B0 + n*amt |
| `Ledger.TransferThenBack` | db/sqlc/store.go:61-102 | a transfer followed by the reverse transfer restores the table |
| `Ledger.AlternatingTransfers` | db/sqlc/store.go:61-102 | an even number of transfers alternating in direction leaves every balance unchanged |
| `Ledger.FiveTransfersOfHundred` | db/sqlc/store.go:61-102 | five transfers of 100 from an account holding 1000 to one holding 500 leave them at 500 and 1000 |
| `Db.UpdateError` | db/sqlc/store.go:111-122 | an update fails on a fault, on a missing row (`ErrNoRows`) or on a sum outside int64 (`NumericOutOfRange`) |
| `Db.MissingAccountFails` | db/sqlc/store.go:89-97 | without faults, a transfer involving a missing account fails, with `ErrNoRows` (or an overflow on the other account's update), and with `ErrNoRows` when both are missing |
| `Db.TransferGoesThrough` | db/sqlc/store.go:61-102 | without faults, a transfer between existing accounts whose new balances fit int64 goes through |
| `Db.OwnedBelow` | api/account.go:89-93 | the owner's accounts below an id, each taken from the table, in increasing id order, and all of them |
| `Db.Page` | api/account.go:89-93 | LIMIT/OFFSET: at most `limit` rows, starting `offset` rows in |
| `Db.Store.GetAccount` | api/transfer.go:64 | the row under the id, `ErrNoRows` when there is none, or the fault |
| `Db.Store.GetUser` | api/user.go:111 | the row under the username, `ErrNoRows` when there is none, or the fault |
| `Db.Store.GetSession` | api/token.go:38 | the row under the session id, `ErrNoRows` when there is none, or the fault |
| `Db.Store.ListAccounts` | api/account.go:89-93 | fails on a fault or a negative limit or offset; otherwise exactly the page at `offset` of at most `limit` of the owner's accounts, in increasing id order |
| `Db.Store.CreateAccount` | api/account.go:27-31 | a new row under the next id, which was free; nothing else changes |
| `Db.Store.CreateUser` | api/user.go:42-47 | a new row under a username that was free, with `password_changed_at` at the zero time and `created_at` at the insert's clock; or `UniqueViolation` (or the fault) and no change |
| `Db.Store.CreateSession` | api/user.go:141-149 | a new row under a session id that was free, or `UniqueViolation` and no change |
| `Db.Store.CreateTransfer` | db/sqlc/store.go:67-74 | appends the transfer row {from, to, amount}, numbered after the existing rows |
| `Db.Store.CreateEntry` | db/sqlc/store.go:75-88 | appends one entry row for the account and amount, numbered after the existing rows |
| `Db.Store.AddAccountBalance` | db/sqlc/store.go:111-122 | credits the balance and logs the id in the update trace, or fails and changes nothing |
| `Db.Store.AddMoney` | db/sqlc/store.go:104-124 | addMoney: the first failing update stops it; otherwise both balances are moved, in argument order |
| `Db.Store.UpdateBalances` | db/sqlc/store.go:89-97 | the balance step of TransferTx: fails exactly when an update would; otherwise the table is the transfer applied, and the accounts are returned as (from, to) |
| `Db.Store.TransferBody` | db/sqlc/store.go:63-99 | the function run inside the transaction: one transfer row, the two entries (-amount, +amount), then both balances lower id first, stopping at the first failure |
| `Db.Store.TransferTx` | db/sqlc/store.go:26-43 | execTx around the body: succeeds exactly when begin, the body and the commit do; on any failure the accounts, entries and transfers are what they were; a failing rollback reports both errors; the update trace is always a prefix of the lower-id-first order |
| `ApiServer.NewServer` | api/server.go:23-42 | a server is built exactly when the symmetric key is 32 bytes long, and its maker is always the PASETO maker under that key |
| `ApiServer.ProjectUser` | api/user.go:53-59 | the user response carries every column except the hashed password |
| `ApiServer.ProjectionHidesPassword` | api/user.go:22-28 | rows that differ only in their hash give the same response |
| `ApiMiddleware.Fields` | api/middleware.go:31 | strings.Fields: non-empty fields without white space |
| `ApiMiddleware.FieldsEmpty` | api/middleware.go:31-34 | a header has no fields exactly when it is all white space |
| `ApiMiddleware.SchemeAndToken` | api/middleware.go:31-42 | in "scheme sep token rest", the scheme is the first field and the token the second, whatever follows |
| `ApiMiddleware.BearerHeaderCarriesToken` | api/middleware.go:31-43 | the header "Bearer " + a token any maker created passes the scheme check and hands exactly that token to VerifyToken |
| `ApiMiddleware.ToLower` | api/middleware.go:36 | lowercases each ASCII letter and keeps every other character |
| `ApiMiddleware.BearerSchemes` | api/middleware.go:36-38 | "Bearer" and "BEARER" are accepted as the scheme and "basic" is not |
| `ApiMiddleware.AuthMiddleware` | api/middleware.go:19-53 | an empty header gives 401 and the abort, before any verification; no fields, or a bearer scheme with no token, panics; another scheme gives 401 and the abort; a token that fails to verify gives 401 and the abort; otherwise the payload is set under "auth_payload" and the chain continues |
| `ApiToken.UsernameGate` | api/token.go:56-59 | the 403 written without returning when the session's user differs |
| `ApiToken.ExpiryGate` | api/token.go:69-72 | the 403 written without returning when the clock is after the session's expiry |
| `ApiToken.MintAccess` | api/token.go:74-84 | a new access token for the user is written with its expiry as 200; a mint failure writes 500 and then panics |
| `ApiToken.MintWrite` | api/token.go:74-84 | the mint's response: 200 with the new token and its expiry exactly when the mint succeeds, otherwise 500 with the mint's error |
| `ApiToken.RenewWrites` | api/token.go:37-84 | every `ctx.JSON` call after a successful verification: a failed lookup writes only its 404 or 500; once the mint is reached its response is last, and the sequence is just that response exactly when the user matches and the session has not expired at the gate's reading; every earlier write is a 403; a 200 is last exactly when the mint is reached and succeeds |
| `ApiToken.RenewCalls` | api/token.go:37-74 | the session lookup under the payload's id, then the mint for the payload's user exactly when the lookup, blocked and stored-token gates pass |
| `ApiToken.SessionGates` | api/token.go:55-84 | for a found session that is not blocked: a differing stored token writes the username gate's 403 then its own 403 and mints nothing; otherwise the username gate, the expiry gate at `gateClock`, then the mint's response, and a panic exactly when the mint fails |
| `ApiToken.RenewForPayload` | api/token.go:37-85 | as written: the writes are exactly `RenewWrites` and the calls exactly `RenewCalls` for this lookup, token, expiry-gate reading and mint, and the handler panics exactly when the mint is reached and fails. For a mismatched user or an expired session, `ctx.JSON` is called with 403 and then with 200 and a fresh token |
| `ApiToken.RenewForPayloadGuarded` | api/token.go:37-85 | with the missing returns: exactly one response, and it is 200 only when the session exists, is not blocked, belongs to the user, holds the token, has not expired, and the mint succeeded |
| `ApiToken.LoginSessionPassesGates` | api/token.go:31-72 | the session a login stores for its refresh token passes verification, the username check, the token check and the expiry check while the token is live |
| `ApiToken.LateExpiryGateMints` | api/token.go:31-84 | the expiry gate reads the clock after verification did: a login session whose refresh token still verifies, checked at a gate reading past its expiry, gets a 403 and then a 200 with a fresh access token |
| `ApiToken.RenewToken` | api/token.go:21-85 | a request that does not bind gives 400; a refresh token that fails to verify gives 403 before any session lookup; otherwise the writes are exactly `RenewWrites` and the calls the verification followed by `RenewCalls`, with the expiry gate at its own clock reading, and a panic exactly when the mint is reached and fails |
| `ApiTransfer.ValidateStatus` | api/transfer.go:65-70 | a missing account gives 400, not 404; any other lookup error gives 500 |
| `ApiTransfer.TxStatus` | api/transfer.go:51-57 | only the bare `ErrNoRows` from TransferTx gives 404; every other error gives 500 |
| `ApiTransfer.ValidateAccount` | api/transfer.go:63-79 | valid exactly when the account is found and holds the currency; otherwise exactly one error write |
| `ApiTransfer.Transfer` | api/transfer.go:21-60 | balances change only if the request binds, both accounts hold its currency, the source belongs to the authenticated user and the transaction commits, and then by exactly the transfer; the source is checked before the destination; a missing payload panics; an owner mismatch gives 403 with no TransferTx; once every check passes, exactly one response is written, and it is 200 exactly when TransferTx commits, carrying the applied result |
| `ApiUser.CreateUser` | api/user.go:30-61 | a request that does not bind gives 400; a hashing failure writes 500 and the user is still inserted, with an empty hash; a new user gives 200 with its projection; an insert error gives 500 and no change |
| `ApiUser.GetUser` | api/user.go:63-85 | a missing payload panics; otherwise the authenticated user's own row, projected, or 404/500 |
| `ApiUser.NewSessionParams` | api/user.go:141-149 | the session row is keyed by the refresh payload's id, is not blocked, stores the refresh token, expires with it, and has client_ip and user_agent swapped |
| `ApiUser.SessionWrites` | api/user.go:151-153 | the 500 written without returning when the session cannot be stored |
| `ApiUser.StoreSession` | api/user.go:141-172 | the session is stored, or a 500 is written and the nil id kept; then a 200 with both tokens, their expiries and the user, or a panic when the access token is missing |
| `ApiUser.LoginWrites` | api/user.go:128-171 | every `ctx.JSON` call after the password check: a failed access mint writes its 500 first, a failed refresh mint writes its 500 last; a 200 is last exactly when both mints succeed, carrying both tokens, their expiries, the user and the session id (nil when the insert failed), after the insert's 500 if any |
| `ApiUser.LoginSessions` | api/user.go:134-153 | the sessions table after login: a session is added exactly when the refresh mint succeeds and the insert meets no fault and a free id; it is keyed by the refresh payload's id, holds the user and the refresh token, is not blocked and expires with the token; no stored session changes |
| `ApiUser.LoginCalls` | api/user.go:128-149 | the two mints, access then refresh, then the session insert exactly when there is a refresh token |
| `ApiUser.FinishLogin` | api/user.go:134-172 | after the refresh mint: the writes are the refresh part of `LoginWrites`, the sessions `LoginSessions`, the insert call is made exactly when there is a refresh token, and the handler panics exactly when a mint failed |
| `ApiUser.IssueTokens` | api/user.go:128-172 | the writes are exactly `LoginWrites`, the sessions `LoginSessions` and the calls `LoginCalls` for the two mints' outcomes; the handler panics exactly when a mint fails; a failed refresh mint panics before anything is stored; a failed access mint panics after the session is stored |
| `ApiUser.LoginUser` | api/user.go:101-172 | a request that does not bind gives 400; lookup gives 404 or 500; a wrong password gives 403; in these three cases nothing is minted or stored; with a matching password the outcome is that of IssueTokens after the lookup and password-check calls, so the session IS stored when the refresh mint succeeds and the insert meets no fault; a session is added only for a matching password and a minted refresh token, and it is the row built from that token |
| `ApiAccount.Wrap32` | api/account.go:92 | int32 two's-complement wrap-around: in range, and congruent to the exact value |
| `ApiAccount.CreateStatus` | api/account.go:33-42 | foreign-key and unique violations give 403; any other error gives 500 |
| `ApiAccount.ListOffset` | api/account.go:92 | (PageID - 1) * PageSize in int32: the exact product when it fits |
| `ApiAccount.FirstPageAtStart` | api/account.go:92 | page 1 starts at offset 0 |
| `ApiAccount.PagesAbut` | api/account.go:74-93 | without overflow, the offset is a non-negative multiple of the page size and the next page starts where this one ends |
| `ApiAccount.LargePageWraps` | api/account.go:75-92 | page 214748366 of size 10 binds, yet its int32 offset wraps to -2147483646 |
| `ApiAccount.CreateAccount` | api/account.go:17-45 | the account is owned by the token's user, starts at balance 0 in the requested currency, and leaves the bank's total unchanged; insert errors map to 403 or 500; a missing payload panics |
| `ApiAccount.TotalOpen` | api/account.go:27-31 | opening a zero-balance account leaves the sum of all balances unchanged |
| `ApiAccount.GetAccount` | api/account.go:51-72 | an id that does not bind gives 400 with no lookup; lookup gives 404 or 500; an account is written only to its owner, and for anyone else the handler panics |
| `ApiAccount.ListAccount` | api/account.go:79-99 | a request that does not bind gives 400; the listing asks for the token user's accounts with limit = PageSize and the int32 offset; 200 exactly when there is no fault and the offset is not negative; the page is then exactly that slice of the owner's accounts in id order |
| `GapiMetadata.Get` | gapi/metadata.go:29 | md.Get: the values under the key, none when it is absent |
| `GapiMetadata.FirstValue` | gapi/metadata.go:29-40 | only the first value of a key is used |
| `GapiMetadata.Latest` | gapi/metadata.go:24-47 | a run of overwrites leaves the last value set, or the initial one when none was set |
| `GapiMetadata.ExtractMetaData` | gapi/metadata.go:22-50 | user-agent wins over grpcgateway-user-agent; a peer wins over x-forwarded-for and reports its LOCAL address; both fields are empty without metadata and peer |
| `GapiMetadata.PeerReportsLocalAddress` | gapi/metadata.go:44-47 | a client at 203.0.113.7:51234 is reported as the server's own address 10.0.0.2:9090 |
| `GapiMetadata.ExtractClientMetaData` | gapi/metadata.go:43-47 | corrected: the client address from a peer is its remote address |
| `GapiLogin.LookupCode` | gapi/rpc_login_user.go:17-23 | a missing user gives NotFound, and any other error Internal |
| `GapiLogin.LoginUser` | gapi/rpc_login_user.go:14-71 | lookup gives NotFound or Internal; a wrong password gives PermissionDenied; a mint or session failure gives Internal; every error leaves the store unchanged; success stores the session built from the refresh token, with the metadata swapped, and returns its id, both tokens and both expiries |
| `RandomUtil.AlphabetIsLower` | db/util/random.go:13 | the alphabet is exactly the 26 lower-case letters |
| `RandomUtil.RandomInt` | db/util/random.go:9-11 | a value in [min, max] |
| `RandomUtil.RandomString` | db/util/random.go:15-23 | n lower-case letters; none when n <= 0 |
| `RandomUtil.RandomOwner` | db/util/random.go:25-27 | six lower-case letters |
| `RandomUtil.RandomMoney` | db/util/random.go:29-31 | a value in [0, 1000] |
| `RandomUtil.RandomCurrency` | db/util/random.go:33-38 | one of USD, EUR, CAD |
| `RandomUtil.RandomEmail` | db/util/random.go:40-42 | six lower-case letters followed by "@email.com" |

## Left out

- **Concurrency.** `TransferTx` is atomic and sequential here. The lower-id-first rule is a property of the recorded update trace, not a proof about deadlock between transactions. The goroutine harnesses of the tests become lemmas about repeated and alternating transfers.
- **Cryptography.** XChaCha20-Poly1305 and HMAC-SHA256 are replaced by an injective encoding. A sealed token opens only under the same key, and a MAC matches only under the same secret. Token formats and lengths are not those of PASETO or JWT.
- **util/password.go is not part of this model.** Hashing is an outcome passed in, and checking is a predicate passed in.
- **Validator tags are approximated.**
  - `email` is reduced to "one '@' between non-empty parts".
  - `alphanum` and `min` are modelled as written for ASCII.
  - Binding failures of every other kind (malformed JSON, wrong types) are a `None` request.
- **Only ASCII letters are lowercased.** `strings.ToLower` is modelled for ASCII letters and leaves every other character unchanged. The scheme check compares the result with "bearer", which is ASCII. A Unicode letter that lowercases to an ASCII one (the Kelvin sign to 'k') is therefore compared as itself.
- **SQL and Postgres are abstract.** SQL, sqlc's generated queries, table defaults and foreign keys are not modelled. A constraint violation or any other database error is a fault passed to the statement. Only three errors come from the tables themselves: a missing row (`ErrNoRows`), a duplicate key (`UniqueViolation`), and a bigint balance overflow (`NumericOutOfRange`).
- **`Db.Store.TransferTx`: the partial result on failure is not modelled.** On failure the model returns only the error. The Go function also returns the partly filled `TransferTxResults`, and every caller ignores it.
- **gapi/converter.go is not part of this model.** The user projection of the HTTP handlers stands in for `convertUser`.
- **Uuid formatting (`session.ID.String()`), `timestamppb` and `fmt.Printf` are left out.**
- **Error texts are kept only where the code builds them.** Elsewhere an error is the value that caused it.
- **gin's recovery middleware is not modelled.** The 500 it sends after a panic is not modelled; the model stops at `panicked`.
- **Routing and process wiring are left out:** main.go, `CreateRoutes`, and the gRPC gateway.
- TokenMaker.VerifyToken: the JWT branch runs the corrected verifier (`Jwt.VerifyTokenByPointer`), not the as-written one that refuses every token. Both servers build only the PASETO maker (api/server.go:26, gapi/server.go:23), so no handler reaches the JWT maker.
- Jwt.RoundTripByPointer: requires the `nbf` clock reading to fall in a second begun by `now`, and the payload check's reading to be no later than `ExpiredAt`. Across a second boundary the source refuses a fresh token as not valid yet (`Jwt.FreshTokenNotValidYet`); a payload-check reading past `ExpiredAt` refuses it as expired (`Jwt.ClaimsClockAfterExpiry`).
- ApiServer.Context: `writes` records every `ctx.JSON` call, not the response on the wire. gin sends the first status and appends the later bodies; the model does not compute that response.
- **`RandomUtil.RandomInt` requires more than the Go code checks.** It requires `max - min + 1` to fit in int64. The Go code wraps and panics on a non-positive bound, and that case is not modelled.

## Findings

| source | as written | input that shows it | evidently intended | confidence | as-written member | corrected member |
|---|---|---|---|---|---|---|
| token/jwt_maker.go:77-95 | `ParseWithClaims` is given the value `RegClaims{}`; the claims cannot be decoded into a non-pointer held by the `Claims` interface, so every token is refused with `ErrTokenMalformed` | any token the same maker has just created, verified before it expires | pass `&RegClaims{}` so the claims decode, the assertion holds and the payload is returned | high, not executed | `Jwt.FreshTokenRefused` | `Jwt.RoundTripByPointer` |
| api/token.go:56-59, 69-72 | the username and expiry checks write 403 without `return`, so a fresh access token is minted anyway and appended to the 403 response | a session whose username differs from the refresh payload's, or a clock past the session's expiry, with a matching stored token (the gate reads the clock after verification, so a refresh token that expires in between is enough: `ApiToken.LateExpiryGateMints`) | return after each 403, as the other gates do | high, not executed | `ApiToken.RenewForPayload` | `ApiToken.RenewForPayloadGuarded` |
| gapi/metadata.go:44-47 | the client address is taken from `peer.LocalAddr`, the server's own end of the connection | a peer with addr 203.0.113.7:51234 and local addr 10.0.0.2:9090 | `peer.Addr`, the client's end | medium, not executed | `GapiMetadata.PeerReportsLocalAddress` | `GapiMetadata.ExtractClientMetaData` |
