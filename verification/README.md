# dota-cuck: verification of the control plane and the worker

A Dafny 4.11 model of the Go control plane and the Python worker, with proofs about it.
`dafny verify dfyconfig.toml` checks everything. The system links a user's Steam account through a
worker, stores the account's refresh token encrypted under a key derived from the login password,
and uses it later to list friends; sessions to spectate are driven by two small state machines.

## What is modelled

| module | what it models |
|---|---|
| `Text`, `Base64`, `Scanning` | splitting and joining, base64 of RFC 4648 as Go and as Python decode it, Go's `%d` scanning |
| `PasswordHash` | the PHC string of a password hash, its parser as a grammar, Hash and Verify |
| `Jwt` | `splitJWT`, and the two readers of a token's payload |
| `KeyCache`, `Crypto`, `Credentials` | the key cache as a function of its history; sealing a token; where keys come from |
| `SessionProtocol` | both transition tables, composed through two FIFO queues |
| `Messages`, `Pending`, `Server` | the worker protocol's messages; the pending tables, registry and server as objects |
| `Streams` | the registry slot and each stream's bounded queue and pump, in every interleaving |
| `Correlation` | every interleaving of calls, timeouts, receive loops and reconnects, against an arbitrary peer |
| `WorkerAgent`, `WorkerStream` | the worker's command runs and outbox; Correlation composed with them |
| `PollLoop`, `GuardHandoff` | polling Steam for a token; handing a Steam Guard code to a waiting login |
| `Store`, `AccountLinks`, `Accounts` | the accounts table; add, delete, link and callbacks interleaved; the stored token end to end |
| `LinkStack` | AccountLinks and Correlation in lockstep: the link goroutine's call over the worker stream |
| `WarmSession` | the one Steam client and remembered id under concurrent friends requests, with late answers and drops |
| `SteamLogin`, `Replies` | the warm session's token login and what a run may report; replies the control plane holds |
| `Platform` | all of linking and friends listing: handlers, streams, workers and each worker's guard-code field |
| `LinkOutcomes` | over LinkStack's runs: the credentials that go out, what the goroutine makes of what comes back |
| `Delivery` | over WorkerStream's runs: replies and prompts from the worker's run to the caller |
| `EndToEnd` | over Platform's runs: every answer, token, list and prompt traced to the run it came from |
| `EarnedLinks` | over Platform's runs: success of a login that asked for a code comes after it took one |

Concurrent parts are transition systems whose steps are what the source does under one mutex, in
one channel operation, one store statement or one broadcast. Safety is proved for every reachable
state and every continuation. `WorkerStream` projects onto `Correlation`, `Accounts` onto
`AccountLinks`, `LinkStack` onto both, and `Platform` onto all of them and `GuardHandoff`, so what
holds below holds above. Objects of the source are classes whose methods are proved against the
functions the transition systems use.

## Assumptions

- Request ids, account ids, user ids and channels are fresh; the clock never goes back.
- `fmt.Sscanf`, `encoding/base64` and Python's `base64` behave as `Scanning` and `Base64` write
  them out. JSON readers are parameters.
- Argon2id returns a key of the requested length, panics on zero passes or zero lanes, and does not
  panic otherwise when a key of at least one byte is asked for; asked for none, it may do either.
  The cipher opens what it sealed. For the stored token only: the finitely many passwords that
  occur in a run do not collide. `Credentials.SoundIsPossible` shows these assumptions consistent.
- Steam's answers, timeouts, network failures and store failures are arbitrary. A store statement
  that fails has not written.
- `AccountLinks`, `Accounts` and `LinkStack` take it that a reply naming an owner names the subject of
  its token. `Platform` does not: its workers' runs report what `SteamLogin` and `PollLoop` prove of
  the worker's methods, and `RepliesNameSubjects` proves the premise. A run is chosen when its command
  is taken; a login whose chosen end its wait for a code contradicts goes no further.

## Where the code departs from what is said of it

- "A key never outlives the token it was minted for" (auth/keycache.go:13-15): it can, by less than
  a second, because the token's expiry is cut to whole seconds. `KeyNeverOutlivesTokenExactly`
  says when it holds.
- "Non-blocking; the channel is buffered" (workers/friends.go:37, workers/link.go:49): true when at
  most one reply comes for each request (`OneReplyNeverBlocks`), as the worker sees to
  (`WorkersReplyOnce`). In general a receive loop blocks exactly when two more lookups have found a
  call's channel than replies were taken from it (`BlocksExactly`), and that can happen
  (`BlockedLoopIsReached`).
- "The code routes to the one session awaiting it" (worker/agent.py:178-179): the worker drops the
  command's request id, and nothing keeps it to one login at a time. A code goes to whichever login
  looks first (`CodeGoesToFirstLook`), so it can go to another account's login exactly when another
  login can look before the next code is written (`GoesAstrayExactly`); with two logins one can get
  the other's code and the other fail (`CodeGoesAstray`). What holds is that every code was
  submitted for some account's link and is taken by some account's login
  (`Platform.TakenCodeIsSomeAccounts`).
- Deleting an account does not stop its token from being used once more: a friends handler that has
  read the row sends the token it read (`DeletedTokenIsSent`). What it sends was read from the
  user's current row exactly when the account read still has its row (`SendsCurrentTokenExactly`).
- The PHC parser accepts more than the format: blanks and leading zeros before a number, anything
  after the version or the parallelism, base64 with line breaks or spare bits. `Spelling` is the
  grammar it accepts. Zero costs are accepted too, and make `Verify` panic; so is an empty key,
  with which `Verify`, if it does not panic, accepts every password.
- The two JWT readers agree on base64url text, not on every text: a line break in the segment can
  part them, and so can padding ("QQ==" is an error for Go and a byte for Python) or a character
  that Python skips. `Base64.ReadersAgreeExactly` says, of every text, when they agree.
- "Logs the warm session on with the refresh token" (worker/steam_client.py:372-373): requests run on
  threads of their own over one unlocked client and one remembered id. The owner reported is always
  that of the request's token, but the friends are those of the client's last logon
  (`WarmSession.ListsOwnExactly`). They can be another account's when two requests overlap
  (`OverlapListsAnother`), and even with one request at a time, when a logon is accepted after its
  request gave up (`LateLogonListsAnother`); with neither they never are (`OneAtATimeListsOwn`).
- The spectate tables drop a Start when a session starts and stops before the IDLE report sent on
  connecting is read, and starts again. `StartDroppedExactly` gives the condition.
- A guard code submitted as a whole between a waiter's take and its clear wakes nobody, and a code
  that lies in the field with the event clear got there in no other way
  (`LostOnlyBetweenTakeAndClear`, `PlacementDecides`). `LosesExactly` gives the step that loses it.
- The Steam-id backfill of the friends handler never fires with this worker
  (`Platform.StoredIdsNeedNoBackfill`): the id is stored together with the token it is read from.

## Model

| member | source | states |
|---|---|---|
| Text.SplitThenJoin | control-plane/internal/auth/password.go:118 | joining the pieces of a split with the separator gives the string back |
| Text.SplitUnique | control-plane/internal/auth/password.go:118-122 | pieces without the separator that join to a string are its split |
| Base64.DecodeOfEncode | control-plane/internal/auth/password.go:104-111 | unpadded base64 decodes what it encoded, for every byte string, in both alphabets |
| Base64.EncodeOfDecode | control-plane/internal/auth/password.go:137-145 | encoding what was decoded gives the text back exactly when the text is canonical: no line breaks, spare bits zero |
| Base64.ReadersAgreeOnUrlText | worker/steam_client.py:104-108 | on base64url text Go's raw decoder and Python's pad-then-decode give equal bytes or both fail |
| Base64.ReadersAgreeExactly | worker/steam_client.py:104-108 | on every text the two agree if and only if: for base64url characters and line breaks, the padding computed from the whole length still completes the last group; for any other text, which Go refuses, it is not ASCII, or its data stops within a group that no padding character closes |
| Base64.ReadersDisagreeOnALineBreak | worker/steam_client.py:104-108 | a text on which one reader succeeds and the other does not |
| Base64.ReadersDisagreeOnPadding | worker/steam_client.py:104-108 | "QQ==": an error for Go, one byte for Python |
| Base64.AlphabetTable | control-plane/internal/auth/password.go:104-111 | the two alphabets are those of RFC 4648, character by character |
| Base64.SymbolTable | worker/steam_client.py:104-108 | the worker's reader takes the characters of both alphabets, '=' as padding, and skips every other |
| PasswordHash.DecodeAcceptsSpelling | control-plane/internal/auth/password.go:117-149 | every string of the grammar, with its blanks, zeros and trailing text, is accepted and decodes to the values it spells |
| PasswordHash.DecodedHasSpelling | control-plane/internal/auth/password.go:117-149 | every accepted string is in the grammar, and spells what it decoded to |
| PasswordHash.DecodeOfEncode | control-plane/internal/auth/password.go:104-149 | decoding an encoded hash gives the costs, salt and key back, with the lengths recovered from the bytes |
| PasswordHash.DecodeEncodeDecode | control-plane/internal/auth/password.go:104-149 | rewriting any accepted string in normal form does not change what it means |
| PasswordHash.EncodeInjective | control-plane/internal/auth/password.go:104-111 | equal encodings come from equal costs, salt and key |
| PasswordHash.VerifyOfHash | control-plane/internal/auth/password.go:79-102 | verifying any password against a stored hash, with any pepper and default costs, compares the two keys derived under the hash's own costs |
| PasswordHash.HashThenVerify | control-plane/internal/auth/password.go:79-102 | Verify accepts the hashed password, whatever the verifying hasher's default costs |
| PasswordHash.VerifyAcceptsOnlyThePassword | control-plane/internal/auth/password.go:91-98 | among passwords that do not collide, a stored hash accepts exactly the one it was made from |
| PasswordHash.VerifyPanicsExactlyOnZeroCosts | control-plane/internal/auth/password.go:91-102 | an accepted string makes Verify panic if its time or threads cost is zero, and with a non-empty key only then; with an empty key Verify otherwise panics or accepts |
| PasswordHash.EmptyKeyAcceptsEveryPassword | control-plane/internal/auth/password.go:91-102 | a hash with an empty key is accepted by the parser, and then no password is refused |
| PasswordHash.HashRecordsTheKey | control-plane/internal/auth/password.go:70-89 | the string hashed to records the costs, the salt and the key Argon2id derives from the HMAC of the password under the pepper; it panics exactly where Argon2id does |
| PasswordHash.VerifyComparesKeys | control-plane/internal/auth/password.go:91-102 | Verify is true exactly when Argon2id, under the string's own costs and salt, derives the recorded key from the HMAC of the tried password |
| PasswordHash.StoredForm | control-plane/internal/auth/password.go:34-68 | NewHasher refuses an empty pepper alone; what a hasher writes starts "$argon2id$v=19$m=65536,t=3,p=4$" |
| PasswordHash.RefusedWith | control-plane/internal/auth/password.go:117-149 | for every string, which error it is refused with: the first field that does not read decides |
| Jwt.SplitJwt | control-plane/internal/api/steam_accounts.go:156-166 | the loop computes the split at dots |
| Jwt.SegmentsOfToken | control-plane/internal/api/steam_accounts.go:155-166 | segments contain no dot, number one more than the dots, and rejoin to the token |
| Jwt.ReadersAgree | control-plane/internal/api/steam_accounts.go:136-152 | expiryFromJWT and steam_id_from_jwt see the same payload bytes, or both none, on base64url segments |
| Jwt.ReadersAgreeExactly | control-plane/internal/api/steam_accounts.go:136-152 | on every token the two see the same payload bytes, or both none, if and only if it has no second segment or that segment is one the base64 readers read alike |
| Jwt.ReadersRecoverPayload | worker/steam_client.py:95-110 | both readers recover the payload an issuer encoded |
| Jwt.SubjectOfIssued | worker/steam_client.py:95-110 | the subject of a token as issuers write it is its sub claim; "" if the payload is not JSON; an exception if it is not an object |
| Jwt.SubjectExactly | worker/steam_client.py:95-110 | on every token: a non-empty subject exactly when the payload can be read and claims it, an exception exactly when it is not an object, "" without a payload |
| Jwt.ExpiryOfIssued | control-plane/internal/api/steam_accounts.go:136-152 | the expiry of an issued token is its exp claim, or none if that is missing or zero |
| KeyCache.LookupIsAnswer | control-plane/internal/auth/keycache.go:37-65 | after any history a lookup gives the reference answer, so lazy eviction cannot be observed |
| KeyCache.AnswerIsLastPut | control-plane/internal/auth/keycache.go:37-65 | the reference answer is k exactly when the last Put or Delete for the user was a Put of k less than ttl ago |
| KeyCache.Cache.Put | control-plane/internal/auth/keycache.go:38-42 | extends the history by the Put, under the mutex |
| KeyCache.Cache.Get | control-plane/internal/auth/keycache.go:46-58 | answers from the history alone, evicting an expired entry and nothing else |
| KeyCache.Cache.Delete | control-plane/internal/auth/keycache.go:61-65 | extends the history by the Delete |
| KeyCache.KeyNeverOutlivesTokenExactly | control-plane/internal/auth/jwt.go:45-51 | a key is never served after its token expired if and only if cutting the expiry to seconds does not put it before the key's |
| KeyCache.KeyAgainstToken | control-plane/internal/api/auth.go:99-127 | a key expires no later than its token's unrounded expiry and outlives the rounded one by less than a second |
| KeyCache.KeyOutlivesTokenWitness | control-plane/internal/auth/keycache.go:13-15 | a login for which a key outlives its token |
| Crypto.DecryptOfEncrypt | control-plane/internal/auth/crypto.go:57-96 | encryption succeeds exactly on a key of 32 bytes; the ciphertext is never empty and decrypts to the plaintext |
| Crypto.KeyIsArgons | control-plane/internal/auth/crypto.go:23-55 | the key is Argon2id's with costs 3, 65536, 4 and length 32, of the very password and salt |
| Crypto.DecryptsOnlyAuthentic | control-plane/internal/auth/crypto.go:75-96 | decryption succeeds exactly on sizes 32 and 12 and a text the cipher opens, and says which size is wrong |
| Credentials.LoginDerivesTheKey | control-plane/internal/api/auth.go:75-102 | a login that verifies derives the key of the registered password |
| Credentials.StepKeepsInv | control-plane/internal/api/auth.go:24-118 | registering, logging in, logging out, expiry and reads keep every cached or pending key the user's one key |
| Credentials.ServedKeyIsTheKey | control-plane/internal/api/auth.go:61-100 | in every run, whichever login cached it, the key served for a user is the user's one key |
| Credentials.ServedExactly | control-plane/internal/api/auth.go:61-118 | in every run a key is served for a user if and only if the last caching or logout for the user was a caching of it, less than ttl ago by the run's clock |
| Credentials.NothingServedAfterLogout | control-plane/internal/api/auth.go:113-118 | after a logout nothing is served for the user until a key is cached again |
| Credentials.LoginSucceedsExactly | control-plane/internal/api/auth.go:75-102 | a login goes on to cache a key exactly when tried with the registered password; it is the user's key, and served from then on |
| Credentials.RegisterSucceedsExactly | control-plane/internal/api/auth.go:24-65 | registering creates the user exactly when name and password are given, the name is free and hashing does not panic; the key of that password goes on to be cached |
| Credentials.SoundIsPossible | control-plane/internal/auth/crypto.go:44-52 | the assumptions on hash and cipher can be met together |
| SessionProtocol.ReachableSafe | control-plane/internal/sessions/state.go:42-63 | in every run: no Start reaches a worker without an edge for it; WATCHING implies SPECTATING or a fatal error queued; STOPPING has a pending cause of OFF; OFF finds the worker idle with no Start queued; at most 3 commands queued |
| SessionProtocol.StoppingEnds | worker/state_machine.py:50-70 | from STOPPING every run can go on, and passes OFF within a bounded number of steps |
| SessionProtocol.StartDroppedExactly | worker/agent.py:152-174 | starting with unread status reports, a Start can be dropped if and only if one of them is IDLE |
| SessionProtocol.UserStepsExactly | control-plane/internal/sessions/state.go:42-63 | a user can start exactly from OFF and stop exactly from STARTING or WATCHING, and what each does |
| SessionProtocol.ReportsMoveExactly | control-plane/internal/sessions/state.go:18-24 | what the session makes of each worker report in each state |
| SessionProtocol.CommandsMoveExactly | worker/agent.py:152-174 | what a command makes of the worker in each state; a change is reported, anything else dropped silently |
| SessionProtocol.SessionsComeAndGo | control-plane/internal/sessions/state.go:36-47 | runs that start, watch, stop or fail early and late, and come back to OFF, taking every edge but the worker's first |
| Pending.AddThenRemove | control-plane/internal/workers/link.go:29-47 | adding a link under a fresh id and removing it restores the table, callbacks included |
| Pending.PendingFriends.Add | control-plane/internal/workers/friends.go:25-29 | records the waiter's channel under its id |
| Pending.PendingFriends.Remove | control-plane/internal/workers/friends.go:31-35 | forgets exactly that id |
| Pending.PendingLinks.Add | control-plane/internal/workers/link.go:29-39 | records channel and non-nil callbacks |
| Pending.PendingLinks.Remove | control-plane/internal/workers/link.go:41-47 | forgets channel and callbacks of that id |
| Pending.DeliverLink | control-plane/internal/workers/link.go:50-57 | the reply goes into the channel under its own id and nowhere else, or nowhere; it blocks exactly on a full channel |
| Pending.Registry.RegisterWorker | control-plane/internal/workers/registry.go:32-36 | the slot holds the worker that registered last |
| Pending.Registry.UnregisterWorker | control-plane/internal/workers/registry.go:40-46 | clears the slot only if it still holds that worker |
| Pending.Registry.Send | control-plane/internal/workers/registry.go:57-64 | refuses without a worker, appends to its queue, blocks exactly when 8 are queued |
| Server.Server.HandleEvent | control-plane/internal/workers/server.go:62-91 | does what the model's Handle step says: registers on Ready, calls the guard or challenge callback recorded for the event's id if there is one, looks up the waiter of a reply |
| Server.Server.Pump | control-plane/internal/workers/server.go:33-45 | sends the queue in order; a failing send loses that one command and leaves the rest |
| Server.Server.Link | control-plane/internal/workers/link.go:84-104 | outcome by registry, queue and deadline; the pending table is as before on every return |
| Server.Server.ListFriends | control-plane/internal/workers/friends.go:51-75 | the same for a friends request |
| Streams.ReachableNet | control-plane/internal/workers/server.go:28-60 | over every run of any number of sessions, the slot is the stream of the most recent Ready if its session is open and otherwise empty; commands accepted = sent, then at most one lost in a failing send, then queued, with at most 8 queued |
| Streams.SlotFollowsReady | control-plane/internal/workers/registry.go:32-46 | in every run the slot is the stream whose Ready came last, until its session ends |
| Streams.PumpEndsExactly | control-plane/internal/workers/server.go:33-45 | a pump ends in a failing send, losing that command, or idle when its context is done, losing none; nothing more is sent on the stream |
| Correlation.StepKeepsInv | control-plane/internal/workers/friends.go:25-75 | every step of callers, receive loops and reconnects keeps tables, channels, registry and queues consistent |
| Correlation.NoCrossTalk | control-plane/internal/workers/link.go:50-104 | whatever arrives, late or duplicated or made up, a reply returned by a call carries that call's id and kind, and is returned by no other call |
| Correlation.TablesListCallsInFlight | control-plane/internal/workers/link.go:84-87 | the pending tables hold exactly the calls between add and remove, with exactly the callbacks each was given, and a callback fires only for the link its event names |
| Correlation.HandlingReaches | control-plane/internal/workers/link.go:50-77 | a receive loop that handles a prompt or reply goes on to that call's own callback or channel, exactly when the call is in flight and was given one; a Ready makes its stream the registered worker; all else is dropped |
| Correlation.CallStepsExactly | control-plane/internal/workers/friends.go:51-75 | what each operation of a call does and what it makes the call return: no worker, deadline, or the reply in its channel |
| Correlation.RelayStepsExactly | control-plane/internal/workers/link.go:106-118 | a guard code goes to the worker registered when it is submitted, behind what is queued; with none it goes nowhere |
| Correlation.EndFreesOwnSlot | control-plane/internal/workers/server.go:28-60 | a session's end frees the slot exactly if it still holds that session |
| Correlation.CallsGoOn | control-plane/internal/workers/registry.go:49-64 | in every run a call can always take its next step, but for a push into a queue of 8, and can always time out while it waits |
| Correlation.LoopsGoOn | control-plane/internal/workers/server.go:47-60 | in every run a receive loop can always take its next step, but for a delivery into a channel that holds a reply |
| Correlation.StreamsStayConserved | control-plane/internal/workers/registry.go:49-64 | under concurrent calls too, the slot never names an ended session and streams keep their commands in order |
| Correlation.AtMostOneStraggler | control-plane/internal/workers/link.go:60-77 | after a call is removed its outcome is final and each open stream completes at most one more callback for it |
| Correlation.BlocksExactly | control-plane/internal/workers/friends.go:36-45 | in every run a receive loop is or will be blocked on its way to a call exactly when two more lookups found its channel than replies were taken |
| Correlation.OneReplyNeverBlocks | control-plane/internal/workers/link.go:49-57 | with at most one final reply per request id arriving, no receive loop is ever stuck delivering |
| Correlation.DuplicateReplyBlocks | control-plane/internal/workers/friends.go:37-45 | from any reachable state two replies to a call, of either kind, that has taken none leave a receive loop blocked |
| Correlation.BlockedLoopIsReached | control-plane/internal/workers/link.go:49-57 | a run that blocks a receive loop, for a friends call and for a link call |
| WorkerAgent.RunsReportOnce | worker/agent.py:187-235 | on success and on any exception a run reports interim events and then exactly one final one |
| WorkerAgent.Agent.AdvanceState | worker/agent.py:152-162 | follows an edge and reports the new state, or changes nothing |
| WorkerAgent.Agent.Connect | worker/agent.py:237-242 | Ready is the first message, then the IDLE status |
| WorkerAgent.Agent.LinkAccount | worker/agent.py:187-219 | puts the run's prompts in the outbox in order, with their kinds and URLs, then one reply with the run's owner and token or its error code |
| WorkerAgent.Agent.ListFriends | worker/agent.py:226-235 | puts one reply in the outbox, with the run's owner and list of friends or its error code |
| WorkerStream.ReachableInCorrelation | worker/grpc_client.py:82-104 | every run with real workers is a run of the arbitrary-peer model |
| WorkerStream.StepKeepsInv | worker/grpc_client.py:82-104 | every step keeps the one final reply of each request in exactly one place: the worker, the stream, the receive loop, the channel, or returned |
| WorkerStream.WorkersReplyOnce | worker/agent.py:187-235 | every run with real workers is a run of Correlation in which at most one final reply arrives per request |
| WorkerStream.DeliverNeverBlocks | control-plane/internal/workers/link.go:50-57 | with real workers no receive loop is ever stuck sending a reply |
| WorkerStream.PromptsPrecedeAnswer | control-plane/internal/workers/server.go:47-60 | once a call has or holds its answer, no receive loop is in or before a callback for it and no worker has more to say |
| WorkerStream.NoPromptAfterAnswer | control-plane/internal/api/router.go:56-65 | after an answer no prompt callback of that call completes any more, on any stream, those opened later included |
| WorkerStream.ProcessesGoOn | worker/grpc_client.py:82-104 | a process can always receive what was sent, a run put its next event in the outbox, and the outbox waits for the receive loop alone |
| WorkerStream.ReadyComesFirst | worker/agent.py:237-242 | in every run the first event to come over a stream is Ready and the second the IDLE status |
| Delivery.ReturnsTheRunsReply | worker/agent.py:187-235 | in every run, a reply a call returns is that of the run chosen when its command was received: owner and token of a link, owner and list of friends, or the error code |
| Delivery.PromptsAreTheRuns | control-plane/internal/workers/link.go:60-77 | in every run, the completed callbacks of a link given both are its run's prompts, in order, kinds and URLs included; once an answer is there, all of them |
| PollLoop.PollToRefreshToken | worker/steam_client.py:299-324 | stops at the first poll that fails, brings a token or is past the deadline, a token winning over the deadline; each poll carries the last non-zero client id; every new URL is surfaced in order; at most floor(300 / wait) + 2 polls |
| PollLoop.TimesOutOnlyWithoutToken | worker/steam_client.py:318-324 | it times out only past the deadline and with no token in any answer, and returns the first token |
| PollLoop.LatestIdUnique | worker/steam_client.py:314-315 | the client id each poll carries is determined |
| PollLoop.BoundIsReached | worker/steam_client.py:306-324 | when nothing answers, exactly floor(300 / wait) + 2 polls are made |
| PollLoop.UrlsInPlace | worker/steam_client.py:316-317 | each challenge URL an answer brings has its place among those surfaced, and nothing else is surfaced |
| PollLoop.TimesOutAfterFiveMinutes | worker/steam_client.py:306-324 | a loop that times out does so more than 300 seconds after it began, with a login error; without a suggested interval it waits two seconds |
| PollLoop.BeginQrLink | worker/steam_client.py:202-228 | every challenge URL is prompted in order, a successful link reports the subject of the token it reports, and a failing one how polling failed |
| PollLoop.BeginCredentialsLink | worker/steam_client.py:230-297 | a guard prompt goes out exactly when an accepted login needs a code; success needs that code and reports the token's subject; each failure with its own error |
| SteamLogin.Session.LoginWithToken | worker/steam_client.py:328-369 | run alone, warm or logging on anew: a login that succeeds answers with the subject of its token and leaves the client on that account; it succeeds exactly when the session is warm for that account or Steam accepts, and says why it fails |
| SteamLogin.Session.ListFriends | worker/steam_client.py:371-394 | run alone, the owner of the token is answered with that account's friends, exactly when the login succeeds and the list can be read, whatever account the session was warm for |
| SteamLogin.ReportsSubClaim | worker/steam_client.py:95-110 | for issued tokens a link and a friends run report the sub claim, and none whose claims are not an object |
| SteamLogin.SubjectsTellApart | worker/steam_client.py:334-335 | issued tokens with different sub claims have different subjects, so a session warm for one is not taken for the other's |
| SteamLogin.ModeDecidesPrompts | worker/agent.py:191-205 | a command without username and password is a QR link, whose prompts are QR codes; any other is a credentials login, with one guard prompt at most |
| WarmSession.ListsOwnExactly | worker/steam_client.py:328-394 | in every run of concurrent requests, a request reports its own token's subject as owner, and the friends are that account's if and only if the client's last accepted logon was for it |
| WarmSession.OwnUnlessLoggedOver | worker/steam_client.py:363-394 | from the end of a login on, the list is the login's own if and only if the last logon accepted before its read, if any, is for the same account |
| WarmSession.OneAtATimeListsOwn | worker/steam_client.py:328-394 | with one request at a time, and no logon accepted but while its thread waits to hear, every list is its owner's, on a warm session too |
| WarmSession.OverlapListsAnother | worker/agent.py:221-224 | two overlapping requests; the first reports its owner with the second account's friends |
| WarmSession.LateLogonListsAnother | worker/steam_client.py:334-335 | one request at a time; after a late logon a request takes the session for its own and lists another account's friends |
| WarmSession.RequestsGoOn | worker/steam_client.py:328-394 | what each step of a request does, and that one can always be taken |
| WarmSession.ClientMovesExactly | worker/steam_client.py:362-368 | only an accepted logon moves the client to another account |
| GuardHandoff.SteamSession.SubmitGuardCode | worker/steam_client.py:183-187 | stores the code and sets the event |
| GuardHandoff.SteamSession.WaitForGuardCode | worker/steam_client.py:189-198 | alone: times out without an event, otherwise consumes code and event, refusing an empty code |
| GuardHandoff.ReturnedOnceAndLatest | worker/steam_client.py:183-198 | for any number of waiters and submitters, a submission is returned by at most one waiter and was the latest written when it looked |
| GuardHandoff.SubmissionsConserved | worker/steam_client.py:183-198 | a non-empty submission is in the field, overwritten before anyone took it, or with exactly one waiter |
| GuardHandoff.SoleWaiterReturnsTheCode | worker/steam_client.py:189-198 | with one submission between a prompt and its timeout, the round never sticks and the sole waiter returns exactly that code |
| GuardHandoff.LosesExactly | worker/steam_client.py:189-198 | a step loses the wakeup of a submission exactly under the stated guard on the clear or the timeout |
| GuardHandoff.LostStays | worker/steam_client.py:190-191 | a lost code stays lost, and waits only time out, until another is submitted |
| GuardHandoff.LostWakeup | worker/steam_client.py:192-195 | a run in which a submit between take and clear is lost |
| GuardHandoff.LostOnlyBetweenTakeAndClear | worker/steam_client.py:183-198 | in every run, a code in the field with the event clear and nobody about to set it was written and signalled between one waiter's take and its clear |
| GuardHandoff.PlacementDecides | worker/steam_client.py:189-198 | with one waiter between take and clear, a submission is lost if and only if its write and its event both come before the clear |
| GuardHandoff.CodeGoesToFirstLook | worker/agent.py:176-180 | in every run a non-empty code goes to the login that looks first after it was written and before the next is, whatever request it was submitted for, and to no other |
| GuardHandoff.GoesAstrayExactly | worker/agent.py:176-180 | a code can go to a login other than its request's if and only if another login can look: one woken or waiting for the event, or one that may yet be prompted |
| GuardHandoff.CodeGoesAstray | worker/steam_client.py:183-198 | two logins wait; the first's code goes to the second and the first fails for want of one |
| GuardHandoff.WaitersGoOn | worker/steam_client.py:183-198 | a waiting login can always time out and wakes exactly on the event; a submitter's event wakes every waiter |
| Store.CreateKeepsOneRow | control-plane/internal/store/steam_accounts.go:45-64 | an insert succeeds exactly when the user has no row, and adds one row without token or Steam id |
| Store.BackfillTouchesOneRow | control-plane/internal/store/steam_accounts.go:70-101 | saving a token or Steam id succeeds exactly on an existing row and changes that row alone |
| Store.SaveNames | control-plane/internal/store/steam_accounts.go:70-87 | saving keeps the username when none is given, and changes nothing else but token, nonce, expiry and Steam id of that row |
| Store.DeleteThenCreate | control-plane/internal/store/steam_accounts.go:105-115 | only the owner's delete removes a row, and the user can then link again |
| Store.SteamAccountStore.CreateRow | control-plane/internal/store/steam_accounts.go:45-64 | the object does what the statement says and keeps one row per user |
| Store.SteamAccountStore.SaveToken | control-plane/internal/store/steam_accounts.go:70-87 | writes token, nonce, expiry and Steam id of an existing row, keeping the username when none is given |
| Store.SteamAccountStore.BackfillSteamId | control-plane/internal/store/steam_accounts.go:91-101 | writes the Steam id of an existing row |
| Store.SteamAccountStore.DeleteRow | control-plane/internal/store/steam_accounts.go:105-115 | removes the row only for its owner |
| Store.SteamAccountStore.GetByUserId | control-plane/internal/store/steam_accounts.go:118-143 | returns the user's only row, or not found exactly when there is none |
| AccountLinks.LinkRequests.Set | control-plane/internal/api/router.go:124-128 | adds this setting to the history of what the table was asked for, of which the table stays the replay |
| AccountLinks.LinkRequests.Get | control-plane/internal/api/router.go:130-135 | answers with the request last set for the account and not cleared since, a function of the history alone |
| AccountLinks.LinkRequests.Clear | control-plane/internal/api/router.go:137-141 | adds this clearing to the history, of which the table stays the replay |
| AccountLinks.TableIsLastSet | control-plane/internal/api/router.go:124-141 | replaying any history and looking an account up gives the request last set for it, unless cleared since |
| AccountLinks.RecordIsLastSet | control-plane/internal/api/router.go:91-141 | in every run of handlers and callbacks, the request on record is the one last set and not cleared since: what the object would answer |
| AccountLinks.StepKeepsInv | control-plane/internal/api/steam_accounts.go:38-131 | every step of add, link, callback, delete, backfill and guard-code handlers keeps rows, request table, links and events consistent |
| AccountLinks.OneTerminalEvent | control-plane/cmd/server/main.go:183-202 | each finished link broadcast exactly one terminal event, `account_linked` with the token's subject exactly when the token was stored; an unfinished one none |
| AccountLinks.SaveOutcome | control-plane/internal/api/steam_accounts.go:123-131 | persisting succeeds exactly when the key fits, the row is still there and the store works; then that row alone changes, its token opens to the returned one, and owner, nonce and expiry are the token's; otherwise no row changes |
| AccountLinks.RequestOnRecord | control-plane/internal/api/router.go:91-141 | a link's request id is on record from before the worker is asked until its terminal callback starts, and then gone |
| AccountLinks.CodesNameOwnRequest | control-plane/internal/api/steam_accounts.go:182-220 | a guard code submitted for an account is sent under the request id of that account's own link and of no other account's |
| AccountLinks.CodeGoesOut | control-plane/internal/api/steam_accounts.go:206-217 | a code for an account whose link waits goes out under its request; with none on record nothing goes out |
| AccountLinks.CodesComeFromOwners | control-plane/internal/api/steam_accounts.go:194-204 | in every run, each code sent was submitted by a handler that had found the account to be its own user's |
| AccountLinks.AddsExactly | control-plane/internal/api/steam_accounts.go:66-76 | an add goes through exactly if the user has no row, with the user and name given; a refused one changes no row |
| AccountLinks.LoginsAreWellFormed | control-plane/internal/api/steam_accounts.go:50-55 | in every run, an account was added with both Steam credentials or with neither |
| AccountLinks.DeletesExactly | control-plane/internal/store/steam_accounts.go:105-115 | a delete takes the row away exactly for its owner |
| AccountLinks.BackfillsExactly | control-plane/internal/store/steam_accounts.go:91-101 | a backfill writes the Steam id of the account's row, if there is one, and nothing else |
| AccountLinks.HandlersGoOn | control-plane/internal/api/steam_accounts.go:38-131 | no handler or goroutine is ever stuck |
| AccountLinks.DeletedStaysDeleted | control-plane/internal/api/steam_accounts.go:104-116 | a deleted account's row never comes back, whatever its link does and whatever is added later |
| AccountLinks.StoredOnce | control-plane/internal/store/steam_accounts.go:70-101 | a stored token, its expiry and Steam id never change while the row exists, under concurrent backfills |
| AccountLinks.RowHoldsReturnedToken | control-plane/internal/api/steam_accounts.go:120-131 | in every run, a row has the name its account was added with; its token opens to the one the worker returned for that account, with that token's subject as Steam id and its expiry; without a token it has neither |
| LinkStack.StepKeepsInv | control-plane/cmd/server/main.go:183-202 | every step of the two halves together keeps goroutines and calls matched, and each recorded token tied to the reply it came in |
| LinkStack.InFlightIsOnRecord | control-plane/internal/workers/link.go:84-87 | the worker server's link table holds exactly the links between add and remove, and for each its account's request is on record |
| LinkStack.TokenCameUnderOwnRequest | control-plane/cmd/server/main.go:187-201 | a token recorded for an account came in a link reply with the request id of that account's own link |
| LinkStack.GuardCommandsNameOwnRequest | control-plane/internal/api/steam_accounts.go:182-220 | every guard code accepted on any worker stream carries the request id of the link of the account it was submitted for |
| LinkStack.ReturnAlwaysPossible | control-plane/cmd/server/main.go:183-202 | whenever a link call is about to return its goroutine can take the outcome |
| LinkStack.ReachableInBoth | control-plane/internal/api/steam_accounts.go:91-118 | every run of the two halves together is a run of each |
| LinkStack.HalvesGoOn | control-plane/cmd/server/main.go:183-202 | each half goes on as it would alone, but where the two meet |
| LinkOutcomes.RecordedExactly | control-plane/cmd/server/main.go:187-201 | in every run, a token is on record for an account if and only if the call under its request returned it |
| LinkOutcomes.OutcomeIsTheAnswer | control-plane/cmd/server/main.go:187-201 | the goroutine holds exactly the owner and token its call returned, and an error if and only if the call found no worker, timed out or was answered with one |
| LinkOutcomes.CommandCarriesLogin | control-plane/internal/api/steam_accounts.go:79-118 | a link's command carries the credentials its account was added with, under its own request, and both its prompts have a callback |
| Accounts.StepKeepsInv | control-plane/internal/api/friends.go:22-68 | every step of every handler keeps keys, links and friends requests consistent |
| Accounts.SentTokenIsTheReturnedToken | control-plane/internal/api/friends.go:29-56 | any token sent in a ListFriends command is the one the worker returned for an account of that user, whichever login supplied the key |
| Accounts.SendsCurrentTokenExactly | control-plane/internal/api/friends.go:29-56 | a handler that finds a key sends the token of the row it read; that row is the user's current one if and only if its account still has its row |
| Accounts.DeletedTokenIsSent | control-plane/internal/api/friends.go:29-56 | a run in which the account is deleted between the read and the send and its token is sent |
| Accounts.StoredTokenAlwaysOpens | control-plane/internal/api/friends.go:45-56 | a friends handler that finds a key never fails to decrypt, and the row it read stays current while the account has one |
| Accounts.BackfillNeverFires | control-plane/internal/api/friends.go:62-68 | if friends replies name the token's subject, the guard of the Steam-id backfill is never true |
| Accounts.ServedExactly | control-plane/internal/auth/keycache.go:37-65 | in every run of all handlers, a key is served if and only if the last caching or logout for the user was a caching of it, less than ttl ago |
| Accounts.NothingSentAfterLogout | control-plane/internal/api/auth.go:113-118 | after a logout, until a key is cached again, the user's friends requests end with 401 and send nothing, and adds are refused |
| Accounts.SendsExactly | control-plane/internal/api/friends.go:45-56 | a friends handler sends exactly if a key is served, and then the row's token decrypted with it |
| Accounts.AddBeginsExactly | control-plane/internal/api/steam_accounts.go:58-66 | an add goes on exactly if a key is served, with that key and the credentials given |
| Accounts.FriendsHandlersGoOn | control-plane/internal/api/friends.go:22-68 | a friends handler begins exactly on the user's row with a token, and can always go on |
| Accounts.ReachableInLinks | control-plane/internal/api/steam_accounts.go:38-131 | every run of the whole is a run of AccountLinks, so its results hold here |
| Platform.StepKeepsInv | worker/agent.py:176-235 | every step of handlers, streams, workers and logins keeps replies truthful, handlers matched to the calls they wait for, and codes and logins tied to the commands they came in |
| Platform.ReachableInParts | control-plane/internal/workers/server.go:28-60 | every run of the whole is a run of each part, guard-code fields included, so their results hold here |
| Platform.WorkersAreHonest | worker/agent.py:187-235 | every reply in a worker's outbox, or still to come from its runs, that names an owner names the subject of the token it returns or was asked about |
| Platform.RepliesNameSubjects | worker/steam_client.py:371-394 | every reply a call returns is of its kind and id, and the owner in it is the subject of the token returned, or of the token in the call's own command |
| Platform.StoredIdsNeedNoBackfill | control-plane/internal/api/friends.go:62-68 | with no assumption on replies, the Steam-id backfill never fires and a stored Steam id is the subject of the account's token |
| Platform.FriendsReturnAlwaysPossible | control-plane/internal/workers/friends.go:68-75 | whenever a handler's friends call is about to return, the handler can take what it returns |
| Platform.FriendsReturnExactly | control-plane/internal/api/friends.go:56-68 | a friends handler hears exactly what its call returned: the owner the worker named, or that there was no list |
| Platform.LinkReturnAlwaysPossible | control-plane/cmd/server/main.go:183-202 | the same for a link call and its goroutine |
| Platform.GuardStepsAlwaysPossible | worker/agent.py:176-208 | a login at its prompt can always start its wait, and a guard code at its worker can always be submitted |
| Platform.PartsGoOn | control-plane/internal/workers/server.go:47-60 | each part goes on as it would alone, but where parts meet |
| Platform.TakenCodeIsSomeAccounts | worker/agent.py:176-208 | every code a login takes came in a command on its stream under the request of the account it was submitted for; the login is an account's link too, and the two are one exactly when the request ids agree |
| EndToEnd.FriendsAreTheRuns | control-plane/internal/api/friends.go:56-75 | in every run, the friends a call returns are the list its worker's run ended with, and the owner is the subject of the handler's token |
| EndToEnd.TokenIsTheRuns | control-plane/cmd/server/main.go:183-202 | in every run, a token is on record for an account exactly when its call returned an answer and the run chosen for it ended with that token |
| EndToEnd.ErrorsAreTheCalls | control-plane/cmd/server/main.go:187-201 | in every run, a goroutine is told of an error exactly when its call found no worker, timed out or was answered with one |
| EndToEnd.PromptsAreTheRuns | control-plane/internal/api/steam_accounts.go:91-103 | in every run, the prompts shown for an account are those of the run chosen for its own command, in order, and all of them once the answer is there |
| EndToEnd.CredentialsDecidePrompts | worker/agent.py:191-219 | in every run, an account added without credentials is prompted with QR codes alone, one added with both is asked for one guard code at most |
| EndToEnd.StoredClaims | control-plane/internal/api/steam_accounts.go:123-152 | what is stored with an issued token: its sub claim as Steam id, its exp claim as expiry, the name the account was added with |
| EndToEnd.OwnerIsSubClaim | worker/steam_client.py:371-394 | in every run, the owner in a friends reply is the sub claim of the issued token its call was about |
| EarnedLinks.SuccessTookACode | worker/steam_client.py:279-297 | in every run, a link call that returned a token to a login that asked for a code did so after that login took one: not empty, and the latest written when it looked |
| EarnedLinks.StoredTokenTookACode | worker/steam_client.py:279-297 | the same of a token on record for an account |

## Left out

- Server.Server.Link: run alone, with what arrives in time as a parameter; the interleavings are in `Correlation`.
- Server.Server.ListFriends: as for Link.
- SteamLogin.Session.LoginWithToken: run alone, without other requests on the session; `WarmSession` has them.
- SteamLogin.Session.ListFriends: as for LoginWithToken.
- AccountLinks.RowHoldsReturnedToken: takes it that a worker reports its token's subject; `Platform` proves it.
- Accounts.BackfillNeverFires: the same of friends replies; `Platform.StoredIdsNeedNoBackfill` assumes nothing.
- Logging the session out, which nothing modelled here calls, and what the Steam library does inside a logon; reading the friends list is one step.
- Pending.Registry.Send: reading the slot and pushing are one step here; two in `Correlation`.
- Server.Server.Pump: run alone, without concurrent senders or the context's end; `Streams` has both.
- Pending.DeliverLink: lookup and send without anything between them; `Correlation` splits the two.
- KeyCache.KeyAgainstToken: the token is its two dates; signing and parsing a JWT are not part of this model.
- Argon2id, HMAC-SHA256, AES-GCM and RSA: functions with the laws listed under Assumptions.
- Failure of the operating system's random source, which ends a request with an error.
- `classify_confirmation`, `derive_status`, `guardTypeString`, `bearerToken`: settled by reading one branch.
- Copying the friends list in three places and sorting it by name: easy loops over values that nothing else depends on.
- HTTP decoding, status codes, JSON, WebSocket and gRPC transport, generated code, logging.
- PostgreSQL: a map with the unique index; transactions and connection errors beyond a failing save.
- Spectate handlers, which are stubs, and `dota_client.py`, `ffmpeg.py`, the deployment and the frontend.
- That every link finishes: a command push can block on a full queue, where the deadline is not watched (workers/registry.go:62), so it is not true without fairness of the pump.
- Wrap-around of Go's `time.Duration` and of NaN poll intervals.
