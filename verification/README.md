# Approval asks and signed grants

Agents put asks to a person; the person answers them on a console or a phone. An ordinary ask
takes a plain answer. An approval ask takes only a signed grant: a JSON record, printed in one
canonical form, hashed, named by its hash and signed with the person's key. This project models
that story in four parts and proves what the parts promise each other.

**The wire format** (`Utf16`, `Json`, `JsonPrint`, `JsonParse`, `JsonCanonical`, `Bytes`, `Base32`,
`Der`, `Grants`, `GrantLaws`, `RecordLaws`, `Phone`). The printer of RFC 8785 is undone by a parser and is
canonical; base32 is the loop of the phone page, with 32-bit wrap-around, and equals section 6 of
RFC 4648; DER signatures round-trip (section 8.3.2 of ITU-T X.690). `Grants` is the verifier of the
daemon. `Phone` shows that whatever the phone page builds and signs passes every check of it.

**The daemon** (`Models`, `Store`, `Serving`, `Server`, `Daemon`, `DaemonInv`, `DaemonTables`, `DaemonGrants`,
`DaemonSteps`, `DaemonRuns`, `DaemonLaws`, `DaemonRevokes`, `DaemonRaces`, `DaemonCallers`, `DaemonAnswers`,
`DaemonWaits`, `Approval`, `DaemonSigned`, `HandlerLaws`, `StepLaws`). Two tables and the map of waiters.
`Store.Db` and `Server.Server` run the statements and the handlers in place.
`Daemon` cuts every handler into steps, one SQL statement, one committed transaction or one use of
the waiters lock each, with the handler's stale reads in its local state; a run is any steps of any
handlers in any order, and a handler may be dropped at any point. The main results hold of every run.

**The rule engine** (`Sorting`, `Rules`, `RuleLaws`, `RuleTests`): a stable sort and a fold in which a rule may
match on what earlier rules changed.

**The console** (`Console`, `ConsoleLaws`, `ConsoleForms`, `ConsoleQueue`, `ConsoleFlight`, `ConsoleSync`,
`ConsoleRaces`): its queue, cursor and form walk, in place in `Console.Console`, and exactly when the
queue agrees with the server's table. Requests are served one at a time and every event is delivered; a
list, and the response to a request of the console, travel on connections of their own, so that they are
sent at one moment and arrive at another.

## Where the code and its comments differ

- `src/rules.rs:8-11` and `src/rules.rs:16` say that the highest priority is applied last and wins. The
  sort key is the negated priority, so the lowest is applied last and wins. The comment's own example
  is refuted by `RuleLaws.CommentExampleFails`. The least 32-bit priority is its own negation in a
  release build and sorts first.
- The writer stores `TimedOut` as the text `timedout` (`src/db.rs:182`); the reader knows `timed_out`
  (`src/db.rs:751-758`) and takes any other text for open. A timed-out ask therefore loads as open and
  takes a grant, even two, while its row stays `timedout`: `DaemonRaces.BothGrantsStored`.
- `src/handlers.rs:867-873` marks an ask as timed out "only if still open", but on a row read earlier; so
  do `cancel` and `dismiss`. `DaemonAnswers.AnswerLostIff` says exactly which steps take an answered ask
  out of "answered", and `DaemonAnswers.TimeOutOverGrant` shows a timeout do it to a signed answer.
- `attach_answering_grant` hands the answer of an approval on without its grant when the lookup fails
  (`src/grant_handlers.rs:239-248`): `DaemonWaits.FailedLookupIsBare`. `DaemonWaits.BareIff` says that this
  is the only way. `ask` stores a second row of its caller when its lookup fails (`src/handlers.rs:87`):
  `DaemonCallers.ReadFailureCollides`. Exactly when rows stay a day apart is `DaemonCallers.DayApartIff`.
- The console removes an ask when the response to its own request arrives, whatever has been heard since
  (`static/console.js:287`): `ConsoleRaces.LateResponseLacks`. Only a snooze can do this harm, by
  `ConsoleSync.ClosingResponseIsCareful`.
- `load` replaces the queue by a list that may be older than events already heard
  (`static/console.js:200-205`): `ConsoleRaces.StaleListLacks`, `ConsoleRaces.StaleListShows`. When it
  fits is `ConsoleFlight.ArrivalAgreesIff`.
- A snoozed ask comes back with the first load after its snooze lapses (`static/console.js:499`). Until
  then a listed ask may be missing from the queue although it was snoozed before the last load:
  `ConsoleRaces.SnoozedBeforeLoad`. Exactly when it is missing is `ConsoleSync.LacksIffSnoozed`.
- A form whose sub-question has the key `__proto__` loses that answer, since `S.formAnswers` is a plain
  object (`static/console.js:133`). Completeness is stated with the exact condition.

## What is taken as given

- Text is a sequence of Unicode scalar values; its UTF-16 code units order property names. Ill-formed
  UTF-16 is outside the model.
- SHA-256, ECDSA, base64, `chrono` and case folding are parameters (`Grants.Library`, `Rules.Texts`).
  `Phone.Lawful` is the little that the agreement needs of them: base64 and timestamps decode to what
  was encoded. `serde_jcs` is taken to be section 3.2 of RFC 8785, the same function as the phone's printer.
- New notification ids do not collide with stored ones where a rule answers at once
  (`src/handlers.rs:219-242`); elsewhere a collision is an error, as the primary key makes it.
- A record is stored as it was posted. The database may reorder its members (`migrations/011_grants.sql`);
  `GrantLaws.ReorderedVerifies` shows that nothing depends on their order.
- One clock, in milliseconds. Every reading of it is a parameter, so that it may also go back, except
  where a lemma says otherwise.
- A failed read or write ends its handler, which is `Abort`, except where the code goes on; there a
  parameter says whether it worked.

## Model

| member | source | states |
|---|---|---|
| JsonParse.JcsParses | static/phone-crypto.js:20-29 | parsing what jcs prints gives the value back with its members in key order and the undefined ones dropped, with nothing left over, for every printable value |
| JsonParse.ParsePrint | static/phone-crypto.js:20-29 | the parser undoes the printer on every value, whatever may follow it |
| JsonPrint.JcsPrintsNorm | static/phone-crypto.js:20-29 | jcs succeeds exactly on values without an undefined item and without fractions, and then prints the normal form of the value |
| JsonCanonical.JcsCanonical | static/phone-crypto.js:20-29 | two values print the same exactly when they are equal up to member order and undefined members |
| JsonCanonical.JcsIdempotent | static/phone-crypto.js:20-29 | the normal form of a value prints the same canonical text as the value |
| JsonCanonical.JcsAscends | static/phone-crypto.js:27 | what jcs prints parses to the same value with the names of every object, at every depth, ascending by UTF-16 code unit, as section 3.2.3 of RFC 8785 asks |
| JsonCanonical.EscapesAreShort | static/phone-crypto.js:24 | a character is printed as it is, as a two-character escape where JSON has one, or as a lower-case \u00 escape |
| JsonCanonical.DecimalIsShort | static/phone-crypto.js:24 | numbers are printed without leading zeros |
| Utf16.UnitsDecode | static/phone-crypto.js:27 | a surrogate pair is the two halves of its scalar value, the high one first |
| Utf16.EncodeInjective | static/phone-crypto.js:27 | the UTF-16 units that order the keys determine the key |
| Base32.Base32 | static/phone-crypto.js:35-43 | the loop, whose accumulator wraps at 32 bits and is never masked, outputs the unpadded five-bit groups of section 6 of RFC 4648 |
| Base32.DecodeUndoes | static/phone-crypto.js:35-43 | a decoder gives back every byte string |
| Base32.Length | static/phone-crypto.js:35-43 | the text has ceil(8n/5) letters |
| Der.EncodeInt | static/phone-crypto.js:60-68 | the in-place loop yields the DER INTEGER of its bytes |
| Der.ContentIsDer | static/phone-crypto.js:60-68 | the content keeps the big-endian value of the input and is minimal and non-negative, as section 8.3.2 of X.690 asks |
| Der.EncodeSig | static/phone-crypto.js:69-75 | the buffer holds the DER signature of 64 bytes; any other length is refused |
| Der.DecodeSig | static/phone-crypto.js:77-88 | the loop over the 64-byte buffer computes the lenient reading, with its three ways to fail |
| Der.RawSigUndoes | static/phone-crypto.js:60-88 | rawSig undoes derSig on every 64-byte input |
| Der.StrictReadsSig | src/grants.rs:511-515 | a strict DER reader accepts what derSig writes and reads the same 64 bytes; the whole fits 72 bytes, so that every length is in the short form |
| Der.StrictSigIsDerSig | src/grants.rs:511-515 | what a strict reader accepts is exactly what derSig writes of the bytes it reads |
| Der.RawSigIsStrict | static/phone-crypto.js:77-88 | the lenient reader agrees with the strict one wherever the strict one accepts |
| Grants.ParseRegistry | src/grants.rs:159-174 | all signers in file order with their decoded keys, or the reason of the first signer with an empty id, an id seen before or a bad key |
| GrantLaws.StoreRoundTrip | src/grants.rs:643-671 | a stored verified envelope gives back the same envelope, which verifies again to the same result |
| GrantLaws.ReorderedVerifies | src/grants.rs:489-522 | an envelope whose record has its members in another order verifies with the same id, hash and typed record |
| GrantLaws.LowerHexInjective | src/grants.rs:451-459 | two digests print the same lower-case hex only when they are equal |
| GrantLaws.LowerHexReads | src/grants.rs:451-459 | each byte is its two hex digits, the high one first |
| GrantLaws.HashNamesRecord | src/grants.rs:447-472 | unless the digest collides on the two records, equal hashes mean records equal up to member order and equal ids |
| GrantLaws.IdIsThirtyBits | src/grants.rs:466-472 | two ids are equal exactly when the first thirty bits of the digests are |
| RecordLaws.ReadIff | src/grants.rs:255-395 | an object is read as a typed record exactly when its members spell it, with no other member |
| RecordLaws.ParseIff | src/grants.rs:404-444 | the structure check accepts exactly version 1 records with a signer, canonical times, an expiry after the issue of a grant and a valid key of an enrolment |
| RecordLaws.AcceptedIff | src/grants.rs:489-522 | an envelope is accepted exactly when it has the five members, the algorithm and a record, hash and id are those of the canonical text, and the first registry entry of the signer that the record names has signed that text |
| RecordLaws.RefusalIsFirst | src/grants.rs:489-522 | every refusal names the first check that failed |
| RecordLaws.AnswersOfRecord | src/grants.rs:557-570 | what a verified grant answers is its record's decision, its answer or else the decision, and its note |
| Phone.Hex | static/phone-crypto.js:30-34 | the loop prints the lower-case hex that the daemon compares |
| Phone.ReadsBuilt | static/phone-crypto.js:103-115 | the daemon reads the built record as the ask, the question, the decision and the options, absent ones absent |
| Phone.BuiltMembers | static/phone-crypto.js:103-115 | the record has the ask, the choice, both times to the second and exactly those optional members that are not empty |
| Phone.CheckIff | static/phone-crypto.js:121-130 | the phone's own verifier says valid exactly of a signature that verifies, and otherwise names the hash before the id before the signature |
| Phone.BuiltParses | src/grants.rs:404-444 | the structure check passes exactly when the ttl is at least one second, and the expiry is then exactly ttl seconds after the issue time |
| Phone.SignedVerifies | static/phone-crypto.js:116-130 | any record that passes the structure check verifies, once signed, in the daemon and on the phone |
| Phone.BuiltVerifies | static/phone-crypto.js:103-130 | whatever grantRecord and signRecord build verifies in the daemon, to exactly the built record, and on the phone |
| Models.StatusRoundTrip | src/db.rs:751-758 | a status survives being written and read exactly when it is not TimedOut, which comes back open |
| Store.Db.Insert | src/db.rs:41-108 | a new row with the status as text and no snooze or note, or nothing when the id is taken |
| Store.Db.SetStatus | src/db.rs:180-187 | the status text of one row, and nothing else |
| Store.Db.Answer | src/db.rs:189-208 | the answer columns and the text answered, whatever the text was |
| Store.Db.Dismiss | src/db.rs:210-220 | the text dismissed and the time, whatever the text was |
| Store.Db.Snooze | src/db.rs:152-166 | the snooze time, capped at the deadline, and the row as loaded |
| Store.Db.InsertAnswering | src/db.rs:539-581 | checks on the decoded row, one new grant, an update only while the text is open; nothing at all on refusal |
| Store.Db.InsertRevoking | src/db.rs:585-609 | one new grant and the target's revoked_by unless it is set; nothing when the target is missing |
| Store.Db.InsertOnly | src/db.rs:612-622 | one new grant, or nothing when the id is taken |
| Store.Db.Claim | src/db.rs:675-686 | claimed_by and claimed_at of an unclaimed grant, and whether a row changed |
| Server.Server.Ask | src/handlers.rs:80-262 | the caller's earlier ask, the answer of a rule, or a new row, in place |
| Server.Server.Answer | src/handlers.rs:306-356 | the checks, the update, the re-read row in the envelope and the waiter woken, in place |
| Server.Server.Cancel | src/handlers.rs:359-376 | anything but an answered ask becomes cancelled; waiters are left alone |
| Server.Server.Dismiss | src/handlers.rs:379-424 | an open ask becomes dismissed and its waiter receives an empty envelope |
| Server.Server.Snooze | src/handlers.rs:431-469 | refusals and the new row |
| Server.Server.Post | src/grant_handlers.rs:39-112 | the transaction by kind of record, and the waiter of a kind-grant woken |
| Server.Server.Claim | src/grant_handlers.rs:221-235 | the check, the conditional update and the row shown to the winner |
| Server.AskSteps | src/handlers.rs:80-262 | whatever the rules, the steps of ask, with nothing between them, come to what the handler does in place, a taken id included unless a rule answers at once |
| Serving.AutoAnswerStoresNothing | src/handlers.rs:219-242 | an ask that a rule answers is stored nowhere; an approval ask always is, open or muted |
| Server.AnswerSteps | src/handlers.rs:306-356 | the steps of answer, with nothing between them, come to what the handler does in place |
| Server.CancelSteps | src/handlers.rs:359-376 | the same for cancel |
| Server.DismissSteps | src/handlers.rs:379-424 | the same for dismiss |
| Server.SnoozeSteps | src/handlers.rs:431-469 | the same for snooze |
| Server.PostSteps | src/grant_handlers.rs:39-112 | the same for a posted envelope that verifies |
| Server.ClaimSteps | src/grant_handlers.rs:221-235 | the same for a claim |
| Server.TimeOutSteps | src/handlers.rs:858-891 | the same for the end of a wait whose time has run out, whether or not its write works |
| Serving.AnswerIsFinal | src/handlers.rs:306-469 | when handlers run one at a time no request changes the row of an answered ask |
| HandlerLaws.AskMeans | src/handlers.rs:80-262 | ask gives the caller's row of the last 24 hours, or a rule's answer, or one new row with the evaluated columns and nothing answered, snoozed or noted |
| HandlerLaws.AnswerMeans | src/handlers.rs:306-356 | exactly an ask that reads open and is no approval is answered; row and envelope have the answer, via as the label, note and time |
| HandlerLaws.CancelMeans | src/handlers.rs:359-376 | every stored ask but an answered one becomes cancelled, and only its text changes |
| HandlerLaws.DismissMeans | src/handlers.rs:379-424 | exactly an ask that reads open is dismissed, and its waiter is told there is no answer |
| HandlerLaws.SnoozeMeans | src/handlers.rs:431-469 | exactly an ask that reads open and outlasts the snooze sleeps that many minutes |
| HandlerLaws.SnoozeWriteMeans | src/db.rs:152-166 | the write itself stops at the deadline, whatever was checked before |
| HandlerLaws.WaitBeginMeans | src/handlers.rs:791-823 | what a wait tells at once of an answered, dismissed, cancelled or timed-out ask, and when it looks up a grant or registers |
| HandlerLaws.WaitFindMeans | src/db.rs:633-641 | the lookup takes the kind-grant of the ask that was issued last, and last stored among those, and hands on its envelope and signer |
| HandlerLaws.TimeOutMeans | src/handlers.rs:858-891 | a wait out of time marks exactly an ask that reads open, when the write works, and tells timed_out |
| HandlerLaws.WaiterMeans | src/handlers.rs:826-861 | registering, receiving, losing the sender, running out of time and unregistering |
| HandlerLaws.SendMeans | src/handlers.rs:336-341 | waking takes the sender of the ask out and uses it once |
| HandlerLaws.ClaimMeans | src/grants.rs:698-711 | exactly an unclaimed kind-grant whose record says once is claimed, with the claimer and the time |
| HandlerLaws.GrantRefusal | src/grants.rs:527-544 | a kind-grant is refused for the first of: no ask, no approval, not open, another question, id taken |
| HandlerLaws.RevokeMeans | src/db.rs:585-609 | a revoke is stored and marks its target unless marked; a missing target and a taken id are refused |
| StepLaws.DroppedAnywhere | src/handlers.rs:786-893 | a handler that has not replied may be dropped at any step, and what it wrote and registered stays |
| StepLaws.AskStepsMean | src/handlers.rs:80-262 | the check stops at a readable row of the caller of the last 24 hours; the insert is of a new ask of that caller; a rule's answer is stored nowhere |
| StepLaws.InsertMeans | src/db.rs:41-106 | a new row stands under its id, never snoozed and without a note; a taken id is refused |
| StepLaws.AnswerBeginMeans | src/handlers.rs:311-317 | an answer goes on for exactly an ask that reads open and is no approval |
| StepLaws.AnswerCommitMeans | src/handlers.rs:322 | the write answers whatever the row has become by then |
| StepLaws.AnswerRereadMeans | src/handlers.rs:324-338 | the waiter is told the handler's own answer and time, with the label and note of the row as it is by then |
| StepLaws.CancelStepsMean | src/handlers.rs:359-376 | a cancel goes on for any ask not answered, and its write looks at no text |
| StepLaws.DismissBeginMeans | src/handlers.rs:383-391 | a dismissal goes on for exactly an ask that reads open |
| StepLaws.DismissCommitMeans | src/handlers.rs:393-412 | its write looks at no text, and the waiter is told there is no answer |
| StepLaws.SnoozeStepsMean | src/handlers.rs:431-469 | a snooze goes on for exactly an ask that reads open and outlasts it; the write counts from its own time and stops at the deadline |
| StepLaws.WaitLookMeans | src/handlers.rs:866-889 | a wait out of time marks only an ask that reads open, and tells timed_out either way |
| StepLaws.WaitMarkMeans | src/handlers.rs:868-872 | the mark is written whatever the row has become, when the write works |
| StepLaws.ClaimRefusal | src/grants.rs:704-711 | a claim is refused as not once before it is refused as claimed |
| StepLaws.ClaimStepsMean | src/grant_handlers.rs:221-235 | the check, the write that only the first claim wins, and the row shown |
| StepLaws.GrantedCopy | src/db.rs:539-581 | the ask as its handler goes on with it is the row read again when its text was open |
| StepLaws.OtherRecordsMean | src/db.rs:585-625 | a revoke or an enrolment is refused exactly for a taken id or a missing target, and touches no ask |
| DaemonGrants.AnsweringKeeps | src/db.rs:539-581 | the answering transaction keeps the invariant of the tables, with rows open or timed out |
| DaemonGrants.RevokingKeeps | src/db.rs:585-609 | the revoking transaction keeps it, and writes a mark from an old grant to a new one |
| DaemonSteps.TableStepKeeps | src/handlers.rs:80-469 | every step of every handler on the tables keeps the invariant and leaves local state it can vouch for |
| DaemonRuns.StepInv | src/handlers.rs:786-893 | every step, on tables, waiters or channels, keeps the whole invariant, and tables only grow |
| DaemonRuns.RunInv | src/grant_handlers.rs:39-112 | after every run: known texts only, kind-grants name approvals that are not open, two for one ask only after a timeout, revocations name stored revokes of that very grant, claims are of once-grants and held by one handler, and every answer in a handler or on a channel is backed by a grant or was held by its row |
| DaemonRuns.RunGrows | src/db.rs:180-220 | over any later steps asks never reopen or lose their columns, and grants change only by one revocation and one claim |
| DaemonLaws.AnsweredByExactlyOneGrant | src/db.rs:539-581 | in every run an approval row that says answered is named by exactly one kind-grant, whose record gives its answer, label and note |
| DaemonSigned.AnswerIsSigned | src/grants.rs:557-570 | in every run an approval row that says answered has the decision, label and note that the members of its one grant's record give |
| DaemonSigned.SignedAnswerStays | src/db.rs:559-574 | and it keeps them, whatever runs on |
| DaemonSigned.PostedAnswersAsSigned | src/grant_handlers.rs:64-86 | in every run a posted grant is refused, or is stored as posted and answers the row and the waiters of the ask it names with what its record says |
| DaemonLaws.TwoGrantsNeedTimeout | src/db.rs:555-574 | two kind-grants for one ask are stored only in runs in which its row held the text timedout |
| DaemonRaces.BothGrantsStored | src/handlers.rs:867-873 | the exception is real: any two verified kind-grants for an ask are both stored by the run in which its wait times out first |
| Approval.PhoneGrantsCollide | src/db.rs:751-758 | an approval and a denial signed on the phone for one ask are such a pair |
| DaemonLaws.NoGrantWhileOpen | src/db.rs:559-574 | a kind-grant names a stored approval ask whose text is not open |
| DaemonLaws.NeverReopens | src/db.rs:180-220 | the text never becomes open again, and is never the timed_out that readers look for |
| DaemonAnswers.AnswerLostIff | src/handlers.rs:359-400 | in every run a step takes a row out of answered exactly when it is the write of a cancel, a dismiss or a timeout whose handler read the ask earlier |
| DaemonAnswers.AnswerStandsIff | src/db.rs:180-220 | an answered ask stays answered throughout whatever runs on exactly when no step of it is such a write |
| DaemonAnswers.TimeOutOverGrant | src/handlers.rs:867-873 | the timeout of a waiter that read an approval open overwrites the status after a signed grant has answered it; the grant and its answer stay |
| DaemonAnswers.SettledAnswerStays | src/db.rs:180-220 | once an approval's row is no longer open its answer, label and note are never written again, in any run |
| DaemonAnswers.GrantAnswerStays | src/db.rs:559-574 | the one grant that answered an approval has its answer in the row for good, whatever overwrites the status |
| DaemonLaws.SnoozeWithinDeadline | src/db.rs:152-166 | in every run the snooze of an ask ends no later than its deadline, which stays |
| DaemonLaws.GrantStoredIff | src/grants.rs:527-544 | a verified kind-grant is stored exactly when its ask is an approval, open or timed out, with the same question, and the id is new |
| DaemonLaws.StoredGrantsLast | src/db.rs:507-533 | a stored grant's id, record, hash and signature never change, and what is served for it verifies |
| DaemonSigned.StoredIsSigned | src/grants.rs:643-671 | in every run each stored grant was signed by the entry some registry has first for the signer its record names, and its columns are what the record says |
| DaemonSigned.ClaimedSaysOnce | src/grants.rs:690-694 | a claimed grant is a kind-grant whose record has once true |
| DaemonLaws.PostEffect | src/grant_handlers.rs:64-104 | a refused envelope changes no table; an accepted one adds exactly its grant and changes at most its ask or its target's revoked_by |
| DaemonWaits.ApprovalAnswerCarriesGrant | src/grant_handlers.rs:239-248 | behind every answer a waiter on an approval receives is a stored kind-grant for it, whose answer it is unless the row was timed out; it comes with the answer exactly when the waiter's own lookup did not fail |
| DaemonWaits.BareIff | src/grant_handlers.rs:239-248 | in every run a handler tells an approval's answer without a grant exactly when a lookup of that very handler failed |
| DaemonWaits.FailedLookupIsBare | src/grant_handlers.rs:246 | the run in which a lookup fails, and the signed answer arrives alone |
| DaemonLaws.PlainAnswerWasWritten | src/handlers.rs:319-346 | on any other ask a waiter receives only an answer its row has held |
| DaemonLaws.OneEnvelopePerChannel | src/handlers.rs:830-839 | a channel carries at most one envelope, with the id it was registered for |
| DaemonLaws.OneClaimSucceeds | src/grant_handlers.rs:221-235 | of any number of concurrent claims of a grant at most one succeeds |
| DaemonLaws.ClaimStays | src/db.rs:675-686 | the winner is shown its own name, and the claim is never changed |
| DaemonLaws.OnlyOnceClaimed | src/grants.rs:690-711 | only once-grants are ever claimed |
| DaemonRevokes.RevokersAreLater | src/db.rs:585-609 | revoked_by names a stored revoke of this very grant that was stored strictly later |
| DaemonRevokes.RevokedOnce | src/db.rs:598-604 | revoked_by never changes once it is set |
| DaemonRevokes.ChainsDoNotCycle | src/db.rs:585-609 | along a chain of revokes the time of storing strictly grows, so that no chain comes back |
| DaemonCallers.CallersAreDayApart | src/handlers.rs:84-90 | when the asks of each caller run one at a time, among any other asks and steps, also between an ask's check and its insert, rows of one caller are at least 24 hours apart |
| DaemonCallers.DayApartIff | src/handlers.rs:84-90 | in every run, however asks interleave or fail to read, rows of one caller are 24 hours apart exactly when the check of each, made again as it inserts, would still find nobody |
| DaemonCallers.ConcurrentAsksCollide | src/handlers.rs:84-90 | two asks of one caller that interleave are both stored |
| DaemonCallers.ReadFailureCollides | src/handlers.rs:87 | so are two that follow each other when the second fails to read |
| Approval.PhoneGrantAnswers | src/grant_handlers.rs:39-112 | a grant signed on the phone for an open ask is stored, answers it with the user's choice and goes on to the waiters |
| DaemonSigned.PhoneChoiceAnswers | src/grants.rs:557-600 | row and envelope then have exactly the decision, the answer or else the decision, and the note that the user chose, empty ones left out |
| Approval.WaiterIsWoken | src/grant_handlers.rs:73-78 | the next step puts that envelope, and nothing else, on the channel of the registered waiter |
| Rules.Evaluate | src/rules.rs:12-84 | the loop computes the fold over the stable order |
| RuleLaws.DeletingIdleRules | src/rules.rs:20-29 | deleting the rules that are not active or whose expiry has passed changes nothing |
| RuleTests.ExpiryIsExact | src/rules.rs:24-29 | a matching rule still acts at the millisecond it names and no longer one later |
| RuleTests.InactiveIsIdle | src/rules.rs:20-22 | an inactive rule does nothing |
| RuleTests.RawRule | src/rules.rs:32-38 | a rule that is not compiled mutes as its flag says |
| RuleTests.AgentTest | src/rules.rs:92-104 | agent: the name, a list with it, or "*", and nothing else |
| RuleTests.UrgencyTests | src/rules.rs:106-118 | urgency_min and urgency_max are inclusive bounds; anything but an integer is no test |
| RuleTests.QuestionTest | src/rules.rs:120-125 | question_includes: a part of the question in lower case; anything but a text is no test |
| RuleTests.SourceContainsTest | src/rules.rs:127-144 | source_contains: a part of the source in lower case, or a list of them, or "*" |
| RuleTests.SourceIsTest | src/rules.rs:146-163 | source_is: the source in lower case, or a list with it, or "*" |
| RuleTests.OtherTest | src/rules.rs:87-166 | any other member of match is no test |
| RuleTests.NoTests | src/rules.rs:87-90 | without match, or with one that is no object, a rule matches every ask |
| RuleTests.TestsAreConjunctive | src/rules.rs:87-166 | a rule matches exactly when every single one of its tests does |
| RuleTests.StatusActions | src/rules.rs:49-54 | mute and surface set the status |
| RuleTests.ReprioritizeAction | src/rules.rs:55-59 | reprioritize sets the urgency to the nearest of 0 to 5, for exactly the texts of 32-bit integers |
| RuleTests.SnoozeAction | src/rules.rs:60-66 | snooze sets the deadline that its text gives |
| RuleTests.AutoAnswerAction | src/rules.rs:67-81 | auto_answer answers with its text, but no approval |
| RuleTests.OtherAction | src/rules.rs:70-72 | any other action does nothing |
| RuleTests.LaterOfEqualsWins | src/rules.rs:17-18 | of two rules of one priority the one stored later decides the status |
| Sorting.SortIsStable | src/rules.rs:17-18 | elements that tie keep their order |
| RuleLaws.PermutingRules | src/rules.rs:17-18 | the stored order of rules with distinct priorities does not matter |
| RuleLaws.ApprovalNeverAutoAnswered | src/rules.rs:77-81 | rules leave all but status, urgency and deadline alone, status open or muted, urgency within 0..5, and never answer an approval |
| RuleLaws.ParsePrintedI32 | src/rules.rs:55-59 | every 32-bit integer printed into an action is read back |
| RuleLaws.LastWriterWins | src/rules.rs:20-75 | when no rule tests urgency, status, urgency, deadline and automatic answer are each the last matching writer's in sorted order |
| RuleLaws.LowestPriorityWins | src/rules.rs:17-18 | of the matching rules that write a column the one of lowest priority decides it, wherever it is stored |
| RuleLaws.KeyIsPriority | src/rules.rs:18 | a higher sort key is a lower priority, except for the least 32-bit integer |
| RuleLaws.CommentExampleFails | src/rules.rs:8-11 | mute all at 10 and surface one contact at 20 leaves that contact muted; with the priorities swapped it is open |
| RuleLaws.UrgencyIsRead | src/rules.rs:106-118 | where a rule tests urgency, an earlier rule can make it match |
| Console.Console.Tidy | static/console.js:162-169 | the loops of normalize: the live asks, oldest first, and the cursor moved to the nearest when its ask is gone |
| Console.Console.Reload | static/console.js:200-205 | the list put in place of the queue, then tidied |
| Console.Console.Put | static/console.js:170-173 | the ask replaced or added, then tidied |
| Console.Console.Remove | static/console.js:174-181 | the ask spliced out and the cursor moved to its neighbour |
| Console.Console.Step | static/console.js:182-188 | one ask to the left or right, round the ends |
| Console.Console.Select | static/console.js:150-161 | a new cursor resets the selection and the form; the same cursor changes nothing |
| Console.Console.Enter | static/console.js:130-136 | the answer kept under its sub-question's key, then the next one, or the whole form sent |
| Console.Console.GoBack | static/console.js:276 | one sub-question back |
| ConsoleLaws.CursorAlways | static/console.js:150-188 | after any inputs the cursor is null exactly when the queue is empty and names a member otherwise |
| ConsoleLaws.FocusStays | static/console.js:162-181 | nothing that arrives moves the cursor off an ask that is still live, or clears its selection and half-filled form |
| ConsoleLaws.RemoveMovesOn | static/console.js:174-181 | when the ask under the cursor goes, the cursor goes to the next one, else to the last, else to null |
| ConsoleLaws.SortedAlways | static/console.js:166 | the queue is oldest first after any inputs |
| ConsoleLaws.RightLeft | static/console.js:182-188 | right then left comes back to the same ask |
| ConsoleLaws.StepAt | static/console.js:182-188 | an arrow goes to the ask at the next place on its side, round the ends |
| ConsoleForms.TidyMovesToPlace | static/console.js:162-169 | when the ask under the cursor leaves in a clean-up, the cursor goes to the ask now at its place, or to the last |
| ConsoleForms.ListIsShown | static/console.js:143-169 | a list is shown as far as its asks are open, awake and before their deadlines, oldest first |
| ConsoleForms.NewFocusIsBlank | static/console.js:150-161 | on any other ask, selection and form start anew |
| ConsoleForms.EnteredIsKept | static/console.js:130-136 | a plain ask is sent with the value; a form keeps it under the key of its current question, every other answer as it was, and goes on or is sent |
| ConsoleForms.BackGoesBack | static/console.js:276 | one question back, with the answers kept |
| ConsoleForms.FormsSendWhatWasEntered | static/console.js:130-136 | over every input list, a form that is sent has for each key it can keep the value last entered at a question with that key since the cursor came to the ask |
| ConsoleLaws.FormsAreWhole | static/console.js:119-136 | a form that is sent, after any walk, carries an answer for every key of its form but __proto__, and no other |
| ConsoleLaws.CompleteIff | static/console.js:133 | that is every key exactly when no sub-question has the key __proto__ |
| ConsoleSync.AgreesIff | static/console.js:145-221 | over every run of one-at-a-time requests, with lists and responses on their way meanwhile, the queue agrees with the table throughout exactly when no snooze of less than a minute shows a timed-out ask, no failed timeout and no late response hides an ask that is due, and every list that arrives fits what was heard since it was served |
| ConsoleSync.NextIff | static/console.js:200-221 | the same for each single happening, from any agreement |
| ConsoleFlight.ArrivalAgreesIff | static/console.js:200-205 | a list leaves an agreement exactly when nothing heard since it was served closed an ask it shows live, or showed one it lacks that must be shown |
| ConsoleSync.TimeOutIff | src/handlers.rs:858-891 | a timeout keeps the agreement exactly when its write works, or the row is not open, or the ask is excused from being shown |
| ConsoleSync.ResponseIff | static/console.js:174-181 | the removal that comes with a response keeps it exactly when the ask is by then not open, or excused from being shown |
| ConsoleSync.ClosingResponseIsCareful | static/console.js:247-266 | the response to an answer, a dismissal or a grant is harmless however late it comes |
| ConsoleSync.SnoozeIff | src/handlers.rs:431-469 | a snooze keeps it exactly when it is not one of less than a minute on a timed-out ask whose deadline has not passed |
| ConsoleSync.ShowsOnlyListed | src/db.rs:139-150 | under that condition every entry of the queue is its row as loaded, and is live exactly when the server would list it |
| ConsoleSync.LacksIffSnoozed | static/console.js:200-205 | and, with snoozes of a minute or more, a listed ask is missing exactly when its snooze ended after the list was served that arrived last |
| ConsoleSync.QuietLoadShowsTheList | static/console.js:200-205 | a list that arrives with nothing heard since it was served becomes the queue, oldest first |
| ConsoleRaces.StaleListLacks | static/console.js:200-205 | a list overtaken by a new ask leaves the queue without an ask that is listed and was never snoozed |
| ConsoleRaces.StaleListShows | static/console.js:200-205 | a list overtaken by a cancel leaves an ask in the queue that the server would not list |
| ConsoleRaces.FailedTimeOutLacks | src/handlers.rs:867-873 | a timeout whose write fails hides an ask that stays listed |
| ConsoleRaces.LateResponseLacks | static/console.js:283-288 | the late response to a snooze removes an ask that is listed, and was in the list just loaded |
| ConsoleRaces.SnoozedBeforeLoad | static/console.js:499 | a listed ask may be missing though it was snoozed before the last load |

## Left out

- Liveness of waits: a waiter may be replaced or removed by another and only fails or times out; safety is what holds.
- ConsoleSync.AgreesIff: takes every event to be delivered before the next request is served, and one clock for server and console.
- DaemonCallers.DayApartIff: takes the rows of one caller to be made in the order of their times; the check of an ask looks back from its own time only.
- DaemonLaws.NeverReopens: holds of the writers the program calls; `delete_notification` and `timeout_notifications`, which writes `timed_out` (src/db.rs:222-251), are called from nowhere and are not modelled.
- Phone.BuiltVerifies: issue and expiry times are within the years 0000 to 9999, where both sides print four digits.
- `wait_for_answer` as an in-place method: it runs only as steps, because it does nothing but wait between them.
- Aliasing of JavaScript objects held by the console's queue: entries are values.
- JSON numbers outside the safe integers and floating-point numbers: rules and records of the model hold safe integers.
- Question types and the other columns that no handler here looks at: they are stored and read back unchanged.
- Busy flags, notes, numeric entry, the dismiss confirmation and the ttl choice of the console: they do not touch the queue, the cursor or the form walk.
- The waiters of a cancelled ask: cancel does not wake them, so that they only time out.
- HTTP routing, Postgres connections, server-sent events as a transport, webhooks, push delivery, encryption of push payloads: input and output.
- Triage, agents, entity groups, the natural-language rule compiler, the router, self-upgrade and the command line: no part of the approval story.
- Small pure helpers (`resolve_once`, `resolve_ttl_secs`, `list_filter`, `parse_claim_body`): easy members.
