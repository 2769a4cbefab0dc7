# A verified model of the legal-operations gate and its companions

This project models the parts of the repository whose promises reach over several calls, several files or
whole runs, and proves those promises for every input, run or reachable state.

- **Receipt ledger** (`Texts`, `CanonicalJson`, `CanonicalText`, `Receipts`, `Operations`, `HashedText`). Canonical JSON over UTF-16 text, the
  hash preimage, `append`, `verify`, `head`, operation identities. SHA-256 is an arbitrary function into 64 hex
  digits; results that rest on it say "equal, or here are two texts with one hash".
- **Dispatch protocol** (`Poller`, `Dispatch`, `DispatchSafety`, `DispatchUndamaged`, `DispatchIntegrity`; what the
  receipts mean: `DispatchReceipts`, `DispatchJobs`, `DispatchMeaning`, `DispatchAnswers`, `PollerPass`). One step is
  what runs between two awaits. Requests, poller passes, failed, unsynced and torn writes, crashes, restarts and tail
  repairs interleave in any order.
- **Writer lease** (`Lease`). Lock file, lease object, and any number of processes whose append is a read step
  and a write step.
- **Matter access and confidentiality floors** (`Access`, `Confidentiality`). Both registries as folds over the
  ledger, live and replayed.
- **Deadline engine** (`Calendar`, `Holidays`, `HolidaysOf2021`, `Deadlines`). Every date of the proleptic Gregorian calendar.
- **Time stamps** (`Der`, `TimeStamps`). The byte-level DER writer and reader.
- **Learning loop** (`LessonWords`, `Lessons`, `LessonIds`, `LessonArchive`, `LearningLoop`). Ledger, screen, ids as the doubles
  they are, HOT memory, archive, and the commands over whole runs.
- **Authorization** (`CodePoints`, `Authorization`, `GateAuthorization`, `AuthorizationRules`). The Python compiler against the gate's
  parser and decisions.
- **Frontmatter** (`Frontmatter`, `SourceEntries`, `FrontmatterInsertion`). Block splitting and source injection.
- **Smaller cores** (`Connect`, `Chunks`, `ChunkLayout`, `Teams`, `Tokens`). `Options` holds the option type all modules share.

## Where the code and its comments disagree

The model follows the code; each point has a lemma with an input and the exact condition.

- An anchor comment that waits for a time stamp can start on a ledger that no longer verifies, after another
  handler's torn write: `DispatchUndamaged.AnchorAfterTornWrite`. It is the only call that can while nothing but the
  gate writes the file: `DispatchUndamaged.StartsIntactIff`. Poller comments can too, but only when the file is edited
  from outside between the check and the call: `DispatchIntegrity.PollCommentUnchecked`,
  `DispatchIntegrity.StartsOnVerifiedLedgerIff`.
- The access registry falls behind the ledger when an append throws after its line is on disk, and no registry
  can be rebuilt after a torn line: `Access.InStepIff`.
- An operator's removal of the lock file lets a second writer in, and breaks the ledger, exactly when a live process
  holds the lease: `Lease.RemovalHarmlessIff`.
- A restart over a ledger that does not verify drops every confidentiality floor: `Confidentiality.FloorFallsIff`.
- Lengths of 2^32 and above are written modulo 2^32: `Der.TlvRoundTripIff`. A time-stamp token may run past the
  sequence that should hold it, exactly in buffers with bytes behind that sequence: `TimeStamps.TokenMayOverrun`,
  `TimeStamps.InsideIff`.
- The compiler accepts vendor ids the gate refuses (a byte order mark; more than 512 UTF-16 units):
  `GateAuthorization.DocumentAcceptedIff`, `GateAuthorization.BomRefused`. The import step persists more than 512
  bindings, which compilation then refuses: `Authorization.BindingsReadBackIff`, `Authorization.TooManyAgents`.
- Source injection adds more than one run of lines to a file with two metadata or two sources blocks:
  `FrontmatterInsertion.InsertionIff`, `FrontmatterInsertion.TwoMetadataBlocks`.
- Contributing matters can lower the tier when only the default was in force: `Confidentiality.DefaultLoweredIff`.
- A line break inside a lesson takes HOT memory over its limit: `Lessons.HotLimitIff`, `Lessons.LineBreakOverruns`.
- Lesson ids repeat once an id of the day carries the number 2^53: `LessonIds.FreshIff`, `LessonIds.IdRepeats`.

## Model

| member | source | states |
|---|---|---|
| CanonicalJson.PrintUnique | gate-proxy/src/receipts.ts:116-129 | unique readability: equal printed texts with arbitrary text behind them come from equal values |
| CanonicalJson.CanonicalFaithful | gate-proxy/src/receipts.ts:116-129 | canonical texts are equal exactly when the values are equal up to the order of object keys |
| CanonicalJson.CanonicalUnambiguous | gate-proxy/src/receipts.ts:116-129 | a canonical text followed by more text splits in only one way |
| CanonicalJson.FieldsAgree | gate-proxy/src/receipts.ts:116-129 | values equal up to key order answer every property access alike |
| CanonicalText.EscapeIs | gate-proxy/src/receipts.ts:117-119 | which escape each unit of a string gets |
| CanonicalText.QuoteIs | gate-proxy/src/receipts.ts:117-119 | a string is quoted unit by unit; only the halves of a surrogate pair stand as they are |
| CanonicalText.BeforeIs | gate-proxy/src/receipts.ts:124-125 | the order of keys: the smaller unit where two keys part, or the shorter key |
| CanonicalText.ObjectText | gate-proxy/src/receipts.ts:123-128 | an object is its members, each once, in key order and without white space |
| CanonicalText.ArrayText | gate-proxy/src/receipts.ts:120-122 | an array is its items in their own order |
| CanonicalText.ScalarText | gate-proxy/src/receipts.ts:117-119 | null, true, false, numbers and strings as JSON writes them |
| Receipts.PreimageUnique | gate-proxy/src/receipts.ts:268-271 | the hashed text of a link and a receipt determines both |
| HashedText.PreimageIs | gate-proxy/src/receipts.ts:268-271 | the hashed text: the link, then body, number and time as one object in key order |
| Receipts.ReceiptChain.constructor | gate-proxy/src/receipts.ts:284-300 | a chain over a new file holds no receipts |
| Receipts.ReceiptChain.Append | gate-proxy/src/receipts.ts:315-381 | file and answer after one append, for every way its write can end |
| Receipts.NextIs | gate-proxy/src/receipts.ts:315-366 | which appends are refused and why, in order; the others continue number and link, hash the entry, and store the body with the configured company where it names none |
| Receipts.AppendEnds | gate-proxy/src/receipts.ts:363-381 | what each way a write can end leaves on the file and tells the caller |
| Receipts.ReceiptChain.Verify | gate-proxy/src/receipts.ts:422-484 | intact exactly when every line is linked, numbered and hashed right; else the first faulty line and why |
| Receipts.FaultIs | gate-proxy/src/receipts.ts:434-478 | each reason for a faulty line exactly under its condition, in order |
| Receipts.ReceiptChain.HeadHash | gate-proxy/src/receipts.ts:493-507 | the last hash, the genesis value for an empty file, an error for an unusable tail |
| Receipts.PrefixVerifies | gate-proxy/src/receipts.ts:422-484 | every prefix of a verified ledger verifies |
| Receipts.AppendKeepsVerified | gate-proxy/src/receipts.ts:315-381 | an append to an intact ledger leaves it intact, unless its write is torn |
| Receipts.AppendKeepsSturdy | gate-proxy/src/receipts.ts:315-381 | whatever way writes end, the ledger verifies or does so without its unreadable last line, which makes every append refuse |
| Receipts.BuiltVerifies | gate-proxy/src/receipts.ts:315-381 | every ledger built by appends whose writes were whole verifies |
| Receipts.HeadPinsHistory | gate-proxy/src/receipts.ts:422-507 | if one ledger's head occurs in another, the first is a prefix of the second in seq, ts and body, or a collision is exhibited |
| Receipts.EqualHeadsEqualHistories | gate-proxy/src/receipts.ts:422-507 | equal heads mean equal histories, or a collision is exhibited |
| Receipts.TornBreaks | gate-proxy/src/receipts.ts:422-484 | a ledger with a torn last line does not verify |
| Receipts.MetaAllowedIff | gate-proxy/src/receipts.ts:208-263 | meta may be stored exactly when nothing in it lies more than 8 levels deep, no string is longer than 512 units, and its canonical text takes at most 4096 bytes |
| Receipts.Utf8LengthIs | gate-proxy/src/receipts.ts:255-263 | the byte count of a text, unit by unit as UTF-8 encodes it |
| Operations.DispatchOperationId | gate-proxy/src/operations.ts:17-27 | the identity filled in step by step is the hash of the canonical text of the fields that are present |
| Operations.IdentityUnique | gate-proxy/src/operations.ts:17-27 | preimages of two identities are equal only when every field, and its presence, agrees |
| HashedText.IdentityIs | gate-proxy/src/operations.ts:17-27 | the hashed text of an identity: the fields that are present and version 1, in key order |
| HashedText.DispatchIdentities | gate-proxy/src/server.ts:311-317 | what is hashed to identify a performer call, an approval, an anchor and a poller comment |
| Operations.OperationIdSound | gate-proxy/src/operations.ts:17-27 | equal identities mean one operation, or a collision is exhibited |
| Operations.HasUnresolvedDispatch | gate-proxy/src/operations.ts:35-44 | true exactly when some receipt of any outcome carries the identity; throws on an unreadable line |
| Operations.AppendLeaves | gate-proxy/src/receipts.ts:315-381 | old lines stay; at most one line is added, which is unreadable or reads back as the receipt |
| Operations.AppendHolds | gate-proxy/src/receipts.ts:315-381 | a readable line that is added holds the receipt, field by field |
| Operations.OutcomesNamed | gate-proxy/src/receipts.ts:16-22 | each outcome is stored under its own name |
| Poller.FindUnresolvedApprovals | gate-proxy/src/poller.ts:35-66 | the two scans give the specified list, in ledger order |
| Poller.UnresolvedExact | gate-proxy/src/poller.ts:35-66 | an approval is listed, with its first pending receipt, exactly when it is pending and not settled |
| Poller.ListedInOrder | gate-proxy/src/poller.ts:35-66 | exactly the approvals asked for and named by nothing but requests and reservations are listed, each as its first request tells it, in the order of these requests |
| Poller.UnresolvedDistinct | gate-proxy/src/poller.ts:35-66 | no approval is listed twice |
| Poller.FirstPendingStable | gate-proxy/src/poller.ts:35-66 | appending never changes an approval's first pending receipt |
| Poller.ResolvedForEver | gate-proxy/src/poller.ts:35-66 | a settled approval is never listed again |
| Dispatch.Reserve | gate-proxy/src/server.ts:323-350 | the checked segment reserves exactly when the ledger verifies, the identity is free and the append returned |
| DispatchSafety.StepKeeps | gate-proxy/src/server.ts:302-448 | every step of every handler, a crash and a tail repair keep the protocol invariant |
| DispatchSafety.ReservedAtMostOnce | gate-proxy/src/server.ts:302-448 | in every run each operation identity is reserved at most once |
| DispatchSafety.StartedAtMostOnce | gate-proxy/src/server.ts:702-819 | in every run no external effect starts twice; two calls share an identity only as a time stamp and its anchor comment |
| DispatchSafety.StartedAfterReservation | gate-proxy/src/server.ts:2271-2305 | every started effect has an earlier reservation of its identity in the ledger |
| DispatchSafety.PollerCommentsOnce | gate-proxy/src/poller.ts:88-167 | over all passes, crashes and restarts an approval gets at most one poller comment |
| DispatchReceipts.LineExplained | gate-proxy/src/server.ts:302-448 | every readable line of a run was written by an event that explains it: outcome, identity, tool, issue, approval, payload hash, agent, boundary and decision are those of the request it answers |
| DispatchJobs.EffectExplained | gate-proxy/src/server.ts:302-448 | every started call was started by an event that accounts for its kind and identity |
| DispatchJobs.JobExplained | gate-proxy/src/server.ts:302-448 | every live handler was brought about by an event that accounts for it; a performer's finds its identity free and leaves it on the ledger |
| DispatchMeaning.ReturnedOnce | gate-proxy/src/server.ts:349-447 | in every run a dispatch is answered at most once |
| DispatchMeaning.PerformedOnlyIfReturned | gate-proxy/src/server.ts:385-447 | a line with a performer's identity says performed, or anonymized_performed exactly when masked, only if that dispatch was answered by success |
| DispatchMeaning.FailureIsNeverPerformed | gate-proxy/src/server.ts:385-447 | once a performer call has failed no line with its identity ever says performed |
| DispatchMeaning.AnchorClash | gate-proxy/src/operations.ts:17-27 | a performer and an anchor share an identity only if SHA-256 collides on the two texts given |
| DispatchMeaning.PerformedOnlyIfApproved | gate-proxy/src/server.ts:2323-2354 | a performer starts only for a request that needs no approval, or after the report that its approval was given |
| DispatchMeaning.CommentOnlyIfRefused | gate-proxy/src/poller.ts:93-143 | a poller comment follows only the report that its approval was refused |
| DispatchMeaning.BlockedOnlyIfRefused | gate-proxy/src/poller.ts:93-158 | a line that says an approval was blocked was written by another route or follows the report that this approval was refused |
| DispatchMeaning.PendingOnlyIfWaiting | gate-proxy/src/server.ts:2325-2347 | a line that says an approval is pending was written by another route or follows the report that it is open, or was created |
| DispatchAnswers.AnswersReceipted | gate-proxy/src/server.ts:349-447 | with a good write every answer that settles something adds exactly one line, the one that tells what it was; a success is never told as an error |
| DispatchAnswers.LostReceiptLeavesError | gate-proxy/src/server.ts:424-447 | when the receipt of a success cannot be stored, and the second write is good, an error is on the ledger |
| DispatchAnswers.PerformerStartsIff | gate-proxy/src/server.ts:323-349 | with a good write a performer starts exactly on a verified ledger that does not hold its identity; else the ledger stays as it is |
| DispatchAnswers.ApprovalStartsIff | gate-proxy/src/server.ts:2271-2306 | with a good write an approval is created exactly on a verified ledger that does not hold its identity |
| DispatchAnswers.AnchorStartsIff | gate-proxy/src/server.ts:724-757 | with a good write an anchor starts exactly on a verified ledger that does not hold its identity |
| DispatchAnswers.CommentStartsIff | gate-proxy/src/poller.ts:93-143 | with a good write a comment starts exactly for a refused approval with an issue whose comment is not on the ledger yet |
| PollerPass.AtMostOnePass | gate-proxy/src/poller.ts:73-94 | at most one poller pass is under way, the guard is up exactly then, and the pass has an item left |
| PollerPass.ReadsOnVerified | gate-proxy/src/poller.ts:96-102 | the poller asks for a status only on a verified ledger |
| DispatchUndamaged.RunWhole | gate-proxy/src/server.ts:302-448 | with failed, unsynced and torn writes, crashes and repairs, every reachable ledger verifies or does so without an unreadable last line, and every call but a stamped anchor comment started on a verified one |
| DispatchUndamaged.StartsIntactIff | gate-proxy/src/server.ts:302-448 | while nothing but the gate writes the file, a kind of call starts only on verified ledgers, in all runs, exactly when it is not an anchor comment that waits for a time stamp |
| DispatchUndamaged.AnchorAfterTornWrite | gate-proxy/src/server.ts:702-819 | a run in which another handler's torn write, during the wait for a time stamp, leaves the anchor comment to start on a ledger that does not verify |
| DispatchIntegrity.StampedAnchorUnchecked | gate-proxy/src/server.ts:702-819 | a run in which the file is overwritten from outside during the wait for a time stamp, and the anchor comment starts on the broken ledger |
| DispatchIntegrity.PollCommentUnchecked | gate-proxy/src/poller.ts:88-167 | a run in which the file is overwritten from outside after an approval was read, and its poller comment starts on the broken ledger |
| DispatchIntegrity.StartsOnVerifiedLedgerIff | gate-proxy/src/server.ts:302-448 | with edits of the file from outside at any moment, a kind of call starts only on verified ledgers exactly when it starts in the segment that checks the ledger |
| Lease.Acquire | gate-proxy/src/receipt-lease.ts:46-80 | granted exactly for a well-formed instance, no lock file and a persisted record, else which error; an existing file is not touched |
| Lease.WriterLease.Release | gate-proxy/src/receipt-lease.ts:83-108 | removes the file only while it holds this lease's record; a second call does nothing |
| Lease.SingleWriter | gate-proxy/src/receipt-lease.ts:46-80 | at most one live process is in the lease |
| Lease.LedgerAlwaysVerifies | gate-proxy/src/receipts.ts:315-381 | two-step appends by lease holders leave a ledger that verifies in every reachable state |
| Lease.UnlinksOwnFile | gate-proxy/src/receipt-lease.ts:83-108 | the file a process removes is the one it created |
| Lease.CrashBlocks | gate-proxy/src/receipt-lease.ts:39-45 | after a holder dies nobody enters and nothing is written until an operator removes the file |
| Lease.RemovalHarmlessIff | gate-proxy/src/receipt-lease.ts:39-45 | after a removal every careful continuation keeps a single writer exactly when no live process was in the lease, and likewise keeps a ledger that verifies |
| Lease.CarelessRemovalUnlinksAnother | gate-proxy/src/receipt-lease.ts:83-108 | a careless removal between compare and unlink makes a process remove another's lock file |
| Access.PairKeyUnique | gate-proxy/src/access-registry.ts:73-77 | a joined key names one user and one matter |
| Access.ReplayLines | gate-proxy/src/access-registry.ts:86-140 | the constructor's loop computes the fold of the ledger |
| Access.DecodeIff | gate-proxy/src/access-registry.ts:97-138 | which receipts count, as which event: kind, tool, outcome, reason, ids, time and hash must all be well formed |
| Access.IsIdIs | gate-proxy/src/access-registry.ts:44-45 | which ids are well formed |
| Access.LastEventIsLast | gate-proxy/src/access-registry.ts:161-186 | the event that settles a pair is one that concerns it, and none later does; there is one whenever any event concerns it |
| Access.EntitledIsLastEvent | gate-proxy/src/access-registry.ts:161-186 | entitlement is settled by the last event for the exact pair, its expiry, the roster, and whether the document hash then equals the one now |
| Access.ReceiptDecodes | gate-proxy/src/access-registry.ts:234-339 | the receipt of a grant, revoke or reload decodes to the event the live registry applied |
| Access.ExecuteKeepsStep | gate-proxy/src/access-registry.ts:234-339 | a command whose write is whole or absent keeps replay equal to live; a failed one changes nothing |
| Access.CommandAnswered | gate-proxy/src/access-registry.ts:218-339 | each error exactly under its condition and in its order; a grant passes only with ids of the right form, an actor that is not the subject and a time still to come |
| Access.CommandTakesEffect | gate-proxy/src/access-registry.ts:161-186 | a grant that succeeds gives access until it expires, a revoke takes it away whatever the roster says, and neither touches another pair |
| Access.EventAsked | gate-proxy/src/access-registry.ts:234-339 | every access event on the ledger is what a command of the run asked for, when it was in order to |
| HashedText.GrantPayloadIs | gate-proxy/src/access-registry.ts:266 | what is hashed for a grant |
| HashedText.RevokePayloadIs | gate-proxy/src/access-registry.ts:301 | what is hashed for a revoke |
| Access.NoSelfGrant | gate-proxy/src/access-registry.ts:238-244 | no grant on the ledger was given by its subject |
| Access.EntitledByAnother | gate-proxy/src/access-registry.ts:161-186 | whoever is entitled beyond the roster was granted it by somebody else, for a time not yet over |
| Access.ReplayEqualsLive | gate-proxy/src/access-registry.ts:86-140 | after any interleaving of commands, receipts of other routes (unsynced ones too) and restarts, with no torn write, replay equals live |
| Access.InStepIff | gate-proxy/src/access-registry.ts:234-339 | replay and live stay equal for all commands exactly when the write ends whole or not at all |
| Access.MatterAccessRegistry.constructor | gate-proxy/src/access-registry.ts:86-140 | state equals the replay of the ledger, or everything is denied when it does not verify |
| Access.MatterAccessRegistry.IsEntitled | gate-proxy/src/access-registry.ts:161-186 | answers the specified entitlement; denies over a corrupt ledger |
| Access.MatterAccessRegistry.HasDecisionAuthority | gate-proxy/src/access-registry.ts:203-210 | only the roster grants decision authority, and none over a corrupt ledger |
| Access.MatterAccessRegistry.IsEntitledToAll | gate-proxy/src/access-registry.ts:192-197 | true exactly when entitled to every listed matter |
| Access.MatterAccessRegistry.Perform | gate-proxy/src/access-registry.ts:218-339 | ledger and live state after a grant, revoke or reload, and which error exactly when |
| Access.CheckApprover | gate-proxy/src/access-registry.ts:382-416 | the verdict, and which check denied, exactly when |
| Access.ApprovalCountsIff | gate-proxy/src/access-registry.ts:382-416 | an enforced approval counts exactly when a person holds the authority and the ledger's last events give access to every matter |
| Confidentiality.MaxConfidentiality | gate-proxy/src/matter-classification.ts:106-115 | privileged if any is privileged, else confidential if any is, else standard if any is, else nothing |
| Confidentiality.ResolveEffective | gate-proxy/src/matter-classification.ts:124-165 | the highest of claim and floors, tier by tier, or the default when none is known; and what each flag means |
| Confidentiality.MoreContextRaises | gate-proxy/src/matter-classification.ts:124-165 | adding contributing matters never lowers the tier once a claim or floor is known |
| Confidentiality.DefaultLoweredIff | gate-proxy/src/matter-classification.ts:124-165 | with nothing known, added context lowers the default exactly when its highest floor lies below it |
| Confidentiality.FloorIsHighest | gate-proxy/src/matter-classification.ts:225-233 | a floor is the maximum of everything registered for the matter |
| Confidentiality.DecodeIff | gate-proxy/src/matter-classification.ts:207-222 | which receipts count as a registration, and as which |
| Confidentiality.IsIssueIs | gate-proxy/src/matter-classification.ts:48-49 | which matter ids are well formed |
| Confidentiality.RegisteredFloor | gate-proxy/src/matter-classification.ts:253-289 | a registration that returns leaves the higher of the old floor and the tier asked for, and touches no other matter |
| Confidentiality.RegistrationIsHonest | gate-proxy/src/matter-classification.ts:242-289 | the receipt tells the tier asked for and the floor then in force, also when an attempt to lower it failed |
| HashedText.RegistrationPayloadIs | gate-proxy/src/matter-classification.ts:282 | what is hashed for a registration |
| Confidentiality.PrivilegedForEver | gate-proxy/src/matter-classification.ts:198-289 | a matter once privileged stays so, whatever is registered later, while restarts find a ledger that verifies |
| Confidentiality.ReplayOrderFree | gate-proxy/src/matter-classification.ts:198-233 | replay gives the same floors in any order of registrations |
| Confidentiality.RegistrationReads | gate-proxy/src/matter-classification.ts:198-222 | the receipt of a registration decodes to it |
| Confidentiality.RegisterKeepsStep | gate-proxy/src/matter-classification.ts:253-289 | a registration keeps replay equal to live and raises as specified; a failed one changes nothing |
| Confidentiality.ReplayEqualsLive | gate-proxy/src/matter-classification.ts:198-289 | after any run of registrations whose writes are whole or absent, untorn receipts of other routes and restarts, live floors are the maxima recorded on the ledger |
| Confidentiality.FloorsNeverFall | gate-proxy/src/matter-classification.ts:198-289 | no floor goes down in a run, whatever way writes end, as long as restarts find a ledger that verifies |
| Confidentiality.FloorFallsIff | gate-proxy/src/matter-classification.ts:198-289 | a step lowers a floor exactly when it is a restart over a ledger that does not verify and the matter had a floor |
| Confidentiality.MatterClassificationRegistry.constructor | gate-proxy/src/matter-classification.ts:198-222 | floors equal the replay of the ledger, or none can be read |
| Confidentiality.MatterClassificationRegistry.Get | gate-proxy/src/matter-classification.ts:236-240 | the floor in force; none over a corrupt ledger |
| Confidentiality.MatterClassificationRegistry.Register | gate-proxy/src/matter-classification.ts:253-289 | ledger, floors and answer after a registration |
| Calendar.CivilInverse | deadline-engine/src/holidays.ts:16-29 | day number and (year, month, day) are inverse |
| Calendar.DayNumberMonotone | deadline-engine/src/holidays.ts:16-29 | day numbers order dates as the calendar does |
| Calendar.FourHundredYears | deadline-engine/src/holidays.ts:16-29 | leap years and weekdays repeat after 400 years |
| Holidays.FederalHolidays | deadline-engine/src/holidays.ts:90-126 | the loop and the later additions build the specified set |
| Holidays.NthWeekdayIsNth | deadline-engine/src/holidays.ts:37-42 | the date is the n-th such weekday, counted day by day, and lies in its month |
| Holidays.LastMondayIsLast | deadline-engine/src/holidays.ts:52-58 | the date is the last Monday of its month, December included |
| Holidays.ObservedFixedIs | deadline-engine/src/holidays.ts:69-74 | a Saturday is observed the day before, a Sunday the day after |
| Holidays.HolidaySetExact | deadline-engine/src/holidays.ts:90-139 | a date is in its own year's set exactly when some holiday of some year is observed on it |
| Holidays.HolidaysAWeekApart | deadline-engine/src/holidays.ts:90-126 | two observed holidays are a week or more apart, across year ends too |
| Holidays.HolidayCount | deadline-engine/src/holidays.ts:90-126 | a set has 10, 11 or 12 dates, by the weekday of two New Years |
| HolidaysOf2021.HolidaysOf2021 | deadline-engine/src/holidays.ts:90-126 | the set of 2021, date by date, with four observed days that were moved |
| HolidaysOf2021.WeekdaysNamed | deadline-engine/src/holidays.ts:16-29 | 1970-01-01 was a Thursday, and the days that follow have their names |
| Deadlines.RollForward | deadline-engine/src/engine.ts:38-41 | the first business day at or after the start, within three days |
| Deadlines.RollBackward | deadline-engine/src/engine.ts:44-47 | the last business day at or before the start, within three days |
| Deadlines.ComputeDeadline | deadline-engine/src/engine.ts:101-218 | computed exactly for the federal jurisdiction, a positive whole number of days and no mail backward; else the reason, in order; and then the deadline Rule 6 asks for |
| Deadlines.NoFourClosedDays | deadline-engine/src/engine.ts:38-47 | no four consecutive days are all non-business days |
| Deadlines.DeadlineUnique | deadline-engine/src/engine.ts:101-218 | Rule 6 fixes one deadline, on a business day |
| Deadlines.DeadlineMonotone | deadline-engine/src/engine.ts:122-186 | a later trigger or longer period never gives an earlier forward deadline, mail included |
| Deadlines.BackwardMonotone | deadline-engine/src/engine.ts:188-217 | a longer backward period never ends later |
| Deadlines.DeadlineBounds | deadline-engine/src/engine.ts:101-218 | at most 3 days past the counted period, and 3 to 6 with mail |
| Deadlines.RollOfThreeIff | deadline-engine/src/engine.ts:38-41 | the roll takes three days exactly at a holiday Friday or a Saturday before a holiday Monday |
| Deadlines.BoundsAreTight | deadline-engine/src/engine.ts:101-218 | every Saturday before a holiday Monday meets both bounds |
| Deadlines.TightInDecember2023 | deadline-engine/src/engine.ts:101-218 | such a Saturday: 23 December 2023, two days before Christmas |
| Der.DerLength | gate-proxy/src/anchor-tsa.ts:50-61 | short form below 128, else the digits of the length modulo 2^32; an error below zero |
| Der.LengthIs | gate-proxy/src/anchor-tsa.ts:50-61 | one octet below 128; else a count octet and the length in as few octets as will hold it |
| Der.Tlv | gate-proxy/src/anchor-tsa.ts:63-70 | a new array of tag, length and content |
| Der.Concat | gate-proxy/src/anchor-tsa.ts:72-81 | a new array of all parts in order |
| Der.DerInteger | gate-proxy/src/anchor-tsa.ts:88-95 | an INTEGER element over the stripped, sign-safe content |
| Der.DerIntegerFromNumber | gate-proxy/src/anchor-tsa.ts:97-105 | the INTEGER of a number's shortest big-endian form |
| Der.IntegerFaithful | gate-proxy/src/anchor-tsa.ts:83-95 | content reads back as the unsigned value in two's complement, positive and minimal |
| Der.IntegerCanonical | gate-proxy/src/anchor-tsa.ts:88-95 | contents are equal exactly when the values are |
| Der.ReadTlv | gate-proxy/src/anchor-tsa.ts:121-141 | the element at an offset, or which error |
| Der.ReadIs | gate-proxy/src/anchor-tsa.ts:121-141 | what an element is, and each error exactly under its condition, in order |
| Der.ReadsWritten | gate-proxy/src/anchor-tsa.ts:63-141 | a written element is read at any offset of any buffer with its tag and its length modulo 2^32 |
| Der.TlvRoundTripIff | gate-proxy/src/anchor-tsa.ts:63-141 | the exact content comes back exactly when it is shorter than 2^32 bytes |
| Der.WritesReadIff | gate-proxy/src/anchor-tsa.ts:63-141 | writing what was read restores the bytes exactly when the length was in shortest form and below 2^32 |
| TimeStamps.BuildTimeStampRequest | gate-proxy/src/anchor-tsa.ts:160-187 | refused unless the digest has 32 bytes; else the request for the nonce given or drawn |
| TimeStamps.RequestSpelled | gate-proxy/src/anchor-tsa.ts:160-187 | the bytes of every request, up to digest and nonce |
| TimeStamps.RequestReadBack | gate-proxy/src/anchor-tsa.ts:160-187 | walking a request recovers version 1, sha256, digest, nonce value and certReq, and nothing is left over |
| TimeStamps.RequestsDiffer | gate-proxy/src/anchor-tsa.ts:160-187 | requests are equal exactly when digest and nonce value are |
| TimeStamps.ParseTimeStampResponse | gate-proxy/src/anchor-tsa.ts:208-233 | status, verdict and token bytes, or which error |
| TimeStamps.ParseIs | gate-proxy/src/anchor-tsa.ts:208-233 | which responses are accepted and as what, and which error is raised for the others |
| TimeStamps.ResponseReadBack | gate-proxy/src/anchor-tsa.ts:208-233 | a response built from a status and a token gives both back, whatever else it carries |
| TimeStamps.TokenMayOverrun | gate-proxy/src/anchor-tsa.ts:227-231 | a nine-byte response whose token runs past its outer sequence is accepted |
| TimeStamps.NothingBehind | gate-proxy/src/anchor-tsa.ts:208-233 | an accepted response with nothing behind its outer sequence lies inside it |
| TimeStamps.InsideIff | gate-proxy/src/anchor-tsa.ts:208-233 | among buffers with a given number of bytes behind their outer sequence, all accepted responses lie inside it exactly when that number is zero |
| LessonWords.TrimIs | learning-loop/src/sanitizer.ts:38 | trimming cuts all spaces at both ends and nothing else |
| LessonWords.SpacesAre | learning-loop/src/sanitizer.ts:57 | white space, unit by unit |
| LessonWords.WordUnitsAre | learning-loop/src/sanitizer.ts:58 | the units of words: letters, digits and the underscore |
| LessonWords.TokensAre | learning-loop/src/sanitizer.ts:57 | the telling words of a name are its stretches without spaces of four units or more that are no stopwords |
| LessonWords.HasWordIs | learning-loop/src/sanitizer.ts:58 | the expression matches exactly when the word, bare, plural or possessive, stands between the edges of words |
| Lessons.SanitizeLesson | learning-loop/src/sanitizer.ts:33-69 | ok exactly when no party's name of two units or more stands in the text, no telling word of it does, and no pattern is found; each party's finding and then each pattern is reported, in order, the name before its words |
| Lessons.RedactViolations | learning-loop/src/sanitizer.ts:75-86 | exactly the codes of the violation strings, each once |
| Lessons.BeforeColonIs | learning-loop/src/sanitizer.ts:82 | any other violation is reduced to what stands before its first colon |
| Lessons.RedactionHidesNames | learning-loop/src/sanitizer.ts:71-86 | the prefix tests tell the three kinds of violation string apart for every name, even one that looks like a prefix |
| Lessons.ReasonsNameNobody | learning-loop/src/sanitizer.ts:33-86 | every reason made from what the screen finds in a lesson is one of two fixed words or the label of a pattern, whatever the parties are called |
| Lessons.LedgerEntities | learning-loop/src/ledger.ts:16-24 | exactly the non-empty parties of the ledger, each once |
| Lessons.RenderHotMemory | learning-loop/src/memory.ts:24-66 | the text, kept, overflow and excluded lessons, for an order the sort may give |
| Lessons.RenderPartitions | learning-loop/src/memory.ts:24-66 | HOT, overflow and excluded share out the accepted lessons |
| Lessons.RenderScreens | learning-loop/src/memory.ts:24-46 | excluded exactly when accepted and naming a party of the ledger; HOT and overflow hold only clear lessons |
| Lessons.OverflowIsOldest | learning-loop/src/memory.ts:36-63 | overflow is never newer than what was kept |
| Lessons.HotLines | learning-loop/src/memory.ts:47-65 | the number of lines of the rendered text, exactly |
| Lessons.HotLinesIff | learning-loop/src/memory.ts:55-65 | when every clear accepted lesson is of one line, HOT keeps a limit exactly when it covers the fixed lines |
| Lessons.KeptFits | learning-loop/src/memory.ts:55-65 | a lesson is kept only within the limit, and one overflows only when one more line would not fit |
| Lessons.HotLimitIff | learning-loop/src/memory.ts:55-65 | HOT keeps every limit that covers its fixed lines exactly when every clear accepted lesson is of one line |
| Lessons.LineBreakOverruns | learning-loop/src/memory.ts:55-65 | a ledger with one accepted lesson, whose text is a line break, renders to seven lines where the limit is six |
| LessonIds.NextIdFresh | learning-loop/src/ledger.ts:3-11 | a new id is taken by no lesson of any ledger whose numbers of the day are below 2^53 |
| LessonIds.IdRepeats | learning-loop/src/ledger.ts:3-11 | with the number 2^53 on the day, the new id is one that is taken |
| LessonIds.FreshIff | learning-loop/src/ledger.ts:3-11 | a bound on the numbers of the day makes all new ids fresh exactly when it is below 2^53 |
| LessonIds.RoundIs | learning-loop/src/ledger.ts:3-11 | numbers are rounded to the nearest double, halves to the even one, on both sides of zero alike |
| LessonIds.SpacingIs | learning-loop/src/ledger.ts:3-11 | neighbouring doubles lie the least power of two apart that lets 53 bits reach the number |
| LearningLoop.Store.Save | learning-loop/src/store.ts:19-36 | ledger and memory are rewritten and the overflow is appended to its day's archive file, all from one rendering |
| LearningLoop.NothingDropped | learning-loop/src/store.ts:19-36 | after a save every accepted lesson that names no party of the ledger stands, line for line, in the memory file or in an archive file |
| LearningLoop.MemoryFits | learning-loop/src/store.ts:29-31 | with one-line lessons the memory file has at most 100 lines, and exactly 100 when anything went to the archive |
| LearningLoop.ArchiveOnlyGrows | learning-loop/src/store.ts:19-36 | what an archive file held stays at its beginning |
| LessonArchive.FileOfIs | learning-loop/src/store.ts:32-34 | the archive file is named by the first ten units of the newest overflowing time, or "archive" |
| LearningLoop.Store.Run | learning-loop/src/cli.ts:89-150 | which reply each command gets and what it makes of the ledger, lesson by lesson and field by field; memory and archive with it; a lesson held back says exactly why |
| LearningLoop.RunsFollowTable | learning-loop/src/ledger.ts:38-53 | from each ledger of a run to the next no lesson is lost and each keeps its status or moves as the table allows; none is ever archived |
| Lessons.AllowedIs | learning-loop/src/ledger.ts:38-43 | the three moves the table allows |
| LearningLoop.RunsSound | learning-loop/src/cli.ts:89-150 | in every reachable ledger normalized texts are distinct and no lesson names its own parties |
| LearningLoop.RunsDistinct | learning-loop/src/cli.ts:89-150 | in every ledger reachable in at most 2^53 commands ids are distinct |
| LearningLoop.RunsGrow | learning-loop/src/cli.ts:89-150 | lessons are never removed or rewritten; status moves once, from pending |
| LearningLoop.AcceptedOnceClear | learning-loop/src/cli.ts:110-139 | every accepted lesson was once pending and clear of every party then known |
| LearningLoop.ExcludedForEver | learning-loop/src/memory.ts:29-46 | a lesson once excluded is excluded ever after and never comes back into HOT or overflow |
| Authorization.CompileBindings | bin/_possiblaw_authorization.py:64-91 | which import responses are taken, and the bindings document written |
| Authorization.BindingMap | bin/_possiblaw_authorization.py:94-115 | which bindings documents are taken, and the map read |
| AuthorizationRules.AgentListIs | bin/_possiblaw_authorization.py:50-61 | where the agents of a document are looked for, in order, and that all must be mappings |
| AuthorizationRules.IdIs | bin/_possiblaw_authorization.py:21 | which immutable ids are well formed |
| AuthorizationRules.KebabIs | bin/_possiblaw_authorization.py:22-23 | which slugs and aliases are well formed |
| AuthorizationRules.EnvIs | bin/_possiblaw_authorization.py:24 | which environment variables may be named |
| AuthorizationRules.BindsIs | bin/_possiblaw_authorization.py:75-82 | what an entry of an import response must hold |
| AuthorizationRules.BindingsIs | bin/_possiblaw_authorization.py:94-115 | what a bindings document must hold: its three fields, version 1, the company, 1 to 512 agents, no id twice |
| Authorization.BindingsReadBackIff | bin/_possiblaw_authorization.py:64-115 | what import writes compile reads back, exactly up to 512 agents |
| Authorization.TooManyAgents | bin/_possiblaw_authorization.py:64-115 | an import response of 513 agents that is taken, and whose bindings document is refused |
| Authorization.LiveAgentIds | bin/_possiblaw_authorization.py:118-130 | exactly the ids of the live company, or refused |
| AuthorizationRules.LiveIs | bin/_possiblaw_authorization.py:121-126 | what a live agent must hold |
| AuthorizationRules.LiveListIs | bin/_possiblaw_authorization.py:118-130 | every live agent well formed, and no id twice |
| Authorization.CompileGrants | bin/_possiblaw_authorization.py:163-180 | refused unless every slug's targets are valid; else every bound slug's targets, under its id, and nothing else |
| AuthorizationRules.NamesIs | bin/_possiblaw_authorization.py:167-175 | a list of at most 32 names, each allowed and none twice |
| AuthorizationRules.GrantIs | bin/_possiblaw_authorization.py:162-175 | what a grant of the template must hold |
| AuthorizationRules.TargetsAgree | gate-proxy/src/authorization.ts:4-14 | the compiler's list of targets and the gate's are the same |
| Authorization.CompileDestinations | bin/_possiblaw_authorization.py:182-225 | refused on any bad destination; else exactly the configured ones |
| AuthorizationRules.ResolveIs | bin/_possiblaw_authorization.py:187-222 | a destination resolves when its variables are set to safe ids, is left out when one is not set and it is not required, and is refused otherwise |
| AuthorizationRules.DestinationIs | bin/_possiblaw_authorization.py:184-222 | which destinations of the template pass |
| AuthorizationRules.OfferIs | bin/_possiblaw_authorization.py:228-246 | which destination grants pass: known aliases, and the upload for a bound agent with a configured one |
| Authorization.CompileDestinationGrants | bin/_possiblaw_authorization.py:227-246 | refused unless every offer is valid and its agent may upload; else the configured aliases |
| Authorization.VendorIdIff | gate-proxy/src/authorization.ts:126-130 | an id safe for the compiler is safe for the gate exactly without a byte order mark and within 512 UTF-16 units |
| AuthorizationRules.CompilerSafeIs | bin/_possiblaw_authorization.py:210-214 | the compiler's test of a vendor id, character by character |
| AuthorizationRules.GateSafeIs | gate-proxy/src/authorization.ts:126-130 | the gate's test of a vendor id, character by character |
| AuthorizationRules.ForbiddenIs | gate-proxy/src/authorization.ts:130 | the slash and the control characters, which neither program lets into a vendor id |
| AuthorizationRules.JsSpacesAre | gate-proxy/src/authorization.ts:130 | the spaces the gate refuses, one by one |
| AuthorizationRules.Utf16Adds | gate-proxy/src/authorization.ts:128-129 | a code point counts one unit in the basic plane and two beyond it |
| Authorization.VendorIdsDiffer | gate-proxy/src/authorization.ts:126-130 | an id the compiler takes and the gate refuses |
| GateAuthorization.CompileAuthorization | bin/_possiblaw_authorization.py:133-255 | exactly which inputs compile, and to which policy |
| AuthorizationRules.TemplateIs | bin/_possiblaw_authorization.py:143-155 | the fields a template must have, its version and default, and the bounds of its mappings |
| AuthorizationRules.CompilableIs | bin/_possiblaw_authorization.py:133-255 | everything that must be in order for inputs to compile |
| GateAuthorization.ParseGateAuthorization | gate-proxy/src/authorization.ts:68-196 | exactly which documents parse, and to which policy |
| AuthorizationRules.HeaderIs | gate-proxy/src/authorization.ts:68-97 | the fields a document must have, its version, company and default, and the bounds of its mappings |
| AuthorizationRules.GateDestinationIs | gate-proxy/src/authorization.ts:131-160 | exactly the fields of its provider, with safe ids |
| GateAuthorization.DocumentAcceptedIff | gate-proxy/src/authorization.ts:68-196 | a compiled document is accepted, unchanged, exactly when every resolved vendor id is portable |
| GateAuthorization.BomRefused | gate-proxy/src/authorization.ts:126-130 | inputs that compile, and whose document the gate refuses for a byte order mark |
| GateAuthorization.AuthorizedIff | gate-proxy/src/authorization.ts:254-261 | an id is authorized exactly for the targets the template grants the slug bound to it |
| GateAuthorization.ResolvesIff | gate-proxy/src/authorization.ts:243-252 | an id resolves an alias exactly when its slug is offered it and the destination was configured |
| GateAuthorization.ResolvingAgentsUpload | bin/_possiblaw_authorization.py:241-246 | whoever resolves a destination is authorized to upload |
| Frontmatter.SplitBlocks | bin/_possiblaw_vendor_skill.py:109-132 | the loop finds the specified blocks |
| Frontmatter.KeyIs | bin/_possiblaw_vendor_skill.py:117-122 | a key line is the indent, a key, a colon and anything |
| Frontmatter.BreaksAre | bin/_possiblaw_vendor_skill.py:100 | where a line ends, character by character |
| CodePoints.SpacesAre | bin/_possiblaw_vendor_skill.py:141-146 | Python's white space, character by character |
| Frontmatter.BlocksLossless | bin/_possiblaw_vendor_skill.py:109-132 | the blocks join to the lines and cut exactly at the key lines |
| Frontmatter.BlocksFound | bin/_possiblaw_vendor_skill.py:109-132 | any well-formed blocks are found again in the lines they make |
| SourceEntries.ScalarReadsBack | bin/_possiblaw_vendor_skill.py:169-177 | every value reads back from the scalar it is rendered as |
| SourceEntries.NeedsQuotesIff | bin/_possiblaw_vendor_skill.py:169-177 | which values are quoted |
| SourceEntries.YamlScalarIs | bin/_possiblaw_vendor_skill.py:172-177 | a value that needs no quotes stands as it is; any other is between quotes |
| SourceEntries.ScalarValueIs | bin/_possiblaw_vendor_skill.py:135-146 | the value of a key line: what stands behind the colon, without spaces around it and one pair of quotes; nothing if that is empty |
| SourceEntries.InjectIntoMetadataBlock | bin/_possiblaw_vendor_skill.py:190-203 | the rebuilt metadata block |
| SourceEntries.InjectSourcesBlock | bin/_possiblaw_vendor_skill.py:206-232 | the rebuilt file, or the error for a file without frontmatter |
| SourceEntries.LookupsUnchanged | bin/_possiblaw_vendor_skill.py:149-166 | both lookups, for every key, return on the injected lines what they returned before |
| FrontmatterInsertion.OnlyAdds | bin/_possiblaw_vendor_skill.py:206-232 | every existing line stays, in order; only entry and header lines are added |
| FrontmatterInsertion.InsertionIff | bin/_possiblaw_vendor_skill.py:190-232 | injection is one contiguous insertion exactly with at most one metadata block holding at most one sources block |
| FrontmatterInsertion.TwoMetadataBlocks | bin/_possiblaw_vendor_skill.py:190-232 | with two metadata lines in the file, injection is no contiguous insertion |
| FrontmatterInsertion.InjectionReadsBack | bin/_possiblaw_vendor_skill.py:93-106 | the body is unchanged and the file splits into the injected lines and that body |
| FrontmatterInsertion.LicenseLookupsSurvive | bin/_possiblaw_vendor_skill.py:149-232 | on the file read again both lookups return what they returned before |
| Connect.StateOfIs | firm-overview/src/auth.ts:32-36 | connected exactly while a token that is not empty is live; else the page shown is that of the challenge still open |
| Connect.CredentialStore.StartConnect | firm-overview/src/auth.ts:42-47 | a new pending challenge replaces token and pending |
| Connect.CredentialStore.EndPoll | firm-overview/src/auth.ts:49-70 | the state after a poll answers, stale or not |
| Connect.PolledIs | firm-overview/src/auth.ts:49-70 | approval makes the token of the pending challenge live, an end clears everything, any other status leaves it open, and a stale answer changes nothing |
| Connect.CredentialStore.Disconnect | firm-overview/src/auth.ts:72-75 | nothing is pending or live |
| Connect.NeverBoth | firm-overview/src/auth.ts:42-75 | pending and live are never both held |
| Connect.StalePollChangesNothing | firm-overview/src/auth.ts:49-70 | in every run, a poll that began on a challenge replaced or disconnected before it returns leaves the store as it is, whatever it answers |
| Connect.ApprovalCountsIff | firm-overview/src/auth.ts:49-70 | an approved poll makes its token the live one, from a challenge still pending, exactly when no connect, disconnect or other answer settled that challenge since the poll began |
| Connect.LiveTokenWasApproved | firm-overview/src/auth.ts:42-75 | a live token belongs to a challenge whose own poll was approved while it was pending, undisturbed since |
| Connect.LiveTokenIsOfLatestChallenge | firm-overview/src/auth.ts:42-75 | and that challenge was the latest one created |
| Chunks.ChunkTextForNotion | gate-proxy/src/connectors.ts:115-143 | the loop packs as specified |
| Chunks.ChunksBounded | gate-proxy/src/connectors.ts:115-143 | every chunk is within the limit, and none is empty when splitting happens |
| Chunks.ChunksCover | gate-proxy/src/connectors.ts:115-143 | what chunks leave out is pairs of newlines; the other characters stay in order |
| ChunkLayout.ParagraphsExact | gate-proxy/src/connectors.ts:115-143 | paragraphs are cut at every break, the first one first |
| ChunkLayout.ChunksLaidOut | gate-proxy/src/connectors.ts:115-143 | chunks are whole groups of paragraphs, each closed only when the next paragraph does not fit, and cuts of the paragraphs that fit in none |
| ChunkLayout.ParagraphStaysWhole | gate-proxy/src/connectors.ts:115-143 | a paragraph that fits in a chunk is never cut |
| ChunkLayout.HardSplitExact | gate-proxy/src/connectors.ts:115-143 | a cut paragraph goes to pieces of the full length, but for the last, and joins to itself |
| Chunks.Upload | gate-proxy/src/connectors.ts:422-471 | batches of at most 100 that join to all blocks, or to a prefix when a request fails |
| Teams.ValidTeams | bin/_possiblaw_inline_source.py:133-139 | exactly the teams whose lead reports to one of the two chiefs, with that lead |
| Teams.Grow | bin/_possiblaw_inline_source.py:157-172 | the loop ends on every reporting graph, in the least closed set |
| Teams.IncludedIff | bin/_possiblaw_inline_source.py:157-172 | an agent is included exactly when its reporting line reaches a seed before any chief |
| Teams.ComputeSubset | bin/_possiblaw_inline_source.py:147-181 | refused on an unknown team; else the least set, and a skill ships exactly when it is on disk and an included agent, or no agent, refers to it |
| Teams.SubsetOfUnion | bin/_possiblaw_inline_source.py:147-181 | agents and skills of a union of teams are the unions |
| Tokens.MakeEntityToken | gate-proxy/src/anonymize.ts:75-84 | the loop writes the bijective base-26 numeral |
| Tokens.SuffixIsNumeral | gate-proxy/src/anonymize.ts:75-84 | the suffix of index n is the numeral of n + 1 whose digits go from A for 1 to Z for 26 |
| Tokens.NumeralUnique | gate-proxy/src/anonymize.ts:75-84 | no other text of letters is that numeral |
| Tokens.EntityTokenInjective | gate-proxy/src/anonymize.ts:75-84 | distinct indices have distinct tokens |
| Tokens.TokensApart | gate-proxy/src/anonymize.ts:75-89 | no entity token is a pattern token |
| Tokens.PatternTokenInjective | gate-proxy/src/anonymize.ts:87-89 | pattern tokens determine class and number |
| Tokens.AssignEntityTokens | gate-proxy/src/anonymize.ts:144-154 | the mask map after the entity loop |
| Tokens.TextInjective | gate-proxy/src/anonymize.ts:75-89 | tokens of entities and of all pattern classes are one text only when they are one token |
| Tokens.AssignPatternTokens | gate-proxy/src/anonymize.ts:174-187 | the mask map after one class of patterns, whatever its matches are |
| Tokens.AssignTokens | gate-proxy/src/anonymize.ts:144-195 | the whole mask map, after the entities and every class |
| Tokens.OneOriginalEach | gate-proxy/src/anonymize.ts:144-195 | the map gives each token the one original it was made for, and no token is overwritten |
| Tokens.FirstsDistinct | gate-proxy/src/anonymize.ts:134-154 | every entity is covered, and two share a token only if they differ by case |

## Left out

- HTTP, request validation, headers, status codes, the time-stamp and vendor networks, OAuth, file permissions and links.
- The handlers of `server.ts` and `poller.ts` are a step machine on values; what runs between two awaits is one step. Only the checked segment is also a method over the ledger object.
- Reading and writing of JSON text: a ledger line is a parsed entry, another value or unreadable. A line that is the text `null` is not told apart from other unreadable lines.
- Numbers in JSON are carried as the text ECMAScript prints for them.
- Trace binding and citation fields of receipts beyond the generic meta object.
- The startup epoch append, which runs before the lease is taken.
- The human gate and the citation, authority, tier and sign-off checks are arbitrary results of the environment.
- Receipts.ReceiptChain.Append: the source ignores the byte count of `fs.writeSync`. A short write that returns normally, and a line cut just before its newline (which still verifies, while the next append runs onto it), are left out: a write that is cut short leaves an unreadable line and throws.
- Confidentiality.ReplayEqualsLive: assumes that registrations are written whole or not at all and that no write is torn, because the exact condition is the one proved for access in Access.InStepIff.
- Access.ReplayEqualsLive: assumes that commands are written whole or not at all and that no write is torn; Access.InStepIff is the exact condition for commands.
- DispatchMeaning.PerformedOnlyIfReturned: assumes that routes which dispatch nothing write no operation identity, as in the source, and that no anchor of the run has the same hash.
- DispatchSafety.ReservedAtMostOnce: assumes that nothing but the gate and the repair of an unreadable tail changes the file.
- FrontmatterInsertion.InjectionReadsBack: entry values must be free of line breaks; a value with one splits into further lines.
- TimeStamps.RequestReadBack: the content of the request must be shorter than 2^32 bytes, the bound of the length writer.
- Chunks.ChunkTextForNotion: the limit must be positive; with zero the hard split does not end.
- Years 0 to 99, which Date.UTC moves to the 1900s, dates beyond the range of Date, step traces and weekday names.
- A status INTEGER is an unbounded number; the source rounds it above 2^53, which changes no verdict.
- Lessons.SanitizeLesson: Unicode normalization, case folding and the personal-data patterns are parameters, and the results hold for all of them.
- LearningLoop.RunsDistinct: runs of at most 2^53 commands, the bound of LessonIds.FreshIff.
- LessonIds.NextIdFresh: how a number above 2^53 is printed is a parameter, and the overflow of very long digit strings to Infinity is not told apart from a large number; both lie beyond the bound.
- Lessons.SortNewestFirst: any order with newest first is allowed among equal times, because the source's comparator is inconsistent there.
- Entity source of a lesson, the rendered `ledger.md`, `check-memory`, manifests and skill-edit proposals; topics are rendered and not screened.
- JSON parsing and file permissions of the authorization files; dictionary order, which decides only which error is raised first.
- Detection of licenses, copying of skills, and the sidecar and README rewriting beside the frontmatter and team cores.
- The pattern matches and text replacement of the anonymizer: Tokens.AssignTokens takes any lists of matches. The text round trip and the caps on the number and length of entities.
- Route resolution, matter-access compilation, token providers, conflicts and walls.
