# Tuple space: a verified model

This project models a Linda-style tuple space kept in PostgreSQL: `out` puts a tuple into a named space, `rd` reads
a tuple that matches a template, `in` takes one, and both may wait. It models how the service, the row locks of the
store and the LISTEN/NOTIFY wakeups play together, the pieces they rest on (normalisation, matching, the shredded
field index and the SQL compiled from a template), the administrative queries, and the text language of the command
line client. The proofs are about all inputs, all interleavings and all runs; nothing is bounded.

The two halves of the concurrent core are modelled twice, once in the source's own form and once as a state machine.
`Notifier.Notifier`, `Service.Service` and `Store.Database` are classes whose methods update fields as the Go code and
the SQL do; each method is proved against a function on values. `NotifierModel` and `Protocol` are state machines on
values, and the statements about runs are about them. In `Protocol` one action is one atomic step of the Go program: a
statement or commit of Postgres, one control request or delivery of the notifier loop, one critical section of the
service.

| file | what it holds |
|---|---|
| `types.dfy`, `validation.dfy`, `numbers.dfy` | values, tuples, templates, normalisation, validation, decimal integers |
| `match.dfy` | the matcher and the Linda matching relation |
| `store.dfy`, `candidate_query.dfy`, `scan.dfy` | tables and shredding, the compiled candidate query and its meaning, what one scan finds |
| `notifier_model.dfy`, `notifier.dfy` | the notifier as a state machine and as a class |
| `protocol.dfy`, `protocol_invariant.dfy`, `protocol_wakeups.dfy` | the concurrent protocol and what each step keeps |
| `guarantees.dfy`, `history.dfy`, `progress.dfy`, `linda.dfy`, `refinement.dfy` | what holds over every run, where its state comes from, and what every reachable state can still do |
| `runs.dfy`, `stranded_in.dfy`, `hidden_match.dfy` | runs built step by step that show what does not hold |
| `service.dfy`, `admin_store.dfy`, `admin_service.dfy` | the service object and the administrative operations |
| `text.dfy`, `splitter.dfy`, `dsl.dfy`, `syntax.dfy` | the tuple and template language: its parser, its printer, and what its texts stand for |

## Main results

- Every run of the protocol simulates an atomic Linda bag, and what a call returns is what the bag gave it, once.
- Every committed tuple is live, consumed by exactly one `in`, or purged; nothing comes back and nothing is taken twice.
- A transaction of `in` holds exactly the candidates that were unlocked at its scan and have fewer than `limit` such
  candidates below them, whether or not it goes on to delete one of them.
- A parked `rd` never misses a tuple that its last scan could have seen: no wakeup is lost.
- For `in` that is false. The exact residue is proved for both kinds of read, and for every candidate limit there is a
  run without any error that leaves an `in` parked beside a live, unlocked tuple that it matches, with nobody left
  to wake it. The repository's README says that notifications are only a matter of responsiveness; the model follows
  the code, where releasing row locks sends no notification.
- From any reachable state, a parked call with a live, unlocked match in reach that its last scan did not pass over is
  at most one delivery for each queued notification, one wakeup and one scan away from a tuple. Every call that has not
  returned has a step to take, and its steps are bounded by the notifications delivered to it, so calls end.
- Over all runs, "not found" can be trusted exactly for the templates without formal fields and those that use one
  formal name at two types (which match nothing): the SQL does not filter formal fields by type, so candidates of the
  wrong type can fill the limit. For every other template and every limit there is a run without any error that
  answers "not found" beside a live match nobody has locked.
- The compiled SQL selects exactly the candidates, in order, without duplicates, cut at the limit.
- A value is accepted exactly when it stands for one of its type, and is stored as that one; for numbers sent as text
  that is decided by a positional value of signed digit strings, stated without the parser. In the client's language
  a token is read exactly as what it stands for: a word as itself, a numeral as its value, a quoted text as what it
  spells, `?name:type` as that formal field.
- The client's language expresses exactly the valid tuples, and exactly the valid templates whose formal names have no
  colon, no white space at the ends, and balanced quotes that cover every comma.

## Model

| member | source | states |
|---|---|---|
| Types.NormalizeValueIsProjection | internal/types/normalize.go:18-86 | normalising lands on the one canonical Go representation, is idempotent, and leaves exactly the canonical values alone |
| Types.NormalizeMeaning | internal/types/normalize.go:18-86 | normalising succeeds exactly on the values that stand for one of the type: a string, a bool, an int of any width, an unsigned one up to the largest int64, or a number text that is a numeral of an int64; and with that value |
| Numbers.ParseInt64Meaning | internal/types/normalize.go:77-82 | an optional sign and a non-empty run of digits is read, exactly when the sum of digits times powers of ten is an int64, as that sum; every other text is refused |
| Types.OnlyOneMeaning | internal/types/normalize.go:88-101 | normalising a tuple succeeds with the one tuple it stands for, and fails exactly when there is none |
| Types.TupleHasMeaning | internal/types/normalize.go:88-101 | there is such a tuple exactly when each value stands for one of its type |
| Types.NormalizeTuple | internal/types/normalize.go:88-101 | gives the one tuple that this one stands for, field by field, or names the first field that stands for no value of its type and why |
| Types.NormalFormUnique | internal/types/normalize.go:88-101 | a tuple has one normal form, which is its own; normal tuples are exactly those that are their own normal form |
| Types.NormalizeTemplate | internal/types/normalize.go:103-121 | actual values normalised, formal fields keep kind, type and name and lose any value; or the first bad actual field |
| Types.TemplateNormalizeMeaning | internal/types/normalize.go:103-121 | a template normalises exactly to the one it stands for: actual values as values of their type, formal fields without a value |
| Validation.ValidateTuple | internal/validation/tuple.go:9-25 | accepts exactly the non-empty tuples each of whose values stands for one of its type, and returns the tuple they stand for; "unsupported type" exactly when some field has one |
| Validation.ValidateTemplate | internal/validation/template.go:9-41 | accepts exactly the non-empty templates of well-shaped fields whose actual values stand for one of their type; "unsupported type" exactly when a field with such a type comes after well-shaped fields only |
| Validation.FaultlessIsWellShaped | internal/validation/template.go:14-35 | a field has no fault exactly when it is an actual one without a name, or a formal one with a name and without a value, of a supported type |
| Validation.SpaceNames | internal/validation/space.go:8-15 | a space name is 1 to 64 letters, digits, underscores, dots and hyphens, the first a letter or digit |
| Validation.ValidTemplateIsFixed | internal/validation/template.go:9-41 | a template that passed validation passes again unchanged |
| Numbers.ParseInt64Decimal | cmd/tuplespacectl/cmds/common.go:346-348 | printing an int64 in decimal and parsing it gives it back, both ends of the range included |
| Match.EqualValueOnCanonical | internal/match/equal.go:5-15 | against a canonical right value, EqualValue asks whether the left value normalises to it; between canonical values it is plain equality |
| Match.Match | internal/match/match.go:5-38 | succeeds exactly when some assignment of the formal names turns the template into the tuple; the bindings are that assignment, with exactly the formal names as domain |
| Match.MatchIsInstantiation | internal/match/match.go:11-37 | the position-by-position comparison decides the matching relation, and the assignment is unique |
| Match.BindingsInstantiate | internal/match/match.go:24-37 | the bindings kept from first occurrences rebuild the tuple from the template |
| Match.SatisfiableIffNoClash | internal/match/match.go:15-31 | a template matches some normalised tuple if and only if no formal name is used at two types |
| Store.Database.InsertTuple | internal/store/tuple_store.go:25-75 | adds one row per position with only its type's column set, keeps table and index in step, numbers the tuple with the next id; fails exactly at the first unsupported type |
| Store.Database.DeleteTuple | internal/store/tuple_store.go:93-98 | removes the tuple with its index rows and nothing else; hits one row exactly when the tuple was there |
| Store.Database.DeleteRows | migrations/001_init_tuplespace.sql:10-10 | deleting tuples cascades to exactly their index rows |
| Store.Database.Rollback | internal/service/service.go:94-94 | a transaction that does not commit leaves tables, tuples and notifications as they were, but the id sequence is not rolled back |
| Store.Database.Notify | internal/service/service.go:99-101 | appends the channel to the notifications of the transaction and touches no tuple |
| Store.InsertKeepsIndex | internal/store/tuple_store.go:42-72 | the shredding of a new tuple added to an exact index gives an exact index |
| Store.FieldRowRoundTrip | internal/store/tuple_store.go:43-69 | exactly the column of the field's type is set, and the field can be read back from its row |
| Store.IndexDeterminesTuples | migrations/001_init_tuplespace.sql:9-17 | rows respect the primary key (tuple and position), and the index alone determines every stored tuple |
| Store.DecodeTuple | internal/store/tuple_store.go:135-148 | a payload written for a normalised tuple decodes to that very tuple; any other either normalises or names its first bad field |
| Store.DecodeMarshal | internal/store/tuple_store.go:26-148 | marshalling and decoding with json.Number is undone by normalisation |
| CandidateQuery.BuildCandidateQuery | internal/store/candidate_query.go:10-78 | run on the shredded tables, the emitted query and arguments select exactly the unlocked (when destructive) tuples with that space, arity and actual fields, ascending by id, once each, cut at the limit (64 when not positive); fails exactly on an actual field of unsupported type |
| CandidateQuery.OnClauseMeaning | internal/store/candidate_query.go:29-60 | the ON clause emitted for an actual field holds of an index row exactly when that row is the field of that tuple at that position with that type and value |
| CandidateQuery.JoinsMeaning | internal/store/candidate_query.go:24-64 | the joins emitted for a prefix of the template bind each alias to one row at most, and to one exactly when all actual fields so far agree |
| CandidateQuery.MultiplicityIsCandidate | internal/store/candidate_query.go:22-69 | the whole join yields each candidate once and no other tuple at all |
| CandidateQuery.SelectIsCandidates | internal/store/candidate_query.go:66-75 | WHERE, ORDER BY, SKIP LOCKED and LIMIT with their placeholders select the first candidates in id order |
| Scan.MatchIsCandidate | internal/store/candidate_query.go:24-69 | the index never filters out a tuple that the matcher would accept |
| Scan.TakenMeaning | internal/store/candidate_query.go:70-75 | a scan returns exactly the unlocked candidates with fewer than `limit` others below them |
| Scan.PickFound | internal/service/service.go:239-251 | what a scan settles on is the lowest unlocked match of the whole space and lies within the limit |
| Scan.PickMissed | internal/service/service.go:239-251 | when a scan finds nothing, every unlocked match has at least `limit` candidates before it |
| Scan.PickExact | internal/service/service.go:239-251 | a scan finds a tuple if and only if some unlocked match lies within the limit |
| Scan.AllActualFinds | internal/service/service.go:244-249 | without formal fields every candidate matches, so a scan that has a candidate finds one |
| Scan.NotFoundIsReliable | internal/service/service.go:239-251 | "not found" means that no unlocked tuple matches, if the candidate list was not cut or the template has no formal field |
| Scan.HiddenStoreMisleads | internal/store/candidate_query.go:25-27 | valid tuples put out in order, `limit` of the wrong type before one match, make a scan find nothing beside the match |
| Scan.ReliabilityCondition | internal/store/candidate_query.go:24-75 | "not found" is right on every store with ids from 1 up if and only if the template has no formal field or uses one formal name at two types |
| Runs.PutAll | internal/service/service.go:81-111 | every list of valid tuples is a store that some run of `out` calls reaches, with the ids 1, 2, 3 and so on |
| HiddenMatch.RdCanBeMisled | internal/service/service.go:239-251 | for every limit and every other template a run without error ends with a `rd` that returned "not found" beside a live match nobody has locked |
| HiddenMatch.ReliableInRunsIff | internal/store/candidate_query.go:24-75 | over all runs, a call with this template that is told "not found" faced no match but rows locked by others, if and only if the template has no formal field or uses one formal name at two types |
| NotifierModel.TurnKeepsInv | internal/notify/notifier.go:147-200 | every turn of the loop keeps: counts are the sizes of the subscriber sets, none is zero, counted channels are listened to, registered subscriptions have an open channel, at most one token each |
| NotifierModel.RunKeepsInv | internal/notify/notifier.go:147-200 | that holds over every run, whatever LISTEN and UNLISTEN do |
| NotifierModel.SubscribeKeepsInv | internal/notify/notifier.go:81-97 | a subscribe request keeps the invariant, also when LISTEN fails and leaves an empty set behind |
| NotifierModel.UnsubscribeKeepsInv | internal/notify/notifier.go:208-235 | an unsubscribe request keeps the invariant, also when UNLISTEN fails before the channel is closed |
| NotifierModel.FailedListen | internal/notify/notifier.go:82-88 | a failed LISTEN registers and counts nobody but leaves an entry for the channel, and the connection listens exactly if the server had carried the command out |
| NotifierModel.FailedUnlisten | internal/notify/notifier.go:213-228 | a failed UNLISTEN leaves the subscription uncounted, unregistered and marked closed with its Go channel open, and the connection listening exactly if the server refused |
| NotifierModel.ComesAndGoes | internal/notify/notifier.go:208-235 | a subscription that is opened and closed leaves counts and subscriber sets as they were, whether or not UNLISTEN fails |
| NotifierModel.IdleIffNobody | internal/notify/notifier.go:161-165 | the idle branch is taken exactly when nobody is subscribed |
| NotifierModel.CleanRunIsTidy | internal/notify/notifier.go:81-97 | with no failing command the connection listens to exactly the counted channels and a channel is closed exactly when its subscription is |
| NotifierModel.DeliverMeaning | internal/notify/notifier.go:251-267 | delivery reaches exactly the open subscriptions of the channel, and leaves each with exactly one token |
| NotifierModel.DeliverAllMeaning | internal/notify/notifier.go:251-267 | after any number of notifications an open subscription holds a token exactly when one was for its channel or it held one before |
| NotifierModel.RaceDeliversFirst | internal/notify/notifier.go:175-184 | a notification that arrives with a control request is delivered first, also to the subscription the request closes |
| NotifierModel.NothingDropped | internal/notify/notifier.go:167-198 | over every run a subscription is handed every notification of its channel that arrived while it was registered, and no other |
| Notifier.Subscription.Offer | internal/notify/notifier.go:262-266 | the non-blocking send fills an empty one-slot channel and leaves a full one |
| Notifier.Subscription.CloseChannel | internal/notify/notifier.go:229-229 | closes an open channel; callers are proved never to close one twice |
| Notifier.Notifier.Subscribe | internal/notify/notifier.go:73-103 | a new registered subscription with its count, or after a failed LISTEN none and the partial state |
| Notifier.Notifier.Unsubscribe | internal/notify/notifier.go:208-236 | exactly the model's unsubscribe: count, set, LISTEN state, closed mark and Go channel; nothing for a closed one |
| Notifier.Notifier.DeliverNotification | internal/notify/notifier.go:251-274 | the loop over subscribers delivers as the model does, touches nobody else, never sends on a closed channel, and counts exactly the sends that found an empty channel |
| Notifier.Notifier.DeliverEach | internal/notify/notifier.go:185-197 | turns of the loop that bring only notifications deliver each of them in order |
| Notifier.Notifier.InterruptedSubscribe | internal/notify/notifier.go:174-184 | an interrupted turn with a subscribe request delivers the late notification, then subscribes; it fails exactly when LISTEN is needed and fails |
| Notifier.Notifier.InterruptedUnsubscribe | internal/notify/notifier.go:174-184 | an interrupted turn with an unsubscribe request is the model's turn: delivery first, then the request |
| Notifier.Notifier.TakeSnapshot | internal/notify/notifier.go:117-134 | the per-channel numbers are the reference counts, and the total is the number of subscriptions not closed |
| Notifier.Notifier.Close | internal/notify/notifier.go:105-115 | closing only marks the notifier closed, a second time without effect |
| ProtocolInvariant.StoreKept | internal/service/service.go:81-111 | every step keeps committed ids the disjoint union of live, consumed and purged ids |
| ProtocolInvariant.ScanLocksFreshRows | internal/store/tuple_store.go:85-91 | the rows a locking scan returns are live and nobody else's, its pick among them |
| ProtocolInvariant.LocksKept | internal/service/service.go:253-278 | every step keeps lock sets disjoint and within the live tuples, and every held pick a live match among the held rows |
| ProtocolInvariant.OutcomesKept | internal/service/service.go:264-276 | every step keeps: a tuple a call got was committed to its space and matches its template, and each consumed tuple is the outcome of the one call that consumed it |
| ProtocolInvariant.OutcomeStays | internal/service/service.go:167-172 | a call that has its result only runs its deferred functions, and the result stays |
| ProtocolInvariant.HowCallsEnd | internal/service/service.go:202-229 | a call gets a tuple only by a scan of `rd` or a commit of `in`, "not found" only without a wait when its scan missed, a timeout exactly by its deadline, and a failure exactly by a failed LISTEN, scan or transaction or by the end of its context |
| ProtocolWakeups.ScansKept | internal/service/service.go:175-213 | every step keeps: a call that waits, or has answered "not found" or timed out, missed at its recorded scan; a transaction holds exactly the rows that scan returned and picked the lowest match there |
| ProtocolWakeups.SubsKept | internal/service/service.go:162-173 | every step keeps the notifier sound and each call's subscription registered on its space's channel exactly while it is subscribed |
| ProtocolWakeups.WakesKept | internal/service/service.go:175-236 | every step keeps: between a scan and the next wakeup either all live tuples of the space were there at that scan, or a token or notification is on its way |
| ProtocolWakeups.CommitWakes | internal/service/service.go:99-102 | a commit that could matter to a subscribed call puts a notification of its channel into the queue |
| ProtocolWakeups.DeliverWakes | internal/notify/notifier.go:251-267 | delivering a notification turns a wakeup under way into a token and loses none |
| ProtocolWakeups.NotifyTestWakes | internal/notify/notifier.go:136-145 | a test notification of a subscribed call's channel puts a wakeup for it under way, and takes none away |
| ProtocolWakeups.RetriesKept | internal/service/service.go:175-236 | every step keeps: each scan but the first was paid for by a notification |
| ProtocolWakeups.WaitersKept | internal/service/service.go:287-312 | every step keeps waiter ids unique, not above the counter, and each with the one call that remembers it |
| Guarantees.StepKeepsInv | internal/service/service.go:81-278 | the whole invariant is inductive over all nineteen kinds of step |
| Guarantees.RunHolds | internal/service/service.go:81-278 | and so holds in every state of every run |
| Guarantees.Conservation | internal/service/service.go:253-278 | over every run committed ids are the disjoint union of live, consumed and purged ones, and no two `in` calls get the same tuple |
| Guarantees.ConsumedWasPutOut | internal/service/service.go:264-275 | each consumed tuple was committed by an earlier `out` to the consumer's space and matches the consumer's template |
| Guarantees.GoneForGood | internal/service/admin.go:113-151 | a tuple consumed or purged is never live again |
| Guarantees.ConsumeDeletesOneRow | internal/service/service.go:260-275 | in-flight transactions hold disjoint sets of live rows, so the DELETE whose row count is never checked removes exactly the picked row |
| History.RecordIsLastScan | internal/service/service.go:239-278 | in every run a scanned call's recorded scan is what was live, and for `in` what was locked, at the last step that scanned for it |
| History.HoldsWhatItScanned | internal/store/tuple_store.go:85-91 | in every run a transaction of `in` holds an id if and only if it was a live candidate at its scan, was locked by nobody, and fewer than `limit` such candidates lay below it; the pick is not singled out |
| History.CommittedWasInserted | internal/service/service.go:81-111 | every committed tuple is what some `out` inserted under that id |
| History.AbortedNeverCommits | internal/service/service.go:94-105 | a tuple whose `out` was rolled back is never committed, in whatever run follows |
| History.GoneWasTaken | internal/service/admin.go:113-151 | a committed tuple that is not live left by the commit of an `in` that picked it or by an admin delete that names it |
| Guarantees.NoLostWakeupForRd | internal/service/service.go:162-236 | a `rd` parked without token and pending notification had every live tuple of its space at its last scan; unless that scan was cut no live tuple matches |
| Guarantees.ParkedResidue | internal/service/service.go:175-236 | for any parked call without a wakeup under way the live matches are exactly the tuples its last scan passed over (locked by others, or beyond the limit) that are still live |
| Guarantees.NothingLeftUncut | internal/store/candidate_query.go:70-75 | if that scan was not cut, every live match was locked by another transaction |
| Guarantees.NegativeAnswers | internal/service/service.go:202-228 | in every run a call that returned "not found" or timed out had only matches at its last scan that were locked by others or beyond the limit, and only locked ones if that scan was not cut |
| StrandedIn.InCanBeStranded | internal/service/service.go:253-278 | for every candidate limit some run without error ends with an `in` parked beside a live unlocked match, all other calls returned and no token or notification under way |
| Guarantees.ReceivedIsDelivered | internal/notify/notifier.go:260-267 | what a subscription counted is the number of notifications delivered to it in the run |
| Guarantees.BoundedRetries | internal/service/service.go:175-236 | a call scans at most once more than notifications were delivered to it while subscribed, and exactly once when it does not wait |
| Guarantees.WaitersAreSubscribed | internal/service/service.go:287-312 | in every run each active waiter id is positive, not above the counter, and belongs to exactly one call, which has a live subscription on its space's channel |
| Guarantees.WaitersWithinSubscribers | internal/service/service.go:210-213 | on each channel active waiters never outnumber counted subscribers |
| Guarantees.AllReturnedMeansEmpty | internal/service/service.go:167-172 | once every read has returned there is no waiter, no counted channel and no subscriber |
| Progress.GuardsHold | internal/service/service.go:260-275 | a transaction that found a match can always commit and hits its row, and a leaving call always has its subscription to close |
| Progress.AnythingMayHappen | internal/service/service.go:81-278 | nothing the environment can do is ruled out: new calls and tuples, test notifications, failures and deadlines may come whenever there is something to hit, and an admin delete whenever no transaction holds its rows |
| Progress.CallCanMove | internal/service/service.go:137-237 | every call that has not returned has an enabled step that needs no failure |
| Progress.CallsEnd | internal/service/service.go:175-236 | a termination measure: over every run the steps of a call and what it has left are at most eight and four for each notification delivered to it |
| Progress.DeliverUntilToken | internal/notify/notifier.go:185-197 | a wakeup under way becomes a token after at most as many deliveries as notifications are queued |
| Progress.WokenCallGetsTuple | internal/service/service.go:175-236 | a wakeup under way and a match in reach lead the call to the lowest unlocked match by a path that is always enabled |
| Progress.ParkedCallIsServed | internal/service/service.go:175-236 | in any run a parked call with a live, unlocked match within the limit that its last scan did not pass over gets that tuple or a lower one after at most as many deliveries as notifications are queued, its wakeup and one scan |
| Refinement.StepSimulates | internal/service/service.go:81-278 | one step is one step of the atomic bag: `out` and `in` at their commit, a successful `rd` at its scan, all else silent |
| Refinement.RunSimulates | internal/service/service.go:81-278 | every run is a run of the atomic bag |
| Refinement.LabelMatchesOutcome | internal/service/service.go:137-237 | a step shows a call's effect on the bag exactly when it hands the call its tuple, and it is that tuple |
| Refinement.OneEffectPerSuccess | internal/service/service.go:137-237 | a call has one effect on the bag if it got a tuple and none otherwise |
| Refinement.ReturnedWasGiven | internal/service/service.go:137-237 | the tuple a call returns is the one the bag gave it at a step inside the call |
| Service.QueryCandidates | internal/store/tuple_store.go:100-133 | decodes rows in order; on consistent tables it cannot fail and gives back the inserted tuples |
| Service.FindCandidates | internal/store/tuple_store.go:77-91 | returns exactly the first candidates of the live tuples in id order, skipping locked rows only when destructive |
| Service.FirstMatching | internal/service/service.go:244-250 | the loop stops at the first candidate that matches, with its bindings |
| Service.Service.constructor | internal/service/service.go:62-79 | a limit that is not positive becomes 64; no waiters |
| Service.Service.Out | internal/service/service.go:81-111 | accepts exactly a valid space and a non-empty tuple each of whose values stands for one of its type, unless the commit fails; stores the tuple they stand for under the next id with the given time and appends the notification of its space's channel, both or neither |
| Service.Service.ReadOnce | internal/service/service.go:239-251 | found: the lowest match of the space with its bindings; not found: only matches beyond the limit, and none for a template without formal fields |
| Service.Service.ConsumeOnce | internal/service/service.go:253-278 | removes exactly the lowest unlocked match, or changes nothing; in neither case is anybody notified |
| Service.Service.RegisterWaiter | internal/service/service.go:287-306 | files the waiter under a fresh id, one above the counter |
| Service.Milliseconds | internal/service/service.go:301-301 | the wait filed for a waiter is the whole milliseconds of its duration |
| Service.Service.UnregisterWaiter | internal/service/service.go:308-312 | removes that waiter only |
| Service.Service.WaitersSnapshot | internal/service/service.go:314-329 | every active waiter exactly once, a lower start time first and among equal ones the lower id |
| Service.Service.Await | internal/service/service.go:219-235 | the select takes a token exactly when the context has not ended and a notification of the call's channel was delivered to its subscription |
| Service.Service.TakeTurn | internal/service/service.go:175-236 | one turn of the loop either settles the call, or found nothing, has a waiter and took a token; it registers exactly when the call comes to wait without one, under its space, template and operation and its wait in whole milliseconds, and otherwise leaves the registry alone |
| Service.Service.ReadLoop | internal/service/service.go:175-236 | the retry loop, on a store that others change between scans, ends as scans and notifications say; it registers one waiter if it ever comes to wait and none otherwise, and leaves the registry as it was |
| Service.Service.CloseSubscription | internal/service/service.go:167-167 | the deferred close gives the notifier back the counts and subscriber sets it had before the subscription |
| Service.Service.Read | internal/service/service.go:137-237 | rejects exactly invalid spaces and unacceptable templates, then negative waits and failed LISTENs, untouched by the store; otherwise loops on the template the given one stands for; waiter registry and notifier registry end up as they were |
| Service.SettledByLastScan | internal/service/service.go:175-236 | only the last scan decides: all before it found nothing and were followed by a notification of the call's channel, and without a wait there is one scan |
| Service.WhyReadEnds | internal/service/service.go:202-229 | "not found" only without a wait, a timeout only with one whose deadline came or that got no notification, an error only after a failed query or commit or the end of the context |
| Service.ReadTellsTheTruth | internal/service/service.go:137-237 | a tuple `read` returns is the lowest match its last scan could take; "not found" and timeout mean that every match there was locked or beyond the limit |
| AdminStore.AppendTupleFilter | internal/store/admin_store.go:181-194 | the conditions, with their numbered placeholders, hold of exactly the rows of the given space strictly between the given times, whatever arguments follow |
| AdminStore.KeepsMeaning | internal/store/admin_store.go:181-194 | a row is left out exactly if it is of another space than a given one, or not strictly before or after a given time |
| AdminStore.BuildTupleFilterQuery | internal/store/admin_store.go:141-166 | selects exactly what the filter keeps from any table; LIMIT and OFFSET are bound to their own values and only when paging is asked for |
| AdminStore.RowsAreListing | internal/store/admin_store.go:141-166 | an ordered query with those conditions and bounds returns exactly the filter's listing |
| AdminStore.BuildTupleDeleteQuery | internal/store/admin_store.go:168-179 | hits exactly what the filter keeps, paging ignored |
| AdminStore.ListTuples | internal/store/admin_store.go:48-72 | every record shows the live tuple of a row with the given space and times, in order of space and id; without paging every such row has one; with it, as many as limit and offset leave |
| AdminStore.CountTuples | internal/store/admin_store.go:74-85 | the number of rows with the given space and times, which is the length of the unpaged listing whatever limit and offset say |
| AdminStore.DeleteTuples | internal/store/admin_store.go:112-119 | removes a row if and only if it has the given space and times, leaves every other as it was, and reports how many, which is what a count or an unpaged listing just before gives |
| AdminStore.UnpagedListing | internal/store/admin_store.go:153-163 | the unpaged listing is every row the filter keeps, once, ordered by space and id |
| AdminStore.PageIsStretch | internal/store/admin_store.go:154-163 | a page is the stretch of the ordered selection from the offset on, as long as the limit allows |
| AdminStore.OffsetSkipsFirst | internal/store/admin_store.go:154-163 | the first k rows and an offset of k without a limit together are the whole listing |
| AdminStore.PagesConcatenate | internal/store/admin_store.go:154-163 | the first pages of any positive size are a prefix of the unpaged listing |
| AdminStore.AllPages | internal/store/admin_store.go:154-163 | enough pages together are the whole listing |
| AdminStore.RejectedRangeSelectsNothing | internal/service/admin.go:192-194 | a time range that validation rejects could not have selected anything |
| AdminService.DeleteTuple | internal/service/admin.go:113-131 | rejects ids that are not positive; otherwise removes that tuple and says whether it was there, or a failed commit changes nothing |
| AdminService.Purge | internal/service/admin.go:133-151 | succeeds exactly for a valid space or none, no negative limit or offset, no empty time range, and a commit; then removes a row if and only if it has the given space and times and reports their number; otherwise nothing changes |
| Splitter.SplitSpecFields | cmd/tuplespacectl/cmds/common.go:225-276 | the trimmed pieces between commas outside quotes, inside optional parentheses; fails exactly on an empty text, empty parentheses, an empty piece or an open quote, and says which |
| Splitter.SplitBody | cmd/tuplespacectl/cmds/common.go:238-275 | the scanning loop computes those pieces, and tells an open quote from an empty piece |
| Splitter.SplitterCorrect | cmd/tuplespacectl/cmds/common.go:243-275 | one field more than commas outside quotes, each balanced in quotes, and joined with commas they restore the text |
| Splitter.PiecesRestore | cmd/tuplespacectl/cmds/common.go:243-275 | joining the untrimmed pieces restores any text, balanced or not |
| Splitter.SplitJoin | cmd/tuplespacectl/cmds/common.go:243-275 | joining balanced texts and splitting gives them back |
| Dsl.ParseTupleSpec | cmd/tuplespacectl/cmds/common.go:178-201 | returns the one and only tuple the text stands for, which is valid, or the text stands for none; a bad token is the first one |
| Dsl.ParseTemplateSpec | cmd/tuplespacectl/cmds/common.go:203-223 | returns the one and only template the text stands for, which is valid, or the text stands for none; a bad token is the first one |
| Dsl.ParsedIsCanonical | cmd/tuplespacectl/cmds/common.go:278-351 | what the token parsers return is already normalised and valid |
| Dsl.UnescapeEscape | cmd/tuplespacectl/cmds/common.go:328-337 | unquoting undoes escaping for every text |
| Dsl.ValueRoundTrip | cmd/tuplespacectl/cmds/common.go:322-351 | a printed value parses back to the same type and value |
| Dsl.FormalRoundTrip | cmd/tuplespacectl/cmds/common.go:294-320 | a printed formal field with a printable name parses back |
| Dsl.TupleRoundTrip | cmd/tuplespacectl/cmds/common.go:178-201 | every valid tuple, printed with or without parentheses and with any white space around commas, parses back to itself |
| Dsl.TemplateRoundTrip | cmd/tuplespacectl/cmds/common.go:203-223 | the same for every valid template with printable formal names |
| Dsl.SimpleNamesArePrintable | cmd/tuplespacectl/cmds/common.go:294-307 | names without commas, quotes, colons and edge white space are printable |
| Dsl.ParsedNameIsPrintable | cmd/tuplespacectl/cmds/common.go:294-320 | a formal name that the splitter and the parser let through is printable |
| Dsl.ExpressibleIffPrintable | cmd/tuplespacectl/cmds/common.go:178-351 | some text parses to a template if and only if it is valid with printable formal names, and to a tuple if and only if it is valid |
| Syntax.LiteralMeaning | cmd/tuplespacectl/cmds/common.go:322-351 | a token is a quoted text and stands for what it spells, or `true` or `false`, or a numeral of an int64 and stands for its value, or else stands for itself; it is read exactly so |
| Syntax.UnescapeMeaning | cmd/tuplespacectl/cmds/common.go:328-337 | unquoting succeeds exactly on the texts that spell something, character by character or by escape, and gives what they spell |
| Syntax.FormalMeaning | cmd/tuplespacectl/cmds/common.go:294-320 | `?name:type` is read exactly as the formal field of the name before the first colon and the type named after it, white space around both dropped |
| Syntax.FieldMeaning | cmd/tuplespacectl/cmds/common.go:278-292 | a template token is a formal field or stands for an actual literal, and is read exactly so |
| Syntax.TupleOfLiterals | cmd/tuplespacectl/cmds/common.go:178-201 | a list of literals parses to the tuple of what they stand for |
| Syntax.TemplateOfFields | cmd/tuplespacectl/cmds/common.go:203-223 | a list of formal fields and literals parses to the template of what they stand for |
| Syntax.BareWordsAreStrings | cmd/tuplespacectl/cmds/common.go:350-350 | a spec made of bare words is the tuple of exactly those words |
| Syntax.ParsedTupleMeaning | cmd/tuplespacectl/cmds/common.go:178-201 | conversely, in a text that parses each token stands for its field |
| Syntax.ParsedTemplateMeaning | cmd/tuplespacectl/cmds/common.go:203-223 | the same for templates |
| Text.SpaceCodes | cmd/tuplespacectl/cmds/common.go:226-226 | the white space that is trimmed is the characters of Unicode's White_Space property |

## Left out

- HTTP routing, handlers, the HTTP client, the command line commands and the reading of spec files: plumbing.
- Configuration, migration runner, startup, schema listing, config redaction, `Stats` and the list of spaces: easy, or inconsistent snapshots by design.
- The SHA-1 hash in `ChannelName` (internal/notify/notifier.go:246-249): an arbitrary function; nothing needs it to be injective.
- SQL text: a small syntax tree is emitted and given a meaning; Postgres itself is taken as the atomic steps of `Protocol`. A failed commit is a rollback, and a commit that succeeds although the client sees an error is not modelled.
- Errors of single statements in the class models, other than failed commits and the failing scan of `Read`: in `Protocol` a scan and an open transaction may fail at any time.
- Listener connection errors and `Notifier.Close` in the protocol: a notification the server sends to a listening connection arrives.
- Row locks of admin deletes: an admin delete is one atomic step, enabled only when the rows it hits are unlocked.
- The goroutine and channel plumbing of `Notifier.loop` (internal/notify/notifier.go:166-199): one turn of the loop is one step; the class has a method for each kind of request, for the interrupted turn and for turns that bring notifications, and not the endless loop.
- Notifier.Notifier.Close: the wait for the loop to end is not modelled, only the mark the control function sets.
- Service.Service.Read: what happens between two scans (the changes others commit, the rows they hold, the notifications delivered, the end of the context) comes from a given list of turns; a list that runs out stands for the deadline. How these interleave is in `Protocol`.
- Service.Service.ReadLoop: the same list of turns.
- Service.Service.TakeTurn: the same list of turns.
- Service.Service.WaitersSnapshot: the sort is an insertion into an ordered list.
- AdminStore.ListTuples: the order of space names is an arbitrary strict total order.
- Store.Database.InsertTuple: ids are unbounded, so the width of BIGSERIAL is not modelled; nor is the wrap-around of the uint64 waiter id.
- Types.NormalizeValueIsProjection: floats are not among the values, because decoding keeps numbers as text.
- Dsl.ParseTupleSpec: texts are sequences of characters, so a hexadecimal or octal escape that numbers a byte from 128 up, which only makes sense together with its neighbours, is treated as an error; invalid UTF-8 is not modelled.
- Dsl.ParseTemplateSpec: the same escapes.
- Byte-level JSON: payloads are value trees, and texts that Postgres or JSON would refuse or alter (NUL, invalid UTF-8) are not modelled.
- Wall-clock time, deadlines and logging: a timeout is a step that may happen whenever a call is parked.
