# Dispatcher SDK: verified models of its durable protocols

This project models, in Dafny, the parts of the Dispatcher SDK that must stay right when processes
crash, retry and race, and proves what they promise. `dafny verify dfyconfig.toml` checks it all.

## What is modelled

- **Content codec** (`content.py`; `strict_json`, `json_parser`, `canonical_text`, `typed_node`,
  `content*`). JSON is a datatype with a concrete canonical printer, so lengths are real UTF-8 lengths, and
  with the grammar of its parser; only the conversion of number tokens is a parameter there. The encoder,
  decoder, measuring loops and read budget are classes and methods; `ContentEncoding` and `ContentDecoding`
  say what they compute. `content_integrity` shows that two tables cannot give one text two meanings,
  `content_spilling` which parts are stored apart, and `content_headroom` how much longer than its value a
  stored text can be.
- **Retention** (`retention.py`; `content_graph`, `graph_walk`, `graph_laws`, `retention*`). The memoised
  walk, the planning loops and the one-transaction application, with the laws about what survives;
  `retention_survival` says in terms of the tables alone what is still there. `retention_feed` adds the
  publishing of events and the subscriptions (`orchestrator/store.py`, `orchestrator/engine.py`) and follows
  the feed over whole runs.
- **Budget ledger** (`application_budget.py`, `application_budget_status.py`; `budget_*`,
  `application_budget`). The tables of a scope, three arbitrary clock readings in each reservation, and
  laws over every run of operations. `budget_books` keeps books from the calls and responses of a run and
  shows that every response agrees with them.
- **Handoff** (`storage_activation.py`, `maintenance.py`, `storage_connection.py`; `handoff_*`,
  `storage_activation`). A transition system over durable files and locks with any number of activations
  and writers, crashes between any two steps, and lost directories and reservations. `Host` is the
  sequential activation; each of its statements is a step of that system. Safety is in
  `handoff_safety`, `handoff_laws` and `handoff_contents`; `handoff_runs` and `handoff_stretches` put
  runs together, with which `handoff_leaks`, `handoff_jam`, `handoff_losses` and `handoff_examples`
  show what follows where a condition of the safety results is not met.
- **Disposal** (`provenance.py`; `disposal_*`, `provenance`). Registry and source as two databases with
  separate commits, any number of processes, and the class that performs the calls.
- **Task graph, effect recovery, notification paging, tree containment** (`task_graph`,
  `effect_recovery`, `stall_notifications`, `process_containment`).

## Where the code does less than it says

- A committed successor that is lost "must not" be made again. It can be: if its directory is lost after a
  retry has passed the receipt check and before that retry makes the directory, or if the reservation is
  lost between the check for a lost one and the claim of a retry, and nothing retired lies in the directory
  and pins it. `HandoffReplay.NeverReplayed` shows that nothing else leads there, and
  `HandoffLosses.CarefulIsExact` that in a world reached without these losses and without the two steps
  below, each such loss can be followed by a second successor.
  `HandoffExamples.CommittedSuccessorMadeAgain` is a run in which it happens.
- The gate is meant to keep every writer off the copy until it is complete. Two steps undo that. A writer
  that looked for the gate before it went up can still connect to a component behind it
  (`HandoffExamples.EarlyWriter`). And when a reservation or directory is lost, a second activation can open
  a destination afresh while another is still at work in it; the gate that one of them removes then falls
  too early for the other (`HandoffExamples.LostReservationLeaks`). `HandoffContents.NoLostWrite` holds for
  every run without these two steps, which is called orderly below, and `HandoffLeaks.OrderlyIsExact` shows
  that the condition on a step is exact: each such step can be followed, by steps that meet it, by a gate
  that falls over contents its source never held. Losing a reservation does no harm here as long as nobody
  is at work in the destination when it is opened afresh. If the spoiled copy's activation stops before it
  removes the gate, every retry is refused from then on until the directory is lost, while the sources stay
  retired (`HandoffJam.RetriesRefused`, `HandoffJam.ExposedGateJams`).
- A Run whose disposal stops after the mark stays in deleting for ever as soon as anything at all is committed
  on its source, because the retry asks for the very mutation count of the plan
  (`DisposalAbandoned.AbandonedForEver`; `DisposalAbandoned.MarkedAndLeft` is such a run).

## Model

| member | source | states |
|---|---|---|
| `StrictJson.ContainerSize` | src/dispatcher_sdk/content.py:182-222 | The canonical length of a list or dict is its brackets plus its parts and commas, which is how the encoder and the decoder add it up. |
| `CanonicalText.CanonicalInjective` | src/dispatcher_sdk/content.py:68-94 | Two strict values with one canonical text are the same value. |
| `CanonicalText.JsonReadsBack` | src/dispatcher_sdk/content.py:295-313 | A JSON parser reads canonical text back whenever its conversion of number tokens reads the known numbers back, such as the floats as Python prints them and the integers within its limit on digits. |
| `ContentCodec.Utf8SizeWithLimit` | src/dispatcher_sdk/content.py:112-121 | The counting loop returns the exact UTF-8 length when it is within the limit and otherwise some length above the limit. |
| `ContentCodec.Encoder.Build` | src/dispatcher_sdk/content.py:133-180 | Building fails exactly when the value is not encodable at this depth or one digest stands for two contents; otherwise it returns the specified node with the canonical length and adds exactly the spilled objects. |
| `ContentCodec.Encoder.BuildList` | src/dispatcher_sdk/content.py:182-200 | The list loop fails exactly when a part does, and otherwise returns the list node and the canonical length with the objects of all parts. |
| `ContentCodec.Encoder.BuildDict` | src/dispatcher_sdk/content.py:202-222 | The same for the dict loop over entries in key order. |
| `ContentEncoding.EncodedMeasures` | src/dispatcher_sdk/content.py:133-180 | The node of a strict value is well typed, its measured length is the canonical length of the value and its measured depth is no deeper than the value. |
| `ContentSpilling.LargePartsStoredApart` | src/dispatcher_sdk/content.py:133-180 | The objects stored for a value are exactly its parts that reach the threshold above the deepest level: each such part is stored apart as a text that means it, and nothing else is. |
| `ContentHeadroom.NodeLength` | src/dispatcher_sdk/content.py:133-180 | Whatever the threshold, the encoded node of a value is at most a hundred times as long as the value. |
| `ContentHeadroom.EncodesWithinLimits` | src/dispatcher_sdk/content.py:104-109 | With that headroom no encoded limit is ever in the way: a value encodes exactly if it is strict, within the logical and depth limits, and no digest stands for two texts. |
| `ContentStore.InsertObjects` | src/dispatcher_sdk/content.py:224-240 | Insertion refuses a digest that is stored with other content and otherwise stores every pending object without changing a row. |
| `Content.EncodeValue` | src/dispatcher_sdk/content.py:243-271 | Encoding returns exactly when the value, the limits and the stored rows allow it; then all objects are stored and no earlier row has changed. |
| `Content.RoundTrip` | src/dispatcher_sdk/content.py:243-271 | Over a table that holds what encoding stores, the root text means the encoded value under a reader with the same threshold and limits, if the parser reads back the numbers of the value and the lengths up to the logical limit, in texts nested three levels for each level of the depth limit; that the hash is injective is not assumed. |
| `Content.ThresholdForgotten` | src/dispatcher_sdk/content.py:525-551 | What a text means does not depend on the threshold, which the decoder is never told. |
| `Content.WrittenIsRead` | src/dispatcher_sdk/content.py:243-271 | Whatever threshold a value was encoded with and whatever rows were there before, the root text means that value to a decoder with the same limits and such a parser. |
| `Content.EncodeThenDecode` | src/dispatcher_sdk/content.py:508-551 | Calling the decoder on what the encoder has just returned, with the same limits, no read budget and such a parser, returns the encoded value; the encoder returns under the same condition as `EncodeValue`. |
| `ContentDecoding.NodeDecodes` | src/dispatcher_sdk/content.py:371-454 | The induction behind the round trip: under any open chain of longer objects, a node decodes to its value, so depths agree and no digest returns among its ancestors. |
| `ContentDecoding.EncodedNumbers` | src/dispatcher_sdk/content.py:133-180 | The node and the body of a value within the logical limit contain no numbers but those of the value and lengths up to that limit. |
| `ContentDecoding.EncodedNesting` | src/dispatcher_sdk/content.py:133-180 | They nest at most three levels for each level of the value, and one more. |
| `ContentDecoder.Measure` | src/dispatcher_sdk/content.py:315-369 | Measuring succeeds exactly for well-typed nodes within the depth and size limits and returns their logical length. |
| `ContentDecoder.Decoder.Run` | src/dispatcher_sdk/content.py:371-384 | The caching decoder returns what the recursive meaning says; a failure of a meaningful node is due to the read budget alone, and a success pays for each newly loaded object once. |
| `ContentDecoder.Decoder.Load` | src/dispatcher_sdk/content.py:386-454 | Following a reference, cached or not, has the meaning of the stored body under the longer chain, and is charged only at the first load. |
| `ContentDecoding.DecodedSize` | src/dispatcher_sdk/content.py:371-454 | For any table, a decoded value is strict JSON whose canonical length is the measured length of its node, however often objects are shared. |
| `Content.DecodedLength` | src/dispatcher_sdk/content.py:525-551 | A decoded root has exactly its measured length, within the logical limit. |
| `ContentIntegrity.DecodedNesting` | src/dispatcher_sdk/content.py:371-384 | A decoded value, however often references were followed, nests no deeper than the depth limit leaves room for. |
| `Content.DecodedWithinLimits` | src/dispatcher_sdk/content.py:525-551 | Whatever decodes is plain JSON within the logical and depth limits, and a prefixed text is the canonical text of a node whose measured length is that of the value. |
| `Content.DecodeValue` | src/dispatcher_sdk/content.py:508-551 | Decoding returns the meaning of the text, and every row it needed hashes to its digest and has the length claimed for it; with a read budget a success consumes exactly the text plus each distinct loaded object once, and a meaningful text is refused exactly for want of that price. |
| `Content.OneMeaning` | src/dispatcher_sdk/content.py:386-454 | Two readers with the same parser and hash give a text the same meaning wherever both give it one, whatever their tables and limits, as long as no two different stored texts hash alike. |
| `Content.NeverAnother` | src/dispatcher_sdk/content.py:508-551 | Whatever becomes of the stored rows after a value was encoded, its root text never means another value: it means that one or nothing. |
| `ContentIntegrity.LoadedIsSound` | src/dispatcher_sdk/content.py:419-446 | Every row that decoding loads, directly or through other rows, is the canonical text of a node, hashes to its own key and has the recorded length. |
| `Content.LegacyMeasure` | src/dispatcher_sdk/content.py:474-505 | Plain legacy JSON is accepted exactly within the depth and size limits, with its canonical length. |
| `ContentStore.ReadBudget.Consume` | src/dispatcher_sdk/content.py:29-34 | The allowance falls by the bytes read, or nothing is taken and the read is refused. |
| `ContentGraph.MemoUnique` | src/dispatcher_sdk/retention.py:226-265 | What the memo remembers of an object is determined by the graph: two valid memos never disagree. |
| `ContentGraph.BelowIsReach` | src/dispatcher_sdk/retention.py:226-265 | The set collected through the memo is exactly the least closed set around the references of the node. |
| `GraphWalk.Walker.Walk` | src/dispatcher_sdk/retention.py:226-265 | The memoised walk returns exact height, chain length and reachable set, keeps the memo valid, and fails exactly when no valid assignment accepts the node: missing object, wrong length, cycle or bound exceeded. |
| `GraphLaws.AcceptedDecodes` | src/dispatcher_sdk/retention.py:226-277 | What the walk accepts also decodes, with all depth, chain and size checks. |
| `GraphLaws.DecodeFrame` | src/dispatcher_sdk/retention.py:761-767 | Decoding depends only on the objects of a closed set around the root. |
| `Retention.ProtectedRevisions` | src/dispatcher_sdk/retention.py:383-417 | The loops over rows, receipts and recent revisions collect the specified set; `RetentionSurvival.RevisionsThatStay` says which revisions that are. |
| `Retention.FindBaselines` | src/dispatcher_sdk/retention.py:418-453 | The nested loops select exactly the rows that are the latest of their field at some protected revision. |
| `Retention.FindEventCandidates` | src/dispatcher_sdk/retention.py:460-500 | The loops select exactly the decision events of the Run that are neither recent nor ahead of a subscription. |
| `Retention.Traverse` | src/dispatcher_sdk/retention.py:502-558 | Walking every object and every root succeeds exactly when all content is acceptable, and collects exactly what the roots reach. |
| `Retention.OrchestratorStore.BuildPlan` | src/dispatcher_sdk/retention.py:319-612 | The plan computed by the loops is the specified one, blocked plans and refusals included; what applying it leaves is stated by the rows of `RetentionSurvival`. |
| `Retention.OrchestratorStore.ApplyRetention` | src/dispatcher_sdk/retention.py:682-786 | Applying commits all deletions, marks and the receipt together or changes nothing; a replayed plan returns its stored receipt and changes nothing; a stale plan is refused. |
| `RetentionSurvival.RevisionsThatStay` | src/dispatcher_sdk/retention.py:383-417 | After an applicable plan, the revisions of the Run that are left are exactly the current one, those that receipts name and the N greatest; those of other Runs stay. |
| `RetentionSurvival.ValuesThatStay` | src/dispatcher_sdk/retention.py:418-453 | At each of those revisions every field still holds what it held, by the latest row up to it, and so does every field of another Run at any revision. |
| `RetentionSurvival.EventsThatStay` | src/dispatcher_sdk/retention.py:460-500 | An event goes exactly if it is a decision of the Run, at least the wanted number of decisions of the Run lie after it and every subscription of the Run has passed it; all others are unchanged. |
| `RetentionSurvival.ContentStays` | src/dispatcher_sdk/retention.py:502-558 | Every item, every history row and event that is left and every column of a recovery means what it meant, to every decoder with the same parser. |
| `RetentionSurvival.ReceiptCounts` | src/dispatcher_sdk/retention.py:682-786 | The receipt counts exactly the rows that are gone, and the expired revisions are those from before and exactly the revisions that are gone. |
| `RetentionLaws.BaselinesSurvive` | src/dispatcher_sdk/retention.py:418-453 | For every protected revision each field has the same latest row, with the same text, before and after. |
| `RetentionLaws.KeptRowsAreBaselines` | src/dispatcher_sdk/retention.py:717-726 | Every kept row of the Run is the baseline of a protected revision, and rows of other Runs are untouched. |
| `RetentionLaws.ProtectedStable` | src/dispatcher_sdk/retention.py:383-417 | After deletion the protected revisions are the same, and all that are left. |
| `RetentionLaws.ApplyingKeepsCursorsCovered` | src/dispatcher_sdk/retention.py:741-760 | No single application lifts the expiry mark of a Run above one of its subscription cursors. |
| `RetentionFeed.NothingMissed` | src/dispatcher_sdk/orchestrator/store.py:467-476 | Over every run of publications, advances, applications and other commits: whoever reads on from a position that the expiry check accepts still finds, unchanged, every event of that Run ever published after it. |
| `RetentionFeed.SubscriptionsStayCurrent` | src/dispatcher_sdk/orchestrator/engine.py:431-442 | Over every such run no subscription ever finds its cursor expired, and no event ahead of one, old or new, is ever deleted. |
| `RetentionLaws.RootsReach` | src/dispatcher_sdk/retention.py:502-558 | The union of the per-root walks is the set reachable from all roots. |
| `RetentionLaws.RetainedRootKeepsValue` | src/dispatcher_sdk/retention.py:761-767 | Every item, history row, event and recovery text that stays means the same before and after the application, to every decoder with the same parser, whatever its depth and size limits. |
| `RetentionLaws.RetainedRootDecodes` | src/dispatcher_sdk/retention.py:502-558 | Every retained root of an applicable plan decodes, for a decoder whose depth limit is the one of the walk and whose encoded limit admits the text. |
| `RetentionLaws.DeletedObjectsWereUnreachable` | src/dispatcher_sdk/retention.py:761-767 | Each deleted object lies outside a closed set that contains all retained roots. |
| `RetentionFixpoint.ReplanIsEmpty` | src/dispatcher_sdk/retention.py:319-612 | Planning again under the same policy with no write in between is applicable and selects nothing. |
| `ApplicationBudgetLedger.ApplicationBudget.Create` | src/dispatcher_sdk/application_budget.py:136-150 | Creation is idempotent for equal terms and refuses others, leaving every other scope alone. |
| `ApplicationBudgetLedger.ApplicationBudget.ImportLegacy` | src/dispatcher_sdk/application_budget.py:152-200 | A legacy manifest is imported once, replayed when equal and refused otherwise, with duplicates and limits checked first. |
| `ApplicationBudgetLedger.ApplicationBudget.Reserve` | src/dispatcher_sdk/application_budget.py:202-263 | The three-clock-reading reservation with its loops decides exactly as specified, including rollback of the watermark on refusal; `BudgetBooks.BooksBalance` and `AllowedIsGranted` say what it grants in terms of the run before it. |
| `ApplicationBudgetLedger.ApplicationBudget.Settle` | src/dispatcher_sdk/application_budget.py:280-300 | Settling and reconciling record one outcome, replay an equal one and refuse another. |
| `ApplicationBudgetLedger.ApplicationBudget.Inspect` | src/dispatcher_sdk/application_budget.py:302-332 | The tallying loop reports the specified spent, reserved and unknown sums, which are those of the books (`BudgetBooks.BooksBalance`). |
| `ApplicationBudgetLedger.ApplicationBudget.Observe` | src/dispatcher_sdk/application_budget_status.py:15-91 | The observation commits the watermark and reports the sums and the verdict; both follow from the books and the time (`BudgetBooks.BooksBalance`). |
| `ApplicationBudgetLedger.ApplicationBudget.ArchiveSettled` | src/dispatcher_sdk/application_budget.py:334-363 | The first settled rows in key order move to the archive and the archived total grows by their usage. |
| `BudgetBooks.BooksBalance` | src/dispatcher_sdk/application_budget.py:152-332 | Over every run from an absent scope, with books kept from the calls and responses alone: spent is the imported usage plus the actual amounts of the distinct settled or reconciled requests, in every report and observation; a grant needs that sum plus its amount within the allowance, nothing outstanding and a new request; and what each create, import, settlement, reconciliation, inspection and observation is answered follows from the books. |
| `BudgetBooks.AllowedIsGranted` | src/dispatcher_sdk/application_budget.py:202-263 | Conversely, after every run a new request within the allowance is granted when nothing is outstanding, no clock reading is late and the scope has not had too many requests. |
| `BudgetLaws.StepKeepsSound` | src/dispatcher_sdk/application_budget.py:125-134 | Every operation keeps live and archived ids apart, the archived total exact and the table within its limit. |
| `BudgetLaws.ArchivedStep` | src/dispatcher_sdk/application_budget.py:202-363 | One operation on a ledger with archived rows answers and acts as on the ledger that never archived, the history-full refusal apart. |
| `BudgetLaws.ArchivingIsInvisible` | src/dispatcher_sdk/application_budget.py:334-363 | Archiving calls anywhere in a run change no response of the other operations except a history-full refusal of the run without archiving. |
| `BudgetLaws.ArchivingConserves` | src/dispatcher_sdk/application_budget.py:334-363 | Archiving changes neither what was spent nor what is held. |
| `BudgetLimits.RunFollows` | src/dispatcher_sdk/application_budget.py:202-263 | Over any run the watermark never falls, known requests stay known, and usage never falls. |
| `BudgetLimits.ClosedForEver` | src/dispatcher_sdk/application_budget.py:210-263 | Once the watermark has reached the deadline or usage exceeds the allowance, no later call of any run authorises spending. |
| `BudgetLimits.GrantedOnce` | src/dispatcher_sdk/application_budget.py:202-263 | No two grants in a run are for the same request, archived or not. |
| `BudgetLimits.OverspendBound` | src/dispatcher_sdk/application_budget.py:226-263 | While a request is the latest authorised one, usage plus holds exceed the allowance by at most its own excess, and no other reservation is pending. |
| `BudgetLimits.AvailableMeansGrantable` | src/dispatcher_sdk/application_budget_status.py:40-91 | The status is available exactly if a fresh reservation with no further clock advance would be granted. |
| `BudgetLimits.ObservingChangesNoRow` | src/dispatcher_sdk/application_budget_status.py:15-91 | Observing changes no reservation and grants nothing. |
| `HandoffSafety.InvStep` | src/dispatcher_sdk/storage_activation.py:547-659 | Every step of activations, writers, crashes and losses keeps: exclusive locks, current leases, verified sources unchanged, retired sources frozen and without a connected writer. |
| `HandoffSafety.ActionIsGood` | src/dispatcher_sdk/storage_activation.py:547-659 | Each step of one activation touches only databases it has locked and keeps what that activation relies on. |
| `HandoffSafety.AcquireKeeps` | src/dispatcher_sdk/maintenance.py:792-856 | An exclusive lock is taken only while nobody holds or shares it. |
| `HandoffSafety.ClientKeeps` | src/dispatcher_sdk/storage_connection.py:52-61 | Opening, with the marker checked before and after the shared lock, never leaves a connected writer on a retired source. |
| `HandoffLaws.NeverBothWritable` | src/dispatcher_sdk/storage_activation.py:547-659 | From the first component put in place, in any interleaving, no source can be written or opened for writing. |
| `HandoffLaws.OneSuccessor` | src/dispatcher_sdk/storage_activation.py:319-330 | Activations that put components in place share no source, whenever they ran. |
| `HandoffLaws.RetiredIsFrozen` | src/dispatcher_sdk/storage_activation.py:567-592 | A retired source keeps for ever the contents its successor was made from. |
| `HandoffLaws.LoserRetiresNothing` | src/dispatcher_sdk/storage_activation.py:367-392 | A request whose destination is reserved by another has retired no source at all, unless that reservation was lost. |
| `HandoffLaws.LeaseIsCurrent` | src/dispatcher_sdk/maintenance.py:167-187 | A held lease is the durable record of its database and excludes every other holder and writer. |
| `HandoffLaws.FencesNeverRepeat` | src/dispatcher_sdk/maintenance.py:821-856 | A lease granted later has a greater fence than any published before, over every run between. |
| `HandoffLaws.ChangedSourceRefused` | src/dispatcher_sdk/storage_activation.py:553-563 | In every reachable world: while a source differs from the snapshot, no activation of that request is past its verification or can get past it, and the source is not retired for it. |
| `HandoffContents.NoLostWrite` | src/dispatcher_sdk/storage_activation.py:590-658 | In every run in which no gate goes up past somebody who has knocked at a component and no destination is opened afresh while another activation is at work in it: when the gate falls, every component equals what its source holds and has held since its retirement, and no writer is at either. |
| `HandoffLeaks.OrderlyIsExact` | src/dispatcher_sdk/storage_activation.py:395-456 | After any such run, a possible step meets this condition exactly if no continuation that meets it lets a gate fall over contents differing from the source. |
| `HandoffLeaks.ExposedGateLeaks` | src/dispatcher_sdk/storage_connection.py:52-61 | Wherever such runs lead, a gate raised past somebody who has knocked can be followed by its fall over contents that no source held. |
| `HandoffLeaks.ContestedOpeningLeaks` | src/dispatcher_sdk/storage_activation.py:419-456 | The same for a destination opened afresh while another activation is at work in it or could still complete its comparison there. |
| `HandoffLeaks.KnockedLeaks` | src/dispatcher_sdk/storage_connection.py:52-61 | From every state that keeps the invariant and in which a gate is about to fall: a writer who has knocked at a component that is there, not retired and held by nobody can enter, connect and write before it falls. |
| `HandoffExamples.EarlyWriter` | src/dispatcher_sdk/storage_connection.py:52-61 | A run from an initial world in which a writer that looked for the gate before it was raised changes the copy behind it, and the gate is about to fall over it. |
| `HandoffExamples.LostReservationLeaks` | src/dispatcher_sdk/storage_activation.py:385-392 | A run from an initial world in which a lost reservation brings two activations with different sources into one destination, and a gate is about to fall over contents that no source held. |
| `HandoffJam.RetriesRefused` | src/dispatcher_sdk/storage_activation.py:594-609 | Once a component under its gate is spoiled and nobody is left to remove the gate, no activation of that destination can ever remove it or take up the receipt, until the directory is lost, and no source can be written. |
| `HandoffJam.ExposedGateJams` | src/dispatcher_sdk/storage_activation.py:594-609 | After any orderly run, a gate raised past somebody who has knocked at a component can be followed by that state. |
| `HandoffReplay.NeverReplayed` | src/dispatcher_sdk/storage_activation.py:567-576 | In every run without a loss between a replay check of a committed request and the step it protects, a committed destination is never made again, however often it is lost and retried. |
| `HandoffLosses.CarefulIsExact` | src/dispatcher_sdk/storage_activation.py:375-426 | After any such run that is also orderly, a possible step is such a loss exactly if some continuation without one makes a committed destination again. |
| `HandoffLosses.CarelessLossReplays` | src/dispatcher_sdk/storage_activation.py:417-424 | From every state that keeps the invariants, if the destination of a committed request is lost just after a retry that holds its leases has passed the receipt check, that retry can go on to make it again. |
| `HandoffLosses.CarelessReservationReplays` | src/dispatcher_sdk/storage_activation.py:565-576 | The same for a reservation lost between the check for a lost one and the claim, if nothing retired lies in the directory. |
| `HandoffExamples.CommittedSuccessorMadeAgain` | src/dispatcher_sdk/storage_activation.py:375-382 | A run from an initial world that makes a committed successor a second time. |
| `HandoffResume.AlwaysResumable` | src/dispatcher_sdk/storage_activation.py:395-456 | At every moment of an orderly run with crashes and losses, a reserved request whose reservation was not lost finds its destination in a state that a retry accepts exactly if the receipt is there once the reservation says committed; so it does unless its directory was lost and the request was committed. |
| `StorageActivation.Host.LockSources` | src/dispatcher_sdk/maintenance.py:792-871 | The loop over the sources leases each of them, or stops; with untouched sources it succeeds. |
| `StorageActivation.Host.RetireSources` | src/dispatcher_sdk/storage_activation.py:577-589 | The loop publishes every retirement marker or finds its own. |
| `StorageActivation.Host.CopyComponents` | src/dispatcher_sdk/storage_activation.py:620-651 | The loop puts every component in place or finds it equal, and then publishes the receipt. |
| `StorageActivation.Host.OpenSuccessor` | src/dispatcher_sdk/storage_activation.py:593-658 | Along every branch, success means retired sources, the complete successor with its receipt in place and an open gate, reached by the step that removed the gate or settled; it succeeds whatever an earlier attempt of the same request left. |
| `StorageActivation.Host.GiveBackLeases` | src/dispatcher_sdk/maintenance.py:758-789 | Every way out gives back all leases: their records keep the fence and lose the holder, and nothing else on the disk changes. |
| `StorageActivation.Host.Activate` | src/dispatcher_sdk/storage_activation.py:516-665 | From any disk, success is reported exactly if this activation took the delivering step, and then the successor and its receipt are in place over retired sources; it succeeds whenever its sources are untouched and its destination is free or its own, and is refused with the disk unchanged when the destination belongs to another request or is committed with its receipt gone. All of it consists of protocol steps, leaves no lock behind and disturbs no other process. |
| `StorageActivation.RetryIsAdmissible` | src/dispatcher_sdk/storage_activation.py:529-533 | After any orderly run with crashes and losses, running a reserved request again meets the conditions for success, if its sources are untouched, its reservation was not lost and the receipt is there once the reservation says committed. |
| `DisposalLaws.InvStep` | src/dispatcher_sdk/provenance.py:254-419 | Registrations, references, archives, other commits, disposals and crashes keep registry and source in agreement. |
| `DisposalLaws.RegisterKeeps` | src/dispatcher_sdk/provenance.py:269-335 | Although the source is read in an earlier transaction, a new record is only ever made for a Run whose rows are still there. |
| `DisposalLaws.OneDisposal` | src/dispatcher_sdk/provenance.py:766-845 | No two disposals of one Run are ever under way together. |
| `DisposalLaws.MarkKeeps` | src/dispatcher_sdk/provenance.py:833-840 | Marking a Run leaves no reference to it, because planning was blocked by any and later ones are refused. |
| `DisposalLaws.DeleteKeeps` | src/dispatcher_sdk/provenance.py:698-739 | The source commit removes the rows of one Run and leaves its tombstone, while registry and source stay in agreement. |
| `DisposalLaws.FinishKeeps` | src/dispatcher_sdk/provenance.py:879-899 | The last commit records the tombstone and drops the references that the Run held. |
| `DisposalResults.PairMoves` | src/dispatcher_sdk/provenance.py:771-899 | Each step leaves the joint state or moves it one place on through active/live, deleting/live, deleting/tombstoned and disposed/tombstoned, and only a commit of that very disposal moves it. |
| `DisposalResults.OwnerForEver` | src/dispatcher_sdk/provenance.py:776-800 | Once recorded, one operation and plan own the Run for ever and the joint state never goes back. |
| `DisposalResults.NothingDangles` | src/dispatcher_sdk/provenance.py:441-476 | No reference targets a deleting or disposed Run, and a hot locator is given only for a Run whose rows are in that store. |
| `DisposalResults.RetryExactly` | src/dispatcher_sdk/provenance.py:809-829 | A retry after the mark passes exactly if not one commit was made on the source, the row is as planned and terminal, the scope is closed and nothing relates to the Run. |
| `DisposalResults.ResumeExactly` | src/dispatcher_sdk/provenance.py:776-878 | A deleting Run is taken up exactly by its own operation and plan, and only if its rows are gone or its source is as planned. |
| `DisposalResults.StartExactly` | src/dispatcher_sdk/provenance.py:776-832 | A disposal of a Run that is neither deleting nor disposed begins exactly if the registry and its source still are as the plan found them. |
| `DisposalAbandoned.ClockNeverFalls` | src/dispatcher_sdk/provenance.py:809-829 | Over any run the mutation count of no source goes back. |
| `DisposalAbandoned.AbandonedForEver` | src/dispatcher_sdk/provenance.py:809-829 | Once a marked Run has no disposal under way and the count of its source has left the plan, it stays in deleting under that operation and plan in every continuation, and no disposal of it is ever under way again. |
| `DisposalAbandoned.StopAndChangeAbandon` | src/dispatcher_sdk/provenance.py:833-845 | From every state that keeps the invariants, a stop just after the mark and one commit on the source about any Run lead there. |
| `DisposalAbandoned.MarkedAndLeft` | src/dispatcher_sdk/provenance.py:809-829 | A run from an initial world that leaves a Run behind in that state. |
| `DisposalResults.AdmittedCompletes` | src/dispatcher_sdk/provenance.py:833-899 | From every phase the remaining commits are possible and end in disposed/tombstoned. |
| `Provenance.ComputePlan` | src/dispatcher_sdk/provenance.py:539-637 | The loops over records and references compute the specified plan with all its blockers. |
| `Provenance.Registrar.RegisterRun` | src/dispatcher_sdk/provenance.py:269-335 | A Run is registered exactly if it exists, is not disposed and has no other identity or differing record. |
| `Provenance.Registrar.AddReference` | src/dispatcher_sdk/provenance.py:337-372 | A reference is added exactly between registered Runs that are neither deleting nor disposed. |
| `Provenance.Registrar.CommitDelete` | src/dispatcher_sdk/provenance.py:846-867 | The second commit is the protocol's delete step. |
| `Provenance.Registrar.DisposeRun` | src/dispatcher_sdk/provenance.py:742-910 | Stopped anywhere, the call leaves registry and source in agreement; unstopped, it succeeds exactly when the protocol admits it, and then its operation and plan own the disposed Run. |
| `TaskGraph.BuildDependents` | src/dispatcher_sdk/managed_contracts.py:272-277 | Every task is listed once under each of its dependencies. |
| `TaskGraph.ValidateAcyclic` | src/dispatcher_sdk/managed_contracts.py:271-288 | The ready-list loop terminates and accepts exactly the graphs without a dependency cycle. |
| `TaskGraph.AcceptTasks` | src/dispatcher_sdk/managed_contracts.py:226-242 | Declarations are accepted exactly if they are nonempty, free of duplicates and unknown dependencies, and acyclic. |
| `EffectRecovery.EffectKernel.ResolveEffect` | src/dispatcher_sdk/execution_kernel/_sqlite_recovery.py:14-234 | A call repeats an earlier decision and changes nothing, or decides the effect its execution is parked for and moves the execution on, or changes nothing at all, each exactly under its stated condition; blank identities and reasons are refused, and every record keeps the rules for states, times, claims and decisions. |
| `EffectRecovery.DecisionIsRecorded` | src/dispatcher_sdk/execution_kernel/_sqlite_recovery.py:37-120 | After a decision the effect is committed exactly if it was found applied and not applied exactly if it was not, with that identity, decision and time; the same call again is then answered the same, and one with another identity, decision or applied response is refused. |
| `EffectRecovery.DrainsOneByOne` | src/dispatcher_sdk/execution_kernel/_sqlite_recovery.py:125-234 | Over any series of calls each decision removes exactly one unknown effect, and the execution stays parked exactly as long as one is left, then is at its durable target. |
| `EffectRecovery.DecisionIsFinal` | src/dispatcher_sdk/execution_kernel/_sqlite_recovery.py:37-51 | A decided effect is never touched again. |
| `StallNotifications.Resolve` | src/dispatcher_sdk/application.py:114-124 | The first store that knows a notification owns it, the last one says how it stands. |
| `StallNotifications.StallNotificationPage` | src/dispatcher_sdk/application.py:515-593 | Whatever stops a page, what it lists and what is still to come are what was to come; without a timeout it looks at some row or is the last page. |
| `StallNotifications.Follow` | src/dispatcher_sdk/application.py:515-593 | Following the cursor ends and lists all that was to come, whatever the page size and byte limit. |
| `StallNotifications.EachExactlyOnce` | src/dispatcher_sdk/application.py:538-585 | From the start, each notification that matches the filter comes exactly once. |
| `ProcessContainment.NoChildrenNoTree` | src/dispatcher_sdk/execution_kernel/_process_runtime.py:1029-1035 | The supervisor has no child exactly when its tree is empty. |
| `ProcessContainment.Supervisor.ReapChildren` | src/dispatcher_sdk/execution_kernel/_process_runtime.py:982-994 | Where the reaping loop ends, it reports no child only if no process of the tree is left, and otherwise there are children and every one of them is running. |
| `ProcessContainment.Supervisor.KillChildren` | src/dispatcher_sdk/execution_kernel/_process_runtime.py:1036-1040 | Each child that was read gets exactly one signal, and that reaches the very process that had the pid when it was read. |
| `ProcessContainment.Supervisor.ContainTree` | src/dispatcher_sdk/execution_kernel/_process_runtime.py:1021-1045 | Containment is reported only when the tree is gone, and every signal sent went to an unreaped child. |
| `ProcessContainment.StaleDescendant` | src/dispatcher_sdk/execution_kernel/_process_runtime.py:1033-1035 | A pid read from a deeper descendant can be reused by a stranger, so signalling it would not be safe. |

## Left out

- SHA-256 and HMAC: the hash is a parameter of which only the form of its results is assumed; signed documents are compared by content. Forging is not modelled.
- The JSON text parser of the codec is a parameter with a stated reach: the numbers it reads back and how deeply it nests. How Python converts a number token, and that it refuses to print an integer with too many digits, are not modelled; lone surrogates and the constants for infinities and not-a-number, which no strict value contains, are refused by the modelled grammar.
- Python's check for cyclic containers: values are finite trees. A dict is its entries in key order.
- Exception classes and messages, except where a refusal is part of a protocol.
- SQLite: a transaction is one atomic step on maps; schema checks, pragmas, busy retries and dynamic typing of columns are not modelled.
- Validation of names and identifiers, the 1 MiB manifest bound and the branch for more rows than a scope can hold (excluded by the invariant of the ledger).
- Retention: the scan limits, the retention-times table and the length of operation identities, which are an arbitrary function of the plan. That an empty container counts as one level in the walk is kept, so the converse of `AcceptedDecodes` is not claimed.
- Handoff: symbolic links, hard links, flushing, Windows locks, file-system errors and lease times; expiry is a step that makes the process leave, and so is every refusal. Writers open existing databases only, so foreign files in a destination do not occur. Aliased sources do not occur, because sources are keys. A directory is lost only while nothing in it is locked or retired; several small reads before one durable step count as one.
- Removing a gate that is already gone counts as done, in both branches that remove one; after a copy the source then raises an error although everything is committed.
- Retention feed: the deletion of all events of a disposed Run, which provenance performs, is not a step of it; command receipts, Run generations and the event payloads of a publication are left out.
- ProcessContainment.Supervisor.ReapChildren: the model ends because what happens around the loop is a finite list; in the source the loop goes on as long as the tree keeps forking and exiting.
- Disposal: legacy archived records only occur at the beginning; the twelve kinds of related records are one count; each source commit advances the mutation clock by one; disposal times and the registry's own digest inside a plan are omitted, the registry revision stands for it. The maintenance lease is the source's write lock.
- Cold archive artifacts are not read again when a locator is resolved, since their bytes lie outside both databases.
- Paging: SQL projections and partly truncated columns; time is a number of checks that pass before the budget is used up.
- Tree containment: a signal takes effect at once; what the process does between signal and death happens before the signal here. The branch without a subreaper rests on timing and is not modelled.
- The rest of the task and run declarations (frozen JSON, budgets, timeouts) and of the kernel (parking, terminal results), which recovery takes as given.
- Storage migration, diagnostics, adapters, health reporting and examples: plumbing or reporting without a property across operations.
