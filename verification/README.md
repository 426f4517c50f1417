# Nexus Runtime: durable execution, placement and context, in Dafny

This project models the parts of Nexus Runtime whose guarantees span many functions, and proves those
guarantees over all inputs, all runs and all crash points:

- **The durable checkpoint store and the attempt handoffs** (`workflow_checkpoint.py`, `handoff_lineage.py`).
  Checkpoints and handoffs are records with the constructor's normalization, a durable JSON form and a hash
  over it. The store is a class over its files; each operation makes its atomic replacements one by one, so a
  crash may fall between `current.json` and the history file, or between a handoff and the successor it
  announces. Runs interleave any number of clients that read, derive the next revision and compare-and-set on
  the revision they read, effect recorders, and binds.
- **The execution coordinator** (`coordinator.py`, `effect_authorization.py`, `model_call_resolution.py`).
  `execute_attempt` is a machine with one durable write a step. What the ports answer (readiness, receipts,
  verdicts, whether the authority accepts, whether a step raises, dies after its effect, or the failure
  handler runs) is a free choice at every step, and a call may be cut off and started again anywhere. The class
  `BaseExecutionCoordinator` updates the durable state in place and is proved against that machine.
- **Placement** (`placement.py`): the canonical JSON printer with JavaScript number spelling against a parser
  for it, host selection, and placement leases.
- **The context store** (`context_store/`): keyed idempotent ingest under a quota, paged literal search while
  ingests go on, range reads, and rows that bind their own content.

sha256 is a function parameter that never maps two inputs to one output and never to a blank text. The hashes of
the store follow from it, and `CanonicalDigests` exhibits such a function, the digests of placement and the
context store, an authorization hash and a clock, so what is proved under them is proved of something. Clocks,
fresh identifiers and port answers are parameters, and times are whole microseconds. JSON objects are maps, so
their key order carries no meaning; where Python reads an object as the list of its keys, or takes `str` of a
list or an object, the order and the text are a parameter (`RecordCodec.Python`), and results hold for all
orders and all texts that begin with their bracket. A float is a binary64 number (53-bit significand and
exponent) together with the decimal that `repr` prints of it: the shortest that rounds to it half-even, of those
the closest, and at a tie the one ending in an even digit. Every finite double is one such float and only one
(`ReprExists.EveryDoubleIsOneFloat`). Python's `==` compares the binary numbers, the printers print the
decimals.

Some promises do not hold of the code as they are usually put. For each of these the model keeps the code,
gives an input, and proves exactly when the promise is met:

| promise | when it is met | input where it is not |
|---|---|---|
| a payload changed under its stored hash is refused | unless it still describes the record: named texts up to blanks around them, lists up to repeats or as an object's keys or a text's characters, operations as an object or as pairs, effects in any order, other texts as themselves or as anything `str` spells so, empty or default members left out, unread members anything (`RecordTheorems.TamperedIsRefused`, `HandoffCodec.TamperedHandoffIsRefused`; for one member `RecordTheorems.OneMemberChanged`) | a blank before `task_id` (`RecordTheorems.PaddingIsAccepted`); `{"a": 1}` for the leases `["a"]` (`RecordTheorems.ObjectForListIsRead`); `[["k", "v"]]` or `["kv"]` for the operations `{"k": "v"}` (`RecordTheorems.PairsForObjectAreRead`); the list `["a"]` for the phase `['a']` (`RecordTheorems.ListForTextIsRead`) |
| every valid record reads back | its texts are trimmed and, for a checkpoint, its claim ceiling is the contract's; a handoff must also name a disposition (`RecordTheorems.ReadBackEqualOrRefused`, `HandoffCodec.HandoffReadBackEqualOrRefused`) | any valid record with a blank around `task_id`; a handoff whose disposition is the empty string |
| what the store accepts can be read again | no accepted write had an untrimmed identifying text or another claim ceiling, and no recorded effect an untrimmed key or receipt (`Readability.UnreadableIffSpoiled`); otherwise the attempt takes no write ever after (`Readability.UnreadableForGood`) | recording an effect with a blank after its key (`Readability.PaddedEffectLosesAttempt`); writing a later revision of attempt `" a"`, which takes the place of attempt `"a"` (`Readability.PaddedIdLosesAnother`) |
| every attempt of a stored lineage has inherited its predecessor's effects | a bind found each successor without a checkpoint and lived to write one (`StoredEdges.StoredEdgeInherits`, `StoredEdges.StoredChainHoldsEffects`) | a successor begun before it is bound: the bind conflicts with its handoff stored, the lineage leads to it, and it holds nothing (`StoredEdges.UninheritedChainExists`) |
| equal numbers, and only they, have one canonical text | unless an integer below 10^21 is what a float prints but not what it is, or the reverse, or an integer from 10^21 on equals a float (`NumberEquality.TextIsEqualityUnlessClash`); no float up to 2^53 is such a case (`NumberEquality.SmallFloatsNeverClash`) | the float 2^60: the integer 1152921504606846976 equals it and has another text, 1152921504606847000 has its text and is another number (`NumberEquality.LargeFloatDiffers`); 10^22 (`NumberEquality.LargeIntegerDiffers`) |
| a fresh placement lease can be revalidated | its snapshot's timestamp has an offset (`PlacementLeases.CurrentExactlyWhileFresh`) | a timestamp without one (`PlacementLeases.NaiveLeaseNeverHolds`) |
| history is listed in revision order | no two listed revisions are out of place: the longer of two has no fewer leading digits than the shorter (`HistoryOrder.FileNameOrder`, `StoreTheorems.HistoryTellsThePast`); without crashes, exactly while revisions stay below 10^8 | 10000001 and 100000000, while 10000000 and 100000000 are in order (`HistoryOrder.LongerRevision`) |
| every file of the store has a path of its own | but for one pair of files (`StorePaths.PathsApart`) | the checkpoint of an attempt named `handoffs` and the handoff to an attempt named `current` |
| an interrupted bind can be retried | the crash came before the successor's checkpoint (`BindReadback.RetryFinishesBind`) | a crash between that checkpoint and its history file: the retry conflicts and the file stays missing (`BindReadback.TornBindExists`) |
| the escalation loop ends | a call takes no more turns than its providers, its budgets and its idle turns allow, where a turn idles whose receipt names no new provider of the policy and claims neither a call nor an attempt; so any number of turns exactly when any number of idle ones (`CoordinatorLoops.TurnsAreBounded`, `CoordinatorLoops.EndlessIffIdle`) | receipts naming another provider and claiming no calls (`CoordinatorLoops.MisnamedReceiptsNeverEnd`) |
| a forbidden repository mutation blocks | the last receipt is not also complete, for completion is asked first (`CoordinatorTheorems.MutationBlocksUnlessComplete`) | a complete receipt with `commit_created` |
| the bounded-decision observer never affects a call | its failure does not get out, that is, the state can be read again after it (`CoordinatorTheorems.ObserverHasNoEffect`) | an observer that fails while reading the state fails too |

## Files

`Text` holds Python's string and list helpers. `Doubles` (binary64 and rounding), `JsNumbers`, `JsNumberValues`,
`ReprExists` and `NumberEquality` are the numbers; `CanonicalJson`, `AsciiText` and `CanonicalText` are the
printers and their parser, `CanonicalForm` and `ReprForm` say which text they print. `Checkpoints`,
`CheckpointFields` (what construction and the next revision make of each field), `Handoffs`, `HandoffJudgements`
(which judgement each fault gets), `Lineage`, `DurableFields`, `RecordCodec`, `PayloadReading`,
`RecordTheorems`, `HandoffCodec` and `WrittenRecords` (the written members) are the records. `StoreFiles`
(operations as functions), `StorePaths` (where the files lie), `CheckpointStore` (the class), `StoreContracts`
(what each operation leaves, told on the files), `HistoryOrder`, `StoreRuns` (one step of a run),
`StoreTheorems` (whole runs), `BindReadback`, `LineageReadback`, `StoredEdges` (what a stored handoff says) and
`Readability` (records that are written but cannot be read) are the store. `EffectSubset`, `Escalation`,
`Coordinator`, `CoordinatorRuns`, `CoordinatorTheorems`, `Judging` (what a receipt leads to), `WholeCalls`
(calls that complete, calls that stop), `Interruptions` (steps that fail), `CoordinatorLoops` and
`ExecutionAttempt` are the coordinator. `Placement`, `PlacementTheorems`, `Ranking` (the choice told on the
hosts' fields), `DecisionDetails` and `PlacementLeases` are placement. `ContextStore`, `ContextTheorems`,
`ContextScans`, `ContextContracts` (answers told on the rows), `ContextTampering` and `Utf8Text` are the context
store. `CanonicalDigests` gives digests without collisions.

## Model

| member | source | states |
|---|---|---|
| StoreTheorems.NothingIsLost | src/nexus_runtime/workflow_checkpoint.py:496-580 | from any point of any run to any later one: a revision number keeps the one content it ever had, revisions never go down, and every effect once in an attempt stays there unchanged with its key unique |
| StoreTheorems.EveryRevisionBuildsOnTheLast | src/nexus_runtime/workflow_checkpoint.py:496-580 | no update is lost: the contents an attempt has had are numbered 1 to the current revision without gaps, and each was derived from the one before |
| StoreTheorems.HistoryTellsThePast | src/nexus_runtime/workflow_checkpoint.py:536-545 | `history()` lists only what was once current, never ahead of current, misses only what a crash cut off; it is in revision order exactly when no two listed revisions are out of place, and, with nothing missing, exactly while revisions stay below 10^8 |
| StoreTheorems.LineageAlwaysReconstructs | src/nexus_runtime/workflow_checkpoint.py:588-745 | over every sequence of binds, completed or cut short, the handoff graph stays acyclic, every lineage reconstructs, and a stored handoff never changes |
| StoreTheorems.DownstreamHoldsEffects | src/nexus_runtime/workflow_checkpoint.py:699-745 | an attempt any number of completed binds downstream holds every effect its ancestor held when that bind was made |
| StoredEdges.StoredEdgeInherits | src/nexus_runtime/workflow_checkpoint.py:699-745 | a bind that stores its handoff, or finds it stored, gives the successor the predecessor's effects exactly when the successor had no checkpoint and the process lives to write one; otherwise every checkpoint stays as it was, and one that was there makes the bind a conflict |
| StoredEdges.BoundIffHandedOn | src/nexus_runtime/workflow_checkpoint.py:655-745 | over every run, the successors that inherited are exactly those that some bind found without a checkpoint |
| StoredEdges.StoredChainHoldsEffects | src/nexus_runtime/workflow_checkpoint.py:624-653 | the last attempt of a reconstructed chain whose successors were all found so holds what each predecessor in it held when it was bound |
| StoredEdges.UninheritedChainExists | src/nexus_runtime/workflow_checkpoint.py:699-745 | for any two attempts, the second begun before it is bound to the first: the reconstructed lineage of the second is that handoff, and it holds none of the first's effects |
| StorePaths.PathsApart | src/nexus_runtime/workflow_checkpoint.py:428-586 | of all checkpoints, history files and handoffs under accepted names two share a path exactly if one is the checkpoint of an attempt named "handoffs" and the other the handoff to an attempt named "current" |
| StorePaths.PathsStay | src/nexus_runtime/workflow_checkpoint.py:428-452 | under accepted names every path leads one step down at each name |
| Readability.UnreadableIffSpoiled | src/nexus_runtime/workflow_checkpoint.py:496-580 | over every run of writes and effect records from an empty store, an attempt cannot be read exactly when one of them has written there a record or an effect that does not read back |
| Readability.UnreadableForGood | src/nexus_runtime/workflow_checkpoint.py:496-580 | once an attempt cannot be read, every later write and effect record of it fails, and it can never be read again |
| Readability.PaddedEffectLosesAttempt | src/nexus_runtime/workflow_checkpoint.py:547-580 | recording an effect with a blank around its key or receipt succeeds, and the attempt cannot be read after it |
| Readability.PaddedIdLosesAnother | src/nexus_runtime/workflow_checkpoint.py:435-458 | a later revision under an attempt id with blanks around it replaces the attempt without them, which then cannot be read |
| Readability.PaddedIdsLeadHome | src/nexus_runtime/workflow_checkpoint.py:428-452 | ids lead to an attempt's directory exactly when they are the attempt's ids with blanks around them |
| Readability.WriteAgrees | src/nexus_runtime/workflow_checkpoint.py:496-528 | after a write the store of the runs and the code hold the same files exactly when the record reads back or the code refused it, and then they answer alike |
| Readability.RecordAgrees | src/nexus_runtime/workflow_checkpoint.py:547-580 | the same of recording an effect |
| StoreTheorems.BindRecordsPredecessor | src/nexus_runtime/workflow_checkpoint.py:699-745 | what a new bind hands on is exactly what the predecessor holds at that moment |
| StoreRuns.StepKeeps | src/nexus_runtime/workflow_checkpoint.py:496-745 | the store's whole invariant survives every client step, effect record and bind, wherever it is cut off |
| HistoryOrder.FileNameOrder | src/nexus_runtime/workflow_checkpoint.py:457-458 | of any two revisions, one file name comes before the other exactly when the digits both have are fewer, or the same with the name shorter |
| HistoryOrder.SameWidthInOrder | src/nexus_runtime/workflow_checkpoint.py:457-458 | revisions of as many digits (all below 10^8) are listed in order |
| HistoryOrder.LongerRevision | src/nexus_runtime/workflow_checkpoint.py:457-458 | a longer revision is listed after a shorter one exactly when its leading digits are no fewer: 100000000 after 10000000, but before 10000001 |
| HistoryOrder.FileNameInjective | src/nexus_runtime/workflow_checkpoint.py:457-458 | no two revisions share a history file |
| CheckpointStore.WorkflowCheckpointStore.ReplaceFiles | src/nexus_runtime/workflow_checkpoint.py:515-528 | the current file, then the history file, with a crash possible before either |
| CheckpointStore.WorkflowCheckpointStore.Write | src/nexus_runtime/workflow_checkpoint.py:496-528 | compare-and-set on the expected revision, or a strictly newer revision, else a conflict that leaves every file alone |
| CheckpointStore.WorkflowCheckpointStore.History | src/nexus_runtime/workflow_checkpoint.py:536-545 | the history files in the order of their names |
| CheckpointStore.WorkflowCheckpointStore.RecordEffect | src/nexus_runtime/workflow_checkpoint.py:547-580 | a stale revision conflicts before the key is looked at, a known key changes nothing, a new one is added as the next revision |
| CheckpointStore.WorkflowCheckpointStore.WriteHandoff | src/nexus_runtime/workflow_checkpoint.py:588-603 | write once: the same record again is a success, another under the same successor a conflict |
| CheckpointStore.WorkflowCheckpointStore.BindSuccessorCheckpoint | src/nexus_runtime/workflow_checkpoint.py:655-745 | all checks before any write, the handoff before the successor's first revision, with crash points between |
| StoreContracts.WriteDoes | src/nexus_runtime/workflow_checkpoint.py:496-528 | what a write of a record that reads back leaves, told on the files: whether it is a conflict or accepted; an accepted record stands in its attempt's current file and under its revision's name in the history, as far as the process got, and every other file is as before |
| StoreContracts.RecordEffectDoes | src/nexus_runtime/workflow_checkpoint.py:547-580 | the same of recording an effect, with what the next revision is, field by field |
| StoreContracts.BindDoes | src/nexus_runtime/workflow_checkpoint.py:655-745 | every field of the checkpoint a successful bind leaves at the successor's place, current and as 00000001.json: evidence, gate and operation from the handoff, identity, status and phase from the request, effects from the predecessor, the one retry entry, and nothing external, leased, pending or blocked; and the handoff under its successor, all else as before |
| StoreContracts.BindSucceedsIff | src/nexus_runtime/workflow_checkpoint.py:655-745 | a bind succeeds exactly when its handoff may be stored, its predecessor is there, the lineage reconstructs without the successor, the handoff is safe, what it declares of effects is exactly the predecessor's, the successor can be constructed, no other handoff or checkpoint is in the way |
| BindReadback.ReadbackAfterBind | src/nexus_runtime/workflow_checkpoint.py:783-917 | right after a bind the successor's readback is SAFE exactly when it was bound as RUNNING |
| BindReadback.ReadbackAfterCrash | src/nexus_runtime/workflow_checkpoint.py:783-917 | after a crash between handoff and successor the readback says RECONCILE, for the missing checkpoint |
| BindReadback.RetryFinishesBind | src/nexus_runtime/workflow_checkpoint.py:655-745 | retrying an interrupted bind reaches the uninterrupted outcome unless the crash came after the successor's checkpoint; then the retry conflicts and changes nothing |
| BindReadback.TornBindExists | src/nexus_runtime/workflow_checkpoint.py:699-745 | for any two attempts there is a bind that succeeds, that can be torn at its history file, and that cannot be retried then |
| BindReadback.SafeReadbackMeansUnchanged | src/nexus_runtime/workflow_checkpoint.py:783-917 | a SAFE readback at any later time means the predecessor is still, field for field, the one bound from, and all its effects are in the successor |
| LineageReadback.SuccessorJudged | src/nexus_runtime/workflow_checkpoint.py:783-917 | a bound successor gets RECONCILE with the first of its seven faults in the order asked, or else its own disposition with the source's prefix |
| LineageReadback.ReadbackIs | src/nexus_runtime/workflow_checkpoint.py:783-917 | a readback fails where the lineage does, says nothing without a handoff or an identity, passes on an unsafe handoff's judgement, and otherwise judges the successor |
| Lineage.ReconstructLineageChain | src/nexus_runtime/workflow_checkpoint.py:624-653 | the predecessor walk ends on every finite graph, cyclic or not, with the chain or the first fault it meets |
| Lineage.ReconstructionExact | src/nexus_runtime/workflow_checkpoint.py:624-653 | a returned chain is the lineage: oldest first, consecutive edges link, no attempt twice, ending at the asked attempt; and every lineage is returned |
| Lineage.ReconstructionSucceedsIff | src/nexus_runtime/workflow_checkpoint.py:624-653 | reconstruction succeeds exactly when the walk repeats no attempt and its records are well formed; a reported cycle is one |
| Lineage.FailureIs | src/nexus_runtime/workflow_checkpoint.py:624-653 | it fails with a given error exactly when the walk, after a number of clear steps, meets what that error names: an attempt it has passed, a record of another task, of another successor, or of an attempt succeeding itself, asked in this order |
| Lineage.ForestGrows | src/nexus_runtime/workflow_checkpoint.py:670-690 | adding an edge to a successor that is not an ancestor of its predecessor keeps the graph acyclic |
| Lineage.AcyclicNeverRepeats | src/nexus_runtime/workflow_checkpoint.py:624-653 | on an acyclic graph no predecessor walk repeats an attempt |
| Checkpoints.ConstructIsValid | src/nexus_runtime/workflow_checkpoint.py:168-201 | what the constructor accepts is normalized (effects in key order, lists without repeats), and a normalized record constructs to itself |
| CheckpointFields.ConstructAccepts | src/nexus_runtime/workflow_checkpoint.py:168-201 | the constructor accepts exactly the arguments without a blank text, a revision below 1, an unknown status, a repeated or blank effect, or steps pending in a terminal status |
| CheckpointFields.ConstructMakes | src/nexus_runtime/workflow_checkpoint.py:168-201 | each field as given, but lists once each in the order of their first occurrences and effects in key order |
| Checkpoints.AdvancedIsNext | src/nexus_runtime/workflow_checkpoint.py:279-317 | `advanced` is the next revision, keeps identity and effects, and forgets no evidence, retry or external operation |
| CheckpointFields.AdvancedFields | src/nexus_runtime/workflow_checkpoint.py:279-317 | whenever `advanced` succeeds, every field: status, phase, gate, pending steps and reason as given or else as before, external ids overridden by the given ones, evidence the old and then the new without repeats, the trimmed retry entry last if it is new, all else kept |
| CheckpointFields.AdvancedRefuses | src/nexus_runtime/workflow_checkpoint.py:279-317 | it refuses exactly for a blank retry entry, a blank among the new evidence or steps, an unknown status, or steps left pending in a terminal status |
| Checkpoints.WithEffectIsNext | src/nexus_runtime/workflow_checkpoint.py:319-341 | `with_effect` never refuses a valid effect, is a no-op on a known key, and otherwise adds exactly that effect |
| CheckpointFields.WithEffectFields | src/nexus_runtime/workflow_checkpoint.py:319-341 | every field of the revision with the effect |
| RecordTheorems.ReadBackEqualOrRefused | src/nexus_runtime/workflow_checkpoint.py:209-277 | `from_dict(to_dict(c))` is `c` exactly when its texts are trimmed and its ceiling is the contract's, and is refused otherwise, never another record |
| RecordTheorems.TamperedIsRefused | src/nexus_runtime/workflow_checkpoint.py:233-273 | a payload carrying the hash of `x` is read as `x` or refused, and as `x` exactly when, member by member, it says what `x` says: named texts up to blanks, lists up to repeats or as an object's keys or a text's characters, operations as an object or as pairs, effects in any order, other texts as anything `str` spells so |
| RecordTheorems.OneMemberChanged | src/nexus_runtime/workflow_checkpoint.py:233-273 | with any one member of a written record replaced by any value under the kept hash, the payload is read as the record exactly when that member still says the same, and refused otherwise |
| RecordTheorems.ObjectForListIsRead | src/nexus_runtime/workflow_checkpoint.py:262-266 | an object in place of a list is read exactly when its keys are the list's texts in order |
| RecordTheorems.PairsForObjectAreRead | src/nexus_runtime/workflow_checkpoint.py:180-184 | for the object of one external operation a list of one pair is read, and even a text of two characters in a list |
| RecordTheorems.ListForTextIsRead | src/nexus_runtime/workflow_checkpoint.py:259 | a list in place of the phase is read exactly when the phase is the text `str` makes of it |
| PayloadReading.TellsIff | src/nexus_runtime/workflow_checkpoint.py:180-184 | pairs are read as a dictionary of texts exactly when it has, of keys Python takes for equal, the first one's text with the last one's value, and of keys spelled alike the last |
| RecordTheorems.DecodeIffDescribes | src/nexus_runtime/workflow_checkpoint.py:233-273 | whatever its hash, a payload is decoded as `x` exactly when `x` is a record that reads back and the payload describes it in that sense |
| PayloadReading.StripIffPadded | src/nexus_runtime/workflow_checkpoint.py:65-68 | a text is read as `s` exactly when it is `s` with blanks around it |
| PayloadReading.ShowsIff | src/nexus_runtime/workflow_checkpoint.py:191-197 | a list of effects is read as given effects in key order exactly when it shows each of them once, in any order |
| RecordTheorems.PlainChangeIsRefused | src/nexus_runtime/workflow_checkpoint.py:233-273 | under a kept hash, any other status, phase, gate, reason or ceiling text, and any other revision value, is refused |
| RecordTheorems.PaddingIsAccepted | src/nexus_runtime/workflow_checkpoint.py:65-68 | yet a blank before `task_id` is accepted, as the record without it |
| RecordTheorems.HashNamesRecord | src/nexus_runtime/workflow_checkpoint.py:209-231 | two checkpoints have one hash only if they are the same checkpoint |
| WrittenRecords.RecordWritten | src/nexus_runtime/workflow_checkpoint.py:209-230 | a checkpoint is written as an object of eighteen members by name, each with its value, and no others; the last is the digest of the canonical text of the object of the other seventeen |
| RecordTheorems.DecodedReadsBack | src/nexus_runtime/workflow_checkpoint.py:233-273 | whatever a reader accepts is a valid record in trimmed form |
| DurableFields.NamedName | src/nexus_runtime/workflow_checkpoint.py:209-231 | no two members of the durable objects share a name |
| HandoffCodec.HandoffReadBackEqualOrRefused | src/nexus_runtime/handoff_lineage.py:165-237 | a written handoff comes back equal exactly when its texts are trimmed and it names a disposition, and is refused otherwise |
| HandoffCodec.TamperedHandoffIsRefused | src/nexus_runtime/handoff_lineage.py:193-237 | a payload carrying the hash of a handoff is read as that handoff or refused, and as it exactly when, member by member, it says what the handoff says, up to blanks around named texts, repeats in lists, objects and texts read as lists, values that `str` spells so, and empty or default members |
| HandoffCodec.DecodeIffDescribes | src/nexus_runtime/handoff_lineage.py:193-237 | whatever its hash, a payload is decoded as a handoff exactly when that handoff reads back and the payload describes it in that sense |
| HandoffCodec.LineageHashNamesRecord | src/nexus_runtime/handoff_lineage.py:165-191 | two handoffs have one lineage hash only if they are the same handoff |
| WrittenRecords.HandoffWritten | src/nexus_runtime/handoff_lineage.py:165-190 | the same of a handoff and its twenty-two members |
| HandoffJudgements.HandoffAccepted | src/nexus_runtime/handoff_lineage.py:116-163 | the constructor accepts a handoff exactly when no identifying text is blank, its two attempts differ, its revision is positive, its lists hold no blanks, its binding names no other successor and its transition is a known one |
| HandoffJudgements.FenceIs | src/nexus_runtime/handoff_lineage.py:60-87 | a fence reference is canonical exactly when, trimmed, it is one of the listed prefixes and something more |
| Handoffs.SafeMeans | src/nexus_runtime/handoff_lineage.py:244-459 | a handoff is SAFE to resume exactly under the whole list of identity, fence, hash, revision and state conditions |
| Handoffs.SafePinsPredecessor | src/nexus_runtime/handoff_lineage.py:244-459 | two predecessors that both let one handoff resume are the same checkpoint |
| HandoffJudgements.HandoffJudged | src/nexus_runtime/handoff_lineage.py:244-459 | a handoff is judged by the first fault it has in the order asked, with that fault's reason, and is SAFE without one |
| HandoffJudgements.ResumeIs | src/nexus_runtime/workflow_checkpoint.py:344-424 | which disposition and reason each status, blocked reason and identity gives |
| CanonicalText.DumpsInjective | src/nexus_runtime/workflow_checkpoint.py:71-84 | two JSON documents, non-finite numbers among them or not, have one canonical `json.dumps` text, its characters past U+007E escaped, exactly when they are the same document |
| AsciiText.AsciiKeepsDocuments | src/nexus_runtime/workflow_checkpoint.py:71-77 | the `\u` escapes of `ensure_ascii`, with surrogate pairs, never make two documents one |
| ReprForm.DumpsPrintable | src/nexus_runtime/workflow_checkpoint.py:71-77 | a canonical text is printable ASCII throughout |
| CanonicalForm.AsciiPrintable | src/nexus_runtime/workflow_checkpoint.py:71-77 | escaping changes no text that is printable ASCII already, and makes any other printable ASCII |
| ReprForm.ReprHasForm | src/nexus_runtime/workflow_checkpoint.py:71-77 | `repr` of a float has a point exactly where its decimal is at least 0.0001 and below 10^16, with no needless zero on either side, and else one digit before the point and a signed exponent of two digits or more |
| ReprForm.FalsyValues | src/nexus_runtime/workflow_checkpoint.py:233-273 | eight JSON values count as false |
| CanonicalJson.ParseUndoesStringify | src/nexus_runtime/placement.py:334-358 | parsing a printed document returns it, up to the spelling of its numbers |
| CanonicalJson.ParseCharsUndoesEscape | src/nexus_runtime/placement.py:347-348 | reading a string literal undoes the escapes of section 7 of RFC 8259 |
| CanonicalForm.PrintedShortest | src/nexus_runtime/placement.py:347-348 | of all spellings of a text that read back as it the printed one is the shortest, and the only one so short |
| CanonicalForm.PrintedInOrder | src/nexus_runtime/placement.py:334-358 | an object is printed as its members in the order of their names, a list as its items in order, with nothing but commas between |
| JsNumberValues.SnapshotRoundTrip | src/nexus_runtime/placement.py:334-358 | the parser consumes the whole printed text and returns the document with each number as the decimal it prints as |
| JsNumberValues.SnapshotTextIdentity | src/nexus_runtime/placement.py:334-362 | two snapshots have one text exactly when they agree up to key order and on the decimals their numbers print as, no integer from 10^21 on standing for a float |
| NumberEquality.SnapshotTextIsEquality | src/nexus_runtime/placement.py:334-362 | two snapshots none of whose floats clashes with an integer (all those up to 2^53, for instance) have one text exactly when they are equal up to key order and Python's `==` |
| JsNumberValues.SameText | src/nexus_runtime/placement.py:288-331 | two numbers have one text exactly when they print the same decimal and are not an integer at or beyond 10^21 against a float |
| NumberEquality.TextIsEqualityUnlessClash | src/nexus_runtime/placement.py:288-331 | one text and Python's `==` agree on two numbers exactly when they do not clash: an integer and a float clash when the integer is only one of what the float is and what it prints, or is both from 10^21 on |
| NumberEquality.LargeFloatDiffers | src/nexus_runtime/placement.py:299-310 | of the float 2^60 the equal integer has another text, and the integer of the same text is another number |
| NumberEquality.SmallFloatsNeverClash | src/nexus_runtime/placement.py:288-331 | no float up to 2^53 clashes with any integer |
| NumberEquality.LargeIntegerDiffers | src/nexus_runtime/placement.py:299-310 | 10^22 as an integer and as a float are one number with two texts |
| JsNumberValues.TextDenotesDecimal | src/nexus_runtime/placement.py:288-331 | the text of every finite number denotes exactly the decimal `repr` gives it, an integer's its value, with an exponent exactly outside the doubles from 1e-6 to below 1e21 |
| JsNumberValues.TextReadsBack | src/nexus_runtime/placement.py:288-331 | the number a float's text denotes rounds to that very double and to no other |
| ReprExists.EveryDoubleIsOneFloat | src/nexus_runtime/placement.py:288-331 | every finite double of either sign has one `repr`, and only one: a shortest decimal, a closest one of those, and at a tie exactly one that ends even |
| JsNumbers.JavascriptNumberIsEcma | src/nexus_runtime/placement.py:288-331 | for every finite float, rewriting Python's `repr` gives Number::toString of section 6.1.6.1.20 of ECMA-262 |
| Placement.HardConstraintFailures | src/nexus_runtime/placement.py:915-938 | the loop lists the failed constraints in the fixed order, capabilities sorted |
| Placement.EligibleIffNoFailure | src/nexus_runtime/placement.py:915-938 | the list is empty exactly for a host that meets every hard constraint |
| Ranking.FailuresAre | src/nexus_runtime/placement.py:915-938 | the list holds exactly what the host's fields fail of the requirements, each once, connectivity before platform, architecture, memory and the capabilities by name |
| Placement.PreferenceScore | src/nexus_runtime/placement.py:893-913 | the loop computes, criterion by criterion, preferred position, memory or negated load |
| Placement.BestOfIsBest | src/nexus_runtime/placement.py:596-600 | `max` over hosts in id order picks a host no other scores above, the smallest id among equals |
| PlacementTheorems.ChosenIsBest | src/nexus_runtime/placement.py:539-656 | a decision names an eligible host of the inventory, by its own snapshot, that outranks every other eligible host lexicographically, smaller id on ties |
| Ranking.ChosenLeads | src/nexus_runtime/placement.py:539-656 | told on the hosts' own fields: of the chosen and any other eligible host, the first criterion by which their memory, load or place in the preferred list differ decides for the chosen one, and without such a criterion its id is the smaller |
| Ranking.ChosenByOne | src/nexus_runtime/placement.py:893-913 | asked for lower load alone no eligible host has a smaller load than the chosen, asked for memory none has more available, asked for an order none is named earlier, and a named one comes before the unnamed |
| PlacementTheorems.OrderIndependent | src/nexus_runtime/placement.py:539-656 | the whole outcome, decision with details and id or refusal with its details, is the same for every order of the inventory |
| PlacementTheorems.IneligibleHostChangesNothing | src/nexus_runtime/placement.py:552-600 | adding a host that fails a constraint changes neither whether there is a choice nor the choice |
| PlacementTheorems.DecisionExplains | src/nexus_runtime/placement.py:571-635 | a decision's details name exactly the ineligible hosts, each with all it failed, and, where there was a ranking, exactly the eligible ones, each with its score; and the reason code tells sole, sole after filter, ranked and tie-broken choices apart |
| DecisionDetails.DecisionReads | src/nexus_runtime/placement.py:571-656 | the decision's own fields, and its details from first to last: the size of the inventory, the number eligible, each rejected host by id with all it failed, the criteria, each eligible host by id with its score, and the selection, in each of the three layouts |
| PlacementTheorems.RefusalExplains | src/nexus_runtime/placement.py:544-569 | placement is refused exactly for an empty inventory, a repeated host id, or hosts that all fail, and the refusal lists every failure |
| PlacementLeases.CurrentExactlyWhileFresh | src/nexus_runtime/placement.py:658-800 | an issued lease revalidates exactly while no outcome is unknown, its millisecond deadline lies ahead, its timestamp had an offset, and the inventory shows the same eligible snapshot once |
| PlacementLeases.DeadlineAfter | src/nexus_runtime/placement.py:664-667 | the deadline is on a whole millisecond, after the observation, and within a millisecond below the time to live |
| PlacementLeases.NaiveLeaseNeverHolds | src/nexus_runtime/placement.py:881-890 | a lease issued on a timestamp without an offset is refused whenever it is presented |
| PlacementLeases.UnknownOutcomeReconciles | src/nexus_runtime/placement.py:716-726 | an unknown earlier outcome can only lead to reconciliation |
| PlacementLeases.JudgedIsIssued | src/nexus_runtime/placement.py:822-880 | under the id of an issued lease nothing but that lease, its decision and its request's identity and requirements is ever judged |
| PlacementLeases.LeaseFaultIs | src/nexus_runtime/placement.py:822-890 | a lease is refused with the first of the twelve faults it has, in the order asked, and with none otherwise |
| PlacementLeases.VerdictIs | src/nexus_runtime/placement.py:691-800 | which error or verdict a sound lease gets: an unknown outcome before expiry, expiry before the inventory, then a missing host, its failures, a changed snapshot, and only then that it holds |
| CanonicalDigests.RecordHashesExist | src/nexus_runtime/workflow_checkpoint.py:80-84 | over a digest that never collides, neither do the hashes of checkpoints and handoffs that the store compares |
| CanonicalDigests.PlacementDigestsExist | src/nexus_runtime/placement.py:277-285 | digests that tell every decision and every lease apart exist |
| PlacementLeases.RevalidationOrderIndependent | src/nexus_runtime/placement.py:691-800 | revalidation does not depend on the order of the inventory |
| EffectSubset.SubsetIffSaysNoMore | src/nexus_runtime/execution_coordination/effect_authorization.py:123-133 | the subset test passes exactly when every fact of the selection (map, list, item, scalar at a path) is a fact of the ceiling |
| EffectSubset.SubsetIsPreorder | src/nexus_runtime/execution_coordination/effect_authorization.py:123-133 | it is reflexive and transitive, so projecting a projection never widens the ceiling |
| EffectSubset.BooleanPassesForOne | src/nexus_runtime/execution_coordination/effect_authorization.py:123-133 | `True` and `1` pass for each other as scalars, but not as list items |
| EffectSubset.ScalarsPass | src/nexus_runtime/execution_coordination/effect_authorization.py:123-133 | which scalar passes for which, kind by kind: truth values and numbers by what they count, texts and `None` only for themselves |
| Escalation.EscalatesExactlyWhen | src/nexus_runtime/execution_coordination/coordinator.py:115-158 | escalation is decided exactly for an incomplete, clean, non-deterministic last receipt while a provider is left, to the first one left |
| Escalation.DecidesOtherwise | src/nexus_runtime/execution_coordination/coordinator.py:121-158 | verification is decided exactly for a clean complete last receipt, the first provider of the order exactly before any, and a block wherever nothing is escalated or verified |
| Judging.DeterministicIffRepeats | src/nexus_runtime/execution_coordination/coordinator.py:89-112 | a failure is deterministic exactly when it did not time out, is not incomplete, and its reason is `x + m + y` with a listed marker `m` in any letter case |
| Escalation.NextReadyProvider | src/nexus_runtime/execution_coordination/coordinator.py:1487-1501 | the loop finds the first provider that is neither attempted nor unready, or shows there is none |
| Escalation.SelectInitialProvider | src/nexus_runtime/execution_coordination/coordinator.py:1468-1485 | the first ready provider of the order, the preferred one where there is no order |
| CoordinatorRuns.StepKeeps | src/nexus_runtime/execution_coordination/coordinator.py:920-1466 | budgets, envelope, preparation, accounting and observations stay in order over every step, whatever the ports answer and wherever it is cut off |
| CoordinatorTheorems.BudgetsHold | src/nexus_runtime/execution_coordination/coordinator.py:1100-1123 | over any number of calls and crashes, from any durable state, receipts are only added, and only while the calls and attempts they report, counted one by one, stay within the call budget (one in the fast lane) and the attempt ceiling; and no worker is called once either is used up |
| CoordinatorTheorems.AuthorityGatesEffects | src/nexus_runtime/execution_coordination/coordinator.py:709-861 | where authority is required or an authorization is stored, every lease, preparation, worker and custom runner finds the requested authorization stored under its hash, and each worker carries a stored projection of its own within it |
| CoordinatorTheorems.AuthorityNeverChanges | src/nexus_runtime/execution_coordination/coordinator.py:762-794 | a stored authorization, its hash and every stored projection never change |
| CoordinatorTheorems.RestartMintsNothing | src/nexus_runtime/execution_coordination/coordinator.py:940-952 | a call that does not find a fresh submission stores no authorization and no projection, and prepares no host unless submitted |
| CoordinatorTheorems.PreparedAtMostOnce | src/nexus_runtime/execution_coordination/coordinator.py:863-918 | host preparation is performed at most once, over all calls together |
| CoordinatorTheorems.EscalatesAndEndsOnlyRightly | src/nexus_runtime/execution_coordination/coordinator.py:1334-1466 | escalation follows only an incomplete, clean, non-deterministic last receipt, to an unattempted provider of the policy; a loop that was entered ends in finalization only with a complete last receipt |
| Judging.JudgementIs | src/nexus_runtime/execution_coordination/coordinator.py:1341-1432 | wherever a call judges its last durable receipt, told on the receipt's fields: finalization is next exactly for EXECUTION_COMPLETED with evidence and, in a recovered call, a prepared host; escalation exactly outside the fast lane, with a policy, for a clean incomplete receipt without a repeating failure while a ready provider is untried, and then to the first such; the call ends otherwise |
| WholeCalls.CallCompletes | src/nexus_runtime/execution_coordination/coordinator.py:920-1466 | a call whose worker completes gets from submission, a running or an escalating attempt to finalization, through exactly the events of that way |
| WholeCalls.CallStopsIff | src/nexus_runtime/execution_coordination/coordinator.py:920-1466 | phase by phase, exactly when a call stops there, told on the stored state and the ports' answers |
| WholeCalls.ResolutionReplaces | src/nexus_runtime/execution_coordination/coordinator.py:495-601 | a resolved verdict takes the place of the worker exactly when its receipt is complete and claims no call; an incomplete one keeps the model path |
| Interruptions.DiedIsCutOff | src/nexus_runtime/execution_coordination/coordinator.py:920-1466 | a step that dies after its effect has had exactly the effect of the whole step outside and on the observations, and records nothing else; the call is over, and closed where the failure handler runs |
| Interruptions.EndedDoes | src/nexus_runtime/execution_coordination/coordinator.py:920-1466 | a call that ends in any phase for another reason than a failure, a runner of its own or finalization has done nothing outside but replace a lease or ask the gate, and records nothing but observations |
| Interruptions.RaisedDoesNothing | src/nexus_runtime/execution_coordination/coordinator.py:920-1466 | a step that fails before its effect does nothing outside and leaves the state as it was, closed where the failure handler runs |
| CoordinatorTheorems.MutationBlocksUnlessComplete | src/nexus_runtime/execution_coordination/coordinator.py:1345-1432 | wherever a call judges a mutated last durable receipt it never escalates; it can go on to finalization exactly when that receipt is complete (and a recovered call's host prepared), and otherwise ends |
| CoordinatorTheorems.LedgerBalances | src/nexus_runtime/execution_coordination/coordinator.py:603-664 | from any ledger the log is only added to and the totals by its columns; required is invoked, under way or cut off; required and avoided are the gate evaluations but those under way or cut off; the gated worker calls are the invoked ones |
| CoordinatorTheorems.RaisingWorkerLeavesRequiredAhead | src/nexus_runtime/execution_coordination/coordinator.py:1271-1302 | a worker that raises leaves required one ahead of invoked, and the ledger as it was |
| CoordinatorTheorems.ObserverHasNoEffect | src/nexus_runtime/execution_coordination/coordinator.py:1224-1263 | with ports that do not read the observation fields, runs with and without the observer agree step by step in state, events and result but for those fields exactly as long as no failure of the observer gets out, and none does unless the state cannot be read again |
| CoordinatorTheorems.StepIgnoresWatch | src/nexus_runtime/execution_coordination/coordinator.py:1224-1263 | one step is the same with and without the observer exactly when the observer does not fail with the state unreadable after it |
| CoordinatorTheorems.ObservationsCounted | src/nexus_runtime/execution_coordination/coordinator.py:460-493 | from any totals, observations are only added, each new id once; the evaluated total grows by their number and each disposition's total by those of that disposition |
| CoordinatorLoops.TurnsAreBounded | src/nexus_runtime/execution_coordination/coordinator.py:1078-1456 | any call takes at most a turn for each provider of the policy, each call and attempt of the budgets, each idle turn, and one; no more turns idle than are taken; and its steps are bounded by its turns |
| CoordinatorLoops.EndlessIffIdle | src/nexus_runtime/execution_coordination/coordinator.py:1078-1456 | a call can take any number of turns exactly when it can idle any number of times |
| CoordinatorLoops.HonestCallEnds | src/nexus_runtime/execution_coordination/coordinator.py:1078-1456 | if receipts name their provider, one call gives each provider at most one turn and ends within a bound in the number of providers, even when receipts claim no calls |
| CoordinatorLoops.MisnamedReceiptsNeverEnd | src/nexus_runtime/execution_coordination/coordinator.py:1495-1500 | with receipts that name another provider and claim no calls, one call can go on for any number of turns, under a budget of one call and one attempt |
| ExecutionAttempt.BaseExecutionCoordinator.ExecuteAttempt | src/nexus_runtime/execution_coordination/coordinator.py:920-1466 | a call makes exactly the machine's moves, one durable write at a time, until it comes to rest or is cut off |
| ExecutionAttempt.BaseExecutionCoordinator.EnsureEffectAuthorization | src/nexus_runtime/execution_coordination/coordinator.py:709-795 | accepts only a requested, verified authorization that is the stored one by its hash and that hash, or stores it with its hash where none is stored and creating is allowed |
| ExecutionAttempt.BaseExecutionCoordinator.EnterAttempt | src/nexus_runtime/execution_coordination/coordinator.py:986-1071 | by the durable status: a first lease for the first ready provider, the recorded escalation carried on, a lost worker refused, a loop taken up again, or finalization |
| ExecutionAttempt.BaseExecutionCoordinator.EnsureToolProjection | src/nexus_runtime/execution_coordination/coordinator.py:797-861 | carries the requested projection only within the authorization and equal to a stored one, and stores it only where none is stored and creating is allowed |
| ExecutionAttempt.BaseExecutionCoordinator.EnsureHostPrepared | src/nexus_runtime/execution_coordination/coordinator.py:863-918 | prepares only where nothing is prepared and creating is allowed, and otherwise changes nothing |
| ExecutionAttempt.BaseExecutionCoordinator.RecordModelCallOutcome | src/nexus_runtime/execution_coordination/coordinator.py:603-664 | appends the entry, adds it to the totals and sets the honesty flag, nothing else |
| ExecutionAttempt.BaseExecutionCoordinator.RecordBoundedDecisionObservation | src/nexus_runtime/execution_coordination/coordinator.py:366-493 | an observation id already seen changes nothing; a new one is appended and counted once |
| ExecutionAttempt.BaseExecutionCoordinator.ConsumeModelCallVerdict | src/nexus_runtime/execution_coordination/coordinator.py:495-601 | a resolved verdict replaces the worker only by a complete receipt that claims no call; every other verdict is recorded as requiring one |
| ExecutionAttempt.BaseExecutionCoordinator.CheckBudget | src/nexus_runtime/execution_coordination/coordinator.py:1100-1216 | nothing is prepared and no pass goes on once the calls or the attempts are used up |
| ExecutionAttempt.BaseExecutionCoordinator.StoreReceipt | src/nexus_runtime/execution_coordination/coordinator.py:1303-1340 | a receipt beyond what is left of either budget is never made durable; one within it is appended as the last execution |
| ExecutionAttempt.BaseExecutionCoordinator.JudgeReceipt | src/nexus_runtime/execution_coordination/coordinator.py:1346-1432 | completion first, then the fast lane, then the policy and the next ready provider, recorded before any new lease |
| ExecutionAttempt.CalledIsRun | src/nexus_runtime/execution_coordination/coordinator.py:920-1466 | what a call does to the durable state is a run of the machine, so the results about runs hold of it |
| ContextStore.Store.Ingest | src/nexus_runtime/context_store/store.py:68-135 | refusal (of payloads that are not UTF-8, too), replay, conflict, quota and insertion, in that order, and nothing stored but one new row |
| ContextStore.Store.Search | src/nexus_runtime/context_store/service.py:70-84 | one page of validated hits in id order, with a cursor exactly when more are left |
| ContextStore.Store.ReadItem | src/nexus_runtime/context_store/service.py:86-106 | one byte range of a validated, unexpired row of the scope, at most 64 KiB, with its freshness |
| ContextContracts.SearchIs | src/nexus_runtime/context_store/store.py:174-188 | which items a page holds: those of the asked scope whose payload is `a + query + b`, created no earlier than the time to live allows, with ids after the cursor, the smallest first, as many as asked; with a cursor exactly when more are left; and which request is refused |
| ContextContracts.ReadIs | src/nexus_runtime/context_store/service.py:86-106 | which range a read answers with and which error comes first; freshness is current exactly for the item's own revision, unknown without one, and stale otherwise |
| ContextContracts.IngestIs | src/nexus_runtime/context_store/store.py:68-135 | the whole answer of an ingest and the items after it, told on the request and the rows |
| Utf8Text.Utf8IffText | src/nexus_runtime/context_store/store.py:75-76 | a payload is accepted as UTF-8 exactly when it is the encoding of a text of scalar values by section 3 of RFC 3629 |
| Utf8Text.EncodingTells | src/nexus_runtime/context_store/store.py:75-76 | of one such text only |
| ContextTheorems.KeyedAndBounded | src/nexus_runtime/context_store/store.py:94-110 | over every sequence of ingests a scope holds at most one item per key and never more than its quota |
| ContextTheorems.ReplayReturnsOriginal | src/nexus_runtime/context_store/store.py:94-107 | an accepted request, sent again at any later time, is answered with the original id and stores nothing; another request under its key is refused |
| ContextTheorems.RecordDigestNamesRow | src/nexus_runtime/context_store/store.py:194-229 | two rows that pass validation under one record digest are the same row |
| ContextTampering.ValidIffStored | src/nexus_runtime/context_store/store.py:194-229 | a row passes validation exactly when it is, column by column, what ingesting its request at its time under its id stores |
| ContextTampering.TamperedIsNotRead | src/nexus_runtime/context_store/service.py:86-106 | a row changed in any column under its kept record digest is never read: the read is refused for its range, its scope, or its integrity |
| ContextTampering.TamperedIsNotFound | src/nexus_runtime/context_store/service.py:70-84 | no page shows such a row |
| ContextTampering.TamperedIsNotReplayed | src/nexus_runtime/context_store/store.py:94-107 | and no request is answered with it |
| CanonicalDigests.ContextDigestsExist | src/nexus_runtime/context_store/models.py:11-16 | digests that tell every scope, payload, request and record apart exist |
| ContextTheorems.ReadReturnsIngested | src/nexus_runtime/context_store/service.py:86-106 | what was accepted is read back ever after, exactly on the ranges that may be asked for and byte for byte, until it expires |
| ContextScans.ScanIsExact | src/nexus_runtime/context_store/service.py:70-84 | following the cursors while ingests go on, ids strictly increase, only matching items are returned, and a finished scan has returned every matching item present from the start and fresh at every page |
| ContextContracts.ScanFinds | src/nexus_runtime/context_store/service.py:70-84 | the same with the condition spelled out: the items of the scope whose payload contains the query, created no earlier than the time to live allows at every page |
| ContextScans.ScanEnds | src/nexus_runtime/context_store/store.py:174-188 | once ingests stop, the scan is over within one page more than there are items |

## Left out

- CoordinatorTheorems.PreparedAtMostOnce: speaks of one submission; an attempt submitted again from outside is not modelled.
- Files, locks, fsync, symbolic links, temporary files and sqlite: each operation is a sequence of atomic steps with crash points between them.
- Interleaved binds: the ancestry check runs outside the lock, so binds are atomic with respect to each other here.
- The store of the runs refuses an attempt named "handoffs", whose directory would hold the handoff files (`StorePaths.PathsApart` has what would collide there).
- The runs of `StoreRuns` refuse an untrimmed record or handoff, which the code writes; `Readability` has what becomes of the records, without history files and crash points. An untrimmed handoff makes the lineages through it fail at every later read.
- In a successor binding `str` of a list or an object is a function of its content (`Hashes.shown`), though Python's depends on the order of keys, too.
- Lone surrogates in texts, and integers beyond Python's limit of 4300 digits, are not modelled.
- Rounding in `time.time() - ttl` and the float spelling of a time in a digested row: times are whole microseconds.
- Constructor arguments of the wrong Python type (the source refuses them) are ruled out by the model's types.
- Field normalization of effect trees (key trimming, tool lists), expiry parsing and the identity checks of an effect authorization: that the authority accepts is a choice of the environment, and the effects are already normalized.
- The host snapshot parser (regular expressions, nested shape checks) is not part of this model: hosts are validated snapshots. Timestamps beyond the last representable year are not modelled.
- The stored copies of receipts, authorizations, projections and preparation evidence are assumed to read back as stored.
- The digests of placement requirements and preferences stand for the values themselves, and the details of a decision are structured values instead of formatted text.
- Contract and request are the same in every call for an attempt; wall-clock deadlines, dispatch and task-card checks, prompts and models are among the reasons a step may raise.
- The inside of the resolver, of the bounded-decision classifier and of finalization; what a custom runner writes; resubmission of a closed attempt.
- `list_handoffs`, `readback` without a handoff, context checkpoints and resume, and access policy: they add only easy members.
- `kernel/`, `memory/`, `context_hub/`, `planning/`, `support/`, `task_context/`, `task_retry/` and the wiring around them.
