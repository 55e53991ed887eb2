# Memory Pressure: a verified model

Memory Pressure watches memory domains (host memory, accelerators, files, commit charge) through providers,
classifies how constrained each one is, debounces the classification, publishes immutable snapshots with a
generation stamp, and tells subscribers about changes. Snapshots and traces travel as strict JSON.

This project models its core in Dafny and proves what it is for:

- **JSON** (`Utf8`, `Numbers`, `JsonValue`, `JsonGrammar`, `JsonDescent`, `JsonLexing`, `JsonParsing`, `JsonPrinting`,
  `JsonParser`, `JsonWriter`). The grammar of sections 2 to 7 of RFC 8259 is a type of derivation trees. The parser, a
  class with the cursor, depth and failure flag of the original, computes exactly the value of the derivation of its
  text, if there is one within the limits; the printer's text parses back to the value printed.
- **Classifier and debounce** (`Policy`, `Classifier`, `Hysteresis`, `HysteresisRuns`, `FlapBound`). The machine refines
  a specification over the history of raw levels; whole runs are monotone, converge, and reverse direction only at a
  price in utilization.
- **Trend** (`Trend`, `TrendFacts`, `TrendBound`). The sliding window is a filter of the full history; the least-squares
  loop obeys Cauchy-Schwarz, never reports growth as falling, is exact on lines, and gives no rate steeper than the
  committed values allow.
- **Refresh** (`Domain`, `Budgets`, `Score`, `Events`, `Refresh`, `RefreshFacts`, `Lifecycle`, `EventSourcing`,
  `Generations`, `Aggregation`, `ReportOrder`, `OrderIndependence`, `Runs`, `RunFacts`, `RuntimeObject`, `Sessions`). A
  refresh is a function of the state and of what the providers report; the class `PressureRuntime` updates its fields
  phase by phase and is proved to compute that function; a run is any interleaving of refreshes and configuration
  changes, starting from a fresh runtime, and a session is a run with its subscribers.
- **Documents** (`Keys`, `EnumText`, `Hex`, `Documents`, `SnapshotDocuments`, `TraceDocuments`, `LargeNumbers`,
  `DocumentMethods`, `EndToEnd`, `StoredSnapshots`, `TraceReplay`, `ReplayRuns`). Objects survive the way to JSON, to
  text and back exactly under stated bounds, what becomes of larger numbers is said for each reader, and replaying a
  recorded trace reproduces the run it came from under an exact condition.

`Options`, `Scanning` and `Ordering` are shared vocabulary. C++ doubles are real numbers; the library's conversions
between decimal text, integers and doubles are parameters with the properties that IEEE 754 and the C++ standard give
them (`Numbers.Conversion.Faithful`, shown consistent by `SmallDoubles.FaithfulExists`). A C++ `char` is a Dafny character whose
code is the byte. A provider is an arbitrary report per refresh: a status with observations, or an exception. Every
lemma carries `{:induction false}`: inductions are written out. `hide` statements only keep proofs small.

Where the code and its documentation disagree, the model follows the code:

- `docs/SERIALIZATION.md` says that values above 2^53 are rejected by the reader rather than truncated. Exactly the
  numbers up to 2^53 survive; 2^53 + 1 rounds to 2^53 and is accepted as that (`Documents.AboveTwo53MayBeMisread`), and
  larger ones are not read as numbers (`Documents.UintIsReadAs`). But only the readers that give no default refuse the
  document for it: an observation's (src/serialize.cpp:285-301), and a budget's for its hard capacity
  (src/serialize.cpp:228). All other numbers become 0 without notice (src/serialize.cpp:229-242, 368-397): a domain
  state with a capacity of 2^54 bytes is read as one with capacity 0 (`LargeNumbers.LargeCapacityIsReadAsNone`).
- A trace is said to reproduce the original pressure transitions (include/memory_pressure/trace.h:25-27). It does not
  record that a provider failed, so a replay drops the domains that the run retained for it
  (`ReplayRuns.FailureIsNotReproduced`); `ReplayRuns.ReplayContentIff` and `ReplayRuns.ReplayExactIff` say exactly which
  runs it reproduces.
- The number 2^63 passes the guard of the printer's integer branch (src/json.cpp:256-257) and overflows the cast, which
  is undefined in C++; with the x86-64 result it is printed as -2^63, so the text round trip fails for it and, within the
  limits, for no other number (`JsonPrinting.RoundTripIff`, `JsonPrinting.Two63DoesNotRoundTrip`).
- The classifier leaves Elevated at `normal_exit` and never reads `elevated_exit` (src/core.cpp:266).
- A fresh `HysteresisState` is Normal, not Unknown (include/memory_pressure/hysteresis.h:28-36).
- `peak_level` is described as the peak of the current episode; it is never reset (src/runtime.cpp:256-257).
- The note that a domain was retained is appended to its explanation and then overwritten (src/runtime.cpp:324, 365).
- The `governed` argument of `score_domain` has no effect: its branch repeats an assignment (src/core.cpp:177-181).
- Events are dispatched while `refresh_mutex_` is held, although runtime.h promises callbacks outside all locks.
- `validate_policy` checks neither the aggregate's role weights nor that `min_dwell_observations` is within
  `max_debounce_observations`; `Aggregation.AggregateBetweenScores` and `Hysteresis.OnlyEmergenciesWhenCapIsTooLow` say
  what that means.
- Reserve totals wrap around, so a budget with enormous reserves can pass validation (`Budgets.WrappedReservesPass`),
  exactly when the true total does not fit in 64 bits (`Budgets.ReservesAndUsableAreHard`).

## Model

| member | source | states |
|---|---|---|
| Utf8.EncodeDecode | src/json.cpp:13-29 | every Unicode scalar value is encoded as one sequence that is well formed by RFC 3629 and decodes back to it |
| Utf8.DecodeEncode | src/json.cpp:13-29 | every well-formed sequence is the encoding of exactly the scalar it decodes to: the encoder is a bijection |
| JsonLexing.UnicodeSound | src/json.cpp:188-213 | an accepted `\u` escape or surrogate pair is a well-formed escape of the text, ending where the parser goes on |
| JsonLexing.UnicodeComplete | src/json.cpp:188-213 | every well-formed escape in the text is accepted, so lone and reversed surrogates, and nothing else, are rejected |
| JsonLexing.EscapeBytes | src/json.cpp:188-213 | what an accepted escape appends is one well-formed UTF-8 sequence, which decodes to the scalar value the escape denotes |
| JsonLexing.PiecesSound | src/json.cpp:154-186 | an accepted string body is a run of well-formed characters and escapes within the length limit |
| JsonLexing.PiecesComplete | src/json.cpp:154-186 | every such run followed by a quote is accepted |
| JsonLexing.NumberSound | src/json.cpp:215-236 | a scanned number is a token of the RFC 8259 number grammar standing at the cursor |
| JsonLexing.NumberComplete | src/json.cpp:215-236 | every number token that is not continued by more of a number is scanned, to its end |
| JsonLexing.FromCharsReadsToken | src/json.cpp:237-244 | converting the characters of a token gives the double nearest to the number it denotes |
| JsonParsing.NodeSound | src/json.cpp:80-245 | a parsed value comes with a derivation that stands in the text and fits the limits at its depth |
| JsonParsing.NodeComplete | src/json.cpp:80-245 | every derivation that stands in the text and fits the limits is found, whatever follows it |
| JsonParsing.DocumentIffDerives | src/json.cpp:397-405 | a document is parsed to a derivation exactly when that derivation derives the whole text within the limits |
| JsonParsing.AcceptsIffDerives | src/json.cpp:397-405 | `json_parse` returns a value exactly when some derivation within the limits derives the text and denotes that value, the last of duplicate keys winning |
| JsonParsing.Unambiguous | src/json.cpp:80-246 | the grammar is unambiguous: a text has at most one derivation, limits or not |
| JsonParser.Parser.ParseUnicodeEscape | src/json.cpp:188-213 | the loops over hexadecimal digits fail on a malformed escape, and otherwise append well-formed bytes that decode to the character it denotes |
| JsonParser.Parser.ParseString | src/json.cpp:154-186 | cursor, depth and failure flag after a string, and the string: the depth test costs a string one level |
| JsonParser.Parser.ParseNumber | src/json.cpp:215-245 | the scanning loops accept exactly the number token at the cursor |
| JsonParser.Parser.ParseArray | src/json.cpp:136-152 | depth is restored on success and the items are those of the derivation |
| JsonParser.Parser.ParseObject | src/json.cpp:111-134 | depth is restored on success and later members overwrite earlier ones |
| JsonParser.Parser.ParseValue | src/json.cpp:80-93 | recursive descent terminates and agrees with the specification at every cursor, depth and failure flag |
| JsonParser.JsonParse | src/json.cpp:397-405 | the imperative parser returns what the grammar says of its text |
| JsonWriter.Writer.WriteString | src/json.cpp:266-275 | the escaping loop appends the canonical text of a string |
| JsonWriter.Writer.SerializeTo | src/json.cpp:248-303 | the output grows by exactly the canonical text of a finite value, whatever was there before |
| JsonWriter.JsonSerialize | src/json.cpp:407-413 | the imperative printer returns the canonical text, and nothing if a number is not finite |
| JsonPrinting.CanonDenotes | src/json.cpp:248-303 | the text the printer writes derives the value printed, each number as it survives printing |
| JsonPrinting.ParseSerialized | src/json.cpp:248-413 | parsing what was printed succeeds exactly when the value is within the limits, strings and keys costing one level, and then gives the value back but for 2^63 |
| JsonPrinting.RoundTripIff | src/json.cpp:248-413 | the text round trip holds exactly for values within the limits in which no number is 2^63 |
| JsonPrinting.Two63DoesNotRoundTrip | src/json.cpp:256-258 | the number whose integer cast overflows does not come back |
| JsonValue.SurvivesIff | src/json.cpp:341-356 | a value equals what survives printing exactly when no number in it is 2^63 |
| Numbers.DecimalReadsBack | src/json.cpp:258-259 | an integer is printed without leading zero and its digits read back as the integer |
| Numbers.FormatReadsBack | src/json.cpp:252-265 | the printed token of a double rounds back to the double, except for 2^63 |
| SmallDoubles.FaithfulExists | src/json.cpp:240-261 | the assumptions on the number conversions are consistent, in a witness whose doubles include halves |
| Classifier.ClassifiesIff | src/core.cpp:249-288 | under a valid policy the classification is the only level meeting an independent description: the highest level entered, or one below when the current level is left, or the current one |
| Classifier.EvaluateMonotone | src/core.cpp:249-288 | more utilization or a higher current level never gives a lower classification |
| Hysteresis.HysteresisState.Update | src/core.cpp:292-320 | an update moves the fields exactly as the machine's transition function |
| Hysteresis.RunRefinesHistory | src/core.cpp:292-320 | after any inputs the level is the one given by the history alone: a change commits when the latest run of a raw level is long enough and spans dwell time and delay, or at once in an emergency |
| Hysteresis.OnlyEmergenciesWhenCapIsTooLow | src/core.cpp:308-310 | if more confirmations are required than the counter's cap, nothing but an emergency ever changes the level |
| HysteresisRuns.StepSound | src/core.cpp:249-320 | every step keeps the machine's invariant and either keeps the level or adopts the classification |
| HysteresisRuns.RisingUtilizationNeverLowers | src/core.cpp:249-320 | from a fresh domain, utilization that never falls never lowers the level, despite debounce resets and emergencies |
| HysteresisRuns.ConstantUtilizationOneDirection | src/core.cpp:249-320 | with constant utilization the level moves in one direction only and changes at most four times |
| HysteresisRuns.ConstantUtilizationConverges | src/core.cpp:249-320 | without delays a fixed point of the classifier is reached within four times `min_dwell_observations` updates and kept |
| FlapBound.ReversalsCostVariation | src/core.cpp:249-320 | committed reversals times the narrowest enter-minus-exit band are at most the total variation of utilization |
| Trend.TrendEstimator.AddSample | src/core.cpp:207-212 | the two trimming loops leave the window the specification gives |
| Trend.TrendEstimator.Estimate | src/core.cpp:216-244 | the loops over means and moments compute the estimate of the window |
| Trend.WindowAgrees | src/core.cpp:207-212 | after any samples in time order the window is the latest `window_samples` of those in the full history at or after the cutoff |
| TrendFacts.CauchySchwarz | src/core.cpp:226-231 | the squared covariance is at most the product of the variances, in every window and around every centre |
| TrendFacts.R2InUnitInterval | src/core.cpp:239-240 | r2 is within [0, 1] before it is clamped, so the clamp changes nothing |
| TrendFacts.GrowingIsNeverFalling | src/core.cpp:232-238 | samples whose committed bytes do not fall over time never give Falling or a negative rate |
| TrendFacts.LineIsExact | src/core.cpp:216-244 | samples on a line give the line's slope, times 1000, as the rate |
| TrendFacts.SlopeIffTimesDiffer | src/core.cpp:232 | the estimate has a slope exactly when not all samples have the same time |
| TrendBound.RateBound | src/core.cpp:226-238 | times being whole milliseconds, the rate is at most 1000 times the greatest committed value of the window, in either direction |
| Score.ScoreDomain | src/core.cpp:161-199 | the accumulating loop computes the weighted mean of the seven components |
| Score.MeanWithin | src/core.cpp:192-197 | with non-negative weights of positive sum, a mean of values in a range stays in the range and the clamp changes nothing |
| Score.ScoreMonotone | src/core.cpp:183-198 | under non-negative weights a domain that is worse in no component is not scored lower |
| Budgets.SumReserves | include/memory_pressure/budget.h:89-93 | the wrapping additions give the reserve total modulo 2^64 |
| Budgets.ReservesAndUsableAreHard | include/memory_pressure/budget.h:87-100 | a valid budget splits its hard capacity exactly into usable and reserved bytes, and its reserves fit in it, if and only if their true sum fits in 64 bits |
| Budgets.WrappedReservesPass | src/core.cpp:63-65 | a reserve total that wraps around passes validation |
| Budgets.PublishedCapacity | src/runtime.cpp:236-285 | available and committed bytes make up the usable capacity; utilization is the committed share; a governed domain reports its budget's capacity and no other |
| Budgets.PublishedHistory | src/runtime.cpp:249-306 | when the current level was entered, what it was before, and the most severe rank so far |
| Budgets.PublishedObservation | src/runtime.cpp:271-306 | what is carried over from the observation and its provider, and that score, trend confidence and trend window are within their bounds |
| Events.Subscription.Push | src/core.cpp:366-382 | the new queue and counters under each overflow policy, and whether the event was accepted |
| Events.Subscription.TryPop | src/core.cpp:384-390 | the oldest event leaves the queue |
| Events.Conservation | src/core.cpp:366-416 | under any interleaving no event is lost or invented: accepted events are popped, cleared, dropped or pending, matching offers are accepted, dropped or rejected, and the queue is bounded |
| Events.QueueIsSuffix | src/core.cpp:366-416 | the queue always holds the latest accepted events in order |
| Events.SubscriberSeesIncreasingIds | src/core.cpp:366-416 | offered in increasing id order, events are seen in strictly increasing id order |
| RefreshFacts.ObservePointwise | src/runtime.cpp:224-311 | with distinct ids each observation meets the domain state from before the refresh, and states not observed are untouched |
| RefreshFacts.RetainPointwise | src/runtime.cpp:313-334 | exactly the unobserved domains of providers that are not fresh are kept, and exactly the other unobserved ones lose their state |
| Lifecycle.Partition | src/runtime.cpp:315-334 | each previously published domain is exactly one of observed, retained and removed |
| Lifecycle.ObservedFate | src/runtime.cpp:224-311 | an observed domain is published once, with its state advanced from the one before |
| Lifecycle.UnobservedFate | src/runtime.cpp:315-334 | an unobserved domain is retained with level, score and runtime state untouched, or disappears with its state |
| Lifecycle.RefreshKeepsInv | src/runtime.cpp:158-478 | a refresh keeps ids distinct and equal to the keys of the domain states, levels known, machines sound, and published levels in step with the machines |
| EventSourcing.OneRemovalEvent | src/runtime.cpp:330-333 | a refresh announces the removal of a domain exactly once if it disappeared, and otherwise not at all |
| EventSourcing.RefreshReplays | src/runtime.cpp:313-433 | each event of a refresh makes sense when it comes, and following them turns the previous ids and levels into the new ones |
| Generations.AnyIff | src/core.cpp:430-452 | a snapshot difference is empty exactly when the snapshots agree on ids, levels, hard capacities, reserve totals, aggregate, policy version and health |
| Generations.DiffMembers | src/core.cpp:430-452 | added and removed ids are the differences of the id sets, and exactly the domains of both snapshots whose levels differ are listed as changed |
| Generations.AgreeTransitive | src/core.cpp:430-452 | agreement is transitive |
| Generations.AgreeSymmetric | src/core.cpp:430-452 | agreement is symmetric |
| Generations.AgreeReflexive | src/core.cpp:430-452 | agreement is reflexive on snapshots with distinct ids |
| Generations.GenerationStepIff | src/runtime.cpp:399-407 | a refresh raises the generation by one exactly when its snapshot disagrees with the one before |
| Aggregation.CrossTierSafety | src/runtime.cpp:344-366 | a domain's responses are those of its level, except that an accelerator is asked to demote only if a host tier exists and all of it is below Critical |
| Aggregation.AggregateIsMostSevere | src/runtime.cpp:368-390 | the aggregate level is the most severe level published, and Unknown exactly when nothing is |
| Aggregation.AggregateBetweenScores | src/runtime.cpp:368-391 | with role weights non-negative and of positive sum the aggregate score lies between the least and the greatest domain score |
| Runs.ReachableInv | src/runtime.cpp:100-133 | in every reachable state, configuration changes included, ids are distinct and are the keys of the domain states, levels are known, and machines run under the current policy |
| Runs.ReachableSynced | src/runtime.cpp:100-113 | while the policy is not replaced, every published level is its machine's level |
| RunFacts.GenerationIsFaithful | src/runtime.cpp:399-407 | over a run the generation never decreases, and snapshots of equal generation agree |
| RunFacts.GenerationStep | src/runtime.cpp:399-407 | each operation of a run raises the generation by one exactly when the published snapshot comes to disagree |
| RunFacts.EventIdsAreGapFree | src/runtime.cpp:58-70 | the i-th event of a run has id i, and the event counts of the published snapshots sum to the last id |
| RunFacts.EventsTellTheState | src/runtime.cpp:313-433 | replaying the whole stream gives exactly the current domains and their severity ranks, every event being legal when it comes |
| RunFacts.EpisodesAlternate | src/runtime.cpp:409-433 | while a domain stays, its level events are whole episodes: entered and recovered alternate, escalated and relieved only between them |
| RunFacts.ReachableCrossTierSafety | src/runtime.cpp:344-366 | cross-tier safety in every reachable snapshot, retained domains included |
| RunFacts.ReachableDemotionIff | src/runtime.cpp:344-366 | in every reachable snapshot an accelerator is asked to demote exactly when it is Critical or Exhausted and a host tier exists, all of it below Critical |
| RunFacts.ReachableBudgetsOk | src/runtime.cpp:121-127 | only valid budgets are ever attached or published |
| RunFacts.ReachableAggregateIsMostSevere | src/runtime.cpp:368-390 | the aggregate level is the exact maximum in every reachable snapshot |
| RunFacts.ReachableAggregateScore | src/runtime.cpp:391 | the aggregate score after any run lies between the least and the greatest published score |
| RunFacts.HistoryIsSuffix | src/runtime.cpp:457-462 | the history holds the latest published snapshots, numbered consecutively, as many as its limits allowed |
| RunFacts.SnapshotById | src/runtime.cpp:151-155 | a lookup by id finds the snapshot that the id-th refresh published exactly while it is among the latest held |
| ReportOrder.SameHealth | src/runtime.cpp:188-218 | visiting differently named providers in another order gives the same health and flags |
| ReportOrder.SameFeed | src/runtime.cpp:184-225 | and the same observations |
| ReportOrder.FeedIsDistinct | src/runtime.cpp:224-226 | disjoint providers observe no domain twice |
| OrderIndependence.SameRefresh | src/runtime.cpp:184-407 | permuting the provider table at a refresh leaves states, aggregate, health and generation the same |
| OrderIndependence.OrderDoesNotMatter | src/runtime.cpp:184-407 | permuting it at every refresh of a run does too, and the published domains are equal up to permutation |
| RuntimeObject.DiffSnapshots | src/core.cpp:430-452 | the search loops compute the difference |
| RuntimeObject.Respond | src/runtime.cpp:344-366 | the loop over domains gives each its responses and explanation |
| RuntimeObject.Aggregate | src/runtime.cpp:368-391 | the accumulating loop computes aggregate level and score |
| RuntimeObject.PressureRuntime.ReplacePolicy | src/runtime.cpp:100-113 | a valid policy replaces the old one and restarts every debounce machine; an invalid one changes nothing |
| RuntimeObject.PressureRuntime.AttachBudget | src/runtime.cpp:121-127 | a valid budget is attached; an invalid one changes nothing |
| RuntimeObject.PressureRuntime.DetachBudget | src/runtime.cpp:129-132 | the budget is removed and nothing else |
| RuntimeObject.PressureRuntime.Subscribe | src/runtime.cpp:134-140 | a fresh empty queue of 256 events that drops the oldest |
| RuntimeObject.PressureRuntime.FindById | src/runtime.cpp:151-155 | the first snapshot of the history with the id |
| RuntimeObject.PressureRuntime.PollProviders | src/runtime.cpp:188-218 | the polling loop: health, observations, warnings, flags and numbered events |
| RuntimeObject.PressureRuntime.ObserveAll | src/runtime.cpp:224-311 | the observation loop updates the domain states in place |
| RuntimeObject.PressureRuntime.RetainAll | src/runtime.cpp:313-334 | the retention loop keeps or erases what was not observed |
| RuntimeObject.PressureRuntime.AnnounceLevels | src/runtime.cpp:409-433 | the level events, numbered in order |
| RuntimeObject.PressureRuntime.AnnounceResponses | src/runtime.cpp:435-452 | the response events, numbered in order |
| RuntimeObject.PressureRuntime.Dispatch | src/runtime.cpp:471-475 | every subscription is offered every event in order |
| RuntimeObject.PressureRuntime.Refresh | src/runtime.cpp:158-478 | the whole new state of the object is that of the refresh function, and every subscription has been offered its events |
| Sessions.ListenersFollow | src/runtime.cpp:134-140 | in any interleaving of operations, subscribing and using queues, each subscription has been offered exactly the events dispatched since it was made, in order |
| Sessions.SubscribersSeeIncreasingIds | src/runtime.cpp:471-475 | so each subscriber, whenever it subscribed and however it uses its queue, sees strictly increasing ids of events dispatched since |
| Sessions.SubscribersMissNothing | src/core.cpp:366-390 | a subscriber that only pops, and whose queue has not overflowed, sees exactly the matching events dispatched since it subscribed |
| Sessions.Drive | src/runtime.cpp:88-478 | a fresh object on which any session is performed ends in the state of its run, each queue holding and each subscriber having popped what the session says, with increasing ids |
| EnumText.StatusReadsBackIff | include/memory_pressure/types.h:287-453 | a provider's status is read back exactly when it is not Partial |
| Hex.ParseHex | include/memory_pressure/types.h:171-187 | the shifting loops read two 64-bit numbers or refuse |
| Hex.IdReadsBack | include/memory_pressure/types.h:162-187 | every 128-bit identity survives being written and read |
| Hex.FromHexIff | include/memory_pressure/types.h:171-187 | exactly the texts of 32 hexadecimal digits, of either case, are read |
| Documents.UintReadsBackIff | src/json.cpp:349-356 | an unsigned number survives exactly when it is at most 2^53 |
| Documents.UintIsReadAs | src/json.cpp:349-356 | any 64-bit number is read as itself up to 2^53, as 2^53 if it is one more, and not as a number if and only if it is greater still |
| Documents.AboveTwo53MayBeMisread | src/json.cpp:349-356 | the one number above 2^53 that is not refused but read as another |
| LargeNumbers.BudgetIsReadAs | src/serialize.cpp:225-248 | a written budget is refused exactly when its hard capacity is too large or it is invalid with its other large numbers at 0, and otherwise read as that |
| LargeNumbers.ObservationRefusedIff | src/serialize.cpp:274-309 | a written observation is refused exactly when one of the nine numbers read without a default is too large |
| LargeNumbers.StateIsReadAs | src/serialize.cpp:355-405 | a written domain state is never refused on account of a number: large ones are read as 0, and an unreadable budget as the default one |
| LargeNumbers.LargeCapacityIsReadAsNone | src/serialize.cpp:368-397 | for instance a capacity of 2^54 bytes is read as 0 |
| LargeNumbers.SnapshotRefusedIff | src/serialize.cpp:438-472 | so a written snapshot is refused exactly when two domains share an id |
| LargeNumbers.TraceRefusedIff | src/serialize.cpp:529-553 | and a written trace exactly when one of its observations has a number that is too large |
| Documents.BudgetReadsBackIff | src/serialize.cpp:202-248 | a budget survives exactly when it is valid and its numbers are at most 2^53 |
| Documents.ObservationReadsBackIff | src/serialize.cpp:250-309 | an observation survives exactly when its unsigned numbers are at most 2^53 and its failure count is a 32-bit integer |
| SnapshotDocuments.StateReadsBackIff | src/serialize.cpp:311-405 | a domain state survives exactly when its budget is valid and its unsigned numbers are at most 2^53 |
| SnapshotDocuments.SnapshotReadsBackIff | src/serialize.cpp:407-472 | a snapshot survives exactly when its ids are distinct, its domains survive, its numbers are in range and no provider is Partial |
| SnapshotDocuments.ReadStatesAreDistinct | src/serialize.cpp:457-466 | a document in which two domains share an id is never read |
| TraceDocuments.TraceReadsBackIff | src/serialize.cpp:509-553 | a trace survives exactly when its frames do and its numbers are in range |
| DocumentMethods.WriteBudget | src/serialize.cpp:202-223 | the document written is read back as the budget exactly when the budget is valid and in range |
| DocumentMethods.WriteObservation | src/serialize.cpp:250-272 | the document written is read back as the observation exactly when its numbers are in range |
| DocumentMethods.WriteState | src/serialize.cpp:311-353 | the document written is read back as the state exactly when its budget is valid and its numbers are in range |
| DocumentMethods.WriteSnapshot | src/serialize.cpp:407-436 | the document written is read back as the snapshot exactly when the snapshot survives |
| DocumentMethods.WriteTrace | src/serialize.cpp:509-527 | the document that the nested loops build is read back as the trace exactly when its frames survive |
| DocumentMethods.ReadBudget | src/serialize.cpp:225-248 | reading field by field gives the budget or refuses |
| DocumentMethods.ReadObservation | src/serialize.cpp:274-309 | reading field by field gives the observation or refuses |
| DocumentMethods.ReadState | src/serialize.cpp:355-405 | exactly the documents without a readable id are refused; a missing or malformed number is 0 and an unreadable budget the default one; a written state is always read, and as itself exactly when it is in range |
| DocumentMethods.ReadStates | src/serialize.cpp:457-466 | the list of seen ids refuses exactly the documents with a repeated id |
| DocumentMethods.ReadSnapshot | src/serialize.cpp:438-472 | reading field by field gives the snapshot or refuses |
| DocumentMethods.ReadTrace | src/serialize.cpp:529-553 | the nested loops give the trace or refuse |
| EndToEnd.BudgetSurvivesText | src/serialize.cpp:202-248 | object to JSON to text to JSON to object is the identity on valid budgets in range |
| EndToEnd.ObservationSurvivesText | src/serialize.cpp:250-309 | the same for observations |
| EndToEnd.SnapshotSurvivesText | src/serialize.cpp:407-472 | the same for snapshots |
| EndToEnd.TraceSurvivesText | src/serialize.cpp:509-553 | the same for traces |
| StoredSnapshots.ReachableIsModest | src/runtime.cpp:236-306 | while committed values are up to 2^53, every real published in a run, the trend rate included, is within 1000 * 2^53 |
| StoredSnapshots.ReachableSnapshotSurvivesText | src/serialize.cpp:407-472 | every reachable snapshot, stored with each computed real as the nearest double, survives the way to text and back if its unsigned numbers are up to 2^53 and no provider is Partial: distinct ids, valid budgets and reals in range are the runtime's doing |
| TraceReplay.TraceProvider.Sample | src/trace.cpp:8-22 | each sample uses up one frame, and an exhausted trace gives healthy empty samples |
| TraceReplay.ReplayDropsRetained | src/trace.cpp:8-22 | at any refresh a replay loses a domain that the run publishes exactly when the run retains it for a provider that is not fresh |
| ReplayRuns.ReplayContentIff | include/memory_pressure/trace.h:25-27 | over whole runs, configuration changes and any provider status included, a replay publishes the same domains at every step, but for provider names and explanations, if and only if no refresh retains a domain; and then states, aggregate and policy are the same as well |
| ReplayRuns.ReplayExactIff | include/memory_pressure/trace.h:25-27 | it has the same generation and events as well if and only if, beside, no refresh tells of a failed or stale provider and the health map changes only at the first refresh or with something else |
| ReplayRuns.FailureIsNotReproduced | src/trace.cpp:8-22 | a run of two refreshes, the second with a throwing provider, that its replay does not reproduce |
| ReplayRuns.ReplayReproduces | include/memory_pressure/trace.h:25-27 | if at every refresh the same providers report, each with the same status, Healthy or Partial, the replay on a fresh runtime with the same configuration changes has the same domain states, domains, aggregate, generation and events |
| ReplayRuns.ReplayFromText | include/memory_pressure/trace.h:25-27 | the same for the trace that comes back from the text it was written as |

## Left out

- Floating point: doubles are reals, so rounding inside scoring and the trend, negative zero and non-finite inputs to scoring are not modelled; a computed real is rounded once, when it is stored; the conversions of numbers are assumed faithful as stated in `Numbers.Conversion.Faithful`.
- Square root: the trend confidence takes the library's square root as a parameter; facts are stated on r2 and the rate.
- Providers: operating-system, CUDA, storage and synthetic providers are arbitrary reports; their registration hash and duplicate registration are not modelled.
- Concurrency: public calls are atomic steps; mutexes, the unlocked publication of `policy_` and user callbacks are not modelled.
- Width of counters: ids, generations, ranks and the debounce counter are unbounded; only the reserve sum, the elapsed-time subtraction, the 64-bit casts of the serializer and the 32-bit event counters wrap.
- Duplicate observations: two observations of one domain in one refresh are computed as the code does, but the theorems on refreshes assume there are none, which the code does not enforce.
- Grouping of observations: `RuntimeObject.PressureRuntime.ObserveAll` loops over one list of observations, each with its provider's name, where the source nests two loops.
- Per-domain state: the runtime's map holds debounce machines and trend windows as values; the classes `Hysteresis.HysteresisState` and `Trend.TrendEstimator` are proved to update exactly those values.
- Explanations, event details and problem texts: wording is a parameter or dropped; whether a budget or policy is refused is modelled.
- Telemetry counters, refresh latency and query counters.
- `admit`, `backpressure`, `response_for`, `explain` and relief sizes: lookups in one snapshot with no property over runs.
- Policy documents: the reader ignores freshness and the aggregate penalties, so a policy does not survive in general; event and statistics documents are write-only.
- Response rules, `max_relief_bytes`, freshness limits and the filter's domain types: stored by the source but never consulted by a refresh or a push.
- Documents.RealAt: the readers are modelled on finite numbers, which are all the parser lets through by default.
- Copies of `Json` values that share storage: values are immutable.
- Traces hold no configuration: a replay is given the policy, budget and history changes of its run.
