# Verified model of the laboratory machines

This project models the closed step machines of the repository and proves what each of them, and
its independent checker, promise. Every machine runs against arbitrary surroundings: clock
readings, pipes, owners, sessions and probes are arguments or method results about which nothing
is assumed, so a statement about a run holds whatever they do.

* **Loaded-memory laboratory.** `Held`, `HeldPrinter` and `HeldDecoder` are the one-line report of
  what a member holds, its byte printer over a reused buffer and the parent's decoder. `Status` is
  the reader of proc status text in a reused scratch buffer. `Pressure` is the parent's protocol
  core, `Completion` a full conversation for each case, `Lockstep` the core and the member joined
  by two pipes, `Collect` the closed collector of import events, `Imports` the member's stage that
  looks at itself and its modules and writes them, `Inventory` the digest of what was imported, `Channel` the line framing of the pipe, `Supervise` the supervision
  that records evidence and `Evidence` the offline replay of that record.
* **Control machine and driver.** `Control` accepts one conversation of fifty host frames. `Driver`
  runs the twenty-five cases against it, `Interleaving` puts its case 23 and the concurrent watcher
  under every schedule, `Watcher` and `Sink` are the two helper loops.
* **Cycle freshness and journal.** `Cycle` is the clock-admission automaton, `CycleCodec` its text,
  `Journal` the hash-chained record that is appended and re-derived.
* **Admission host.** `Supervision` is the loop over one owned process tree and the life of its
  owner, `Classification` the probe's labels and the host's check of them.
* **Archive inspection.** `Tiling`, `Paths`, `Extras` and `Archive` account for every byte and every
  member name of a ZIP archive (PKWARE APPNOTE.TXT sections 4.3.7, 4.3.9, 4.3.12, 4.3.16, 4.5.1).
* `Common`, `Text`, `Decimal`, `Json` and `Bytes` are shared: results, canonical decimals, the compact JSON
  the fixed printers write, little-endian numbers.

An object whose methods update its fields is a class here; its methods are proved against a
function on values, and the lemmas speak about that function. A raised error is a `Result`, an
`Option` or a reply. SHA-256 and other digests are function parameters, injective where a statement
needs it. Bytes of text lines are written as characters.

Two places where the code does less than its documentation suggests are stated as they are, with
the input and the exact condition. An aborted protocol core rewrites its outcome on every later
call, so the failing outcome shows exactly when the very last call observed the failure
(`Completion.FailShownIff`); every fresh core under the limit can reach it and lose it
(`Completion.FailIsLost`). A member that leaves the import stage with 0 is not always taken for a
success: the last check goes by a module's name and file, the audit by the path that file resolves
to, and the collector ends with 77 exactly when these disagree (`Imports.CollectImports`, with a
world where they do in `Imports.LinkedDisagrees`).

## Model

| member | source | states |
|---|---|---|
| HeldPrinter.FixedHeld.Encode | docs/poc/loaded_memory_member.py:130-178 | for every argument tuple, the buffer never overflows; the tuple is admitted exactly when it is encodable, and then the bytes are the report text, whatever was in the buffer before |
| HeldPrinter.FixedHeld.Number | docs/poc/loaded_memory_member.py:110-128 | writes the decimal text of a bounded number behind what is written, and fails exactly when out of range or out of room |
| HeldPrinter.FixedHeld.ReverseInPlace | docs/poc/loaded_memory_member.py:125-128 | reverses exactly the digits just written and leaves everything before them |
| HeldPrinter.LowFirstReversed | docs/poc/loaded_memory_member.py:118-128 | digits taken lowest first and reversed are the decimal text |
| HeldDecoder.ReportPrinted | docs/poc/loaded_memory_member.py:148-178 | the member's bytes are the canonical JSON of the report it stands for |
| HeldDecoder.RoundTrip | docs/poc/loaded_memory_protocol.py:167-202 | every report the printer admits decodes to the same values, with accepted bytes and pages following from the blocks |
| HeldDecoder.AcceptedIsCoherent | docs/poc/loaded_memory_protocol.py:178-202 | every accepted line is the canonical text of its own object and keeps all relations between its fields |
| Json.LoadsIffDumps | docs/poc/loaded_memory_protocol.py:171-182 | on the compact language, a text loads to a value exactly when it is that value dumped |
| Status.ParseStatus | docs/poc/loaded_memory_member.py:52-93 | terminates; the result is a function of the first length bytes alone, so stale bytes of an earlier longer read cannot change it; a length out of bounds or a missing final newline is a fault |
| Status.ParsedIffSays | docs/poc/loaded_memory_member.py:63-93 | a sample is accepted exactly when each of the four labels starts exactly one line, each amount is blanks, a bounded decimal, blanks and the right suffix, and the numbers fit together |
| Status.LabelInLine | docs/poc/loaded_memory_member.py:74-76 | comparing a label at the start of a line never sees bytes of the next line or beyond the text |
| Status.TooLong | docs/poc/loaded_memory_member.py:82-86 | giving up at the first digit too many agrees with judging the whole number |
| Pressure.StepKeeps | docs/poc/loaded_memory_protocol.py:223-415 | every call keeps the protocol invariant, returns the next commands of the case's word or none, fails exactly when it aborts, and never revives an aborted core |
| Pressure.CommandsArePrefix | docs/poc/loaded_memory_protocol.py:270-415 | for any calls in any order the commands returned are a prefix of the case's word, and a live core has returned exactly as many as its phase says |
| Pressure.PositiveIsEarned | docs/poc/loaded_memory_protocol.py:281-415 | a positive outcome needs state DONE, all commands of the word, the expected or recorded digest, a report that shows the limit held or the target reached, and at most twenty seconds |
| Pressure.SharedAfterFall | docs/poc/loaded_memory_protocol.py:352-366 | the control case reaches its shared round only after a sample near the earlier size and at least 32 MiB below the plateau |
| Pressure.AbortedStays | docs/poc/loaded_memory_protocol.py:53-68 | an aborted core answers STATE to every call and returns no command, and the call resets its outcome |
| Pressure.OutcomeAfterAbort | docs/poc/loaded_memory_protocol.py:223-226 | after an abort the outcome is kept by the empty list of later calls and is inconclusive after any other |
| Completion.FailShownIff | docs/poc/loaded_memory_protocol.py:223-226 | after any calls the outcome is a failure exactly when the last call was refused with OBSERVED_FAIL |
| Completion.FailIsLost | docs/poc/loaded_memory_protocol.py:223-226 | every fresh core of a limited case fails on a first observation past the limit, and any second call leaves it inconclusive |
| Completion.WordIsCompleted | docs/poc/loaded_memory_protocol.py:205-415 | from every fresh core with an inventory it can admit, some calls return the whole word of its case and end in DONE, so no prefix is out of reach |
| Pressure.PressureProtocol.DoHeld | docs/poc/loaded_memory_protocol.py:306-332 | the method does to the fields what the step function says, including the report kept before it is judged |
| Pressure.PressureProtocol.CheckRelease | docs/poc/loaded_memory_protocol.py:352-366 | the method does to the fields what the step function says |
| Pressure.PressureProtocol.DoAdmitImports | docs/poc/loaded_memory_protocol.py:282-296 | the method does to the fields what the step function says, reading the clock again after the digest |
| Lockstep.MoveKeeps | docs/poc/loaded_memory_member.py:361-442 | one move of member, parent or pipes keeps the joint invariant of the product |
| Lockstep.CommandsInStep | docs/poc/loaded_memory_member.py:383-442 | after any moves the commands issued are a prefix of those the member awaits, at most one ahead of those it took, and all of them when the parent closes in DONE |
| Lockstep.NeverBothWait | docs/poc/linux_loaded_probe.py:246-333 | no reachable live state has both sides blocked on each other |
| Lockstep.QuietNeverRefuses | docs/poc/linux_loaded_probe.py:137-147 | wherever a command is sent, both pipes are empty and the member awaits exactly that command |
| Lockstep.TakeNeverRefuses | docs/poc/loaded_memory_member.py:283-307 | a member that reads a command reads exactly the one it expects |
| Lockstep.HonestReport | docs/poc/loaded_memory_protocol.py:306-332 | a report printed by an honest member is refused only for what it says, and accepted exactly when it convinces in its case and in time |
| Collect.StreamKeeps | docs/poc/loaded_memory_collect.py:228-349 | for any stream the rows kept have distinct names and stages that never go back, and VERIFIED takes exactly the three ends |
| Collect.ImportCollector.Take | docs/poc/loaded_memory_collect.py:272-344 | one event changes the fields as the collector function says; a refusal drops the rows and keeps the first failure |
| Collect.FeedShrinks | docs/poc/loaded_memory_collect.py:272-344 | every accepted event but the last uses up a bounded budget, so no stream keeps the collector collecting forever |
| Imports.CollectImports | docs/poc/loaded_memory_collect.py:88-138 | in a world whose modules only grow and whose rows are short, the member leaves with the code the world decides, whatever the order of names; a collector fed with exactly the events written fails with that code, and after a 0 it is verified with one row per module, from the stage that first holds it, if every module the last check takes for native was audited as one, and otherwise ends with 77 |
| Imports.SucceedsIff | docs/poc/loaded_memory_collect.py:92-138 | the member leaves with 0 exactly when its first look is in order and at no stage an import fails, a module is refused, the sample or the descriptors change or a native root is missing |
| Imports.NativeMatchesIff | docs/poc/loaded_memory_collect.py:321-340 | with every module's row in the table, the collector takes the native report exactly when each of its modules was audited with a file that resolves to a shared object among the installed ones |
| Imports.PlainPathsFit | docs/poc/linux_import_probe.py:632-638 | when nothing is loaded behind the audit and native files stay and resolve to themselves, success is always taken |
| Imports.LinkedDisagrees | docs/poc/linux_import_probe.py:632-638 | one world where the member leaves with 0 and the collector with 77: a native file that is a link to a file of another ending |
| Imports.LookAtSelf | docs/poc/linux_import_probe.py:521-537 | the loop over descriptors skips those gone since and stops at the first socket or unreadable one |
| Imports.FoundIff | docs/poc/linux_import_probe.py:521-537 | there is an answer exactly when no descriptor is a socket or unreadable and no child is listed, and no fault names a root |
| Imports.NativeCheck | docs/poc/linux_import_probe.py:628-643 | every root is reported with exactly its native modules, each once, or the first root without one is named |
| Imports.NativeOutcome | docs/poc/linux_import_probe.py:628-643 | the check answers exactly when the driver is binary and every root has an object, and each of its faults is one the collector takes |
| Imports.PathRow | docs/poc/linux_import_probe.py:567-588 | a row says an installed shared object exactly when the resolved path is one |
| Imports.AuditEventValid | docs/poc/linux_import_probe.py:133-195 | every audit failure the member reports is one the collector accepts at that stage |
| Imports.RowTakenIff | docs/poc/loaded_memory_collect.py:241-247 | a row is taken exactly when its name is new, it is short and there is room |
| Imports.CheckAgreesIff | docs/poc/linux_import_probe.py:75-102 | at every stage, the last included, a check event is taken exactly when it names a root if and only if its category is NATIVE_MISSING |
| Inventory.DigestIffSameTriples | docs/poc/loaded_memory_protocol.py:99-135 | two admitted inventories have one digest exactly when they hold the same triples, in any order and from any stages |
| Channel.Pipe.Read | docs/poc/linux_loaded_probe.py:108-134 | unless time runs out, the answer is a function of the bytes still to come and leaves the rest of them; the guard at 8192 bytes never fires |
| Channel.Pipe.ReadAll | docs/poc/linux_loaded_probe.py:108-134 | lines and ending depend on the stream only, never on how reads cut it |
| Channel.FramingIff | docs/poc/linux_loaded_probe.py:111-131 | reading ends cleanly exactly when the stream is these bounded lines in this order |
| Channel.FramingRefuses | docs/poc/linux_loaded_probe.py:114-130 | a refused stream is some bounded lines followed by a line over 4096 bytes or by a tail without newline |
| Channel.WriteAll | docs/poc/linux_loaded_probe.py:150-163 | what is written is the prefix its attempts let through, and it succeeds exactly when that is everything |
| Evidence.Replay | docs/poc/loaded_memory_evidence.py:118-182 | terminates, and accepts exactly the records the replay function accepts |
| Evidence.ReplayCounts | docs/poc/loaded_memory_evidence.py:217-232 | whatever the replay accepts already has the case's number of lines, decodable lines, the positive outcome of its case and a clean end, so the separate count refuses nothing more |
| Supervise.Supervise | docs/poc/linux_loaded_probe.py:223-394 | whatever the ports do, a positive report comes with exactly the lines the live core accepted, the last of them the report that core holds, and the replay accepts it with that core's outcome; at most 16 observations are taken then and never more than 17, so the cap of 24 never binds; the report is positive exactly when the core was asked to conclude and is DONE, and a FAIL has a last observation that shows it |
| Supervise.Supervision.ReadLine | docs/poc/loaded_memory_evidence.py:85-108 | of the decodable lines that come by the tap keeps exactly the first two; the third breaks it, is refused, and nothing is read after it |
| Supervise.Supervision.Round | docs/poc/linux_loaded_probe.py:287-321 | one live round, with up to five looks at the release, adds exactly the observations and the line that the replay of it consumes |
| Supervise.TwinStep | docs/poc/loaded_memory_evidence.py:127-162 | a call the live core accepted is accepted with the same answer by a core on logical time |
| Supervise.TwinSample | docs/poc/loaded_memory_evidence.py:160-169 | a live wait and sample replay with the clock moved by exactly one second, within the twenty of the replay |
| Control.FrameIffControl | deploy/oracle9_w1_controller.py:360-384 | each admitted control has exactly one admitted frame |
| Control.Language | deploy/oracle9_w1_controller.py:400-523 | the accepted call sequences are exactly the prefixes of two conversations that differ in the STOP or NOSTOP of case 23 |
| Control.RefusalIsSticky | deploy/oracle9_w1_controller.py:433-439 | a refusal is final and leaves every counter as it was |
| Control.AlwaysConsistent | deploy/oracle9_w1_controller.py:417-515 | after any calls the accepted count is a function of case and phase, at most fifty, and the watcher reads exactly in WATCH |
| Driver.Driver.Execute | deploy/oracle9_w1_driver.py:966-977 | for all port behaviours every recorded reply is the machine's, only host frames are refused and each was delivered by the link, every number announced is the next one expected, verdicts form a prefix, a PASS is acknowledged, and nothing is lost unless the owner is handed back |
| Driver.Driver.Stop | deploy/oracle9_w1_driver.py:939-964 | an aborted run leaves the owner without session, token, endpoint, handle or unknown slot, or is RETAINED and returns the owner |
| Driver.Driver.T4 | deploy/oracle9_w1_driver.py:835-888 | PASS of case 23 means the call flag let a stop through and the machine accepted STOP with the announced number |
| Driver.Driver.JoinWatcher | deploy/oracle9_w1_driver.py:862-877 | a stop is recorded exactly as often as the schedule played on the call flag let one through, and an observation that says it was applied is of a delivered frame with the announced number |
| Driver.SoundCounts | deploy/oracle9_w1_driver.py:966-977 | the frames of a sound trace are the count of the machine that answered it |
| Driver.Driver.Summarize | deploy/oracle9_w1_driver.py:895-900 | the machine's own failed set adds nothing to the FAIL verdicts that the summary lists |
| Driver.Run | deploy/oracle9_w1_driver.py:980-994 | a refused guard does nothing; otherwise the statements of the whole run, of a trace whose numbers, frames and stops are those that passed the ports |
| Interleaving.StopOnlyInWindow | deploy/oracle9_w1_driver.py:183-206 | under every schedule of main and watcher the stop is requested at most once and only between activate and deactivate |
| Interleaving.JoinedObservation | deploy/oracle9_w1_driver.py:290-317 | after the join the observation tells the truth and only the announced STOP can be an applied one |
| Interleaving.NostopFails | deploy/oracle9_w1_driver.py:862-888 | a NOSTOP the machine accepts never goes with an applied stop |
| Interleaving.NoDeadlock | deploy/oracle9_w1_driver.py:183-206 | until the join some thread can always move |
| Interleaving.Play | deploy/oracle9_w1_driver.py:183-206 | any schedule of the two threads on the real call flag is a run of the product to the join, and the flag counts exactly the stops of that run |
| Sink.Drain | deploy/oracle9_w1_driver.py:245-287 | terminates, never asks for or counts more than cap plus one, and without deadline or I/O event its result is the verdict on the whole stream |
| Watcher.WatchOnce | deploy/oracle9_w1_driver.py:290-317 | the stop is applied exactly for the announced STOP frame while the call is active |
| Cycle.AdvanceStaysValid | docs/poc/oracle9_cycle_freshness.py:142-174 | from a valid cycle and sample every advance and abort builds a valid cycle, so the constructor never refuses |
| Cycle.RefusalKeepsEvidence | docs/poc/oracle9_cycle_freshness.py:142-166 | a refusal moves neither the last sample nor the count, and terminal phases absorb |
| Cycle.AcceptedRuns | docs/poc/oracle9_cycle_freshness.py:124-166 | the accepted runs are exactly the admissible step lists, and the state is a function of them |
| Cycle.ConsumptionIsEleven | docs/poc/oracle9_cycle_freshness.py:124-166 | consumption takes nine OBSERVE, one READY and one B, between 90 and 300 seconds after the anchor |
| Cycle.DriftBetweenSamples | docs/poc/oracle9_cycle_freshness.py:79-109 | between any two accepted samples the two clocks drift apart by at most their two allowances to the anchor |
| CycleCodec.DecodeIffEncode | docs/poc/oracle9_cycle_freshness.py:181-221 | a text decodes to a cycle exactly when the cycle is valid and the text is its encoding |
| CycleCodec.NumberIffText | docs/poc/oracle9_cycle_freshness.py:26-36 | a bounded number is read exactly from its canonical decimal text |
| Journal.Replay | docs/poc/oracle9_w1_run_v2.py:80-125 | the loop computes the derivation of the record list, failing where it fails |
| Journal.Host.Save | docs/poc/oracle9_w1_run_v2.py:134-163 | saving appends the record the specification says, or refuses and keeps the journal |
| Journal.SaveAppends | docs/poc/oracle9_w1_run_v2.py:134-163 | saving the state after one more admissible step appends exactly the record of that step |
| Journal.CoordinatorReplays | docs/poc/oracle9_w1_run_v2.py:80-163 | whatever is sampled, no save fails and the replay of what was saved gives back the last accepted state and the journal's head |
| Journal.Coordinate | docs/poc/oracle9_w1_run_v2.py:134-163 | the coordinator's loop over its save computes the drive of the steps, and stops with its first fault |
| Journal.ReplayIffJournal | docs/poc/oracle9_w1_run_v2.py:80-125 | replay accepts a list exactly when it is the journal of an accepted run, with twelve records exactly at B_CONSUMED |
| Journal.HeadCommits | docs/poc/oracle9_w1_run_v2.py:100-125 | with an injective hash equal heads mean equal journals |
| Supervision.Supervise | docs/poc/pg16_shell_admission_host.py:396-490 | for every owner and clock the loop ends within the turns of work and cleaning, terminates at most once and keeps exactly the first 1024 output bytes; no hold means nothing of the tree is left, no reason means whole, undisturbed and in time |
| Supervision.Lifecycle | docs/poc/pg16_shell_admission_host.py:887-916 | the owner leaves the registry exactly when it was closed, once, and ends CLOSED with nothing unproven; a held owner is never closed; no child is started past the deadline |
| Supervision.Clock.Now | docs/poc/pg16_shell_admission_host.py:341-364 | readings never go back, and a broken clock stays broken |
| Classification.AcceptsIffProduced | docs/poc/pg16_shell_admission_host.py:493-521 | the host accepts a result exactly when some measurement of the stage loop makes the probe classify it so |
| Classification.Measure | docs/poc/pg16_shell_admission_probe.py:198-227 | the failed stage is the first that does not complete, and the ticks are one before the stages and one after each that ran |
| Extras.ReadExtraFields | docs/poc/oracle9_wheels_inspect.py:79-90 | the loop over offsets reads the fields the parser function reads |
| Extras.ParseIffWritten | docs/poc/oracle9_wheels_inspect.py:79-90 | parsing accepts exactly the back-to-back blocks without ZIP64, and returns them |
| Archive.CentralPreflight | docs/poc/oracle9_wheels_inspect.py:93-109 | an archive passes exactly when its last end signature heads one bounded single-disk record that ends the directory and, with its comment, the file |
| Archive.RecordIsWhole | docs/poc/oracle9_wheels_inspect.py:112-144 | an accepted record has its header, name and extra fields in full and repeats checksum and sizes in the header or right behind the data |
| Archive.EveryByteOnce | docs/poc/oracle9_wheels_inspect.py:317-322 | every byte of an admitted file belongs to exactly one local record, the central directory or the end record |
| Archive.AdmitsIffPartition | docs/poc/oracle9_wheels_inspect.py:317-328 | located entries are admitted exactly when their records partition the bytes before the directory and no names conflict |
| Archive.NoFileAboveMember | docs/poc/oracle9_wheels_inspect.py:323-328 | no file member stands above another member |
| Archive.Inspect | docs/poc/oracle9_wheels_inspect.py:271-328 | the passes over entries, ranges and names admit exactly what the condition says |
| Tiling.WalkIffPartition | docs/poc/oracle9_wheels_inspect.py:317-322 | the walk over ranges sorted by start succeeds exactly when every position is held once |
| Tiling.Walk | docs/poc/oracle9_wheels_inspect.py:317-322 | the loop succeeds exactly on a chain from zero to the directory |
| Paths.AncestorsIff | docs/poc/oracle9_wheels_inspect.py:325-328 | the check over split and joined parts looks at exactly the places where the name goes down into a directory |
| Paths.NoFileAbove | docs/poc/oracle9_wheels_inspect.py:323-328 | names that pass have no file whose name and a slash begin another name |

## Left out

- Foreign effects: Docker, Win32, curl, pip, rpm, proc and cgroup access, file persistence; they are port answers here.
- Text is characters: bytes outside ASCII, UTF-8 and code page 437 are decoding functions or are refused as not plain.
- Json.LoadsIffDumps: covers the compact text without escapes, floats and duplicate keys that the fixed printers write; general JSON is taken as an inverse pair.
- Type tests on Python values (bool for int, subclasses, extra dictionary keys) have no counterpart in a typed model; objects of another shape are one foreign case.
- Supervise.Supervise: a line the tap can decode has the object phase "held" by definition of the decoder, and the process id is that of the spawned process throughout; the report's size bound and the frozen host's own validation of it are not part of this model.
- Supervise.Supervise: the compressed inventory is taken as an inverse pair with what it expands to.
- Imports.CollectImports: writes of the member always succeed; after a failed write the member's result is discarded by its own failed flag.
- Imports.CollectImports: names are audited, and native names listed, in any order, not only in sorted order.
- Imports.CollectImports: the rows of the harness, of modules without a file and of the two names with rules of their own are arbitrary answers with the module's own name; modules are never unloaded, and a row too long for the collector or one module too many is covered by `Imports.RowTakenIff` alone.
- Imports.LookAtSelf: names in the descriptor directory are numbers and arrive in the order in which they are looked at.
- Pressure.PressureProtocol.DoAdmitImports: the inventory digest is a parameter; its own laws are in `Inventory`.
- Lockstep.CommandsInStep: import events are one kind of line; how the collector judges them is in `Collect`.
- Channel.Pipe.Read: a read interrupted forever is excluded, the script of turns is finite.
- Driver.Driver.Execute: ports return and do not raise, so the branch for unexpected exceptions is missing; ledger, session, snapshot and worker internals are port answers.
- Driver.Driver.Execute: the control machine exists from construction instead of from the start step.
- Journal.Host.Save: the size bound on the raw text beyond the codec's own and the JSON bytes of a journal record are not modelled; a record is a value under the hash.
- Supervision.Supervise: control interruptions and malformed answers of the owner's accounting are not modelled.
- Supervision.Lifecycle: what is recorded about a held owner is not modelled.
- Classification.AcceptsIffProduced: finite readings are reals, so an elapsed time that overflows to infinity does not occur.
- Archive.Inspect: the entries of the central directory arrive as a list, as the library hands them over; inflating, hashing, metadata, RECORD and the distribution's own names are not modelled.
- The status batch diagnostics, parse_limits, job SQL, resolvers and the source pins would only add long conjunctions without induction.
