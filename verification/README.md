# A verified model of the session platform's core logic

This project models, in Dafny 4.11, the parts of the backend that are hardest to get right, and proves what
they promise over every input, every run or every interleaving.

- **The post-session analysis pipeline** (`Pipeline*.dfy`). One session with its job rows, its queue, its
  evaluations, and any number of workers, starts, sweeps and retries that interleave one database call at a
  time. `Pipeline` is the state machine, `PipelineSafety` its inductive invariant, `PipelineTheorems` what
  holds in every reachable state, `PipelineAlways` and `PipelineBase` what even unsafe and racing retries keep,
  `PipelineWork` the measure of the work left, `PipelineProgress` who brings every open step on,
  `PipelineRecovery` exactly when a session settles, `PipelineAttempts` the bound on step bodies,
  `PipelineRetry`, `PipelineOvertaking` and `PipelineVerdict` exactly when a retry keeps the order of the steps
  and the right final status, `PipelineRaces` retries overtaken by a restart, `PipelineEvaluations` exactly when
  a current evaluation is lost, and `PipelineService` the service in the form of its code, proved to follow the
  machine.
- **Evidence and scores** (`Evidence.dfy`, `EvidenceGate.dfy`, `Scoring.dfy`, `Weights.dfy`). The two-row table
  of the longest common subsequence, the greedy quote search, the filter on cited evidence, the gate on
  scores, the weighted mean and the rescaling of weights to exactly 100.
- **Text with a recursive meaning** (`SafeRegex*.dfy`, `Csv*.dfy`, `StableJson.dfy`, `ConfigEdits.dfy`). The
  regular-expression scanner against the syntax tree of the pattern, the CSV reader against a grammar of all
  texts, the CSV printers against the reader (section 2 of RFC 4180), and sorted-key JSON printing as equality
  of configurations.
- **Small compare-and-set protocols** (`Uses.dfy`, `Meeting.dfy`, `Dialer*.dfy`). Links and tokens with a
  limited number of uses, meeting sessions moved hop by hop, and outbound call batches.

`Wrappers.dfy` holds the shared `Option`. `dafny verify dfyconfig.toml` checks everything.

## How the pipeline is modelled

Every database call, queue call and step body is one atomic step of one process. A label names the step and
carries every choice the code does not make itself: the outcome of a step body, staleness, a death, a lost
entry, a reason to skip. `Apply` is then a function, and a run is a sequence of labels. The scoring
transaction is one step. A retry is one label; `PipelineAlways.Race` takes it apart into its two reads and its
transaction, with anything in between. A state is *reachable* by a run whose retries are safe, and *attainable*
by any race, with retries safe or unsafe, whole or in parts.

Assumed of the surroundings: a job id is held by at most one worker at a time; adding an id that exists does
nothing; removing an active entry fails; the entry of a dead worker is redelivered, marked finished, or
vanishes; a deleted session stays deleted.

Some things came out differently from what the documentation or the comments suggest; the model follows the
code, and each failure comes with an input or a reachable run and with its exact condition.

- **A retry can let later steps overtake the retried one.** A retry resets the later rows but leaves their
  queue entries alone. If an entry of a later step waits (for instance because the failed step has just
  dispatched its successor), it is delivered first, its body runs while the retried step is open, and since a
  worker searches only behind its own step, the later steps can run to the end and a final status be written
  over the open step. `PipelineRetry.UnsafeRetryIsReachable` and `PipelineOvertaking.FinalOverOpenStep` give
  such runs, `PipelineOvertaking.RetryKeepsPromisesExactly` the exact condition with nobody at work, and
  `PipelineSafety.RetryExactlyWhenSafe` the exact condition for the invariant with anybody at work.
- **That final status is never corrected.** The retried step ends after it was written, so a session can rest
  COMPLETED over a failed step: `PipelineVerdict.CompletedOverFailed`. The status at rest is right in every
  schedule exactly when no later entry waits or the steps before the retried one have settled it already:
  `PipelineVerdict.RetryEndsRightExactly`.
- **A retry that comes before the failed step's worker has returned is lost.** Its dispatch finds the entry still
  active and leaves it alone; the worker returns, and nothing runs the retried step.
  `PipelineRecovery.UntimelyRetryHappens` gives the state, `PipelineRecovery.RetrySettlesExactly` the condition: a
  retry settles exactly when no worker of its step or a later one is past its row. Even a sweep helps exactly
  when no worker has left its row open so: `PipelineRecovery.OneSweepRecovers`. Retries while nobody is at work
  always settle, overtaking or not.
- **A retry overtaken by a restart reopens the wrong generation.** The transaction of a retry sets the session
  to processing whatever its generation is by then. If a reprocess came after the retry's reads and has
  finished, the session is processing again with nobody to complete it, until a sweep finds it stale.
  `PipelineRaces.LateRetryHappens` gives the run, `PipelineRaces.LateRetrySettlesExactly` the condition.
- **A current evaluation can be lost.** A scoring attempt that was sent back after its transaction scores again;
  if a reprocess comes between its check of the generation and its second transaction, it marks its own
  evaluation, the current one, as not current, and none is current until a later generation scores.
  `PipelineEvaluations.CurrentCanBeLost` gives the run, `PipelineEvaluations.CurrentKeptExactly` the condition.
- **A one-time link or token can get two session rows.** The creation of a session writes its row and then an
  event, outside any transaction. If the event fails, the use is given back and the row stands.
  `Uses.TwoRowsOnOneUse` gives the run, `Uses.RowsWithinLimitExactly` the condition. Sessions handed to a
  caller stay within the limit.
- **Rescaled weights sum to exactly 100, but the last one can be negative.** It takes up the roundings of all
  the others. Six criteria of weight 1 and a new one, which the editor adds with weight 0, are rescaled by the
  editor's button to a last weight of -0.02, which the schema refuses. `Weights.LastCanBeNegative` is that
  example; `Weights.NegativeExactly` and `Weights.NotNegative` say when.
- **The scanner's rules cover the repeated group, not all that is inside it.** `((a|a))*` is accepted although it
  repeats an alternation, and `(a?a?)*` although it holds quantifiers in a repeated group.
  `SafeRegexNesting.NestedAlternationAccepted` and `SafeRegexNesting.NestedQuantifierAccepted` are the examples,
  `SafeRegexNesting.PromisesKeptExactly` says which patterns are accepted and keep both promises of the header.
- **A quote with a noisy fragment before another can be rejected.** A late exact occurrence of the fragment is
  preferred to an early noisy one, and the next fragment may then have no room. `Quotes.NoisyThenExactRejected`
  is an example; `Quotes.OnlyLastLongExactly` and `Quotes.LastMayBeNoisy` say when windows suffice.
- **A cancelled batch can be overwritten.** A tick that read the batch before the cancellation still writes
  RUNNING or BLOCKED, and a cancellation that read it before the completion writes CANCELLED.
  `Dialer.CancelledIsOverwritten` gives the run, `Dialer.OverStaysExactly` the condition.
- **The CSV printer of the admin module writes no byte order mark**, so a header that begins with U+FEFF loses
  it on reading, and what then comes first may begin like a formula. `CsvRoundTrip.AdminExactly` and
  `CsvRoundTrip.AdminFormulaExactly` say that this is the only way in which it differs from the other two.
- **Only a failed step can be retried.** The comment on `retryStep` says "failed/skipped", the code refuses a
  skipped one.

## Model

| member | source | states |
|---|---|---|
| Pipeline.FirstOpen | backend/src/modules/analysis/analysis.service.ts:299-303 | the search for the next step finds the first one whose row is missing or not terminal, and all before it are terminal |
| PipelineSafety.ApplyKeeps | backend/src/modules/analysis/analysis.service.ts:99-379 | every step of every process, delivery, start, restart, retry where safe, sweep, deletion, death and lost entry keeps the invariant; PipelineSafety.RetryExactlyWhenSafe shows that no other retry does |
| PipelineSafety.RetryExactlyWhenSafe | backend/src/modules/analysis/analysis.service.ts:165-186 | a retry keeps the invariant if and only if no entry, dispatch or completion of a later step is under way and no worker has read past the retried row |
| PipelineRetry.RetryKeepsOrderExactly | backend/src/modules/analysis/analysis.service.ts:165-207 | with nobody at work, a retry keeps the order of step bodies in every later run if and only if no queue entry of a later step waits |
| PipelineRetry.UnsafeRetryIsReachable | backend/src/modules/analysis/analysis.service.ts:165-207 | a reachable session with nobody at work where an accepted retry lets the second step's body start before the first step is terminal |
| PipelineOvertaking.RetryKeepsPromisesExactly | backend/src/modules/analysis/analysis.service.ts:165-309 | with nobody at work, each of the three promises (bodies start in order, terminal jobs form a prefix, a final status stands over five terminal jobs) holds in every run after a retry if and only if no queue entry of a later step waits |
| PipelineOvertaking.FinalOverOpenStep | backend/src/modules/analysis/analysis.service.ts:165-325 | a reachable session with nobody at work where an accepted retry leads to a final status while the retried step is open |
| PipelineVerdict.RetryEndsRightExactly | backend/src/modules/analysis/analysis.service.ts:165-325 | with nobody at work, after a retry every schedule comes to rest with the final status the rows call for if and only if no queue entry of a later step waits, or an earlier step has failed and the earlier steps hold both core steps or a core step that produced |
| PipelineVerdict.CompletedOverFailed | backend/src/modules/analysis/analysis.service.ts:294-325 | a reachable session with nobody at work and a schedule after its retry that rests COMPLETED over a failed step |
| PipelineRaces.LateRetrySettlesExactly | backend/src/modules/analysis/analysis.service.ts:165-187 | a retry's transaction at any later moment of a session on its way: if the generation is still the one it read, the session settles if and only if the retry is timely or a restart is about to open a new generation; if a restart has come, it settles while that generation is on its way and does not once that generation is at rest |
| PipelineRaces.StaleRetryStrands | backend/src/modules/analysis/analysis.service.ts:165-264 | after the transaction of a retry overtaken by a restart the session stays in processing over five terminal jobs of its own generation, whatever workers do |
| PipelineRaces.SweepRestores | backend/src/modules/analysis/analysis.service.ts:360-379 | one sweep that finds such a session stale brings it to a final status in every schedule |
| PipelineRaces.LateRetryHappens | backend/src/modules/analysis/analysis.service.ts:165-187 | the race is possible: a retry reads, a reprocess runs a whole generation to its end, the retry writes |
| PipelineTheorems.TerminalJobsFormAPrefix | backend/src/modules/analysis/analysis.service.ts:227-309 | in every state reached with safe retries the terminal jobs of each generation are a prefix of the step order; PipelineOvertaking says exactly when other retries keep this |
| PipelineTheorems.BodiesStartInOrder | backend/src/modules/analysis/analysis.service.ts:240-267 | in every state reached with safe retries a step body starts only when all earlier steps of its generation are terminal and its own is not; PipelineOvertaking says exactly when other retries keep this |
| PipelineTheorems.FinalMeansAllTerminal | backend/src/modules/analysis/analysis.service.ts:312-325 | in every state reached with safe retries a final status stands only over five terminal jobs; it is COMPLETED if and only if none failed, FAILED if and only if scoring or extraction failed and neither completed, PARTIAL otherwise; PipelineOvertaking says exactly when other retries keep this |
| PipelineTheorems.CompletionAccounting | backend/src/modules/analysis/analysis.service.ts:165-325 | whatever retries are taken, safe or not, whole or racing: completions claimed, plus one while queued or processing, never exceed the generation number plus accepted retries; per generation at most one plus its retries |
| PipelineTheorems.SupersededIsInert | backend/src/modules/analysis/analysis.service.ts:227-264 | whatever retries were taken: no step of a process of a superseded generation changes the session's status or generation, claims a completion, or touches another generation's evaluation; its own never becomes current |
| PipelineTheorems.OneCurrentEvaluation | backend/src/modules/analysis/steps.service.ts:197-245 | whatever retries were taken, in every interleaving of scoring transactions and restarts at most one evaluation is current, and each belongs to an existing generation |
| PipelineTheorems.LatestScoreBecomesCurrent | backend/src/modules/analysis/steps.service.ts:217-243 | the scoring transaction of the latest generation makes its own evaluation the only current one, whatever the rows were before |
| PipelineEvaluations.CurrentSurvivesExactly | backend/src/modules/analysis/steps.service.ts:197-245 | in every attainable state with a current evaluation, the next step leaves one if and only if it is not a superseded generation scoring again over its own current evaluation |
| PipelineEvaluations.CurrentKeptExactly | backend/src/modules/analysis/steps.service.ts:197-245 | the current evaluation of a superseded generation survives every run until another becomes current if and only if no worker of its scoring step is between its check of the generation and its transaction |
| PipelineEvaluations.CurrentCanBeLost | backend/src/modules/analysis/steps.service.ts:197-245 | a reachable run after which no evaluation is current although one was |
| PipelineBase.AttainableBase | backend/src/modules/analysis/analysis.service.ts:99-379 | every state that any race attains, with deaths, losses and retries safe or unsafe, whole or in parts, keeps rows, entries and workers consistent: who holds a job, at which attempt, and that nobody but its holder ends an open row |
| PipelineWork.WorkDrops | backend/src/modules/analysis/analysis.service.ts:191-309 | in every attainable state every step and every delivery lowers a measure of steps, attempts and dispatches left |
| PipelineRecovery.OneSweepRecovers | backend/src/modules/analysis/analysis.service.ts:360-379 | in every attainable state that owes a final status, after any deaths, losses and retries, one sweep that finds it stale bounds every schedule of steps and deliveries, and all of them end with a final status over five terminal jobs if and only if no worker of the current generation has left its row open, or a restart is about to open a new generation |
| PipelineRecovery.SweepRecoversTimely | backend/src/modules/analysis/analysis.service.ts:360-379 | after any run of deaths, losses and timely retries one stale sweep leads every schedule to a final status over five terminal jobs |
| PipelineRecovery.SettlesExactly | backend/src/modules/analysis/analysis.service.ts:191-325 | a session whose every open step is brought on by somebody settles in every schedule if and only if no worker has left its row open, or a restart is about to open a new generation |
| PipelineRecovery.RetrySettlesExactly | backend/src/modules/analysis/analysis.service.ts:165-213 | a retry of a session on its way settles in every schedule if and only if no worker of the retried or a later step is past its row, or a restart is about to open a new generation |
| PipelineRecovery.UntimelyRetryHappens | backend/src/modules/analysis/analysis.service.ts:165-213 | a reachable session without deaths or losses where a retry before the worker's return leads to a rest without a final status over five terminal jobs |
| PipelineProgress.CrashFreeRunsFinish | backend/src/modules/analysis/analysis.service.ts:277-309 | a run without deaths and losses whose retries are timely (all retries while nobody is at work are, safe or not) never comes to rest without a final status over five terminal jobs, so neither a step that fails for good nor an overtaking retry blocks the others |
| PipelineProgress.SafeIsTimely | backend/src/modules/analysis/analysis.service.ts:165-187 | a safe retry is timely, and so is any retry while nobody is at work |
| PipelineAttempts.BodiesAreBounded | backend/src/modules/analysis/analysis.service.ts:208-221 | a generation that saw no death, loss or retry runs each step body at most four times, and twenty bodies in all |
| PipelineService.Session.EnqueueStep | backend/src/modules/analysis/analysis.service.ts:191-213 | a fresh entry is there afterwards unless one is scheduled already, or is finished with a terminal row and replacing was not asked for; nothing else changes, and the method follows the machine |
| PipelineService.Session.CompletePipeline | backend/src/modules/analysis/analysis.service.ts:312-350 | it claims exactly when the generation is current and queued or processing; then the status is FAILED if scoring or extraction failed and neither completed, else PARTIAL if any step failed, else COMPLETED; only then an existing report says so with the status of each step, and the events are the failure, or the analysis with the current evaluation and the extraction if that completed; it follows the machine |
| PipelineService.Session.RunStep | backend/src/modules/analysis/analysis.service.ts:227-291 | a step of a deleted session or superseded generation is skipped if it was open; a finished one goes on to the next step; an open one is attempted and goes on unless it throws; it follows the machine from delivery to return |
| PipelineService.Session.Attempt | backend/src/modules/analysis/analysis.service.ts:245-289 | the row ends completed, skipped or failed as the body did, or queued with a throw, which happens exactly for a retryable error before the fourth attempt; a session seen queued is processing; it follows the machine |
| PipelineService.Session.FindOpen | backend/src/modules/analysis/analysis.service.ts:299-303 | the loop finds the first open step |
| PipelineService.Session.GoOn | backend/src/modules/analysis/analysis.service.ts:294-309 | the first open step is enqueued, or with none the generation is completed; it follows the machine |
| PipelineService.Session.ScoreTransactionInPlace | backend/src/modules/analysis/steps.service.ts:197-245 | upserting one row and clearing the others one by one leaves, at the latest generation, its evaluation as the only current one, and otherwise its own not current and the others alone; it is the atomic transaction of the machine |
| PipelineService.Session.StartPipeline | backend/src/modules/analysis/analysis.service.ts:99-152 | a start of a live, ended session with no reason to skip and no generation yet, or a restart, opens a generation, queues it, creates its missing rows and enqueues its first step; a first start with a reason to skip marks the session skipped; nothing else changes anything; it follows the machine |
| PipelineService.Session.CreateJobs | backend/src/modules/analysis/analysis.service.ts:138-149 | creating the missing rows of a generation as queued, one by one, and dispatching the first step; it follows the machine |
| PipelineService.Session.Sweep | backend/src/modules/analysis/analysis.service.ts:360-392 | a stale live session that is queued or processing goes on at its first open step or is completed, one whose start was missed is started, any other is left alone; it follows the machine |
| PipelineService.SweepAll | backend/src/modules/analysis/analysis.service.ts:360-392 | the loop over the sessions the queries answer does so for each, in whatever state the others are |
| PipelineService.Session.RetryStep | backend/src/modules/analysis/analysis.service.ts:165-186 | with nothing between its reads and its transaction it accepts exactly a failed step of a live, started session; then the rows of the generation from that step on are queued, the session is processing and the step has an entry; otherwise nothing changes; it follows the machine |
| PipelineService.Session.WriteRetry | backend/src/modules/analysis/analysis.service.ts:178-186 | the transaction and the dispatch, whatever has happened since the reads, do the same and follow the machine from the late write on |
| PipelineService.PathReachable | backend/src/modules/analysis/analysis.service.ts:99-379 | code that follows the machine from a reachable state ends in a reachable state, so all results about runs hold of it |
| SafeRegex.RegexPatternRisk | backend/src/shared/safe-regex.ts:22-99 | the loop over one index, a stack, a counter and two flags computes the verdict of the scanner |
| SafeRegexMeaning.QuantifierRead | backend/src/shared/safe-regex.ts:31-43 | the quantifier reader reads back every printed quantifier: its length, whether it repeats and whether it is unbounded |
| SafeRegexMeaning.QuantifierExactly | backend/src/shared/safe-regex.ts:31-43 | at any place of any text the reader finds a quantifier if and only if one is printed there; elsewhere an opening brace stands for itself |
| SafeRegexMeaning.QuantifierMeans | backend/src/shared/safe-regex.ts:31-43 | which quantifiers repeat and which count as unbounded, by the numbers they allow |
| SafeRegexMeaning.ScanAlternatives | backend/src/shared/safe-regex.ts:45-95 | on the text of any tree, anywhere in a pattern, the scanner stops with the tree's first risk or passes it with the tree's depth, alternation and count recorded |
| SafeRegexMeaning.AcceptsExactly | backend/src/shared/safe-regex.ts:22-99 | for every syntax tree, opening braces that stand for themselves included, the scanner accepts its text if and only if it has at most 200 characters and 4 unbounded quantifiers, no backreference, and no repeating quantifier on a group that itself alternates or repeats inside at any depth |
| SafeRegexMeaning.VerdictExactly | backend/src/shared/safe-regex.ts:22-99 | which risk is reported: the length first, then the first backreference or repeated group in reading order, then more than four unbounded quantifiers |
| SafeRegexMeaning.AcceptedNeverNests | backend/src/shared/safe-regex.ts:6-12 | an accepted pattern never nests repeating quantifiers; SafeRegexNesting.AcceptedQuantifierExactly covers the others |
| SafeRegexNesting.AcceptsByTerms | backend/src/shared/safe-regex.ts:22-99 | a pattern is accepted if and only if it is within the limits and, of all terms at any depth, none is a backreference and no repeated group alternates itself or holds another repeating quantifier at any depth |
| SafeRegexNesting.AcceptedQuantifierExactly | backend/src/shared/safe-regex.ts:6-12 | an accepted pattern holds a quantifier inside a repeated group if and only if one of these groups holds a quantifier that does not repeat |
| SafeRegexNesting.AcceptedAlternationExactly | backend/src/shared/safe-regex.ts:6-12 | an accepted pattern repeats an alternation at some depth if and only if a repeated group holds an alternating group without a repeating quantifier of its own |
| SafeRegexNesting.PromisesKeptExactly | backend/src/shared/safe-regex.ts:6-12 | a pattern is accepted and no repeated group in it holds a quantifier or an alternation if and only if it is within the limits, without backreferences, and every repeated group at any depth is a single sequence free of quantifiers and alternatives |
| SafeRegexNesting.NestedAlternationAccepted | backend/src/shared/safe-regex.ts:22-99 | the first pattern shown above is accepted and repeats an alternation |
| SafeRegexNesting.NestedQuantifierAccepted | backend/src/shared/safe-regex.ts:22-99 | the second pattern shown above is accepted and holds quantifiers inside a repeated group |
| StableJson.AscendingUnique | backend/src/shared/scenario-config.ts:600-600 | sorting makes the key order canonical: ascending sequences of the same keys are equal |
| StableJson.Injective | backend/src/shared/scenario-config.ts:597-605 | printed values can be read back: equal texts with what follows them have equal meaning and equal rests |
| StableJson.CanonicalExactly | backend/src/shared/scenario-config.ts:597-605 | two JSON values print alike if and only if they are equal up to the order of object keys at every depth |
| ConfigEdits.ChildExactly | backend/src/shared/scenario-config.ts:609-611 | a property is the value of a field of that name, or missing if there is none |
| ConfigEdits.GetAtStep | backend/src/shared/scenario-config.ts:609-611 | one more key of a path goes to that property of what is there, or to nothing below a missing or null value |
| ConfigEdits.GetSet | backend/src/shared/scenario-config.ts:609-624 | reading a path after writing it gives the written value, arrays on the way included |
| ConfigEdits.GetSetOther | backend/src/shared/scenario-config.ts:609-624 | writing a path leaves every path that is neither above nor below it as it was, arrays on the way included |
| ConfigEdits.SavedExactly | backend/src/shared/scenario-config.ts:609-624 | a written value is still there after saving as JSON text if and only if no array stands on the way to it |
| ConfigEdits.EditableApart | backend/src/shared/scenario-config.ts:630-669 | no editable path is a prefix of another |
| ConfigEdits.DiffConfigs | backend/src/shared/scenario-config.ts:748-756 | the loop collects the changes at the editable paths in their order |
| ConfigEdits.ChangesStep | backend/src/shared/scenario-config.ts:748-756 | each further path adds its change at the end if its values differ, and nothing otherwise |
| ConfigEdits.DiffShows | backend/src/shared/scenario-config.ts:748-756 | the diff shows a path if and only if its values differ in more than key order |
| ConfigEdits.EditIsTheDiff | backend/src/shared/scenario-config.ts:609-756 | one edit reads back, touches no other editable field, and is the whole diff, or no diff when the value is equal up to key order |
| CsvReader.ParseCsv | backend/src/modules/channels/csv.ts:4-42 | the loop over rows, row, field, quoting and position computes the reader's result, errors included; CsvGrammar says which that is |
| CsvGrammar.ReaderExactly | backend/src/modules/channels/csv.ts:4-42 | for every list of cells, bare or quoted, with rows ended by any mix of line feeds, carriage returns and both, with or without a last end and a byte order mark: the reader returns its rows without the blank ones, or an error exactly when they are too many or the text ends inside a quoted cell |
| CsvGrammar.EveryText | backend/src/modules/channels/csv.ts:4-42 | every text is the text of such a list |
| CsvGrammar.UnterminatedExactly | backend/src/modules/channels/csv.ts:39-39 | the unterminated-quote error comes if and only if the text ends inside a quoted cell with few enough rows before |
| CsvRoundTrip.CellSays | backend/src/modules/analysis/csv.ts:7-18 | each of the three cell printers writes its guarded content bare when it needs no quotes, or quoted |
| CsvRoundTrip.ContentExactly | backend/src/modules/analytics/csv.ts:5-14 | what each of the three printers says of each kind of value, and which text gets an apostrophe in front |
| CsvRoundTrip.QuotedExactly | backend/src/modules/analysis/csv.ts:7-18 | a cell is quoted if and only if it holds a comma, a quote or a line break or, in the analysis printer, begins or ends with white space |
| CsvRoundTrip.NoFormulaReadBack | backend/src/modules/analytics/csv.ts:5-14 | in what is read back from a printed grid, each row is the guarded cells of a row written, and a cell that begins like a formula is a number or, in the analytics printer, a time; in the admin printer none does unless a bare U+FEFF begins its header |
| CsvRoundTrip.AdminFormulaExactly | backend/src/modules/admin/csv.ts:2-11 | a cell read back from the admin printer begins like a formula if and only if a bare U+FEFF at the front of the header hid it |
| CsvRoundTrip.MarkedRoundTrip | backend/src/modules/analysis/csv.ts:25-27 | for every header and grid, reading what the analysis or analytics printer wrote gives the guarded cells with blank rows dropped, or the row-limit error exactly when they are too many |
| CsvRoundTrip.KeptAll | backend/src/modules/channels/csv.ts:14-19 | when no row is blank nothing is dropped: row by row the guarded cells |
| CsvRoundTrip.AdminLosesMark | backend/src/modules/admin/csv.ts:9-11 | a bare first header cell that begins with U+FEFF is read without it, and all else is read as written |
| CsvRoundTrip.AdminExactly | backend/src/modules/admin/csv.ts:2-11 | within the row limit the admin printer round-trips if and only if its header does not begin with a bare U+FEFF |
| Subsequences.LcsLength | backend/src/modules/analysis/evidence.ts:43-54 | the two-row table loop computes the recursive longest-common-subsequence length |
| Subsequences.LcsAchieved | backend/src/modules/analysis/evidence.ts:43-54 | that length is the length of a common subsequence |
| Subsequences.LcsBounds | backend/src/modules/analysis/evidence.ts:43-54 | no common subsequence is longer |
| Quotes.FindFragment | backend/src/modules/analysis/evidence.ts:63-85 | the two search loops compute the leftmost exact match, else the first fuzzy window |
| Quotes.FindExactly | backend/src/modules/analysis/evidence.ts:63-85 | a fragment is found if and only if some window is it, or is within the size limits and resembles it |
| Quotes.FindIsFirst | backend/src/modules/analysis/evidence.ts:63-85 | the place found is the end of the first exact occurrence, or without one that of the first window that passes, and there the smallest |
| Quotes.WindowLimits | backend/src/modules/analysis/evidence.ts:73-76 | windows have from 80% of the fragment's tokens, rounded down but at least one, to 125% rounded up and one |
| Quotes.ContentOfParts | backend/src/modules/analysis/evidence.ts:74-74 | the content tokens are kept part by part and in order; with Quotes.ContentOfOne they are those that are no fillers |
| Quotes.ResemblesExactly | backend/src/modules/analysis/evidence.ts:72-81 | a window resembles a fragment if and only if 85% of its tokens, or 90% of its content tokens, are common in order |
| Quotes.QuoteAppearsIn | backend/src/modules/analysis/evidence.ts:91-106 | the loop over fragments computes the greedy search |
| Quotes.Complete | backend/src/modules/analysis/evidence.ts:91-106 | fragments that occur in order without overlap are always found |
| Quotes.Sound | backend/src/modules/analysis/evidence.ts:91-106 | a quote that appears has ordered windows without overlap, each rendering its fragment |
| Quotes.ShortFragmentsExactly | backend/src/modules/analysis/evidence.ts:71-71 | fragments of fewer than four tokens appear if and only if they occur in order without overlap |
| Quotes.OnlyLastLongExactly | backend/src/modules/analysis/evidence.ts:91-106 | when all fragments but the last have fewer than four tokens, a quote appears if and only if it has ordered windows without overlap, each rendering its fragment |
| Quotes.LastMayBeNoisy | backend/src/modules/analysis/evidence.ts:91-106 | fragments of any length that occur in order without overlap, the last exactly or as a noisy rendering, are always found |
| Quotes.NoisyThenExactRejected | backend/src/modules/analysis/evidence.ts:63-106 | a quote of two fragments and a turn with ordered windows for both in which the greedy search does not find it |
| EvidenceGate.VerifyEvidence | backend/src/modules/analysis/evidence.ts:130-167 | the loop keeps the first six accepted items, cut to length, and drops the unsupported ones with their reasons |
| EvidenceGate.OneByOne | backend/src/modules/analysis/evidence.ts:138-165 | item by item: an unsupported one is dropped, one with the turn and normalized quote of an earlier supported one passes silently, any other is kept as long as fewer than six are |
| EvidenceGate.SupportedExactly | backend/src/modules/analysis/evidence.ts:138-158 | an item is supported if and only if it cites, with a quote, a whole number of an existing turn by the required speaker in which the quote appears |
| EvidenceGate.RejectionExactly | backend/src/modules/analysis/evidence.ts:138-158 | a dropped item is recorded with its turn, its quote and the first reason that applies |
| EvidenceGate.CutExactly | backend/src/modules/analysis/evidence.ts:162-164 | a kept item has its turn and its quote, cut to 500 characters with an ellipsis |
| EvidenceGate.Conservation | backend/src/modules/analysis/evidence.ts:130-167 | cited items are the kept, the dropped, the repeats and the overflow; there is overflow only behind six kept |
| EvidenceGate.KeptIsSound | backend/src/modules/analysis/evidence.ts:130-167 | every kept item cites an existing turn by the required speaker where its full quote appears, and no two kept items have the same turn and normalized quote |
| EvidenceGate.KeptExactly | backend/src/modules/analysis/evidence.ts:130-167 | something is kept if and only if some cited item is supported |
| EvidenceGate.ProcessEvaluation | backend/src/modules/analysis/scoring.ts:90-139 | the criteria are those judged one by one (EvidenceGate.GateExactly says how), the counters equal the dropped items, the downgraded criteria and the missing criteria, and the overall score is that of the gated scores |
| EvidenceGate.GateExactly | backend/src/modules/analysis/scoring.ts:93-133 | the last judgment of a criterion decides: it has a score if and only if that gives a number, does not call the evidence insufficient and cites something that holds; the score is that number cut off at 0 and 100, in tenths with halves rounded up |
| EvidenceGate.MissingExactly | backend/src/modules/analysis/scoring.ts:93-109 | a criterion without a judgment has no score and no evidence |
| EvidenceGate.OverallRestsOnEvidence | backend/src/modules/analysis/scoring.ts:111-139 | the overall score lies between any bounds, in tenths, on the surviving scores of positive weight |
| EvidenceGate.OverallRestsOnJudgments | backend/src/modules/analysis/scoring.ts:111-139 | any bounds, in tenths, on the numbers judged bound the overall score |
| Scoring.ComputeWeightedScore | backend/src/shared/scoring.ts:30-57 | the accumulating loops compute the weighted mean; it is absent exactly when evidence is insufficient, passing compares it with the passing score, and each criterion is listed with its weight, normalized weight and score |
| Scoring.PresentExactly | backend/src/shared/scoring.ts:51-53 | the overall score is present if and only if the weight with evidence is positive and its share of the total, plus 1e-9, reaches the minimum |
| Scoring.OverallBalances | backend/src/shared/scoring.ts:39-62 | the overall score is, in tenths with halves rounded up, the one number about which the scores with evidence balance by their weights |
| Scoring.ScoreOfLast | backend/src/shared/scoring.ts:25-44 | the last judgment of an id counts, cut off at 0 and 100 |
| Scoring.WeightsAre | backend/src/shared/scoring.ts:36-48 | the total weight sums the positive weights, the weight with evidence those of criteria with a score |
| Scoring.SumOfParts | backend/src/shared/scoring.ts:36-48 | the sums take every criterion once |
| Scoring.NormalizedAddUp | backend/src/shared/scoring.ts:36-49 | with a positive total the normalized weights of the list add up to one |
| Scoring.OverallBetween | backend/src/shared/scoring.ts:51-63 | rounding to tenths never leaves the range of the scores that count |
| Scoring.OverallMonotone | backend/src/shared/scoring.ts:39-53 | raising scores never lowers the overall score nor changes its presence |
| Scoring.OrderDoesNotMatter | backend/src/shared/scoring.ts:36-53 | reordering criteria, and judgments with distinct ids, changes nothing |
| Scoring.ScaleDoesNotMatter | backend/src/shared/scoring.ts:36-53 | multiplying all weights by a positive factor changes nothing |
| Weights.NormalizeWeights | backend/src/shared/scoring.ts:67-74 | the new weights are the rounded shares, the last adjusted |
| Weights.FixRounding | backend/src/shared/scoring.ts:76-85 | the last slot takes up the difference to 100, in place |
| Weights.SumIsExact | backend/src/shared/scoring.ts:66-85 | for every non-empty list the new weights sum to exactly 100.00 |
| Weights.RoundedExactly | backend/src/shared/scoring.ts:73-73 | each weight but the last is its share of the positive weights, in hundredths with halves rounded up |
| Weights.TotalOfParts | backend/src/shared/scoring.ts:68-68 | the total takes every weight once; with Weights.TotalOfOne negative ones count as none |
| Weights.NearTheShares | backend/src/shared/scoring.ts:73-83 | each weight but the last is within 0.005 of its exact share, the last within 0.005 for each of the others |
| Weights.EvenSplit | backend/src/shared/scoring.ts:69-72 | with no positive weight all get the even split rounded down, and the last at least the exact one |
| Weights.LastCanBeNegative | backend/src/shared/scoring.ts:76-85 | six criteria of weight 1 and a new one of weight 0 (frontend/src/components/scenarios/sections.tsx:512-540), all within the schema's 0 to 100, give the last one -0.02 |
| Weights.NegativeExactly | backend/src/shared/scoring.ts:76-85 | with a positive total the last weight is negative if and only if the roundings of the others together exceed its exact share |
| Weights.LastExactly | backend/src/shared/scoring.ts:73-83 | the last weight is its exact share less the roundings of all the others, summed share by share |
| Weights.NotNegative | backend/src/shared/scoring.ts:66-85 | no weight but the last is ever negative, and the last is not when its exact share is at least half a hundredth for each of the others or no weight is positive |
| Uses.Link.Consume | backend/src/modules/access/access.service.ts:262-278 | a use is taken if and only if the row is not revoked, not expired and below its limit if it has one; then the count rises by one, and nothing else changes |
| Uses.Link.GiveBack | backend/src/modules/access/access.service.ts:280-282 | the guarded decrement |
| Uses.Link.Revoke | backend/src/modules/access/share-links.service.ts:297-303 | a revocation is written once and stays |
| Uses.Link.Update | backend/src/modules/access/share-links.service.ts:259-284 | an update refuses a revoked link; otherwise mode and expiry are those given or kept, and the limit is one for a one-time link, else the one given, else none if the link was one-time, else kept |
| Uses.Link.Start | backend/src/modules/access/public-run.service.ts:183-219 | alone, a start hands over a session exactly when the row is not revoked, not expired, below its limit if it has one, and both writes of the creation are made; the row is as before after a failed start unless its give-back is lost, and a session row stands exactly when the first write was made |
| Uses.StatusExactly | backend/src/modules/access/share-links.service.ts:46-51 | each status on the fields of the row: a revocation before an expiry, and that before the limit |
| Uses.StartIsARun | backend/src/modules/access/public-run.service.ts:183-219 | alone, a start is a run of the machine that ends as the method does |
| Uses.UnlimitedServesAll | backend/src/modules/access/public-run.service.ts:183-204 | a row without a limit that is not revoked serves everybody who comes before its expiry, in every interleaving of starts |
| Uses.LimitServes | backend/src/modules/access/public-run.service.ts:183-204 | a row with a limit serves everybody as long as the uses taken leave room |
| Uses.OneTimeHasLimitOne | backend/src/modules/access/share-links.service.ts:259-284 | in every interleaving of updates a one-time link has the limit one |
| Uses.UpdatesSetLimits | backend/src/modules/access/share-links.service.ts:259-284 | an update that gives nothing changes nothing, a limit given is set, and one-time mode brings its limit and takes it away |
| Uses.UsesAreConserved | backend/src/modules/access/public-run.service.ts:183-219 | in every interleaving the use count is sessions handed over, starts under way and failed starts whose give-back was lost; it and the sessions handed over never exceed the largest limit ever in force, and a start under way always finds something to give back |
| Uses.TokenWithinLimit | backend/src/modules/access/access.service.ts:298-314 | a token's sessions handed over, starts under way and lost uses never exceed its limit |
| Uses.RowsAccounted | backend/src/modules/runtime/sessions.service.ts:123-160 | in every interleaving the session rows are the uses counted, less those without a row, plus the rows whose failed start gave its use back |
| Uses.TwoRowsOnOneUse | backend/src/modules/access/access.service.ts:298-314 | a one-time token on which two starts leave two session rows, the first having failed after its row and given the use back |
| Uses.RowsWithinLimitExactly | backend/src/modules/access/access.service.ts:298-314 | on a usable token the session rows stay within the limit in every continuation without another such refund if and only if such refunds so far do not outnumber the uses lost without a row |
| Uses.RowsWithinLimitWithoutRefunds | backend/src/modules/access/access.service.ts:298-314 | session rows stay within the limit in every run in which no failed start leaves its row and gives the use back |
| Uses.NothingAfterRevocation | backend/src/modules/access/share-links.service.ts:297-303 | after a revocation nothing is consumed, whatever updates were under way, and only starts under way can still add session rows |
| Uses.NothingAfterExpiry | backend/src/modules/access/access.service.ts:262-272 | after the expiry nothing is consumed while no update moves it; other updates may come |
| Meeting.PathIsLegal | backend/src/modules/channels/meeting-session.ts:54-73 | every route climbs in rank, and continues the same from its first state |
| Meeting.RouteExactly | backend/src/modules/channels/meeting-session.ts:54-73 | there is a route to ACTIVE and CANCELLED exactly from CREATED, READY and CONNECTING, to COMPLETED exactly from CONNECTING, ACTIVE and ENDING, to FAILED exactly from these five, and from each state to itself |
| Meeting.PathIsShortest | backend/src/modules/channels/meeting-session.ts:53-73 | every route is the one shortest path of the transition table |
| Meeting.Session.Transition | backend/src/modules/channels/meeting-session.ts:20-51 | alone, it moves exactly when there is a route, along the shortest path of the table; ACTIVE is stamped and told as the start unless it was before, a terminal state as the end; otherwise nothing changes |
| Meeting.MeetingHistory | backend/src/modules/channels/meeting-session.ts:20-51 | with any number of callers the winning hops are one legal path from CREATED with no state entered twice; a terminal hop is the last; each of the two events is emitted at most once |
| Meeting.EventsExactly | backend/src/modules/channels/meeting-session.ts:20-51 | if no caller dies, then once all have left, the start has been told exactly if ACTIVE was entered and the end exactly if the row is terminal |
| Meeting.TransitionIsARun | backend/src/modules/channels/meeting-session.ts:20-51 | alone, a transition is a run of the machine that ends as the method does |
| Meeting.NothingAfterwards | backend/src/modules/channels/meeting-session.ts:39-40 | once terminal, the row never moves again |
| DialerService.Batch.Start | backend/src/modules/channels/batches.service.ts:204-223 | alone, a start accepts exactly a batch not started, blocked or scheduled that has a pending target, and writes the blocked, scheduled or running status |
| DialerService.Batch.Tick | backend/src/modules/channels/batches.service.ts:240-302 | alone, a tick of a running batch, or of a scheduled one that is due, dials the first pending targets into the free slots, stops when the provider is unavailable, and finishes the batch exactly when nothing is open |
| DialerService.LoopExactly | backend/src/modules/channels/batches.service.ts:263-293 | the loop calls exactly the pending targets among the first free slots before the provider is unavailable, each once; their rows are dialing if the call was placed and failed if not, the others as before |
| DialerService.LoopCounts | backend/src/modules/channels/batches.service.ts:263-293 | it counts the calls that were placed |
| DialerService.SweepExactly | backend/src/modules/channels/batches.service.ts:254-261 | before the loop the stuck targets in flight are failed, and there is a slot for each call that fits into the concurrency |
| DialerService.TickIsARun | backend/src/modules/channels/batches.service.ts:240-302 | alone, a tick is a run of the machine that ends as the method does |
| DialerService.StartIsARun | backend/src/modules/channels/batches.service.ts:204-223 | alone, a start is a run of the machine that ends as the method does |
| DialerService.Batch.Cancel | backend/src/modules/channels/batches.service.ts:225-232 | a cancellation skips what is pending unless the batch is over |
| DialerService.SkipExactly | backend/src/modules/channels/batches.service.ts:228-228 | a cancellation skips the pending targets and no others |
| DialerService.CancelIsARun | backend/src/modules/channels/batches.service.ts:225-232 | alone, a cancellation is a run of the machine that ends as the method does |
| DialerService.Batch.OnCallOutcome | backend/src/modules/channels/batches.service.ts:305-316 | an outcome closes a target that is in flight and no other |
| DialerService.OutcomeIsAStep | backend/src/modules/channels/batches.service.ts:305-316 | an outcome is one step of the machine with the same effect |
| Dialer.DialedAtMostOnce | backend/src/modules/channels/batches.service.ts:263-293 | over all interleavings each target is claimed and dialed at most once, never returns to pending, and stays closed once closed |
| Dialer.CompletedMeansClosed | backend/src/modules/channels/batches.service.ts:294-298 | a tick reports completion only when nothing is pending, dialing or in progress, then or later |
| Dialer.NothingAfterCancel | backend/src/modules/channels/batches.service.ts:225-232 | nothing is claimed once a cancellation has skipped what was pending |
| Dialer.OverStaysExactly | backend/src/modules/channels/batches.service.ts:225-298 | in every interleaving a batch that is completed or cancelled stays so in all further runs if and only if no process is left that read an older status and can still write one |
| Dialer.CancelledIsOverwritten | backend/src/modules/channels/batches.service.ts:225-253 | a run in which a cancelled batch is blocked by the tick that was under way |
| Dialer.ClaimLoopEnds | backend/src/modules/channels/batches.service.ts:263-268 | whatever the others do, a claim loop makes at most as many turns as there were pending targets when it began |
| Dialer.ConcurrencyIsKept | backend/src/modules/channels/batches.service.ts:260-268 | when ticks do not overlap, rows in flight never exceed the batch's concurrency |
| DialerService.LoopIsARun | backend/src/modules/channels/batches.service.ts:263-293 | the claim loop on its own is a run of the machine |
| DialerService.LoopFills | backend/src/modules/channels/batches.service.ts:263-293 | a tick that is not cut short uses all its slots or leaves nothing pending |

## Left out

- PipelineSafety.ApplyKeeps: retries are taken only where PipelineSafety.RetrySafe holds, because elsewhere the code breaks the invariant (see above).
- PipelineTheorems.TerminalJobsFormAPrefix: for runs with safe retries, because it is false after others; likewise BodiesStartInOrder and FinalMeansAllTerminal. PipelineOvertaking.RetryKeepsPromisesExactly has the exact condition with nobody at work.
- PipelineService.Session.RetryStep: on its own. Interleavings between its reads and its transaction are those of PipelineAlways.Race.
- PipelineRaces.LateRetrySettlesExactly: when a restart has come and its generation has its final status but somebody is still at work, only a sufficient condition is given (somebody still brings it on).
- PipelineVerdict.RetryEndsRightExactly: for retries while nobody is at work, over steps and deliveries.
- PipelineService.SweepAll: the sessions are given, so the limit of 200 and the order of the queries are not modelled; a start that fails is not caught.
- PipelineRecovery.OneSweepRecovers: says nothing about a second death or loss after the sweep; another sweep then recovers again.
- PipelineProgress.CrashFreeRunsFinish: for runs whose retries are timely, because it is false after others; PipelineRecovery.RetrySettlesExactly has the exact condition.
- Two workers that hold one job id: the queue's lock is assumed to exclude them.
- Error texts, timestamps, the result payloads of steps, and scores in events.
- The reads behind a reason to skip (state, consent, configuration, transcript): one free choice of the environment.
- SafeRegexMeaning.AcceptsExactly: escapes are one character, so `\u{41}` reads as an escape and a quantifier, as the scanner itself reads it. Characters stand for UTF-16 code units.
- The pattern tester with its time budget: it runs a regular expression, which is not modelled.
- StableJson.CanonicalExactly: values are JSON values, so `undefined` does not occur; a number is its canonical text; lone surrogates do not occur; keys are ordered by character, not by UTF-16 code unit, which affects no result.
- ConfigEdits.SetAt: works on values, so the copy and its update in place are not modelled; path segments are names of plain properties, not indices or `length`.
- Reading array indices, string lengths and inherited properties through a path.
- Column recognition and row checks of outbound-call uploads on top of the CSV reader: field copying and one first-wins filter.
- CsvRoundTrip.MarkedRoundTrip: the texts of numbers, times and structures are given; of numbers and times only the characters they may hold are used.
- Tokenizing and normalizing text, the words that name a speaker, the redaction of protected traits, rationales, summaries and notes.
- EvidenceGate.VerifyEvidence: a quote comes with its normalized text and the tokens of its fragments.
- Scoring.ComputeWeightedScore: arithmetic is exact; IEEE rounding noise is not modelled and the tolerance of 1e-9 is kept as a constant.
- Weights.NormalizeWeights: arithmetic is exact, in hundredths.
- Uses.Link.Update: passcodes, labels, identity settings and validation; an update's read and write are separate steps only in the interleavings.
- Per-email attempt limits, rate limits and passcode locks of links.
- Meeting.Session.Transition: reasons, durations and error fields of a session, and states that only the conversation engine enters.
- Dialer.DialedAtMostOnce: the targets of a batch are fixed; uploads and their replacement of pending rows are not modelled.
- Dialer.ConcurrencyIsKept: counts rows, so a call still ringing after its row was given up as stuck is not counted; overlapping ticks are excluded.
- DialerService.Batch.Tick: the delays of the ticks it enqueues.
- Queue, database, telephony, meeting-bot and model-provider internals: each is an atomic operation or a free choice.
