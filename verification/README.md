# A verified model of the Top50 rule-bug benchmark

The benchmark lets a language model look for bugs in problem reductions. A run has a triage phase, in which
the model freezes a shortlist of rules, and then one fresh episode per rule. Every episode has logical budgets
(model generations, shell actions, `pred` calls, `solve` calls, two submit attempts), evaluation-owned ledgers
of everything that was charged, and compact previews of all process output. A validator later recounts those
ledgers from the artifact alone. This project models both halves and proves where they meet.

`dafny verify dfyconfig.toml` checks everything. No file depends on anything outside this directory.

## How the model is organised

- **Output pipeline.** `Capture` (head/tail buffers as a class), `Lines` (normalisation), `Selection` and
  `Greedy` (which lines are shown), `Preview` (both streams under one limit), `PreviewText` (what the preview tells a
  reader), `Observations` (raw log, header, metadata, the store as a class). Text cleaning, the diagnostic test and JSON re-serialisation are arbitrary
  functions, collected in `Policy`.
- **Budgets and the gateway.** `Budget` (atomic reservations), `CommandLine` (what a command line is charged
  for). `Gateway` is a transition system: each worker has a program counter, each step is one critical section
  or one process run, and any worker may step at any time. A status snapshot is a parameter of the step that
  records it, because the code takes it in a critical section of its own. `GatewaySafety`, `GatewayBalance` and
  `GatewayReplay` are about all interleavings; `GatewaySession` is the session object, whose methods are one of
  them. `Processes` leads from the reads of a process's pipes through capture and packaging to what gateway and
  sessions are told.
- **Submission.** `Submit` (the judge as functions and as a class), `Spool` (clients that publish, time out and
  retry, and the one service thread).
- **Sessions.** `Episode` puts gateway, model events, shell events and submissions into one transition system;
  `EpisodeSession` and `Triage` are the session classes. `LedgerJson` and `TriageAgreement` say what artifact
  they leave, `LedgerContents` that it loses nothing.
- **Validator.** `Json` models parsed JSON with the Python behaviour the validator relies on: `dict.get`,
  equality across `bool`, `int` and `float`, truthiness, hashability. Field names are an enumeration with
  `KOther` for every other name. `Contract`, `ObservationContract`, `TriageContract` and `Submission` are the
  `_validate_*` functions as methods with the source's loops; an outcome `Raised` stands for a Python
  exception. The messages in the problem list are an enumeration without the ledger label.
- **Where they meet.** `LedgerReading` models how a ledger is taken: in six reads after the first, with steps of
  gateway workers and the submit service in between. `Agreement`, `ObservationAgreement`, `EpisodeAgreement`,
  `TornLedger`, `TriageAgreement`, `Runner`, `EndToEnd`; consequences for arbitrary artifacts in `Soundness`,
  `Scoring` and `Acceptance`, which says field by field what an accepted artifact contains.
- **The rest.** `Verifier` (certificates over an abstract `pred`), `Leaderboard`, `Benchmark` (the released
  numbers, instantiated last). All other modules use general limits and a general shortlist length.

Parameters that stand for the outside world: what a process prints and returns, or that it could not be
started (with or without `E2BIG`, or because `Popen` raised `ValueError`); what the certificate verifier answers or that it raised; request bytes as
text, which also serves as their fingerprint; what the executor does; which `pred` calls of the certificate
verifier fail or time out.

## What the proofs found

These expectations are false of the code as it is; the model keeps the code and the project states the exact
condition.

- A `pred` call whose process cannot be started gives its reservation back, but its record stays `charged`.
  Every ledger taken at rest with such a record is rejected (`EpisodeAgreement.ReleasedCallIsRejected`,
  `EpisodeAgreement.ProducerMeetsValidator`).
- No budget keeps the pred ledger within the validator's bound of one record more than shell actions: granted,
  refused and free calls all append a record. For all limits, any calls of that number that the cache does
  not answer leave a rejected ledger (`EpisodeAgreement.EveryBudgetAllowsRejectedRuns`, `Benchmark.ReleasedBudgetAllowsRejectedRuns`).
- Replay at the gateway is idempotent only without overlap: two overlapping copies of one request are both
  recorded as charged (`GatewayReplay.OverlapChargesTwice`). If both got as far as a log, the second could not
  create it, ends as an infrastructure error and gives its reservation back; two charges survive exactly if
  neither copy failed for a reason that is not the caller's and not both got that far.
- An exception other than an `OSError` (a NUL character in an argument, the renderer's assertion) aborts a call,
  charged or free: its record reads `running` for ever, and the request is charged and recorded a second time
  under the same id if a pred call is left (`GatewaySession.EscapedCallNet`). The ledger is then rejected, and
  accepted exactly if none is left (`EpisodeAgreement.AbortedCallIsRecordedTwice`).
- The ledger is taken before the gateway pool is joined, and not in one piece: pred records, counters and submit
  session are read one after the other while workers go on. It is accepted exactly if the counters, when they
  were read, equal the recount of the records when those were read, and no attempt came in between
  (`EpisodeAgreement.AgreementOverReading`). That the books are balanced at one of the moments, or at both, is
  neither enough nor needed (`TornLedger.BalancedMomentsRejected`, `TornLedger.UnbalancedMomentsAccepted`).
- `reserve` overspends and `release` underflows if a counter is named twice (`Budget.RepeatedNameOverspends`,
  `Budget.RepeatedNameUnderflows`); no caller does that.
- A preview limit of 256 is accepted by the configuration but makes the renderer raise
  (`Observations.MinimumPreviewTooSmall`); `Preview.CompactOutput` has the exact condition.
- The triage sequence check rejects every ledger in which any generation or action follows the commit
  (`TriageAgreement.SequenceCheckAgrees`).
- A verifier error at submit is remembered: repeating the request never reaches the verifier again
  (`Submit.VerifierErrorConsumesNothing`).
- A submit client whose request id is reused for another payload can be handed the refusal meant for that
  payload, whatever it requested (`Spool.ReusedIdMisdelivers`). Clients can trust their replies exactly if an id
  is used for one payload (`Spool.StoredRepliesExactly`).
- The runner lays metadata over its result last, so metadata can claim rankability
  (`Runner.MetadataCanClaimRankability`; `Runner.RankableExactly` has the exact condition); an error with an empty message goes unnoticed
  (`Runner.EmptyErrorIsNoError`).

## Model

| member | source | states |
|---|---|---|
| Capture.StreamCapture.TrimTail | benchmark/process_control.py:62-68 | the trimming loop terminates and leaves exactly the last `tail_limit` characters of what the tail list held |
| Capture.StreamCapture.Add | benchmark/process_control.py:49-68 | after every chunk the head list is the first `head_limit` characters of the whole stream and the tail list the last `tail_limit` characters of the rest; counters describe the whole stream |
| Capture.StreamCapture.Drain | benchmark/process_control.py:92-98 | reading until end of file leaves the buffers of the concatenated stream, whatever the chunks |
| Capture.StreamCapture.Result | benchmark/process_control.py:70-76 | text, line count and truncation flag are functions of the concatenated stream alone |
| Capture.CaptureStream | benchmark/process_control.py:92-104 | one reader with its capture gives the text, size, line count and truncation flag of everything read before end of file |
| Capture.CaptureProcess | benchmark/process_control.py:79-104 | the same for two pipes under one limit, split in halves or merged |
| Capture.RetainedLength | benchmark/process_control.py:70-76 | nothing is lost unless the stream exceeds what may be retained, and then exactly as many characters are missing as the marker counts |
| Capture.BothEndsAreKept | benchmark/process_control.py:37-76 | a stream that is cut keeps as much of its beginning as of its end, and says behind them how many characters are missing |
| Capture.LimitsAreShared | benchmark/process_control.py:79-104 | two pipes share the limit in halves, one pipe has all of it |
| Capture.UntilEofIsPrefix | benchmark/process_control.py:92-98 | what is captured are the reads before the first empty one |
| Lines.NormalizeLines | benchmark/observation_policy.py:170-188 | the result is the run-length normal form of the cleaned physical lines, and the change flag is set exactly if some line was altered or merged |
| Lines.NormalizeRoundTrip | benchmark/observation_policy.py:170-188 | expanding every line by its repeat count gives back the cleaned physical lines, and repeat counts add up to their number |
| Lines.NormalFormUnique | benchmark/observation_policy.py:170-188 | ranges that tile 1..N with differing neighbours determine the normal form |
| Lines.PhysicalExact | benchmark/observation_policy.py:170-175 | the lines have no newline in them, and joined they are the text but for its last newline |
| Lines.AfterReturnExact | benchmark/observation_policy.py:176-178 | of a line with carriage returns exactly what follows the last one is kept |
| Selection.Conservation | benchmark/observation_policy.py:238-256 | for any selection, markers and shown lines together account for every original line, every marker counts at least one line, and exactly the selected lines are shown |
| Selection.RenderingConserves | benchmark/observation_policy.py:238-256 | the same for the rendering of a whole normalised text |
| Selection.RenderSelected | benchmark/observation_policy.py:238-256 | the loop over sorted indices with line-number arithmetic produces the reference rendering |
| Greedy.TryAdd | benchmark/observation_policy.py:228-235 | an index is added exactly if it is in range, new, and the rendering with it still fits |
| Greedy.ChosenGrows | benchmark/observation_policy.py:200-221 | diagnostics are contained in the context of distance one, that in the context of distance two, that in the final selection, and each of them fits the budget |
| Greedy.DiagnosticsFirst | benchmark/observation_policy.py:207-221 | only later diagnostics can keep a diagnostic out; context, head and tail lines never displace one |
| Greedy.LatestDiagnosticShown | benchmark/observation_policy.py:207-210 | the latest diagnostic is shown whenever rendering it alone fits |
| Greedy.ContextIsNear | benchmark/observation_policy.py:209-213 | the first stage chooses only diagnostics, and the next two only lines at most one and two lines from a diagnostic |
| Greedy.ContextIsTried | benchmark/observation_policy.py:211-213 | a line one or two lines from a diagnostic is chosen unless there is no room, and then only diagnostics and context that is no farther take its place |
| Greedy.EdgesFirst | benchmark/observation_policy.py:215-221 | every line is chosen unless there is no room, and then only diagnostics, their context and lines no farther from an end take its place |
| Greedy.AddEdges | benchmark/observation_policy.py:216-221 | the head/tail loop with its early exit, which compares a line count with a character limit, selects the same set as trying all lines |
| Preview.SelectLines | benchmark/observation_policy.py:200-225 | it raises exactly if neither all lines nor a bare omission marker fit the limit; otherwise the result fits and is the rendering of the greedy selection |
| Preview.CompactStream | benchmark/observation_policy.py:141-152 | one stream's part: it succeeds exactly if the share holds its lines or a marker, stays within the share, and reports compaction exactly when the text changed |
| Preview.CompactOutput | benchmark/observation_policy.py:134-156 | it raises exactly if some stream's share cannot hold a marker or the limit cannot hold the heading; otherwise the body never exceeds the limit |
| Preview.MarkerSharesSuffice | benchmark/observation_policy.py:134-156 | if each stream's share holds an omission marker for all its lines, both internal assertions are unreachable |
| Preview.SmallLimitOverflows | benchmark/observation_policy.py:134-156 | up to a limit of 81, four lines of output and anything on the error stream always overflow |
| PreviewText.SelectedTextsRead | benchmark/observation_policy.py:191-256 | every entry can be read back: the number, the text (whole up to 600 characters, else its first and last 300) and the repetitions of a shown line, the count of a marker; and read one after the other they walk over the whole output |
| PreviewText.ShownTextIsTheOutputs | benchmark/observation_policy.py:170-188 | the text a line shows is that of the stream, cleaned, on each of the original lines its number and repetitions name |
| PreviewText.NotCompactedIsVerbatim | benchmark/observation_policy.py:141-152 | a stream counts as not compacted exactly if it is no JSON, its lines are left as they are and all fit; then its entries are those very lines |
| PreviewText.BodyIsVerbatim | benchmark/observation_policy.py:134-156 | a preview counts as not compacted exactly if that holds of every stream it shows |
| PreviewText.BodyReads | benchmark/observation_policy.py:134-156 | the body is the entries of the output stream under its heading, then those of the error stream under its own if anything was written to it, without the white space at the end, and one newline |
| PreviewText.HeaderReads | benchmark/observation_policy.py:95-101 | the header reads back as id, return code, timeout flag, path of the log, sizes, and whether the log is complete |
| PreviewText.ShareIsLargest | benchmark/observation_policy.py:139-149 | each stream gets the largest equal share that headings and separators leave |
| Observations.CapturedPairFitsArchive | benchmark/evidence_budget.py:406-440 | two captured streams with the timeout note and the log headings always fit the archive limit they were captured under, so the archive is not truncated a second time |
| Observations.CapturedShellFitsArchive | benchmark/agent_environment.py:41-63 | the same for shell actions, whose error pipe is merged: the log is the captured text itself |
| Observations.BoundedTextFits | benchmark/observation_policy.py:124-131 | a truncated archive fits its limit whenever the limit holds the marker |
| Observations.LogHoldsBothStreams | benchmark/observation_policy.py:118-121 | the log holds both streams whole, the output first, under headings if there are two |
| Observations.NoteStandsAlone | benchmark/evidence_budget.py:427-431 | the timeout note stands at the end, on a line of its own, behind all that the call wrote |
| Observations.ArchiveKeepsBothEnds | benchmark/observation_policy.py:124-131 | a log that is cut keeps both its ends in equal parts around the marker |
| Observations.MinimumPreviewTooSmall | benchmark/observation_policy.py:27-29 | the smallest accepted preview limit makes the renderer raise for a call with four lines and an error stream |
| Observations.ObservationStore.Package | benchmark/observation_policy.py:64-115 | the exact condition of each exception; otherwise the preview is within its limit, metadata describe the result, ids are numbered, and a log is written at most once |
| Text.ShellIdValid | benchmark/observation_policy.py:71-73 | generated shell ids match the id pattern exactly up to 9999 |
| Text.IdsAreGenerated | benchmark/observation_policy.py:71-73 | the id patterns accept exactly the ids that are generated: shell numbers below ten thousand and request ids of 32 hexadecimal digits |
| Processes.RunPred | benchmark/evidence_budget.py:406-440 | from the reads of the pipes to the run the gateway is given: metadata that tell the truth about return code, timeout, sizes and truncation within both limits, under the id and command of the call, with everything the capture kept in the log; a second log for the id is an operating-system error, and an unrenderable preview or an unpassable argument is what escapes, with the exact conditions |
| Processes.RunAsAgent | benchmark/agent_environment.py:41-63 | the same for a shell action: numbered next, true to the merged stream, within both limits, logged exactly as captured, and refused exactly from the ten-thousandth observation on |
| Budget.EvidenceBudgetState.Reserve | benchmark/evidence_budget.py:79-90 | all named counters or none; granted exactly if every one has room |
| Budget.EvidenceBudgetState.Release | benchmark/evidence_budget.py:92-99 | raises exactly if some named counter is at zero, and then changes nothing; otherwise it takes one off for every occurrence of a name |
| Budget.ReserveKeepsLimits | benchmark/evidence_budget.py:79-90 | a granted reservation of distinct names stays within the limits |
| Budget.ReserveWithRepeats | benchmark/evidence_budget.py:85-89 | in general it stays within the limits exactly if no name occurs more often than its counter has room |
| Budget.RepeatedNameOverspends | benchmark/evidence_budget.py:85-89 | with room for one of each every list of names is granted, and the limits are kept exactly if no name is repeated |
| Budget.RepeatedNameUnderflows | benchmark/evidence_budget.py:92-99 | the check of a release is enough for distinct names, and from one of each it lets a repeated name take its counter below zero |
| Budget.ReleaseUndoesReserve | benchmark/evidence_budget.py:79-99 | releasing what was reserved restores all counters, for any list of names |
| CommandLine.FindCommandName | benchmark/evidence_budget.py:697-714 | the loop with its skip flag finds the first word that is neither a global option nor an option value |
| CommandLine.GlobalOptionsTransparent | benchmark/evidence_budget.py:697-714 | no run of global options, however long and with whatever values, changes the command name |
| CommandLine.Counters | benchmark/evidence_budget.py:335-337 | no call reserves a counter twice, which `reserve` relies on |
| CommandLine.SolveBehindOptionsIsCharged | benchmark/evidence_budget.py:335-337 | a solve behind global options reserves both counters unless it asks for help |
| CommandLine.ChargedByFirstWord | benchmark/evidence_budget.py:697-724 | on the words themselves: behind any options, and unless a word asks for help or the version, `help` is free, `list` is free with `--rules` anywhere, and everything else reserves one pred call, and a solve call too exactly if the word is `solve` |
| CommandLine.OptionsAloneAreCharged | benchmark/evidence_budget.py:697-724 | options without a command are charged as a pred call, also when the value of the last one is missing |
| CommandLine.HelpIsFree | benchmark/evidence_budget.py:717-721 | nothing at all, or a word that asks for help or the version anywhere, makes a call free |
| CommandLine.EveryCallSplits | benchmark/evidence_budget.py:697-714 | every command line is options and then a first word, or nothing, or an option without its value, so these cases are all |
| CommandLine.CommandReadsBack | benchmark/evidence_budget.py:435 | the command text a call is recorded under gives its arguments back when it is read as a shell reads words, whatever characters are in them |
| CommandLine.QuotedIfNeeded | benchmark/evidence_budget.py:435 | an argument is quoted exactly if it is empty or has a character that needs it |
| GatewaySafety.Safety | benchmark/evidence_budget.py:314-396 | under every interleaving, with calls aborted anywhere: counters within limits, solves within preds, pred use equals carried reservations plus settled charged records, and at rest the charged records that did not end in an infrastructure error |
| GatewaySafety.EventKeeps | benchmark/evidence_budget.py:314-396 | every step of every worker keeps accounts, records, the ownership of unfinished records, and that each request id is observed at most once |
| GatewaySafety.NeverStuck | benchmark/evidence_budget.py:354-357 | in reachable states no worker is stuck; the release after a failure never finds a counter at zero |
| GatewaySafety.RestIsSettled | benchmark/evidence_budget.py:350-378 | at rest no record has a worker left that would finish it: one that still reads running was abandoned to an exception |
| GatewayBalance.ChargedRecordsAnytime | benchmark/evidence_budget.py:335-378 | at every moment of every run the records marked charged and the reservations without a record yet exceed the counters by exactly the charged failures and the releases whose records are not finished, for pred and for solve calls |
| GatewayBalance.RunningAreOwned | benchmark/evidence_budget.py:350-378 | charged records that are running and workers that run a charged call are in one-to-one correspondence |
| GatewayReplay.OverlapChargesTwice | benchmark/evidence_budget.py:272-289 | two overlapping copies of any charged call, whatever their processes do: at rest both are recorded as charged under one id, and the counters hold two charges of theirs exactly if neither failed to start for a reason that is not the caller's and not both got as far as a log, since the second cannot create it; if an exception aborts the first, a third charged record follows exactly if there is room |
| GatewayReplay.DoubleChargeNeedsModelError | benchmark/observation_policy.py:78-88 | in every run at most one record of a request id says that its process ran, and of two that keep their charges at rest one is the caller's fault or abandoned |
| GatewayReplay.SerialReplay | benchmark/evidence_budget.py:270-290 | if an id is claimed only while no worker is busy with it and no call is aborted, stored responses never change and ids in the ledger stay distinct |
| GatewayReplay.AtMostOneRecordPerId | benchmark/evidence_budget.py:270-290 | from an empty gateway such runs leave at most one record per id |
| GatewayReplay.StoredResponseIsReplayed | benchmark/evidence_budget.py:272-285 | once a response is stored, a replay returns it in one step and changes nothing, and another payload is refused and changes nothing |
| GatewaySession.PredGatewaySession.AppendPredRecord | benchmark/evidence_budget.py:462-474 | the ledger grows by exactly the next numbered record |
| GatewaySession.PredGatewaySession.FinishPredRecord | benchmark/evidence_budget.py:476-482 | only the worker's own record changes, in outcome, return code, budget and observation |
| GatewaySession.PredGatewaySession.HandleInvalidArgs | benchmark/evidence_budget.py:380-396 | a wrong request is charged as a pred call, in the steps of its worker |
| GatewaySession.PredGatewaySession.Handle | benchmark/evidence_budget.py:314-378 | status, unknown operations, wrong arguments and calls each have the effect of their worker run without interruption, also when an exception leaves the call |
| GatewaySession.PredGatewaySession.HandleCall | benchmark/evidence_budget.py:327-378 | command name, free calls and the cache look-up, as the worker's steps |
| GatewaySession.PredGatewaySession.ReserveCall | benchmark/evidence_budget.py:335-351 | reservation, refusal and running record, as the worker's steps |
| GatewaySession.PredGatewaySession.FinishCall | benchmark/evidence_budget.py:352-378 | the process is run and packaged; outcome, release, finished record and cache entry, or the abandoned record, as the worker's steps |
| GatewaySession.PredGatewaySession.Invoke | benchmark/evidence_budget.py:406-440 | what the gateway is told is what the process and the observation store delivered, and the logs grow by exactly this id if one was written |
| GatewaySession.PredGatewaySession.LookUp | benchmark/evidence_budget.py:272-285 | a stored response for the same payload, a collision for another one, or nothing, as the worker's step |
| GatewaySession.PredGatewaySession.HandleInvalidEnvelope | benchmark/evidence_budget.py:292-312 | a wrong envelope, or a request whose handling was aborted, is looked up under its own fingerprint, charged, answered and stored, as the worker's steps |
| GatewaySession.PredGatewaySession.Process | benchmark/evidence_budget.py:253-312 | one request file handled from start to end, whatever its process does, is its worker run without interruption on a run that the process pipeline delivered |
| GatewaySession.SessionCallIsRun | benchmark/evidence_budget.py:253-312 | what the session object does is one of the gateway's interleavings, so everything proved of all runs holds of it |
| GatewaySession.GrantedCallNet | benchmark/evidence_budget.py:335-378 | the net effect of a granted call, charged or free, that is not aborted: one record with its outcome, and the reservation kept unless the process could not be started or the id was already logged; then the counters are as before but the record still says charged; a free call that exited with 0 is cached |
| GatewaySession.RefusedCallNet | benchmark/evidence_budget.py:337-348 | the net effect of a whole refused request: no counter moves, nothing is cached or logged, 75 is answered and stored, and a well-formed call leaves exactly one uncharged record where a wrong request leaves none |
| GatewaySession.EscapedCallNet | benchmark/evidence_budget.py:253-312 | the net effect of a granted call, charged or free, that an exception aborts: a record that reads running for ever, and a charged one under the same id exactly if a pred call is left; a replay of the same request is then a collision |
| GatewaySession.RecordedCallNet | benchmark/evidence_budget.py:335-378 | every call that the cache does not answer leaves exactly one record under its id, whether granted or refused, charged or free, and at most one more if an exception aborts it; only its own success can add to the cache |
| GatewaySession.RequestCosts | benchmark/evidence_budget.py:314-378 | a whole request costs what its words say: with room the counters go up by exactly its price and its record says whether it has one, a failure that is not the caller's costs nothing, and without room nothing is charged and 75 is answered |
| GatewaySession.GrantedCallIsReported | benchmark/evidence_budget.py:350-378 | answer and record of a granted call have the return code and observation of its process, the outcome they imply, or 2 and the caller's fault exactly for E2BIG |
| GatewaySession.FreeResultIsReplayed | benchmark/evidence_budget.py:330-334 | an equal free call under another id gets the very answer of the first that exited with 0, without record, log or charge |
| GatewaySession.OtherOperationsAreAnswered | benchmark/evidence_budget.py:315-321 | status requests and unknown operations are answered with the counters as they are and change nothing else |
| GatewaySession.WrongRequestIsCharged | benchmark/evidence_budget.py:253-325 | no JSON object, no list of words, or more than two million characters of them: the request costs a pred call and leaves one record without its words, or is refused and leaves none |
| Submit.SubmissionSession.AppendAttempt | benchmark/submit_session.py:330-349 | one more numbered attempt; acceptance closes the session |
| Submit.SubmissionSession.RecordRejection | benchmark/submit_session.py:319-328 | a malformed request is an attempt unless the session is closed or out of attempts |
| Submit.SubmissionSession.Handle | benchmark/submit_session.py:260-317 | the verifier is reached only by a certificate object for the expected rule, and its error leaves the ledger alone |
| Submit.SubmissionSession.Answer | benchmark/submit_session.py:224-258 | one request with its idempotence layer; the session invariant is kept |
| Submit.ServeKeeps | benchmark/submit_session.py:224-349 | attempts are numbered from 1 within the limit, at most one is accepted and it is last, closed holds exactly then, one attempt per id, and stored replies never change |
| Submit.ReplayIsIdempotent | benchmark/submit_session.py:224-258 | after any number of other requests, the same request gets its first reply and changes nothing, whatever the verifier would say by then; another payload is refused |
| Submit.VerifierErrorConsumesNothing | benchmark/submit_session.py:301-314 | a verifier error consumes no attempt, and the reply to it is final for its request id |
| Submit.RepliesAreTrue | benchmark/submit_session.py:260-349 | used, remaining and closed in every fresh reply describe the session after it, and it reports acceptance exactly if it closed the session |
| Submit.VerdictIsTheVerifiers | benchmark/submit_session.py:260-349 | a certificate for the rule is recorded as it is, and attempt, reply and session say accepted exactly if the verifier did |
| Submit.VerifierIsAskedExactly | benchmark/submit_session.py:287-314 | only a certificate for the rule, in an open session with an attempt left, can be accepted or told that the verifier failed; for all other requests the verifier does not matter |
| Submit.RejectionsNameTheirReason | benchmark/submit_session.py:283-328 | every other submission costs one attempt, refused for the first reason that applies |
| Submit.OtherRequestsAreAnswered | benchmark/submit_session.py:260-281 | status requests and unknown operations are answered at any time; closed sessions say so before exhausted ones |
| Spool.SpoolRequest | benchmark/agent_spool.py:27-57 | the first response ever found is returned, after as many publications as attempts begun; otherwise all looks failed |
| Spool.TriesAreSpent | benchmark/agent_spool.py:27-57 | over any stretch of a run a client publishes as often as its tries get fewer, and between two publications its deadline passes |
| Spool.ClientsGoOn | benchmark/agent_spool.py:27-57 | no client is ever stuck, and none gives up before its last try is spent |
| Spool.AtMostOnce | benchmark/submit_session.py:157-205 | over every run of publishing, retrying, expiring, claiming, handling and delivering, the session invariant holds and attempts are only appended |
| Spool.EveryReplyIsTheStoredOne | benchmark/agent_spool.py:38-57 | if an id is only used for one payload, every reply on its way or returned is the stored one |
| Spool.ClientsAgree | benchmark/agent_spool.py:38-57 | all clients of one id get the same reply, whatever the retries |
| Spool.ReusedIdMisdelivers | benchmark/agent_spool.py:38-57 | for every attempt limit and whatever the first request is and however it is answered, its client can read the refusal meant for another payload under the same id, although its own reply is stored |
| Spool.StoredRepliesExactly | benchmark/agent_spool.py:38-57 | every run in which an id is used for some of the given payloads returns the stored reply to every client exactly if there is no more than one payload |
| EpisodeSession.EvidenceBudgetSession.AdmitShellAction | benchmark/evidence_budget.py:598-609 | one event per action, charged exactly if the counter had room |
| EpisodeSession.EvidenceBudgetSession.RecordModelGeneration | benchmark/evidence_budget.py:611-623 | infrastructure failures are recorded but not charged |
| EpisodeSession.EvidenceBudgetSession.RecordShellObservation | benchmark/evidence_budget.py:625-637 | the backward search attaches the observation to the latest open event of the command and to no other |
| EpisodeSession.EvidenceBudgetSession.PackageShellResult | benchmark/agent_environment.py:74-84 | a harness result goes through the same packaging, within both limits, and to the event of its own action |
| EpisodeSession.EvidenceBudgetSession.Execute | benchmark/agent_environment.py:93-134 | every action leaves exactly one new event, charged exactly if there was room; what it is answered, and when exactly -1, 75 or an exception from packaging; unless that is raised, the event carries the observation of its own result, which meets everything the episode machine demands of a shell result; and the session moves by exactly the steps of that machine, also when packaging raised |
| EpisodeSession.ShellActionIsTwoSteps | benchmark/agent_environment.py:93-134 | a result that meets the demands turns the admitted event into two steps of the episode machine with the observation on its own event |
| Episode.ActionKeeps | benchmark/evidence_budget.py:598-671 | every action keeps the gateway invariant, the recounts of model and shell events, the pairing of shell events with their own observations, and the submit invariant |
| Episode.AttachesToOwn | benchmark/evidence_budget.py:625-637 | the search never picks another event than the pending one |
| Episode.AttachesToLatestOpen | benchmark/evidence_budget.py:625-637 | for any events: the observation goes to the latest one of its command without an observation, its id always and its outcome if the event was charged, and nothing else changes |
| Episode.ChargedIfRoom | benchmark/evidence_budget.py:598-623 | exactly when generations and shell actions are charged, and what their events say |
| Episode.OtherCountersUntouched | benchmark/evidence_budget.py:314-396 | gateway workers never touch the model and shell counters |
| LedgerJson.SortByIdCorrect | benchmark/evidence_budget.py:657-661 | the ledger holds every observation exactly once, in id order |
| LedgerContents.LedgerLosesNothing | benchmark/evidence_budget.py:639-671 | two episodes with the same limits and the same JSON ledger agree in rule, counters, generations, shell events, pred records, and attempts but for their reasons |
| Contract.ValidateStatus | benchmark/top50_contract.py:262-285 | silent exactly if every counter has the built-in limit, a use within it and the right remainder, and submit usage is in range |
| Contract.ValidatePredLedger | benchmark/top50_contract.py:316-344 | silent exactly on bounded, numbered records with new, valid, distinct request ids whose charged counts are the used counters; it threads the ids; and when exactly it raises |
| Contract.ValidateEpisodeEvents | benchmark/top50_contract.py:347-363 | silent exactly if both event lists are bounded and their charged counts are the used counters; and when exactly it raises |
| Contract.ValidateSubmitLedger | benchmark/top50_contract.py:474-505 | silent exactly on at most two numbered attempts with new ids, at most one accepted with a certificate for the rule, and a true status; and when exactly it raises |
| ObservationContract.CheckMetadata | benchmark/top50_contract.py:400-419 | silent exactly on metadata with the right types, limits and log path |
| ObservationContract.IndexObservations | benchmark/top50_contract.py:386-419 | silent exactly if all metadata are clean and no id occurs twice; it returns the index by id |
| ObservationContract.MatchShellEvents | benchmark/top50_contract.py:421-432 | silent exactly if every shell event names an observation of its command and outcome; and it raises exactly on an unhashable id, or an unhashable outcome of an indexed one |
| ObservationContract.MatchPredRecords | benchmark/top50_contract.py:433-454 | silent exactly if every record with a finished process embeds an equal copy of an indexed observation that fits it; and when exactly it raises |
| ObservationContract.ValidateObservationLedger | benchmark/top50_contract.py:366-456 | silent exactly if observations and the actions that refer to them match one to one; and when exactly it raises |
| TriageContract.ValidateTriageEvents | benchmark/top50_contract.py:288-313 | silent exactly with one accepted commit, consecutive sequence numbers, boolean charges and true counts; and when exactly it raises |
| Submission.CheckHeader | benchmark/top50_contract.py:55-83 | silent exactly if all and only known fields are present with the released values |
| Submission.CheckShortlist | benchmark/top50_contract.py:88-107 | silent exactly on well-formed entries with unique inventory rules |
| Submission.CheckTriage | benchmark/top50_contract.py:109-122 | silent exactly if the triage ledger is clean and froze this shortlist |
| Submission.CheckEpisode | benchmark/top50_contract.py:128-165 | silent exactly on a record that fits its shortlist entry, with bounded messages, a clean ledger and the outcome its attempts imply |
| Submission.CheckEpisodes | benchmark/top50_contract.py:127-165 | silent exactly if every episode is clean given the request ids of all earlier ones |
| Submission.Unique | benchmark/top50_contract.py:166 | removing repeated problems keeps every distinct one, so an empty list means that there were none |
| Submission.ValidateTop50 | benchmark/top50_contract.py:48-166 | the problem list is empty exactly on the artifacts the declarative predicate describes; raising counts as not empty |
| Json.PyEqByKind | benchmark/top50_contract.py:48-166 | Python equality kind by kind: numbers and booleans by value, lists by elements, objects by keys, everything else only with itself |
| EpisodeAgreement.ValidateLedger | benchmark/top50_contract.py:154-158 | the five checks in sequence with the threaded ids |
| LedgerReading.PredAgrees | benchmark/top50_contract.py:316-344 | a ledger taken at rest passes the pred check exactly if no charged record failed in infrastructure, it has at most one record more than budgeted shell actions, and its ids are new and distinct |
| LedgerReading.TakenPredAgrees | benchmark/top50_contract.py:316-344 | the pred check of a ledger taken in parts passes exactly if the counters, when they were read, equal the recount of the records when those were read, and the records keep their bound and have new, distinct ids |
| LedgerReading.RecountsExactly | benchmark/evidence_budget.py:651-671 | recount and counters agree exactly if the reservations made between the two reads, less the releases, equal the charged failures and unfinished releases, less the reservations without a record, at the first; with nothing in between, exactly if the books are balanced |
| Agreement.PredCountsAgree | benchmark/evidence_budget.py:354-369 | at rest the recounted charges exceed the counters by exactly the charged infrastructure failures |
| Agreement.EventsAgree | benchmark/top50_contract.py:347-363 | the event check passes exactly if both lists have at most one event more than budgeted |
| LedgerReading.SubmitAgrees | benchmark/top50_contract.py:474-505 | a ledger taken at one moment passes the submit check exactly if no attempt reuses a seen id |
| LedgerReading.TakenSubmitAgrees | benchmark/evidence_budget.py:639-671 | the submit check of a ledger taken in parts, with used, closed, used again and the attempts read one after the other, passes exactly if no attempt came in between the first and the last and no id was seen before |
| LedgerReading.ReadingIsCoherent | benchmark/evidence_budget.py:651-671 | whatever gateway workers and the submit service do during a reading, every moment is a reachable state, generations and shell actions stand still, and attempts are only appended |
| ObservationAgreement.ObservationsAgree | benchmark/evidence_budget.py:651-671 | in every reachable state the observation ledger is accepted exactly if no shell action is pending, whatever the workers are doing and also if request ids were reused |
| EpisodeAgreement.AgreementOverReading | benchmark/evidence_budget.py:639-671 | after every run of an episode, with workers still busy or not, and for every way of reading its ledger part by part while workers and the submit service go on, it passes all five checks exactly under the listed provisos, two of which compare different moments |
| EpisodeAgreement.ProducerMeetsValidator | benchmark/evidence_budget.py:598-671 | after every run of an episode whose gateway came to rest, under any interleaving, the ledger passes all five checks exactly under the listed provisos |
| EpisodeAgreement.AgreementAtAnyMoment | benchmark/top50_runner.py:327-342 | if nothing happens while the ledger is taken, the provisos are those of one state, with balanced books: charged failures and unfinished releases make up for the reservations without a record |
| TornLedger.BalancedMomentsRejected | benchmark/evidence_budget.py:657-665 | for every charged call with room there is a reading around its first steps, with balanced books at both moments and nothing else wrong, that is rejected |
| TornLedger.UnbalancedMomentsAccepted | benchmark/evidence_budget.py:657-665 | for every charged call with room there is a reading around its release, with unbalanced books at both moments, that is accepted |
| EpisodeAgreement.AbortedCallIsRecordedTwice | benchmark/evidence_budget.py:253-312 | for every granted call, charged or free, that an exception aborts: its record reads running for ever, a charged one under the same id follows exactly if a pred call is left, and the ledger is accepted exactly if none is left |
| EpisodeAgreement.ReleasedCallIsRejected | benchmark/evidence_budget.py:354-369 | for every charged call there is a run, with that call only, whose ledger is rejected |
| EpisodeAgreement.EveryBudgetAllowsRejectedRuns | benchmark/top50_contract.py:321-322 | for all limits and all sequences of two calls more than shell actions are budgeted, whatever their processes do, in which no free call that exited with 0 is repeated: the ledger is rejected at rest, because granted, refused and free calls are all recorded |
| Soundness.RequestIdsDistinct | benchmark/top50_contract.py:127-158 | in an accepted artifact any two records of any pred or submit ledgers of any episodes have different valid request ids |
| Soundness.CountersAreTrue | benchmark/top50_contract.py:262-363 | in an accepted artifact every counter is the number of its charged records and within its limit, and solve use never exceeds pred use |
| Soundness.ObservationsBijective | benchmark/top50_contract.py:366-456 | in an accepted ledger observation ids and the ids named by actions are the same collection without repetition |
| Soundness.EpisodeObservationsBijective | benchmark/top50_contract.py:154-158 | the same for every episode of an accepted artifact |
| Acceptance.AcceptedHeader | benchmark/top50_contract.py:55-83 | the header fields of an accepted artifact, one by one |
| Acceptance.NamesAllowed | benchmark/top50_contract.py:73-79 | exactly which names of models and submitters are accepted |
| Acceptance.AcceptedShortlist | benchmark/top50_contract.py:88-107 | its entries have known fields, bounded hypotheses and pairwise different rules of the inventory, as many as there are episodes |
| Acceptance.AcceptedTriage | benchmark/top50_contract.py:288-313 | its triage ledger froze this very shortlist with one commit, numbers its events from 1, and its counters are the charged events within their limits |
| Acceptance.AcceptedEpisode | benchmark/top50_contract.py:128-165 | each episode is about the rule of its position, has bounded messages, and says that a bug was found, and at which attempt, exactly if an attempt was accepted |
| Acceptance.AcceptedAttempts | benchmark/top50_contract.py:474-505 | attempts are numbered, at most two and at most one accepted, and an accepted certificate names the rule of this episode |
| Acceptance.AcceptedStatus | benchmark/top50_contract.py:262-285 | every counter has the built-in limit, a use within it and the rest as remainder, and submit usage is the number of attempts |
| Acceptance.AcceptedLists | benchmark/top50_contract.py:316-363 | lists have at most one element more than budgeted, pred records are numbered with hexadecimal ids, and charges are booleans |
| Acceptance.AcceptedObservations | benchmark/top50_contract.py:386-419 | every observation has exactly the twelve fields with their types, sizes within the limits, and its log where its id says |
| Acceptance.AcceptedShellEvents | benchmark/top50_contract.py:421-432 | every shell event has an observation of the same command that ended as the event says |
| Acceptance.AcceptedPredRecords | benchmark/top50_contract.py:433-454 | every pred record of a finished process embeds an observation of the ledger, of this very command line, with its return code and outcome |
| Scoring.ScoreTop50 | benchmark/top50_contract.py:169-235 | rankable exactly if validated; bugs are first plus second accepts, bugs at 10 and 25 count prefixes, and the verifier is called once, in order, on the first accepted certificate of every episode that has one, and never on an artifact that does not validate |
| Scoring.VerifyEpisode | benchmark/top50_contract.py:190-206 | only the first attempt marked accepted is verified again, by one call, and the report has one line about exactly that attempt |
| Scoring.CountBugs | benchmark/top50_contract.py:177-223 | the scoring loop counts the bugs of every prefix, splits them into first and second accepts, reports every verified attempt in order, and makes exactly those verifier calls |
| Scoring.BugsAreDistinctRules | benchmark/top50_contract.py:207-221 | for an accepted artifact the bugs are the distinct shortlisted rules verified again, and counts at 10, 25 and 50 increase up to the number of episodes |
| Scoring.OnePerAcceptedInOrder | benchmark/top50_contract.py:177-206 | verifier calls and report lines stand in the order of the episodes with an accepted attempt |
| Acceptance.ScoredByItsCertificate | benchmark/top50_contract.py:177-206 | the verifier is called on the certificate field of the one accepted attempt, the episode is a bug exactly if it says so, and the report names rule, position and attempt |
| Scoring.AttemptNumbersAreTrue | benchmark/top50_contract.py:200-206 | in an accepted artifact a first accept really is the first attempt, and no second one is accepted |
| Triage.Validate | benchmark/top50_runner.py:231-251 | succeeds exactly on payloads that read as the required number of distinct inventory rules with bounded hypotheses |
| Triage.EntryIsRead | benchmark/top50_runner.py:235-247 | an item names its rule, alone or as an object with an optional hypothesis, and nothing else is an entry |
| Triage.TriageSession.CommitFile | benchmark/top50_runner.py:193-218 | accepted exactly if nothing is frozen and the payload reads as a good shortlist; otherwise nothing changes |
| Triage.TriageSession.RecordShellObservation | benchmark/top50_runner.py:259-272 | the backward search over the mixed event list attaches to the latest open shell event of the command |
| Triage.TriageSession.RecordModelGeneration | benchmark/top50_runner.py:178-184 | one numbered event, charged exactly if the counter had room and the failure was not infrastructure |
| Triage.TriageSession.AdmitShellAction | benchmark/top50_runner.py:186-191 | one numbered event, charged exactly if the counter had room |
| Triage.TriageSession.Execute | benchmark/top50_runner.py:443-481 | every command leaves one shell event, charged exactly if there was room, and a commit behind it exactly if it froze the shortlist; what it is answered, and when exactly packaging raises; otherwise the event carries the observation of its own result, with 75, 0 or 2, 124 or -1 as the case may be; and the session moves by the steps of the triage machine: beginning, commit, end |
| Triage.TriageSession.RunShell | benchmark/top50_runner.py:462-481 | the observation reports code, timeout and sizes of what the command did exactly if that could be packaged, and else -1, and goes to the event of this command |
| Triage.CodesSeen | benchmark/top50_runner.py:443-481 | which return code the agent sees in each case |
| Triage.CodesReported | benchmark/top50_runner.py:443-481 | which return code and timeout flag the observation reports in each case |
| Triage.TriageActionIsRun | benchmark/top50_runner.py:443-481 | a whole triage action, with or without a commit, with or without a packaged result, is a run of the triage machine with the stated counters, events and observations |
| Triage.TriageRefines | benchmark/top50_runner.py:178-272 | triage behaves as an episode without pred calls and submissions, with commits invisible |
| Triage.ShortlistFreezes | benchmark/top50_runner.py:193-218 | over every run the shortlist is set at most once, to the required number of distinct inventory rules, with exactly one commit event |
| TriageAgreement.SequenceCheckAgrees | benchmark/top50_contract.py:301-303 | the sequence check passes exactly if nothing follows the commit |
| TriageAgreement.TriageMeetsValidator | benchmark/top50_runner.py:223-257 | after every triage run without a pending action the ledger is accepted exactly if a shortlist was frozen, the commit is the last event, and the list is within its bound |
| Runner.Run | benchmark/top50_runner.py:292-370 | the loop returns the specified result and persists one checkpoint for every recorded episode that did not err, in order, and then the result |
| Runner.RankableExactly | benchmark/top50_runner.py:372-389 | for all metadata and whatever the executor does: the rankable field is what metadata says or, where it is silent, true exactly with the token, no error and a full shortlist; likewise the status |
| Runner.RecordedPrefix | benchmark/top50_runner.py:327-363 | recorded episodes are the in-order prefix of the shortlist that ends at the first error |
| Runner.CheckpointsAreNotRankable | benchmark/top50_runner.py:364-367 | every checkpoint is non-rankable with status run_error and the records so far, where metadata does not say otherwise |
| Runner.CheckpointsExactly | benchmark/top50_runner.py:327-367 | there is a checkpoint behind every episode before the first that errs and behind no other |
| Runner.RecordTells | benchmark/top50_runner.py:346-360 | what an episode record says: position, rule, hypothesis, ledger, messages, an error if there was one, and else whether and where something was accepted first |
| Runner.RunErrorNamesTheFirst | benchmark/top50_runner.py:316-363 | the run error of a result names the first phase that erred and its message, and is absent exactly if none did |
| Runner.MetadataCanClaimRankability | benchmark/top50_runner.py:388 | metadata laid over the result can claim rankability without a token |
| Runner.EmptyErrorIsNoError | benchmark/top50_runner.py:316-363 | phases that all fail with an empty message still give a rankable result |
| EndToEnd.PlayedEpisodeAgrees | benchmark/top50_runner.py:327-363 | the record of a fresh episode, its ledger taken in parts while its gateway may still be busy, is accepted exactly under the provisos of the reading |
| EndToEnd.HonestRunMeetsValidator | benchmark/top50_runner.py:292-389 | the artifact of a token-holding runner over any triage run and any episodes, each ledger taken without waiting for the gateway, is accepted exactly under the triage condition and the provisos of every reading |
| EndToEnd.IdleRunIsAccepted | benchmark/top50_contract.py:48-166 | a run that only freezes a good shortlist and lets every episode pass idle is accepted, so neither the theorem nor the validator is empty |
| Verifier.LabelsAreExact | benchmark/verify.py:275-280 | when the round trip disagrees, each label is given in exactly its case |
| Verifier.RejectionsAreExact | benchmark/verify.py:350-409 | exactly which certificates are turned down before the two solves are compared, and why |
| Verifier.DisagreementIsAccepted | benchmark/verify.py:403-418 | with reduction and both solves answered, a certificate is accepted for its round trip, with the label of the case, exactly if one side alone is feasible or both are with values more than the tolerance apart |
| Verifier.WitnessIsAccepted | benchmark/verify.py:283-328 | when the round trip finds nothing, it is accepted exactly for a valid target solution that extracts to an invalid source solution, or for an optimal one that extracts to a valid suboptimal one |
| Verifier.NoWitnessNoBug | benchmark/verify.py:420-432 | without a witness nothing else is looked at |
| Verifier.BruteForceIsTheFallback | benchmark/verify.py:249-265 | which solver's answer counts in each case |
| Verifier.PredSolver.Solve | benchmark/verify.py:249-265 | default solver with brute-force fallback, or brute force alone |
| Verifier.PredSolver.WitnessCheck | benchmark/verify.py:283-328 | the stepwise calls with early returns decide as the specification function does |
| Verifier.Verify | benchmark/verify.py:350-432 | the method decides as the specification function that the soundness theorem is about |
| Verifier.RoundTripAgrees | benchmark/verify.py:403-418 | for a faithful reduction a correct round trip agrees with a correct source solution |
| Verifier.WitnessFindsNothing | benchmark/verify.py:283-328 | for a faithful reduction and correct answers no witness confirms a bug |
| Verifier.NoFalseAcceptance | benchmark/verify.py:390-432 | for any pattern of failures and fallbacks, if returned answers are correct and the reduction is faithful within tolerance, no certificate is accepted |
| Verifier.IntegerObjectives | benchmark/verify.py:311-328 | for integer objectives exact optimality of extraction is enough |
| Verifier.IlpSourceSolvedIndependently | benchmark/verify.py:399-405 | for rules into ILP the verdict does not depend on what the default solver says about the source |
| Leaderboard.DedupBest | benchmark/backend_score.py:219-229 | exactly one entry per model, the first one with its highest count, strictly ordered by falling count and then name |
| Leaderboard.BoardDetermined | benchmark/backend_score.py:219-229 | the ranking is determined by the best counts |
| Leaderboard.PermutationInvariant | benchmark/backend_score.py:219-229 | permuting the entries does not change the ranking |
| Leaderboard.PreAggregationInvariant | benchmark/backend_score.py:219-229 | aggregating any part first does not change the ranking |
| Benchmark.PreviewsNeverRaise | benchmark/top50_budget.py:28-31 | with the released preview limit neither renderer assertion can fire, for outputs whose sizes have at most a thousand digits |
| Benchmark.ReleasedBudgetAllowsRejectedRuns | benchmark/top50_budget.py:18-26 | any fourteen calls, whatever their processes do, leave a ledger that the released validator rejects, unless one repeats a free call that exited with 0 |
| Benchmark.SmallestPreviewWouldRaise | benchmark/observation_policy.py:27-29 | the smallest accepted preview limit would not do |
| Benchmark.AcceptedRunsAreShort | benchmark/top50_budget.py:11-26 | with the released numbers an accepted honest run has at most 23 triage events, and 11 generations, 13 shell actions and 13 pred records per episode |

## Left out

- Process spawning, signals, resource limits, users and file modes, descriptors, temporary directories, and wall-clock waits: a run of `pred` or of a shell command is a result or a failure to start.
- The hash in the fingerprint of an aborted request is taken of its text, not of its raw bytes: two files with different bytes and equal JSON that are both aborted count as one payload.
- A request with a NUL character in its working directory raises before anything is reserved; it is one of the wrong requests.
- JSON parsing and printing, SHA-256, ANSI and diagnostic regular expressions: arbitrary functions, with fingerprints assumed injective.
- `Eval.parse`, `_clean_target_type` and the reading of the target type from a certificate: the model starts from parsed evaluations and a target type that was or was not found.
- IEEE rounding: evaluations are exact reals with the source's tolerance.
- `cap_hits`, usage totals, `pred_calls_per_bug`, the artifact hash and `top50_public_entry`.
- The free text of reasons, `verify_details`, working directories of calls, and the standard output that responses carry besides the preview: no checked property depends on them.
- Queue, status and slug handling of the scoring backend; the model API, the agent harness, calibration, preflight and the site.
- Shell actions that overlap each other: the harness runs them one at a time, and with two pending actions of the same command the backward search could pair them wrongly. Gateway workers do overlap with everything.
- Benchmark.PreviewsNeverRaise: sizes are assumed to have at most a thousand digits, because headers and omission markers grow with them.
- Observations.CapturedPairFitsArchive: the lengths of the two streams are assumed to have at most 121 digits together, which the slack of 160 characters per stream leaves for the capture markers.
- Observations.CapturedShellFitsArchive: the length of the stream is assumed to have at most 114 digits, for the same reason.
- Capture.StreamCapture.Add: takes non-empty reads only, because the reading loop stops at an empty one.
- Contract.ValidatePredLedger: says when the list of problems is empty and when the function raises, not which problem is named; so do the other validators, because rankability depends on emptiness alone.
- Submission.ValidateTop50: one parameter stands for both the shortlist size and the literal number of episodes, which are the same number in the source.
- Budget.EvidenceBudgetState.Release: counters are natural numbers, so it assumes that a release which its check lets pass takes none below zero; `Budget.RepeatedNameUnderflows` says when that holds, and all callers name distinct counters.
- GatewaySession.PredGatewaySession.Abandon: the mark "abandoned" exists in the model only; the source leaves the record alone, and its name in the JSON ledger is "running".
- Processes.RunPred: the length of each stream is assumed to have at most 60 digits; so does Processes.RunAsAgent.
- EpisodeSession.EvidenceBudgetSession.Execute: the length of what there is to package is assumed to have at most 60 digits; so does Triage.TriageSession.Execute.
- GatewayReplay.SerialReplay: is about runs in which no call is aborted by an exception; `GatewaySession.EscapedCallNet` shows that an aborted call is recorded twice.
- Spool.AtMostOnce: a crash of the service between handling a request and delivering its response is not modelled, because the ledger lives in the same process.
- Runner.Run: files are not written; persisting is appending to a list.
- Triage.TriageSession.CommitFile: path checks and the size limit of the shortlist file are folded into "could not be read", because they depend on the file system.
- Verifier.Verify: timeouts of `reduce`, `evaluate` and `extract` escape the function in the source too; they are the outcome `Raised`.
