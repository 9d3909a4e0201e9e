# A verified model of the driver-os harness

driver-os runs a language model as an agent and decides, without trusting it, how a run ends, what the
conversation looks like and what the evidence means. This project models that deterministic machinery in
Dafny and proves what it keeps over every run. The model, the reviewer, the tools, shell commands, git and
the clock are oracles: functions or records that may answer anything, at every turn. A digest is injective
and is kept as the content it digests; a workspace tree is a map from path to content.

Check everything with `dafny verify dfyconfig.toml` in this directory.

## How it is organised

| file | what it models |
|---|---|
| `Transcript.dfy` | the conversation, the provider's rule for calls and results, and the running account equal to it |
| `Eviction.dfy`, `Generate.dfy` | compaction of the conversation, re-sending, scrubbing, and one model call with all its recoveries |
| `Texts.dfy`, `Runs.dfy`, `Tracker.dfy`, `Spiral.dfy` | texts with separators, what is read off a command's output, and the no-progress detectors |
| `Spend.dfy` | the dollar account and the cap |
| `Review.dfy`, `ReviewPass.dfy` | the review gate inside a run, and the review-and-repair loop over a finished workspace |
| `Repro.dfy`, `Gates.dfy` | the repro gate, and the closing gates with their finish and upgrade decisions |
| `NativeDispatch.dfy`, `NativeTrace.dfy` | the tool calls of a turn, and the record of a run: what each turn did, and what follows for every run |
| `NativeRepeats.dfy` | what the detectors compare, in terms of the calls and outputs of the turns themselves |
| `NativeLoop.dfy`, `Session.dfy` | the native turn loop, proved to leave such a record, and the session around it |
| `Fence.dfy` | patterns, snapshot, drift and restore of the fence |
| `Sweep.dfy`, `BestOf.dfy`, `Wilson.dfy` | the concurrent evaluation sweep, best-of-N selection, and the interval of a pass rate |
| `Bundle.dfy`, `Sorting.dfy`, `EditHint.dfy` | the proof bundle, sorting by key, and the hint of a failed edit |

Objects whose methods update their fields are classes (`GateKeeper`, `ReviewState`, `ReproGate`,
`TurnTracker`, `SpiralState`, `Spend`, `Session`); their ghost fields hold the history that the invariant
`Valid` ties the counters to. Loops of the source are loops here.

The main results, read from the outside in:

- `NativeLoop.RunNative` leaves a trace with one record for every turn: the account it started from, what it
  sent, its last model call, how far it got, the transcript it left, and what the gates decided and remember. `IsTrace` says what every turn must have
  done after those before it, and the trace determines the rest: what the detectors have seen (`SeenOf`), the
  account (`TallyOf`), the repro state (`ReproOf`), and the whole result (`ResultOf`) together with the verdict.
- How far a turn gets is decided by what the detectors have seen, and by nothing else (`Decided`,
  `ReachIsDecided`), and what they have seen is what the turns did: a turn is cut as a repetition exactly if the
  same tools were called with the same arguments too often in a row (`RepeatedIff`), or the same calls showed the
  same (`StalledIff`), and as endless exploration exactly if the run did nothing but look around (`SpiralledIff`).
- Every finish is decided by `GateKeeper.Decides`: accepted exactly when all stages clear, and sent back exactly when
  the verify stage rejects and nothing bars the run from going on, the repro objects and can still be met, or the
  review has feedback. A finish that is sent back ends no run (`SentBackGoesOn`).
- An Answered run cleared, in the finish of its last turn, every gate for the input that this turn's response
  amounts to and the repro state that its own calls led to; or it was cut for a cause that its trace shows and
  then cleared the whole upgrade bar (`AnsweredMeans`). A killed run was killed for what its own turns show
  (`KilledMeans`). Turns, calls, tokens and rounds are bounded, and every turn started below both caps.
- The transcript of every run is one a provider accepts, on every exit, unless a call of the finish tool shared its
  id with another call of its turn (`TranscriptAccepted`); `Sessions.Session.SendParts` carries that over any
  number of runs.
- `GateKeeper.Finish` and `GateKeeper.UpgradeIfVerified` say exactly when a finish is accepted or sent back and
  exactly when a cut run is rescued; `ReviewState.ReviewFinish` which ruling is due, and `ReviewAndRepair` which
  passes are followed by a repair.
- `Sweep.EveryInterleaving`, `BestOf.SelectByModel`, `Wilson.Wilson`, `Fence.RestoreUndoesDrift`,
  `Bundle.RoundTrip` and `EditHint.NearestEditMatch` close the other components.

## Where the code is narrower than its comments

The model follows the code:

- A finish whose tree equals the one the run started from does not run the verify command when the baseline was
  measured green (agent/gate.go:506-522); `VerifyClears` says so.
- An upgrade can turn a cut run into Unverified, through require-diff and repro (agent/gate.go:638-642,
  agent/gate.go:699-705); every such exit is in the contract of `UpgradeIfVerified`.
- Only the upgrade retries a verify run that both timed out and shows an environment fault; a finish does not
  (agent/verify.go:134-170, agent/gate.go:671-692); see `Retried`.
- A blank diff passes review and leaves earlier fed-back blockers pending, so they expire in an Answered run
  (agent/gate.go:765-769); the contract of `ReviewFinish` says that the findings stay as they are.
- The recurrence check never fires in the review-and-repair loop, because every pass starts with no findings
  (`NothingRecurs`); and a fed-back blocker counts as repaired afterwards exactly if its severity is
  spelled "blocker" to the letter (`FedBackFates`).
- A turn that ends with the finish tool leaves an acceptable transcript exactly when no other call of it shares the
  finish call's id (`FinishToolCalls`, `FinishTurnPaired`); no other call ids need to be distinct.
- Signatures join calls with a text that an argument may hold, so two different turns can look the same
  (`SignaturesCollide`); they cannot if each makes one call, or no argument holds that text or ends with its start
  (`SignatureTells`). The same goes for what a turn showed (`ObservationTells`).
- Prose of the selector that names both labels is read as "A" (headless/bestof.go:277-281; `Compare`), so a model
  that prefers "B" has to name it alone to be followed (`ShippedFollows`).
- The finishing turn ignores the stagnation detector (agent/loop_tools.go:539-542), so a run can go on with a
  history for which an acting turn would have been cut; `Decided` looks at acting turns only.
- A locked repro file that the fence covers enters the fence snapshot with its bytes, but without the digest and
  size that files over the size cap are compared by (agent/repro.go:188-196), so one over the cap counts as drift
  at once (`DriftAfterLock`).
- The frontier cap is at least 1, because resolving the configuration replaces smaller values
  (runspec/runspec.go:241-243). Beyond its cap the spiral detector's frontier forgets, and a forgotten target counts
  as new: "new" means never seen exactly as long as the targets fit (`NovelIffWithinCap`).
- The shipped selector refuses every label but the two (headless/bestof.go:286-288), so showing the patches the
  other way round changes no winner (`SwapSymmetry`). The interface itself does not ask for that: with another
  implementation a consistent winner is the same either way round exactly when one of the picks is "A"
  (`SwapIffLabel`), and there are picks for which it is not (`OtherLabelsDoNot`).
- The signed bytes of a bundle are recovered exactly when no other member of the manifest looks like the
  signature's value (`SignableIsRecovered`); `RoundTrip` carries that condition.

## Model

| member | source | states |
|---|---|---|
| Transcript.WellFormedIffPaired | agent/loop_tools.go:667-694 | the running account of unanswered ids accepts exactly the conversations in which each assistant message is followed at once by one result for each of its calls, and no other results exist |
| Transcript.ExactlyOneResult | agent/loop_tools.go:784-798 | in an accepted conversation a call whose id its message does not repeat has exactly one result in the block of that message |
| Transcript.SettlesIff | agent/loop_tools.go:667-694 | a block of results settles the calls that are owed exactly if it holds one result for each and no more |
| Transcript.ClearBeforeAssistant | agent/generate.go:372-397 | an accepted conversation can be split before any assistant message into two accepted ones |
| Eviction.EvictOldestTurn | agent/generate.go:372-397 | drops exactly the oldest turn, and declines exactly when only the newest turn is left |
| Eviction.EvictOldestTurns | agent/generate.go:234-256 | evicts half of the removable turns, rounded up, one at a time, which is one cut |
| Eviction.CutIsOneSlice | agent/generate.go:234-256 | a cut of k turns keeps the preamble and everything from a later turn boundary, and removes exactly k turns |
| Eviction.CutAdd | agent/generate.go:234-256 | cutting j and then k turns is cutting j + k turns |
| Eviction.CutKeepsNewestTurn | agent/generate.go:372-397 | the newest turn survives every cut unchanged, as the end of the conversation |
| Eviction.CutKeepsPairing | agent/generate.go:372-397 | a cut of an accepted conversation is accepted |
| Eviction.CompactedLeaves | agent/generate.go:156-183 | k compactions leave the removable turns halved k times, and keep the conversation accepted |
| Eviction.CompactedIsOneCut | agent/generate.go:156-183 | any number of compactions amounts to one cut |
| Eviction.HalvedIsDivision | agent/generate.go:156-183 | k halvings leave floor(r / 2^k) turns |
| Generate.GenerateWithRetry | agent/generate.go:276-292 | at most three sends; the result is that of the first send that is final, all earlier ones were transient faults |
| Generate.DropReplayReasoning | agent/generate.go:196-225 | removes exactly the reasoning parts of assistant messages, and reports zero exactly when nothing changed |
| Generate.ScrubKeepsAccount | agent/generate.go:196-225 | scrubbing reasoning leaves the account of unanswered calls as it was |
| Generate.ScrubCompacted | agent/generate.go:156-225 | scrubbing commutes with any number of compactions |
| Generate.GenerateWithEviction | agent/generate.go:156-183 | for any sequence of provider errors at most 5 attempts and 15 calls, and which recoveries are taken and when the call is given up is the recursion over the faults alone; the transcript is the given one, scrubbed at most once and compacted at most three times; an overflow is given up only when retries or removable turns are spent |
| Generate.RecoverBounded | agent/generate.go:156-183 | from any point of the recoveries of a turn, at most three calls for each attempt that is left; the last of them decides |
| Generate.RecoveredForCause | agent/generate.go:156-292 | every call of a turn but the last one failed; the transcript is scrubbed only after a refused replay and compacted only after an overflow, and neither is given up on while something is left to scrub, or a retry and a removable turn |
| Generate.RecoveryKeepsPairing | agent/generate.go:156-256 | whatever recovery a call went through, an accepted transcript stays accepted and the removable turns are divided by a power of two |
| Runs.RenderedIsRead | agent/tools.go:1122-1180 | a result that was rendered is read back as a pass exactly with exit code 0, as a failure with any other, and as timed out exactly if it was |
| Runs.InfraMeans | agent/verify.go:100-117 | an output shows an environment fault exactly if it reports no failing test and holds one of four texts, in capitals or small letters; the first of them in order is named |
| Runs.GradeMeans | agent/repro.go:218-235 | a failed test command failed to build exactly if it reports no failing test and holds one of four texts, in capitals or small letters |
| Runs.DidNotPassMeans | agent/gate.go:562 | the remark "did not pass:" is looked for to the letter, anywhere in the output |
| Runs.FingerprintTells | agent/tools.go:1186-1225 | two results have the same fingerprint exactly if their exit codes are equal and so are their lines, up to what is masked; durations and timeouts play no part |
| Runs.MaskTells | agent/tools.go:1205-1222 | two masked lines are equal exactly if the lines are the same but for their numbers |
| Runs.LinesMean | agent/tools.go:1198-1202 | the lines of an output hold no newline, and together with newlines between them they are the output, up to a final one |
| Runs.DurationIgnored | agent/tracker.go:168-211 | two outputs that differ only in the duration have the same fingerprint |
| Runs.NumberIgnored | agent/tracker.go:168-211 | two lines that differ only in the digits of one number have the same fingerprint |
| Tracker.LongestIsMaximal | agent/tracker.go:168-211 | a suffix consists of equal failures exactly if it is no longer than the counter |
| Tracker.SeriesIff | agent/tracker.go:230-241 | a series reaches a length exactly if that many strings at the end are equal and not empty |
| Tracker.TurnTracker.ObserveRun | agent/tracker.go:168-211 | with environment faults erased, the counter is the length of the longest suffix of equal failures of the whole history; kill exactly when the result counts and the suffix reaches the limit |
| Tracker.TurnTracker.CountFailure | agent/tracker.go:182-192 | one more result extends or restarts the series of equal failures |
| Tracker.TurnTracker.CountPass | agent/tracker.go:194-208 | one more result extends or restarts the series of equal passes |
| Tracker.TurnTracker.ObserveAction | agent/tracker.go:246-257 | a file mutation ends the series of identical passes and leaves the failures and the last run |
| Tracker.TurnTracker.ObserveToolObservation | agent/tracker.go:230-241 | counts how often the last observed turn occurred in a row; kill exactly at the limit |
| Tracker.FailuresAfterRun | agent/tracker.go:174-192 | what one more result makes of the longest suffix of equal failures |
| Tracker.PassesAfterRun | agent/tracker.go:194-208 | what one more result makes of the number of identical passes since the last mutation |
| Spiral.SpiralState.ObserveDiscoveryTurn | agent/tracker.go:406-433 | kills exactly when the last `window` turns of the burst added nothing new or the burst reached the wander bound |
| Spiral.SpiralState.AddTargets | agent/tracker.go:407-413 | leaves the frontier of the longer burst, and reports whether it held a target the frontier did not |
| Spiral.SpiralState.Add | agent/tracker.go:437-444 | at the cap the oldest target goes; the set stays that of the order, without duplicates |
| Spiral.SpiralState.Reset | agent/tracker.go:451-455 | starts a new burst |
| Spiral.FrontierKeeps | agent/tracker.go:437-444 | after any burst the frontier has no duplicates and at most the cap of entries |
| Spiral.FrontierIsTargets | agent/tracker.go:378-444 | while a burst has named at most the cap of targets, the frontier is the set of them |
| Spiral.NovelIffWithinCap | agent/tracker.go:378-444 | "new" means never seen in the burst exactly as long as the burst has named at most the cap of targets |
| Spiral.ForgottenIsNovel | agent/tracker.go:437-444 | the smallest burst beyond the cap, for which it does not |
| Spiral.AliveIsBounded | agent/tracker.go:406-433 | a burst that is still alive had something new within its last `window` turns |
| Spending.Spend.Add | agent/spend.go:32-48 | keeps the total of all priced charges, whether any was priced, and whether any was not |
| Spending.SaysNothing | agent/spend.go:32-48 | only a usage without any tokens is not reported |
| Spending.Spend.USD | agent/spend.go:50-59 | the total of the charges, complete exactly if there are any and all could be priced |
| Spending.DollarBudgetStop | agent/generate.go:71-124 | stops exactly when the known dollars reach the cap or, unless allowed, some charge could not be priced; otherwise the account is below the cap |
| Review.Classify | agent/gate.go:1048-1096 | the fate, confirmation and output of a finding are those the ladder gives for what the workspace answered, and one repro is charged exactly if one was wanted and left |
| Review.Ladder | agent/gate.go:1048-1170 | the fate of a finding, case by case, with the confidences 8 and 5 |
| Review.GroundedMeans | agent/gate.go:1054-1073 | a finding is grounded if its quote is not empty and stands in the file it names, as far as there is one |
| Review.AskedMeans | agent/gate.go:809-826 | repro commands are asked for exactly if some blocker from confidence 7 came without one |
| Review.MergeMeans | agent/gate.go:843-858 | of what comes back the first finding for the same file and quote counts, and only for the command and the refusal |
| Review.Escalate | agent/gate.go:1098-1170 | a repro that left the workspace dirty drops the finding and restores the tree as far as it can, one that failed confirms it, one that passed refutes or downgrades it, anything else decides nothing |
| Review.OpenIndicesMeans | agent/gate.go:732-924 | the pending list is exactly the increasing list of positions of findings without a fate |
| Review.ReproRunsBounded | agent/gate.go:1048-1096 | at most two repro commands complete in a round |
| Review.CountMeans | agent/review.go:297-327 | the count of confirmed, or unconfirmed, blockers is that of their positions |
| Review.ReviewState.ResolvePending | agent/review.go:330-337 | gives the fate to exactly the findings that were open, and empties the list |
| Review.ReviewState.FindRecurringConfirmedBlocker | agent/review.go:344-362 | finds an earlier confirmed finding with the same file and quote exactly when one exists |
| Review.ReviewState.MakeReport | agent/review.go:297-327 | afterwards every finding has a fate, each confirmed one is repaired or expired, and the counts are those of the findings |
| Review.ReviewState.TakeFindings | agent/gate.go:864-884 | every finding of a verdict is judged in order with the budget that is left, and appended; the blockers and advisories are those of the new ones |
| Review.ReviewState.Solicit | agent/gate.go:809-859 | asks for missing repro commands exactly if an eligible finding exists, and merges what comes back by file and quote |
| Review.ReviewState.Decide | agent/gate.go:888-924 | feedback exactly if no confirmed finding recurs, the run may go on with rounds left, and some finding blocks or is advised; a recurrence blocks exactly if there is one, open blockers exactly if the run may not go on; the status and the findings each ruling leaves |
| Review.ReviewState.RunRound | agent/gate.go:771-924 | one round: earlier open findings are repaired, the verdict is judged, and the ruling is the one that is due on them; what the round costs |
| Review.ReviewState.ReviewFinish | agent/gate.go:732-924 | which ruling a finish hears, by whether the reviewer was reached and by what the verdict's findings come to; feedback exactly when it is due |
| ReviewPass.ReviewOnce | agent/review_pass.go:36-63 | one pass over the whole patch: it is fed back exactly if rounds are left and some finding of the verdict, judged afresh, blocks or is advised; objection, rounds, usage and report are those of its ruling |
| ReviewPass.NothingRecurs | agent/review_pass.go:36-63 | a pass that starts without findings cannot block on a recurring one |
| ReviewPass.ReviewAndRepair | agent/review_pass.go:74-146 | every pass that is fed back is followed by a repair, unless there is no loop or the repair fails, and no other is; at most ReviewRounds - 1 repairs; usage is the base's plus every repair's; the objection is that of the last pass; the merged report is that of all passes |
| ReviewPass.MergesOne | agent/review_pass.go:155-187 | merging one more report keeps findings, counts, usage, rounds, status, block and skip as functions of all reports |
| ReviewPass.MendKeepsCount | agent/review_pass.go:189-217 | repairing blockers leaves their counts |
| ReviewPass.FindingsOfAllPasses | agent/review_pass.go:155-198 | the merged findings are those of all passes in order, each mended once another pass started |
| ReviewPass.StatusSnoc | agent/review_pass.go:168-172 | the merged status is the first infrastructure status, or else the last one |
| ReviewPass.FedBackFates | agent/review_pass.go:113-198 | in the merged report the findings of every pass that was fed back are those its verdict was judged to have, the blockers spelled "blocker" repaired, the other blockers expired, and everything else with the fate it had |
| ReviewPass.MergedAt | agent/review_pass.go:155-198 | a finding of pass k stands at the same place after all earlier passes' findings in every later merged report, mended once |
| Repro.ReproGate.DeclareRepro | agent/repro.go:115-200 | locks exactly if the file is new to the base tree and the command fails there as a test, and then a fenced file enters the fence snapshot; on every path the workspace ends as it was unless every restore failed |
| Repro.ReproGate.TryOnBase | agent/repro.go:150-200 | the part on the base tree, with the restores it tries |
| Repro.ReproGate.SkipRepro | agent/repro.go:206-216 | a skip is recorded exactly with a reason and before anything is locked |
| Texts.BlankIff | agent/repro.go:206-210 | what trimming leaves is empty exactly for a text of whitespace only |
| Repro.ReproGate.ReproFinish | agent/repro.go:237-274 | objects exactly unless switched off, skipped on record, or unchanged and no longer failing; what is locked stays locked, and how it did is recorded exactly if it ran |
| Gates.MeasureBaseline | agent/gate.go:245-300 | a measured baseline is a run that started, did not time out and hit no fault; red exactly if it failed |
| Gates.GateKeeper.VerifySafety | agent/gate.go:446-457 | fine exactly when fence and scope are clean; an armed check that cannot be made fails closed |
| Gates.GateKeeper.VerifyTermination | agent/verify.go:134-170 | fine exactly when the last execution was green; an environment fault is tried once more |
| Gates.GateKeeper.VerifyCompletionFailure | agent/gate.go:535-578 | when a failed verify rejects the finish and when the run may go on: one grace round for the baseline's own failure, two rejections for a soft gate |
| Gates.GateKeeper.VerifyCompletion | agent/gate.go:502-533 | fine exactly when the diff is there and the verify, the green baseline of an unchanged tree, or the spent patience of a soft gate lets it pass; otherwise the reason of the run that decided |
| Gates.GateKeeper.VerifyFinish | agent/gate.go:580-601 | safety first, then the verify stage of an untrusted finish, only require-diff for a trusted one: when it holds the finish up, over which reason, and whether that bars the run from going on |
| Gates.GateKeeper.HeldUpIff | agent/gate.go:502-601 | a hard gate holds an untrusted finish up exactly unless the diff is there and the verify or the baseline vouches for it |
| Gates.GateKeeper.OldFailureIff | agent/gate.go:556-576 | a failure is the baseline's own exactly if the baseline was red and the output has its fingerprint, is no environment fault, and if it timed out says "did not pass:" |
| Gates.GateKeeper.Patience | agent/gate.go:535-578 | over a whole run at most one failure like the baseline's is fed back, and a soft gate rejects at most two finishes |
| Gates.GateKeeper.Finish | agent/finish.go:52-124 | the decision is the one that is due: accepted exactly when fence, scope, verify, repro, the answer and the review all pass in this same finish; sent back exactly over a rejection with nothing barring the run from going on, a repro that can still be met, or the review's feedback; otherwise stopped, and why; what the gates remember of it |
| Gates.GateKeeper.Refuse | agent/finish.go:53-80 | a finish that gets no further than the verify stage goes on exactly if nothing bars it, and otherwise stops with at most an advisory look |
| Gates.GateKeeper.FinishAfterVerify | agent/finish.go:81-124 | repro, a non-blank answer and the review decide the rest, with the reason each gives; a review that was reached leaves nothing pending in an accepted finish |
| Gates.GateKeeper.ReviewUnverified | agent/gate.go:930-963 | one advisory round exactly if it is switched on, the run is not canceled and no review has looked at it; a diff that cannot be read or is blank is noted unless there is a status, any other is ruled on with nothing to go on to |
| Gates.GateKeeper.UpgradeIfVerified | agent/gate.go:627-720 | a cut run becomes Answered exactly when scope, fence, diff, a changed tree, a green verify, repro and the review's ruling all clear, keeping the incoming outcome on record, with the answer it has or one that names the command; which outcome each other exit has, by its guard, and when it has an advisory look |
| Gates.GateKeeper.VerifyForUpgrade | agent/gate.go:664-697 | green exactly when the last execution was green; a fault is tried again once, timed out or not |
| Gates.GateKeeper.RunForUpgrade | agent/gate.go:664-697 | the executions, whether the last one was green or refuted the run, and the fault that is on record afterwards |
| Gates.GateKeeper.UpgradeVerified | agent/gate.go:699-720 | repro and review decide; a review that cannot continue never gives feedback |
| NativeDispatch.FinishTurnPaired | agent/loop_tools.go:521-556 | the results a finishing turn appends answer its calls exactly when the finish call's id is not shared |
| NativeDispatch.Dispatch | agent/loop_tools.go:921-939 | a run and nothing else enters the tracker's history; it kills exactly when the failures at the end of that history reach the limit; a declaration or skip changes the repro state exactly if it is accepted, and is otherwise an error |
| NativeDispatch.DispatchCalls | agent/loop_tools.go:694-798 | one result per call in order, with what the call printed and whether it failed; on a kill in mid-turn synthetic ones for the rest; killed exactly at the first call that stagnates; history and repro state are those before with the dispatched calls added |
| NativeDispatch.ShownMeans | agent/loop_tools.go:784-798 | message by message: a call that was run gets what it printed, with its own error flag unless the repro gate decides it, and every call after a kill is told that it was not executed |
| NativeDispatch.AnswerRest | agent/loop_tools.go:784-792 | the calls after a kill each get a result that says they were not executed |
| NativeDispatch.FinishToolCalls | agent/loop_tools.go:521-556 | the other calls run first and are answered in order, the finish call gets its own result last; an acceptable transcript stays so exactly when the finish call's id is not shared; history and repro state are those before with the other calls added |
| NativeTrace.ReachIsDecided | agent/loop_tools.go:590-837 | what the detectors have seen before a turn and what the turn itself adds leave one way for it to end |
| NativeTrace.ReadInOrder | agent/loop_tools.go:941-951 | a response is read part by part, each text, reasoning and call in order |
| NativeTrace.ReadOne | agent/loop_tools.go:1061-1069 | what a single part adds to text, reasoning and calls |
| NativeTrace.ProseKept | agent/loop_tools.go:384-447 | the prose that a run can fall back on is that of its last turn that said something |
| NativeTrace.KilledForCause | agent/loop_tools.go:590-837 | a turn is cut as a repetition, as endless exploration or as stagnation only if the series at the end of the whole run's signatures, observations, discovery turns or runs reaches the bound; a turn that was not cut gave no such cause |
| NativeTrace.WroteKeeps | agent/loop_tools.go:435-862 | whatever kind of turn it was and however it was cut, what it appended keeps an acceptable transcript acceptable |
| NativeTrace.TranscriptAccepted | agent/loop_tools.go:325-870 | over any number of turns, recoveries of the model call included, an acceptable seed leaves an acceptable transcript |
| NativeTrace.WithinBounds | agent/loop_tools.go:325-410 | at most 15 calls a turn; every turn but one that failed counts; the sum of all completed calls stays below the cap plus the last call |
| NativeTrace.EveryTurn | agent/loop_tools.go:325-349 | every turn of a run follows those before it and started below both caps; only the last one can have been cut |
| NativeTrace.LockKept | agent/repro.go:115-216 | a test that is locked stays locked, with its path, command and content, over the whole run |
| NativeRepeats.SignatureTells | agent/loop_tools.go:1042-1098 | turns have the same signature exactly if they call the same tools with the same arguments in the same order, each of one call, or with arguments that hold no separator |
| NativeRepeats.SignaturesCollide | agent/loop_tools.go:1076-1098 | with a separator among the arguments one call is taken for two |
| NativeRepeats.ObservationTells | agent/loop_tools.go:748-752 | turns have shown the same exactly if they made the same calls and each call's raw output was the same |
| NativeRepeats.RepeatedIff | agent/loop_tools.go:602-640 | a turn is cut before dispatch exactly if with it the last turns of the run made the same calls, as often as the threshold says |
| NativeRepeats.StalledIff | agent/loop_tools.go:800-815 | a turn that was seen through ends the run exactly if with it the same calls have shown the same as often as the limit says |
| NativeRepeats.SpiralledIff | agent/loop_tools.go:642-665 | a turn is cut as exploration exactly if it only lists and searches and the burst of such turns at the end of the run is spent; the burst holds their targets |
| NativeRepeats.HaltedMeans | agent/loop_tools.go:738-797 | a turn is cut after a call only if that call ran a command and the failures at the end of the history reach the limit |
| NativeLoop.CheckBudgets | agent/loop_tools.go:325-349 | a turn starts only below the token and dollar caps; which stop comes first |
| NativeLoop.ShowStanding | agent/loop_tools.go:352-358 | the standing block is appended exactly when it is not empty and changed |
| NativeLoop.CallModel | agent/loop_tools.go:378-411 | the turn makes exactly the calls and recoveries its provider leads to; usage, charge, turn number and prose are added exactly for a call that gave a response; a failed call is classified in the source's order |
| NativeLoop.AnswerTurn | agent/loop_tools.go:450-510 | a turn without calls puts exactly its trimmed text and the last run to the gates and follows their decision; when it says nothing and a finish tool is expected it is sent on, with the nudge exactly if reasoning did not move |
| NativeLoop.FinishTurn | agent/loop_tools.go:521-588 | a finishing turn answers every call, puts exactly its message, the last run and the repro state its calls led to before the gates, and follows the decision that is due |
| NativeLoop.Close | agent/finish.go:52-124 | carries out the decision that is due: its feedback is appended and the loop goes on exactly if it is to continue |
| NativeLoop.DetectNoProgress | agent/loop_tools.go:602-665 | kills exactly if the series of identical turns reaches the threshold chosen by whether reasoning moved, or else if the burst is spent; what either leaves for the next turn |
| NativeLoop.ActAndObserve | agent/loop_tools.go:667-862 | appends the assistant message, one result per call in order and then the hints that are due, none on a kill; halted exactly at the first call that stagnates, stalled exactly if the observations repeat; history, observations and repro state afterwards |
| NativeLoop.ActTurn | agent/loop_tools.go:590-862 | the turn gets exactly as far as the detectors decide, writes what such a turn writes, and leaves what the detectors have seen and the repro state as the record says |
| NativeLoop.TakeTurn | agent/loop_tools.go:435-862 | the same for every kind of turn: one that acts never ends the run by itself, one that does not is never killed, and one that ends the run is settled by the gates on its own input |
| NativeLoop.OneTurn | agent/loop_tools.go:325-862 | one turn adds one record that follows those before it, or none if it may not start; the loop's variables, detectors, account and gates stay those of the trace |
| NativeLoop.TurnInBudget | agent/loop_tools.go:350-862 | the same for a turn that the budgets allow |
| NativeLoop.TakeCompleted | agent/loop_tools.go:404-862 | a completed call is taken in and recorded with how far its turn got |
| NativeLoop.Rescue | agent/gate.go:627-720 | a cut run becomes Answered exactly if it clears the upgrade bar with the repro state its calls led to, and otherwise ends as its cause, the scope or the repro says |
| NativeLoop.RunNative | agent/loop_tools.go:129-870 | the run has a trace, and its result is the one the trace and the gates' verdict determine; accepted transcript, locked test, bounded rounds, turns, calls and tokens on every exit |
| NativeLoop.AnsweredMeans | agent/finish.go:52-124 | an Answered run left fence and scope clean, met the repro gate in the state its own calls led to, and said something; it cleared the verify stage and the review for the input of its last response, or was cut for a cause its trace shows and then verified green |
| NativeLoop.KilledMeans | agent/loop_tools.go:590-837 | a run that was killed, rescued or not, was killed because its last turns made the same calls or showed the same, only looked around, or ran a command that kept failing |
| NativeLoop.SentBackGoesOn | agent/finish.go:52-124 | a finish that the gates send back is followed by another turn, unless the caller cancels or a budget is spent first |
| NativeLoop.RepeatsAfter | agent/loop_tools.go:602-628 | one more turn extends or restarts the series of identical turns |
| Sessions.Session.SendParts | agent/session.go:166-216 | the history advances to the transcript of a run that ended as one does, unless the context ended or there is none; it stays acceptable if no finish call of the run shared its id |
| Fence.MatchesFence | agent/fence.go:140-168 | true exactly if some pattern fences the path |
| Fence.MatchesScope | agent/fence.go:179-208 | true exactly if some pattern admits the path |
| Fence.TreeMeans | agent/fence.go:140-208 | a tree pattern fences exactly what lies below a directory of that name at any depth, and admits what does at the root |
| Fence.GlobMeans | agent/fence.go:140-208 | any other pattern is matched against the whole path if it has a slash, and otherwise against the last component; as a scope only at the root |
| Fence.BaseMeans | agent/fence.go:157-160 | the last component is what follows the last slash, or all of the path |
| Fence.ScopeIsAnchoredFence | agent/fence.go:129-208 | read as a scope a pattern admits exactly the paths that it fences and that start at the root |
| Fence.FenceReachesDeeper | agent/fence.go:170-178 | the difference is real: a directory of the name further down is fenced but not in scope |
| Fence.HiddenMeans | agent/fence.go:214-235 | the files the walk prunes are those with ".git/" at the start or after a slash |
| Fence.SnapTellsApart | agent/fence.go:237-255 | the recorded digests tell any two files apart, on either side of the size cap |
| Fence.Walk | agent/fence.go:214-262 | in whatever order listings come, the files recorded below a directory are exactly the fenced ones outside .git |
| Fence.WalkFenced | agent/fence.go:214-265 | the snapshot is exactly the fenced files outside .git; it fails only if something could not be listed or read |
| Fence.DriftIsExact | agent/fence.go:283-307 | the drift is exactly the fenced paths whose bytes differ, vanished or appeared |
| Fence.DriftCheck | agent/fence.go:283-307 | lists the drift sorted and without duplicates |
| Fence.DriftAfterLock | agent/repro.go:188-196 | what locking a fenced test does to the next drift check: its own path counts as drifted exactly unless it still holds the locked bytes and fits the size cap, and no other path is judged differently |
| Fence.Restore | agent/fence.go:329-346 | on success every listed path is put back or removed and every other one is as it was; nothing in the way means success |
| Fence.RestoreUndoesDrift | agent/fence.go:329-346 | restoring what drifted makes the next drift empty and leaves all other files |
| Sorting.SortBy | bundle/bundle.go:153 | the same elements in order of their keys, in strictly increasing order if the keys are distinct |
| Sweep.EveryJobOnce | eval/report.go:53-55 | the nested loops go through every trial exactly once |
| Sweep.Preallocate | eval/report.go:42-49 | one cell for each case and model, found by an index that is a bijection, in report order |
| Sweep.WritesOneSlot | eval/report.go:62 | no two jobs share a slot |
| Sweep.RunSequential | eval/report.go:22-24 | the one-worker sweep puts trial idx + 1 of every case and model at place idx of the cell that report order gives it, and reports the trials in loop order |
| Sweep.Start | eval/report.go:34-49 | a sweep starts with at least one worker and one trial per cell, the canonical empty report and nothing spawned |
| Sweep.StepKeeps | eval/report.go:51-69 | every step keeps the invariant and does one unit of work; a slot is written while it is empty and changes at no other step |
| Sweep.EveryStateKeeps | eval/report.go:51-69 | so does every run of any length |
| Sweep.NeverStuck | eval/report.go:51-70 | a sweep that is not over can always go on |
| Sweep.TerminalComplete | eval/report.go:70-71 | when all are done every slot is filled and the callback was told of every trial once |
| Sweep.EveryInterleaving | eval/report.go:34-72 | for every interleaving: never more than `workers` trials in flight, five steps per trial, and at the end trial idx + 1 of every case and model at place idx of its cell, the cells in report order, and the callback told of all these trials, once each |
| Sweep.CompleteInPlace | eval/report.go:42-62 | a complete report in report order holds, for every case, model and number, the trial that was run with them |
| Sweep.InFlightCounts | eval/report.go:51-60 | the trials in flight are the goroutines that have taken a place of the semaphore and not freed it |
| Sweep.SweepsAgree | eval/report.go:22-72 | any two finished sweeps of the same trials, with one worker or with many and in any interleaving, leave the same report and tell the callback of the same trials |
| Sweep.CompleteIsUnique | eval/report.go:34-72 | complete reports over the same cells are equal |
| BestOf.SelectByStructure | headless/bestof.go:96-108 | the first attempt that none goes before by rank and index, -1 for none |
| BestOf.StructureOrder | headless/bestof.go:76-94 | attempts without a patch come last, Answered before capped before all others, and the earlier of equals first |
| BestOf.SelectBest | eval/bestof.go:47-60 | the same for the trials of an evaluation |
| BestOf.SelectionsAgree | headless/bestof.go:76-108 | on trials without infrastructure errors the two selections are the same |
| BestOf.RunComparison | headless/bestof.go:114-161 | consistent exactly when both calls succeed and name different labels, and then who wins; the second call is made exactly if the first succeeds |
| BestOf.Compare | headless/bestof.go:253-290 | the label is the letter of the pick, in either case; prose that names one label gives that one, and prose that names both the first; anything else is a failure |
| BestOf.SwapSymmetry | headless/bestof.go:114-161 | with the shipped selector, which refuses other labels, a comparison has the same winner whichever patch is shown first |
| BestOf.LabelsSuffice | headless/bestof.go:138-158 | two picks that are labels, or failures, name the same winner either way round |
| BestOf.SwapIffLabel | headless/bestof.go:138-158 | with any implementation of the interface a consistent winner is the same either way round exactly if one pick is "A" |
| BestOf.OtherLabelsDoNot | headless/bestof.go:138-158 | picks of another implementation of the interface for which the order decides; the shipped selector refuses them |
| BestOf.Challenge | headless/bestof.go:194-212 | the verdict decides if consistent, the structure otherwise |
| BestOf.SelectBestOf | headless/bestof.go:168-217 | picks a patch whenever there is one; if no verdict is consistent the structural best of all attempts; if the selector follows a strict preference the most preferred patch |
| BestOf.ShippedFollows | headless/bestof.go:253-290 | the shipped selector follows a preference exactly if the model names the label of the preferred patch whenever it is asked |
| BestOf.SelectByModel | headless/bestof.go:168-217 | with the shipped selector and a model that has a preference, the winner is preferred to every other patch |
| BestOf.BestOfAll | headless/bestof.go:168-217 | attempts without a patch rank last, so the best candidate is the best of all |
| Wilson.GapFactors | eval/report.go:709-720 | the equation of the interval is a parabola with its zeros at the two ends |
| Wilson.EndsSolve | eval/report.go:709-720 | both ends lie z standard errors, taken at themselves, from the rate |
| Wilson.BetweenIff | eval/report.go:709-720 | a point lies in the interval exactly if its gap is not positive |
| Wilson.WithinUnit | eval/report.go:709-727 | before clamping 0 <= lo <= rate <= hi <= 1 |
| Wilson.Monotone | eval/report.go:709-720 | a higher rate never moves an end down |
| Wilson.MorePasses | eval/report.go:709-720 | nor do more passes out of the same number of trials |
| Wilson.Wilson | eval/report.go:709-727 | the computed ends are those of the equation, and clamping never changes them |
| Bundle.RemoveIffNoOther | bundle/bundle.go:243-251 | removing the first occurrence of the value's member gives back the text without it exactly if it does not occur further up |
| Bundle.SignableIsRecovered | bundle/bundle.go:243-251 | the signed text is recovered exactly under that condition |
| Bundle.AddComponent | bundle/bundle.go:119-133 | the file is written, over one of the same name if there is one, and its digest recorded under its name |
| Bundle.Create | bundle/bundle.go:109-182 | a bundle exists exactly for a complete input: its files, the components it was given and those it adds in order of their names, the manifest, its digest and the signature |
| Bundle.Verify | bundle/bundle.go:187-258 | succeeds exactly on an acceptable directory and returns the component names in manifest order |
| Bundle.SignatureHolds | bundle/bundle.go:231-256 | the signature of a fresh bundle is good exactly under the condition on the manifest |
| Bundle.RoundTrip | bundle/bundle.go:109-258 | Verify accepts what Create wrote exactly if the components it was given are good and, with a key, the signed text is recovered |
| Bundle.EvidenceIsSorted | bundle/bundle.go:153-230 | the evidence is the components' names in order, strictly increasing and exactly the files written if none were given |
| Bundle.ManifestFixesComponents | bundle/bundle.go:218-230 | accepted bundles with the same manifest have the same components byte for byte |
| Bundle.TamperingShows | bundle/bundle.go:218-230 | changing or deleting a component makes Verify refuse |
| Bundle.SignatureFixesText | bundle/bundle.go:231-256 | an accepted signature determines the signed text |
| EditHint.EditLineSimilarity | agent/tools.go:857-876 | the counting loop computes twice the shared tokens over all tokens |
| EditHint.FieldsCut | agent/tools.go:858 | text without whitespace is one token, and whitespace ends a token |
| EditHint.CountCommon | agent/tools.go:865-875 | it counts the intersection of the token bags |
| EditHint.SimilarityMeasures | agent/tools.go:857-876 | between 0 and 1, and 1 exactly for equal bags |
| EditHint.SimilarityIsSymmetric | agent/tools.go:857-876 | the order of the lines does not matter |
| EditHint.NearestEditMatch | agent/tools.go:817-855 | the leftmost window of maximal mean similarity, none exactly below the threshold; a window that matches token for token is never passed over |
| EditHint.BestWindow | agent/tools.go:830-843 | the running maximum over all windows |
| EditHint.ScoreInUnit | agent/tools.go:830-843 | a score is between 0 and 1, and 1 exactly for a window that matches token for token |

## Left out

- The text-protocol loop (agent/loop_text.go): it shares the gates, detectors and budgets modelled here; its wire format and parser are not modelled.
- The identical-read skip and the shrinking of repeated observations (agent/loop_tools.go:706-722): the oracle's `shown` text stands for whatever the model is shown.
- The parallel prefetch of leading read-only calls: a call's answer does not depend on when it is dispatched here.
- Planning, memory recall, prompt assembly, the sandbox refusal and the red-baseline refusal before the loop: a session sees them as a run without a transcript.
- The churn, diagnostics, finish and answer nudges: their texts are an oracle; only where they are appended is modelled.
- A provider that reports neither an error nor a response: `Answers` excludes it, as the provider's interface does; the loop reads the response of every call without an error (agent/loop_tools.go:404-406).
- HTTP providers, streaming, processes, git, temporary directories, file permissions and clocks: oracles.
- SHA-256, Ed25519, base64 and JSON: parameters with the laws in `Bundle.Ideal`; a manifest is spelled out only around its signature.
- Go's path.Match, path.Clean and regular expressions: a pattern match is an uninterpreted predicate on normalised paths, and which output lines are assertions is one too.
- Float rounding: money and the interval are computed over the reals, and the square root is any function with the right squares.
- Letters and spaces outside ASCII: they have no capitals here, and do not separate tokens.
- Severity strings: a finding is a blocker (spelled to the letter or not) or a remark; strings of a finding and replies of the selector are kept trimmed.
- Rendering of feedback, reasons, notes, reports and records: reasons are a datatype.
- Gitignored files in the tree that a repro declaration restores.
- Session reconfiguration, the auto-verify prewarm and the baseline cache.
- Token usage of the tournament, its reasons and prices (headless/bestof.go:292-330), and the per-model tables of the evaluation.
- Listing a directory and reading a file may fail, but answer the same tree throughout one walk; empty directories are not represented.
- Counting occurrences of an edit's anchor (agent/tools.go:1007) and the rest of edit_file.
- Fence.Restore: an operation of the workspace that fails leaves the tree as it was.
