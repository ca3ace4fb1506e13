# A verified model of the household assistant's protocols

The assistant answers household members over Signal, runs their scheduled jobs, and sends relays from one person to
another. What it promises about all that (a relay goes out once, a yes runs what was shown and nothing else, outside
text cannot make a tool write) is kept by small protocols over rows, sets and locks that may fail or restart between any
two steps. This project models those protocols in Dafny and proves the promises, for every input and every run.

The modules, in reading order:

- `Wrappers`, `Names`, `Collections`: options, results, case folding and stripping, and facts about sets and sequences.
- `JobRows`, `JobStore`: the jobs table. Each write is one statement that applies to one row, or fails as a whole.
- `RunLog`: the log of everything a runner does that can be seen from outside. `Safe` is the monitor that says which
  event may follow which; the lemmas say what a safe log means to the household.
- `JobTurns`: the turns still open, the reminders each has saved, and the steps by which a failed one cancels them.
- `JobReports`: what a firing of a job reports, and what the log shows of it.
- `JobSlice`, `JobRunner`: the runner itself, as the class with its volatile sets and its polling loop. At every `await`
  owners may create, cancel and reschedule, every open turn may take its next step (save a reminder, fail, try one
  cancel, reply, close), any call may raise, and the process may die and start again. `JobRunner.Service` is the run from
  an empty table; every log it produces is safe.
- `Messages`, `Window`, `TrustedContext`: one conversation, the bounds on it, and the part a background run may see.
- `Broker`, `Turn`: the tool boundary of one turn, and the loop of completions and tool calls around it.
- `ProposalLog`, `Channel`: the live proposal and the history cache of one agent. `Channel.Serve` is every sequence of
  messages, relay records, job reports, loads by job runs and restarts, under any schedule of store failures.
- `JobForms`, `Staging`, `StagedProposal`, `Foresight`: what a job call may ask for, the check it passes before it waits
  for a yes, the handlers that run it later, the proof that the check predicts the handlers, and the refusals that can be
  foreseen.
- `Locks`: peer locks, turn slots and history locks, and every task that takes them.
- `Lists`, `Organizer`, `ListLimits`: household lists, the grants on them, and their limits.
- `RateLimit`, `Sse`, `Stream`, `Bounded`: the sliding-window limiter, event-stream reassembly, the completion built from
  a stream, and the capped reading of a compressed body.

Code that changes state step by step is a class or a method with loops here too, and its contract gives the new state as a
function of the old one. Whatever the code asks of the outside world (whether a write succeeds, what the model answers,
when the process dies) is an arbitrary choice, written `:= *`, or an arbitrary schedule, so a proof covers every outcome.

Where the code falls short of what a reader would expect, there is a lemma with an input that shows it, and the exact condition
under which it does not:

- A digest staged under a name is refused at the yes when a reminder saved at once later in the same turn, or a scheduled
  relay earlier in the same proposal, took that name (`StagedProposal.ReminderCanTakeAStagedName`,
  `StagedProposal.RelayCanTakeAStagedName`). As long as nothing breaks, it is refused if and only if its name is among
  those that follow from the calls and the table before the yes (`Foresight.Foreseen`, `Foresight.CommitAll`).
- The limits on lists hold for an agent exactly when its read grants cover its write grants
  (`ListLimits.LimitsNeedGrants`).
- A raw deflate body is read whatever its chunks if and only if its first chunk alone shows that there is no wrapper
  (`Bounded.RawIsReadWhenTheFirstChunkShowsIt`); cut after one byte it is found corrupt
  (`Bounded.RawNeedsItsFirstTwoBytes`).
- Cache and table of a history differ if and only if the write of a decision's summary failed, or an uncaught exception
  broke off a turn, and no save, record, report, reload or restart came after (`Channel.ApartMeans`,
  `Channel.Channel.Serve`, and a run that gets there, `Channel.LostSummary`).
- A reminder saved by a turn that failed is never texted unless the write that cancels it fails or the process dies
  before it (`RunLog.FailedTurnsReminderIsNeverTexted`). For both exceptions `RunLog.FailedTurnsReminderCanBeTexted`
  gives a log in which the reminder is texted; it shows that the monitor admits such a log, not a run of `JobRunner` that
  writes it.

`docs/architecture.md:170` says that a tool marked as staging never executes when the model calls it. The code runs a
verbatim reminder at once while the conversation is clean (`src/assistai/broker.py:316-320`), and the model follows it.

`dafny verify dfyconfig.toml` checks the whole project.

## Model

| member | source | states |
|---|---|---|
| RunLog.AtMostOncePlusRestarts | src/assistai/scheduler.py:124-344 | in one run of a job the other phone is texted, the recipient's record written, and for one report the owner texted, at most once plus once for each restart in between, whatever writes and calls fail |
| RunLog.RelaySendsTheStoredBytes | src/assistai/scheduler.py:129-179 | what the other phone reads, and what the recipient's history records, is the text stored when the relay was confirmed |
| RunLog.RelayReportedAfterBoth | src/assistai/scheduler.py:129-188 | the sender is told a relay went out only after this run's send and this run's record both happened |
| RunLog.OwnerReadsTheQueuedReport | src/assistai/scheduler.py:272-323 | what the owner reads is word for word the report queued in the same run |
| RunLog.NoReportIsLost | src/assistai/scheduler.py:298-344 | a queued report leaves the outbox, by an advance or on a cancelled job, only after the owner's phone took it and the owner's history took it, label and all |
| RunLog.HistoryTakesWhatWasTold | src/assistai/scheduler.py:299-330 | the owner's history takes only a report that was queued and that the owner's phone took first |
| RunLog.RunnerEndsOnlyWhatIsOver | src/assistai/scheduler.py:331-338 | the runner cancels a job itself only after a report that ends it was queued, told and recorded |
| RunLog.ReportTellsTheResult | src/assistai/scheduler.py:214-268 | what is queued after a model run is a failed check when the run failed or nobody looked, a finding word for word under the job's name, and untrusted when what the run fetched was |
| RunLog.SilenceMeansNothingFound | src/assistai/scheduler.py:236-270 | after a model run a job goes on without a report only when it is a watch that looked and found nothing |
| RunLog.PromptsAreQuoted | src/assistai/scheduler.py:180-212 | a reminder is its prompt and a relay's report quotes the relayed text, word for word |
| RunLog.NothingIsEarly | src/assistai/store.py:354-368 | a relay is sent or recorded, and a model run begun, only after a poll of the same firing that found the next run due, as last created, advanced or rescheduled before it |
| RunLog.ReportsAreTimely | src/assistai/scheduler.py:190-213 | a report is queued only after a poll that found its run due, unless it says that a watch ended; it ends its job if and only if that is one-time or its time was up at that poll |
| RunLog.BudgetStopsOnlySureTexts | src/assistai/scheduler.py:192-197 | a spent budget stops a schedule or an ended watch, never a watch that still has to look |
| RunLog.ReminderWaitsForItsTurn | src/assistai/signal/channel.py:282-451 | a reminder saved by a turn is queued only after that turn's reply was attempted, unless the turn was broken off by an uncaught exception, or failed and could not cancel it, or the process died |
| RunLog.FailedTurnsReminderIsNeverTexted | src/assistai/signal/channel.py:394-451 | a reminder saved by a turn that then failed, or could not be saved, is never texted, earlier or later, stale polls included, as long as the process lives until its row is cancelled and that write succeeds |
| RunLog.FailedTurnsReminderCanBeTexted | src/assistai/signal/channel.py:562-573 | the monitor admits a log in which the reminder is texted after a failed cancel, and one after a death before the cancel; no run of the runner is shown to write them |
| RunLog.StillRunning | src/assistai/signal/channel.py:380-451 | a turn that failed was running from the moment it saved a reminder: it had not replied, ended or died |
| RunLog.CancelWins | src/assistai/store.py:399-452 | after a cancel no report is queued, no run scheduled, no interval changed and nothing is un-cancelled |
| RunLog.NothingLeavesAfterCancel | src/assistai/store.py:354-368 | a cancelled row is never due again except to be emptied: from the first poll or process start after the cancel on, the job texts nobody, writes no record, and starts or ends no model run |
| RunLog.AdvanceUsesTheLatestInterval | src/assistai/store.py:425-452 | every advance counts from the interval the owner chose last, even during the run |
| RunLog.LastReportEndsTheJob | src/assistai/scheduler.py:327-344 | once a report that ends its job is queued, no other report is queued and no run scheduled, failed finishing writes and restarts included |
| RunLog.OneTimeJobTellsOnce | src/assistai/scheduler.py:180-213 | a one-time job texts its owner at most once plus once for each restart over its whole life, and is never scheduled again |
| RunLog.TaintedJobReportsUntrusted | src/assistai/scheduler.py:180-268 | every report of a job made in a tainted conversation is labelled untrusted |
| RunLog.ModelRunsKeepTheirDistance | src/assistai/scheduler.py:98-122 | within one process a job's next model run starts at least 30 seconds after the end of its previous one, for every outcome |
| RunLog.DeferralsDouble | src/assistai/scheduler.py:350-354 | consecutive deferrals wait between 30 and 600 seconds, each twice the last until the cap |
| RunLog.DeferredAfterAFault | src/assistai/scheduler.py:350-354 | a job is held off only after a call or a write for it failed or was refused in the same firing, and once for that |
| RunLog.HeldOffMeansUntried | src/assistai/scheduler.py:98-122 | in a tick that polled before a job's hold-off is over, nothing of that job is sent, recorded, run, queued, told or kept |
| JobRunner.Service | src/assistai/scheduler.py:58-122 | every log a service can produce from an empty table is safe, so all the lemmas above hold of it |
| JobRunner.JobRunner.Run | src/assistai/scheduler.py:85-96 | the invariant over table, memory and log holds after any number of polls, pauses, deaths and restarts |
| JobRunner.JobRunner.Tick | src/assistai/scheduler.py:98-122 | one poll, whose rows grow stale while others fire, keeps the invariant of every job; of every job of a known agent that no open turn holds and that is not held off, a waiting report is ended or held off, and a row whose time has come or whose watch is over is fired, as the log shows after the poll's own mark |
| JobRunner.JobRunner.NotePoll | src/assistai/scheduler.py:98-101 | at a poll the log knows of exactly the cancelled rows that they are gone, and the invariant of every job holds on, so what this tick fires is not theirs |
| JobRunner.JobRunner.FireAll | src/assistai/scheduler.py:101-122 | due rows are fired in turn from their stale copies; one that was ready when the tick began is still ready at its turn, and is fired |
| JobRunner.JobRunner.FireGuarded | src/assistai/scheduler.py:111-122 | each firing shows in the log: the job is held off, its report is finished or queued, it ran as it should, its owner's budget is spent, or it was cancelled; an exception holds that job off and leaves the others as they were |
| JobRunner.JobRunner.Fire | src/assistai/scheduler.py:124-188 | from a stale row: an outbox is emptied or held off, a relay reported or held off, an own job run as its row allows, unless it was cancelled; afterwards the job is safe to poll again |
| JobRunner.JobRunner.FireRelay | src/assistai/scheduler.py:129-188 | the relay is held off, cancelled, or reported with exactly its text, label and ending; reported only when the log shows this run's send and record |
| JobRunner.JobRunner.SendOnce | src/assistai/scheduler.py:135-161 | goes on only when the other phone has this run's text; never sends when the row, the stale copy or memory says it was sent |
| JobRunner.JobRunner.DeliverRelay | src/assistai/relay.py:264-271 | one attempt to send; when it reports no error, or memory has the send, the phone has the text |
| JobRunner.JobRunner.PhoneAccepts | src/assistai/scheduler.py:144-146 | the send is logged once and remembered before the row is marked; it raises exactly when the mark failed, and then the table is unchanged |
| JobRunner.JobRunner.RecordOnce | src/assistai/scheduler.py:162-179 | goes on only when this run's record exists and the row says so |
| JobRunner.JobRunner.RecordRelay | src/assistai/relay.py:272-277 | one attempt to write the record, remembered when it succeeds |
| JobRunner.JobRunner.MarkRecorded | src/assistai/scheduler.py:170-179 | marks the record in the row, or on a cancelled job forgets the run |
| JobRunner.JobRunner.FireOwn | src/assistai/scheduler.py:190-270 | the job reported what its row and its model run demand (a reminder its sentence, an ended watch that it ended), or a watch quietly advanced, or its owner's budget is spent, or it was cancelled |
| JobRunner.JobRunner.FireModel | src/assistai/scheduler.py:214-270 | the logged result of the model run led to its report: a failure or an answer nobody looked for is told as failed, a finding or a schedule under the job's name, a quiet ended watch as ended, any other quiet watch not at all |
| JobRunner.JobRunner.RunJob | src/assistai/signal/channel.py:210-277 | a model run starts only when the stale row is far enough from the previous run; its start and its end, with the result, are in the log |
| JobRunner.JobRunner.StayQuiet | src/assistai/scheduler.py:269-270 | a quiet watch is advanced by its stored interval, unless cancelled meanwhile |
| JobRunner.JobRunner.Queue | src/assistai/scheduler.py:272-292 | exactly this report enters the outbox unless the job was cancelled during the run |
| JobRunner.JobRunner.Deliver | src/assistai/scheduler.py:294-344 | send, mark, append and finish, each retried alone; afterwards the outbox is ended or the job held off |
| JobRunner.JobRunner.RecordReport | src/assistai/scheduler.py:327-344 | the report that went out enters the owner's history with its own label before the run ends; when it cannot, the job is held off |
| JobRunner.JobRunner.Notify | src/assistai/scheduler.py:299-326 | goes on only with a row that says the report went out, and otherwise holds off; a report in memory's set is not sent again |
| JobRunner.JobRunner.NotifyJob | src/assistai/signal/channel.py:290-301 | one attempt to text the owner; a success is in memory's set before anything else happens |
| JobRunner.JobRunner.Finish | src/assistai/scheduler.py:331-344 | clears the backoff, empties the outbox, and ends the run as the outbox says: by cancel, or by an advance unless the owner cancelled; its backoff is cleared |
| JobRunner.JobRunner.AdvanceRow | src/assistai/store.py:425-438 | schedules the next run and empties outbox and flags, or changes nothing |
| JobRunner.JobRunner.FinishByCancel | src/assistai/scheduler.py:333-338 | the row is cancelled and its outbox emptied, in that order, or an exception leaves the rest for a retry |
| JobRunner.JobRunner.CloseCancelled | src/assistai/scheduler.py:339-343 | a job cancelled while its report went out is left with an empty outbox and nothing remembered |
| JobRunner.JobRunner.Defer | src/assistai/scheduler.py:350-354 | holds the job off by the current delay and doubles it |
| JobRunner.JobRunner.Forget | src/assistai/scheduler.py:356-360 | drops the three facts memory holds about a run and nothing else |
| JobRunner.JobRunner.ClearBackoff | src/assistai/scheduler.py:362-364 | the next deferral waits the first delay again |
| JobRunner.JobRunner.OwnerCreates | src/assistai/jobs.py:528-552 | a row is inserted, and when a turn saves it at once, that turn holds it from then on |
| JobRunner.JobRunner.TurnBegins | src/assistai/signal/channel.py:379-380 | a turn joins the open ones, holding nothing |
| JobRunner.JobRunner.TurnFails | src/assistai/signal/channel.py:394-447 | a failed or unsaved turn goes on holding its reminders until each cancel was tried |
| JobRunner.JobRunner.TurnCancelsNext | src/assistai/signal/channel.py:562-573 | one cancel of the rollback: the row is cancelled, or was already, or the failed write is logged and the next is tried |
| JobRunner.JobRunner.TurnClears | src/assistai/signal/channel.py:573-573 | only when every cancel was tried does the failed turn let go |
| JobRunner.JobRunner.TurnReplies | src/assistai/signal/channel.py:448-448 | the reply is attempted while the turn still holds its reminders |
| JobRunner.JobRunner.TurnCloses | src/assistai/signal/channel.py:449-451 | a turn leaves the open ones after its reply or its apology |
| JobRunner.JobRunner.TurnBreaks | src/assistai/signal/channel.py:449-451 | an exception that is not the channel's own closes the turn with its reminders free |
| JobTurns.HeldMeansStanding | src/assistai/signal/channel.py:282-288 | a job is held exactly when some open turn saved it |
| JobTurns.TriedStands | src/assistai/signal/channel.py:568-573 | trying one cancel changes how that one reminder stands with its turn and nothing else |
| JobReports.FiredStays | src/assistai/scheduler.py:98-122 | what the log shows of a firing is not undone by anything later |
| JobSlice.RestartKeeps | src/assistai/scheduler.py:61-83 | a process that lost its sets still satisfies the invariant of every job |
| JobSlice.BeginKeeps | src/assistai/scheduler.py:98-111 | a row read at the start of a tick still describes its job when its turn comes, whatever owners did |
| JobSlice.AdvanceKeeps | src/assistai/store.py:425-438 | an advance is allowed by the monitor and starts a fresh run: nothing sent, recorded or queued |
| JobSlice.QueueKeeps | src/assistai/store.py:399-411 | a report queued into an empty outbox of an active job agrees with log and memory |
| JobStore.Store.DueJobs | src/assistai/store.py:354-368 | an active row is returned if and only if it has a waiting report, its time has come or its watch is over, a cancelled one if and only if its report went out; each once, by time of next run |
| JobStore.Store.FindJob | src/assistai/store.py:370-397 | an active row of that agent with that name and id, or none exists |
| JobStore.Store.QueueJobReport | src/assistai/store.py:399-411 | writes the four outbox columns of an active row, or changes nothing and says so |
| JobStore.Store.MarkJobDelivered | src/assistai/store.py:413-423 | sets the delivered flag of a row with an outbox, cancelled or not |
| JobStore.Store.AdvanceJob | src/assistai/store.py:425-438 | next run by the stored interval, outbox and relay flags emptied, active rows only |
| JobStore.Store.RescheduleJob | src/assistai/store.py:440-452 | new interval and next run, active rows only |
| JobStore.Store.MarkRelaySent | src/assistai/store.py:454-460 | sets one flag of an active row |
| JobStore.Store.MarkRelayRecorded | src/assistai/store.py:462-468 | sets one flag of an active row |
| JobStore.Store.ClearJobOutbox | src/assistai/store.py:470-480 | empties the outbox of a row, cancelled or not |
| JobStore.Store.CancelJob | src/assistai/store.py:490-498 | the first cancel time stays |
| JobStore.Store.SaveJob | src/assistai/store.py:305-341 | inserts a row with a new id and a name no active row of that agent has |
| Window.ApplyWindow | src/assistai/conversation.py:21-30 | the list becomes the bounded list |
| Window.SafeTrim | src/assistai/conversation.py:33-47 | trims by count past orphan results |
| Window.TrimOlderThan | src/assistai/conversation.py:50-69 | trims by age past orphan results |
| Window.PastOrphanTools | src/assistai/conversation.py:72-80 | the first place from there on that is not a tool result |
| Window.WindowKeepsTheLongestRest | src/assistai/conversation.py:21-80 | on a conversation in time order: the system message and exactly the longest rest that fits count and age and does not begin with a tool result |
| Window.WindowKeepsTheGrammar | src/assistai/conversation.py:33-80 | a call and its results are never split |
| Window.WindowIsIdempotent | src/assistai/conversation.py:21-30 | bounding twice at one instant changes nothing |
| Window.WindowKeepsTheNewest | src/assistai/conversation.py:21-80 | the newest message stays when there is room for one and it is no tool result |
| TrustedContext.Build | src/assistai/conversation.py:83-109 | the loop computes the exchange-wise filter |
| TrustedContext.TrustedContextIsTheLargestTrustedPart | src/assistai/conversation.py:83-109 | a trusted selection that keeps each exchange whole or not at all, and every such selection is contained in it |
| TrustedContext.TrustedContextIsAConversation | src/assistai/conversation.py:83-109 | the filtered conversation is again one the provider accepts, with nothing untrusted in it |
| Broker.BoundSurface.Execute | src/assistai/broker.py:285-345 | a handler runs if and only if the call is permitted and a named time follows a look at the clock; a staging call otherwise waits or is refused with a reason, anything else is denied; taint follows the result |
| Broker.BoundSurface.Commit | src/assistai/broker.py:347-365 | a confirmed call runs once if and only if it is known, allowed to the agent, and no denied sink of a tainted conversation unless it was staged; a staged call always runs |
| Broker.BoundSurface.Handle | src/assistai/broker.py:367-384 | an untrusted tool taints scope and run, after the call |
| Broker.BoundSurface.TakeStaged | src/assistai/broker.py:265-269 | hands over all staged calls and keeps none |
| Turn.RunTurn | src/assistai/inference/loop.py:25-85 | scope taint, the loop's own flag and the list's taint agree throughout; each new assistant message is untrusted exactly when something before it was; a finished turn added whole exchanges and ends in a reply; every handler was permitted, and every staged call is one that waits for a yes; the boundary is given exactly the calls the model asked for, in order, and no more rounds of them than allowed |
| Turn.RunCalls | src/assistai/inference/loop.py:60-85 | each call is answered by one result in order, unless a failing store ends the turn; each result in the list is what the boundary answered to that call |
| Turn.ReportRun | src/assistai/signal/channel.py:227-277 | in a background run the fetched flag holds exactly when the scratch list is tainted, and no sink, staging or job tool ran |
| ProposalLog.YesRunsTheLatestOffer | src/assistai/signal/channel.py:453-508 | what a yes confirms is the newest offer, not dropped since and not expired, and the whole message is the word yes or confirm, capitals and space around it aside |
| ProposalLog.DecisionIsAWord | src/assistai/staging.py:22-48 | a message confirms if and only if it is yes or confirm, and rejects if and only if it is no or cancel, in any mix of capitals and with any space around it |
| Names.StripMeans | src/assistai/staging.py:41-48 | stripping takes only space, only at the two ends, and all of it |
| ProposalLog.ConfirmedAtMostOnce | src/assistai/signal/channel.py:493-508 | once confirmed, dropped or replaced, a proposal is never confirmed again |
| ProposalLog.StoredCallsRunOnceInOrder | src/assistai/signal/channel.py:507-511 | whatever fails or restarts, what runs of a proposal is a prefix of its stored calls, each once, in order |
| ProposalLog.NothingFiresWithoutAYes | src/assistai/signal/channel.py:476-511 | every call that fires belongs to a proposal confirmed before |
| Channel.Channel.Serve | src/assistai/signal/channel.py:155-208 | over all runs and store failures the proposal log stays safe; cache and table agree if and only if nothing in the trace parts them that is not mended; conversations stay well formed unless an uncaught exception broke off a turn |
| Channel.Channel.Handle | src/assistai/signal/channel.py:453-474 | what each ending leaves in the trace of writes; a summary left unsaved means that the last store access failed; a turn rolled back or broken off leaves the stored history as it was, aside from what ages out now; stored calls are handed over if and only if the message is a yes to a live, unexpired proposal and history and consumption worked, and then exactly those calls in order; any other message confirms and runs nothing, and a no that is saved drops the proposal |
| Channel.ApartMeans | src/assistai/signal/channel.py:525-558 | the cache is ahead if and only if a summary's write failed, or a turn was broken off, and nothing that mends it came after |
| Channel.LostSummary | src/assistai/signal/channel.py:543-558 | a run after which cache and table differ: a no to the live proposal whose answer could not be saved |
| Channel.Service | src/assistai/signal/channel.py:76-120 | all of it from an empty table |
| Channel.Channel.Converse | src/assistai/signal/channel.py:363-451 | a turn that is not kept leaves the stored history as it was, aside from what ages out now, no trace in the cache and no new proposal; a kept one leaves the old proposal or a new one of calls that wait for a yes, good for its life; a kept turn is the history, the person's own words and what followed, as the window leaves it |
| Channel.Channel.TakeTurn | src/assistai/signal/channel.py:384-447 | a failed turn leaves the list as it was |
| Channel.Channel.Ask | src/assistai/signal/channel.py:374-393 | the list only grows, keeps its one system message, and a finished turn makes a conversation a conversation again; the question is word for word and trusted, the surface is tainted exactly when the list is, and the calls handed over are those the model asked for |
| Channel.Channel.Settle | src/assistai/signal/channel.py:400-448 | turn and staged proposal are saved together, the proposal being exactly the staged calls with the turn's taint; or the list is rolled back to before the question; the note on what waits for a yes, and the proposal itself, are untrusted exactly when the conversation is; when a turn that staged calls could not be saved, an older proposal is taken off the table unless that write fails too |
| Channel.Channel.CommitProposal | src/assistai/signal/channel.py:476-541 | the proposal leaves the table before its calls run, all of them run unless the process dies, and a yes that cannot start leaves proposal and history as they were, aside from what ages out now; what is handed to the surface is exactly the stored calls, or a prefix when the process died, every one of them is run and not denied, and the taint of the proposal covers them and the summary |
| Channel.Channel.TakeOn | src/assistai/signal/channel.py:483-506 | history is read before the proposal is taken; when either fails nothing of it is gone; the taint of the proposal goes on; the surface has this agent's own rules, and is tainted if the proposal or the history is |
| Channel.Channel.Summarise | src/assistai/signal/channel.py:513-537 | the list is read again, so records written meanwhile are kept, and the summary is saved or the cache is ahead; question and summary are stored after what the table had, with the given label |
| Channel.Channel.Consume | src/assistai/signal/channel.py:493-500 | the proposal is taken off the table, or a failed write leaves it confirmable |
| Channel.Channel.RunConfirmed | src/assistai/signal/channel.py:504-511 | exactly the stored calls fire, in order, while others may write this history; the calls handed over are the stored ones in order, each once, and each handler ran |
| Channel.Channel.RejectProposal | src/assistai/signal/channel.py:543-560 | the proposal is dropped exactly when the exchange is saved; a saved no drops the proposal and stores the message and the answer |
| Channel.Channel.TakeProposal | src/assistai/store.py:199-238 | an expired proposal is taken off the table and never handed out |
| Channel.Channel.AbandonLiveProposal | src/assistai/signal/channel.py:575-580 | no older proposal stays on the table after a failed replacement, unless that write fails too |
| Channel.Channel.Exchange | src/assistai/signal/channel.py:519-537 | what is stored is the history with question and answer, bounded; or nothing was stored and cache and table disagree |
| Channel.Channel.Persist | src/assistai/store.py:177-192 | history and proposal change together or not at all |
| Channel.Channel.WindowAndPersist | src/assistai/signal/channel.py:582-601 | the bounded list is saved and becomes the list, or nothing changes |
| Channel.Channel.History | src/assistai/signal/channel.py:603-627 | the cache, or a freshly loaded and bounded list that agrees with the table |
| Channel.Channel.Load | src/assistai/signal/channel.py:603-621 | what is loaded is the table's history, bounded only when that could be saved |
| Channel.Channel.InjectRelay | src/assistai/signal/channel.py:671-689 | a record that is written leaves cache and table in agreement, a failed one changes nothing; what is stored is the table's history and one untrusted user message with exactly the record, as the window leaves it, and the conversation is tainted from then on |
| Channel.Channel.PersistJobReport | src/assistai/signal/channel.py:336-361 | always leaves cache and table in agreement; a failed append leaves no cache; what is stored is the history and one assistant message with exactly the text and the label |
| Channel.SavedWhole | src/assistai/store.py:772-791 | a bounded list is stored as it is, system message aside |
| JobForms.ParseCreate | src/assistai/jobs.py:278-325 | accepted exactly when the job is well made: interval and lifetime in range, a watch never a reminder, at most one first time, a reminder with one, no job inside a job |
| JobForms.ParseRelayWhen | src/assistai/relay.py:167-213 | no time means send on the yes; any time gives a well-made verbatim schedule, one-time unless it says otherwise |
| JobForms.InsertedRowsAreNewborn | src/assistai/jobs.py:504-552 | every inserted row has the kind, name, prompt, interval, flags and times the call asked for, and the taint of its conversation; it is one the runner can start from, not due in its first minute unless a named time says so |
| Staging.NumbersAreApart | src/assistai/relay.py:381-396 | different numbers make different relay names |
| Staging.StagingError | src/assistai/broker.py:463-530 | staged exactly when the table and the calls staged before leave the call executable |
| Staging.IsCovered | src/assistai/broker.py:533-549 | whether an earlier cancel in the proposal takes the job, by id or by name |
| Staging.Create | src/assistai/jobs.py:504-552 | one new row under a free name, first run as asked, or no change |
| Staging.Cancel | src/assistai/jobs.py:600-607 | the one matching row is cancelled, or none matches |
| Staging.Reschedule | src/assistai/jobs.py:609-632 | the one matching row gets the interval, within its time to live, or a refusal it deserves |
| Staging.RelayName | src/assistai/relay.py:381-396 | the requested name, or for the default name the first free numbered one; none only when the requested name, and for the default name every numbered one, is taken |
| Staging.StoreRelay | src/assistai/relay.py:313-371 | one new relay row under exactly that name, or no change |
| Foresight.CommitAll | src/assistai/signal/channel.py:507-511 | as long as no cancel meets a failing store: no staged cancel or reschedule is refused, and a staged create is refused only when, and never succeeds when, a later reminder of the turn or an earlier scheduled relay took its name; as long as nothing breaks, a create is refused if and only if its name is foreseen to be taken |
| Foresight.ForeseenMeans | src/assistai/broker.py:473-506 | a foreseen name comes from a reminder saved after the check, or from an earlier scheduled relay of that name or, for the default name, of a numbered form of it |
| Foresight.NamesMove | src/assistai/jobs.py:504-632 | each committed call that does not break takes and frees exactly the names foreseen |
| Foresight.PickIsStored | src/assistai/relay.py:381-396 | the name a relay is stored under is the one foreseen from the names taken |
| StagedProposal.CommitMoves | src/assistai/broker.py:488-530 | each committed call answers as the check promised and leaves the table the next call was checked against |
| StagedProposal.WhoHoldsTheName | src/assistai/broker.py:488-506 | at its turn a staged name is taken if and only if a later reminder or an earlier relay took it |
| StagedProposal.QuietTurnNeverRefused | src/assistai/broker.py:463-530 | with nothing saved after the check and no scheduled relay before, nothing is refused |
| StagedProposal.ReminderCanTakeAStagedName | src/assistai/broker.py:316-335 | a digest passes the check, a reminder saved at once takes its name, and the digest is refused |
| StagedProposal.RelayCanTakeAStagedName | src/assistai/broker.py:473-476 | a scheduled relay and a create of the same name both pass the check, and the create is refused |
| StagedProposal.Propose | src/assistai/broker.py:316-337 | what a turn leaves behind is calls that passed the check, each against the table it then saw |
| Locks.SomeHolderIsNotWaiting | src/assistai/signal/channel.py:164-219 | in every reachable state, if a task waits, some holder of a waited-for lock is not waiting |
| Locks.SchedulesFinish | src/assistai/signal/channel.py:214-219 | no deadlock: every step leaves less, and nobody can go only when every task is done |
| Locks.EveryTaskClimbs | src/assistai/signal/channel.py:214-219 | every task takes peer, slot and history in that order and gives all back |
| Locks.LocksExclude | src/assistai/signal/channel.py:697-709 | no two tasks hold one peer or history lock, and at most n hold a slot |
| Locks.PermittedIsNotRelay | src/assistai/broker.py:320-337 | a turn that runs only permitted handlers runs no relay, since relay stages |
| Locks.NestedRelaysDeadlock | src/assistai/signal/channel.py:479-515 | were a relay run inside a turn, two people relaying to each other could stop both for good |
| Lists.ParseChange | src/assistai/shared/records.py:35-60 | accepted exactly when well made: one item, one operation, at most 20 |
| Lists.OneItemOneOperation | src/assistai/shared/records.py:63-75 | no text is named for two operations, capitals aside |
| Lists.Items | src/assistai/shared/records.py:82-100 | accepted exactly when every text is usable and none is listed twice |
| Lists.CheckItems | src/assistai/store.py:619-634 | accepted exactly when every named item is where the change says |
| Lists.ChangeItems | src/assistai/store.py:635-650 | the loops compute the changed items |
| Lists.ListStore.ApplyShared | src/assistai/store.py:586-657 | all of the change or nothing of it |
| Lists.OneListIsWritten | src/assistai/store.py:586-770 | a change writes one list: sharing hands the actor's own list over with name and items as they are; any other change goes to the actor's own list if private and to everyone's if not, which is made with open items when there is none |
| Organizer.Read | src/assistai/shared/organizer.py:46-61 | the rows this agent may see |
| Organizer.ShownAreReadable | src/assistai/shared/organizer.py:46-61 | a list is shown if and only if the agent may read its scope and it is what was asked for: by name among everyone's, or one's own when private |
| Organizer.Apply | src/assistai/shared/organizer.py:63-104 | written exactly as checked, or nothing changes, and only with the grants to write in every scope it touches |
| Organizer.ReadsIgnoreOthers | src/assistai/shared/organizer.py:46-61 | what one agent reads is the same for any two states that differ only in other agents' private lists |
| ListLimits.ChangesStayBounded | src/assistai/shared/organizer.py:63-104 | every confirmed change keeps open items distinct, at most 50 of them, at most 30 lists a scope and names unique, for agents whose read grants cover their write grants |
| ListLimits.LimitsNeedGrants | src/assistai/shared/organizer.py:63-124 | the limits are kept for an agent if and only if its read grants cover its write grants |
| ListLimits.RefusedExactlyAtTheLimits | src/assistai/shared/organizer.py:63-101 | with covering grants, a change the tables would take is refused for a limit if and only if writing it would break one |
| ListLimits.UnseenListOverflows | src/assistai/shared/organizer.py:107-117 | an agent that cannot see a full list can add to it |
| ListLimits.ChangedOpenItems | src/assistai/store.py:635-650 | open afterwards: what was open, less what was closed, and what was added; still distinct, and counted as the organizer counts |
| ListLimits.ChangedByKey | src/assistai/store.py:635-650 | removed items are gone, checked ones have their open row checked, all others are untouched and in order |
| ListLimits.OthersUntouched | src/assistai/store.py:586-657 | no other agent's private list changes |
| RateLimit.AtMostLimitInAnyWindow | src/assistai/signal/ratelimit.py:32-38 | while a key is remembered and always asked, no window of time holds more than the limit of its events |
| RateLimit.SuccessiveEventsSpanTheWindow | src/assistai/signal/ratelimit.py:32-67 | over any sequence of calls, an allowed event and any event of its key at least the limit of slots before it are a whole window apart, unless the key was forgotten in between to make room |
| RateLimit.Serve | src/assistai/signal/ratelimit.py:15-67 | any calls in order of time: the events are exactly what the calls spent and refused; counting from when its key was last forgotten, a call is refused only with the limit of slots within the window and allowed only with fewer, and a key is forgotten only when at least as many keys as there is room for spent a slot within the window and its last slot is the oldest of theirs |
| RateLimit.FewKeysForgetNothing | src/assistai/signal/ratelimit.py:56-67 | calls that name fewer keys than there is room for never make the limiter forget one |
| RateLimit.FewKeysAlwaysSpanTheWindow | src/assistai/signal/ratelimit.py:32-67 | for such calls, with no proviso: an allowed call and any granted call of its key at least the limit of grants before it are a whole window apart |
| RateLimit.RateLimiter.Allow | src/assistai/signal/ratelimit.py:32-38 | adds exactly this event when it allows, and refuses only with the limit of recent slots on the key; other keys are unchanged but for stale ones and at most the oldest, which is named |
| RateLimit.RateLimiter.WouldAllow | src/assistai/signal/ratelimit.py:40-42 | spends nothing, and leaves the key as the answer was given for |
| RateLimit.RateLimiter.AskThenAllow | src/assistai/signal/ratelimit.py:40-42 | the prediction is the answer at the same instant, evictions included |
| RateLimit.RateLimiter.Record | src/assistai/signal/ratelimit.py:44-46 | spends exactly one slot and never refuses |
| RateLimit.RateLimiter.Prepare | src/assistai/signal/ratelimit.py:48-54 | what is left of a key is exactly its recent events, whether or not other keys had to go |
| RateLimit.RateLimiter.Evict | src/assistai/signal/ratelimit.py:56-67 | makes room: stale keys go, and a key is forgotten if and only if there is no room and none is stale, and then the oldest; never reads the end of an empty deque |
| RateLimit.RateLimiter.Oldest | src/assistai/signal/ratelimit.py:65-67 | a key whose last event is the oldest |
| Sse.ChunkingDoesNotMatter | src/assistai/inference/sse.py:20-36 | any chunking, pushed and flushed, yields the payloads of one push of the whole text and a flush |
| Sse.SplitAnywhere | src/assistai/inference/sse.py:20-27 | a split inside a line or between CR and LF changes nothing |
| Sse.SSEBuffer.Push | src/assistai/inference/sse.py:20-27 | the payloads of the complete lines, and the incomplete rest is held |
| Sse.SSEBuffer.Flush | src/assistai/inference/sse.py:29-36 | the payload of the held rest |
| Sse.DataLineIsItsPayload | src/assistai/inference/sse.py:39-45 | the payload of a data line is what follows the colon and any space, without the returns at the end |
| Sse.OtherLinesHaveNone | src/assistai/inference/sse.py:39-45 | a line that does not begin with the data field has no payload |
| Stream.AccumulateStream | src/assistai/inference/client.py:263-275 | the completion or the error depends on the whole text only, not on its chunks |
| Stream.AnswerIsMadeOfItsEvents | src/assistai/inference/client.py:263-382 | an answer is the texts of its events joined, one call a slot made of their fragments, and their last reason and usage |
| Stream.Ingest | src/assistai/inference/client.py:278-292 | stops at the end mark or the first bad frame |
| Stream.StreamState.ApplyEvent | src/assistai/inference/client.py:295-325 | one frame's text, fragments, reason and usage, or a provider error that changes nothing |
| Stream.StreamState.AccumulateToolDeltas | src/assistai/inference/client.py:341-362 | fragments are added in order to the slots of their indices |
| Stream.Finish | src/assistai/inference/client.py:365-382 | one call for each slot, by rising index, with that slot's id, name and arguments, or what is wrong with the slot of lowest index that is not whole; content, reason and usage are those of the state |
| Stream.CallsRise | src/assistai/inference/client.py:365-374 | calls that can be made are one for each slot, in the order of the sorted indices, each with its slot's id, name and arguments |
| Stream.FirstBadIsTold | src/assistai/inference/client.py:365-374 | the error told is that of a slot that is not whole, the missing name first, and every slot of lower index is whole |
| Stream.SlotsAreSeparate | src/assistai/inference/client.py:341-362 | a slot is the last id and name and the joined arguments of its own fragments, however others interleave |
| Stream.StateIsMadeOfEvents | src/assistai/inference/client.py:295-325 | content is the texts joined, slots are all fragments in order, frame boundaries aside, and the last reason and usage win |
| Stream.FailsAtTheFirstBreak | src/assistai/inference/client.py:278-299 | an answer fails if and only if a frame before the end mark is no JSON object or an error of the provider, and with the first such frame's error |
| Bounded.ReadBounded | src/assistai/bounded.py:86-118 | no coding named: the bytes themselves if they fit; two or more: unreadable; exactly one: the full decoded body exactly when it fits the cap, too large exactly when it decodes to more, an error when corrupt or unsupported |
| Bounded.CodingsAreNamed | src/assistai/bounded.py:69-83 | the codings kept are those named, empty parts and identity aside: none, the one, or more than one |
| Bounded.FeedChunk | src/assistai/bounded.py:107-115 | one chunk in limited pieces, never with a limit of 0; ends because each piece takes or gives something |
| Bounded.Inflater.Feed | src/assistai/bounded.py:36-48 | never more output than one byte past the cap; output within the limit and the input not taken; the raw fallback is tried only before anything was read |
| Bounded.Inflater.Finish | src/assistai/bounded.py:53-60 | the rest of the output, if it fits |
| Bounded.RawNeedsItsFirstTwoBytes | src/assistai/bounded.py:36-48 | one raw body, cut in two ways, is read in one and found corrupt in the other |
| Bounded.RawIsReadWhenTheFirstChunkShowsIt | src/assistai/bounded.py:36-48 | a raw body is read, whatever its other chunks, if and only if its first chunk alone is rejected as wrapped |

## Left out

- JobRunner.JobRunner.Deliver: does not bound how often a report is appended to the history, because a finishing write that fails after the append repeats it.
- JobRunner.JobRunner.FireRelay: a relay read as due at the start of a tick is not checked again for a cancel before it is sent, as in the code; only the report is.
- JobRunner.JobRunner.NotifyJob: a text sent in several parts counts as one send, and a send that raises counts as not sent.
- JobRunner.JobRunner.Notify: the branch for an outbox that vanished while sending (scheduler.py lines 319-326) is proved unreachable, since only the runner empties an outbox.
- JobRunner.JobRunner.Tick: the sets of running and warned jobs are not modelled; they only guard against a second runner and against repeated log lines.
- Turn.ReportRun: what a second look asks and whether an answer means nothing are arbitrary choices.
- Channel.Channel.Serve: one agent at a time; what other agents and the runner do to its history is any number of relay records, job reports and loads.
- Channel.Channel.Converse: the job rows a failed turn cancels are with the open turns in `JobRunner`; this class has the history side of the same turn.
- Channel.Channel.CommitProposal: catalog and agent are those of the offer; a configuration that changes while a proposal waits is not modelled.
- JobRunner.JobRunner.TurnCancelsNext: the runner may act between two cancels of one rollback, which the code does in one go; the reminders are held meanwhile.
- Staging.Create: an instant named in local time, and whether the zone can show it, are arbitrary choices.
- Lists.ListStore.Snapshot: the order of lists and items by time of change is not modelled; a list keeps its place.
- Lists.ChangeItems: items carry no row id; the first open row of a text is the only one, by the invariant.
- Sse.SSEBuffer.Push: hands out all payloads at once; the code's generator stops at the end mark and nothing reads the rest.
- Bounded.ReadBounded: a body already in memory (`is_stream_consumed`) and transport errors.
- RateLimit.RateLimiter.Allow: a key that was forgotten to make room starts with a fresh budget, as in the code.
- The clock never runs backwards in the model; `time.time` may be stepped back.
- Case folding and white space are ASCII, and the texts of requests arrive stripped and with inner space squeezed.
- JSON decoding and argument types are already-parsed values; the checks for a job inside a prompt and for a local time are function parameters.
- The HTTP, WebSocket, mail, calendar, search and page-reading clients, schema migration and SQL text.
- Pairing, allowlist, phone-number and envelope parsing, update notices: short checks without shared state.
- Previews, prompts, logging, configuration, the command line and the evaluations.
