# Sendplane in Dafny

Sendplane sends campaigns of mail for many tenants. Its guarantees rest on a handful of small protocols whose
promises hold only over whole runs, and on one recursive standards evaluator. This project models them and proves
what they promise, for every input, every run and every interleaving.

| file | what it is about |
|---|---|
| `Spf.dfy`, `SpfBudget.dfy`, `SpfSemantics.dfy` | the SPF evaluator: check_host() of RFC 7208 with a lookup budget, a depth guard and a memo, over arbitrary and possibly cyclic DNS contents |
| `Campaign.dfy`, `CampaignWalks.dfy`, `Chunks.dfy` | the campaign lifecycle under concurrent callers, the paged walks over campaigns, the chunked walks over deliveries |
| `Leader.dfy` | leader election over a lease, with late, lost and abandoned store calls |
| `LineReader.dfy`, `Ingest.dfy`, `IngestGuarantees.dfy`, `IngestBody.dfy`, `IngestCalls.dfy` | streaming ingest: cutting lines, batching and deduplicating under a cap, from bytes to recipients, idempotent calls, failures anywhere |
| `Bounce.dfy` | bounce handling: redelivered, reordered and forged mails handled at once, while senders hold and lose leases |
| `OverlayList.dfy`, `SharedTemplates.dfy`, `PlatformOverlay.dfy`, `PlatformConcurrency.dfy` | the platform overlay: spliced listings on two cursor spaces, shared templates with overrides, state kept in shadow rows, concurrent writers |
| `Tracking.dfy`, `Limiter.dfy`, `MailboxHealth.dfy` | the tracking buffer, the swept token buckets, the mailbox outage events |

Each module has the same shape. The source's objects are classes whose methods do what the source's methods do, step
by step, and are proved against functions of the old state. The theorems are about those functions: invariants and
refinements over every run of them, or agreement with an independent reference definition (`Fold` for ingest, `Host`
for SPF, `Split` for the line reader, `Replay` for campaigns, `First` for tracking columns, the failure runs for
mailbox events). Concurrency is a state machine over store calls (`Next`, `Run`): a caller keeps the copy it read, and
a call may fail before or after the store executed it.

The resolver, the SPF record parser and CIDR arithmetic, the parse of a recipient line, parsed bounce mails, clocks and
everything a failing store or network may do are parameters of the model, so every theorem holds for all of them.
Times are integers or reals.

Where the code does less than its comments say, the model follows the code:

- the depth guard of the SPF evaluator is described as an independent bound; no evaluation gets past ten levels, so
  none reaches it (`LookupBudget`, `DepthGuardIsUnreachable`);
- the line reader is described as returning each next line until the end of the stream; it drops an unterminated last line
  that fills the read buffer a whole number of times, and only such a line (`ReaderIsExact`, `LostLine`), and the
  recipient on it (`BytesToRecipients`);
- a manual retry is described as bumping the retry generation; it bumps it once per pass when the filter selects queued
  deliveries and fills a chunk, and at most once otherwise (`RetryIsOnceIff`);
- a mailbox recovery is described as announced only to somebody who was told about the outage; it is so exactly when,
  for every outage that ended, the Enqueue at its end failed or the one at its second failure succeeded
  (`UntoldRecovery`, `RecoveriesAreToldIff`). That the outbox alternates is another property, with its own exact
  condition (`OutboxAlternatesIff`); neither implies the other (`UntoldInTurn`, `ToldOutOfTurn`);
- a campaign edit commits under the version its client claims; the commits of a run are all decided from the rows they
  replace exactly when every edit that commits claims the version of the row it read (`SerialIffFaithful`,
  `ClaimAheadRevives`), and the theorems about runs are for such runs. Clients that send back a version they were
  shown make no others (`HonestRunsAreFaithful`);
- a replica that lost its lease is described as stopping before another starts; a lock request that executes after its
  caller gave up on it can end the lease that caller has obtained since. Whoever leads within its lease owns the lock
  throughout a run exactly when no such request does so (`OwnersLeadIffHarmless`, `HarmMeansOverlap`,
  `LateAcquireOverlaps`).

`dafny verify dfyconfig.toml` checks the whole project.

## Model

| member | source | states |
|---|---|---|
| `Spf.SpfEval.constructor` | internal/dnscheck/spf.go:51 | an evaluation starts with no lookup charged and nothing remembered |
| `Spf.SpfEval.DoCharge` | internal/dnscheck/spf.go:312-315 | one more lookup is charged, and the evaluation may go on exactly while at most ten are |
| `Spf.SpfEval.LookupTxt` | internal/dnscheck/spf.go:317-325 | the remembered answer of the case-folded name, or the resolver's, which is then remembered, errors included |
| `Spf.SpfEval.SelectRecords` | internal/dnscheck/spf.go:140-145 | the TXT records that are SPF records, in order |
| `Spf.SpfEval.DoCheck` | internal/dnscheck/spf.go:129-145 | verdict, error and every field of the evaluator equal those of the recursive specification `Check`, whose properties are proved below |
| `Spf.SpfEval.DoRecords` | internal/dnscheck/spf.go:146-161 | no record is no policy, several or an unparsable one a permerror, and one record is evaluated, as in `Records` |
| `Spf.SpfEval.DoTerms` | internal/dnscheck/spf.go:163-191 | the first mechanism that matches or fails hard decides, and the last redirect is remembered, as in `Terms` |
| `Spf.SpfEval.DoFollow` | internal/dnscheck/spf.go:193-211 | neutral without a redirect, else one charge and the target's verdict, with a missing target record a permerror, as in `Follow` |
| `Spf.SpfEval.DoMatch` | internal/dnscheck/spf.go:217-308 | one mechanism's outcome and the state it leaves, as in `Match`: what is charged, and what an include makes of each verdict |
| `Spf.SpfEval.MatchMx` | internal/dnscheck/spf.go:246-272 | true exactly when one of the first ten MX hosts covers the address |
| `SpfBudget.TxtBounds` | internal/dnscheck/spf.go:317-325 | a TXT lookup is free of charge and, with the memo, never asks a name twice |
| `SpfBudget.CheckBounds` | internal/dnscheck/spf.go:129-212 | from any state within the budget: charges stop one past the budget, each nested check is paid for by a charge, no check is deeper than the charges within the budget, overrunning is a permerror, errors come with exactly the two error verdicts |
| `SpfBudget.TermsBounds` | internal/dnscheck/spf.go:163-211 | the same for the rest of a record |
| `SpfBudget.FollowBounds` | internal/dnscheck/spf.go:193-211 | the same for a redirect |
| `SpfBudget.MatchBounds` | internal/dnscheck/spf.go:217-308 | the same for one mechanism, and a hard outcome is a permerror or temperror with an error |
| `SpfBudget.LookupBudget` | internal/dnscheck/spf.go:129-325 | for every DNS content, cycles included: at most 11 charges and 11 check calls, none more than ten levels deep and so none at the guard of twelve, an 11th charge makes the whole evaluation a permerror, no name is queried twice |
| `SpfBudget.CheckIsRecorded` | internal/dnscheck/spf.go:129-212 | the history these bounds are about is right: every check call is counted, and its depth recorded |
| `SpfBudget.TxtAgrees` | internal/dnscheck/spf.go:317-325 | with and without the memo a lookup gives the same answer |
| `SpfBudget.CheckAgrees` | internal/dnscheck/spf.go:129-212 | a simulation: two settings of budget, guard and memo give the same reply as long as the first spends no lookup the second could not |
| `SpfBudget.RecordsAgree` | internal/dnscheck/spf.go:146-161 | the simulation for the selected records |
| `SpfBudget.TermsAgree` | internal/dnscheck/spf.go:163-211 | the simulation for the rest of a record |
| `SpfBudget.FollowAgrees` | internal/dnscheck/spf.go:193-211 | the simulation for a redirect |
| `SpfBudget.MatchAgrees` | internal/dnscheck/spf.go:217-308 | the simulation for one mechanism |
| `SpfBudget.BudgetIsOnlyACutOff` | internal/dnscheck/spf.go:310-315 | an evaluation within ten lookups has the same verdict and count under every larger limit, and it is within ten under one limit exactly when it is under the other |
| `SpfBudget.MemoIsTransparent` | internal/dnscheck/spf.go:104-111 | for a case-insensitive resolver, an evaluator that queries every time answers the same |
| `SpfBudget.DepthGuardIsUnreachable` | internal/dnscheck/spf.go:23-26 | with every guard of at least ten no check is more than ten levels deep, and the evaluation is the one under the source's twelve |
| `SpfSemantics.HostUnique` | internal/dnscheck/spf.go:125-212 | the declarative reading of check_host() gives a domain at most one verdict, and one number of lookups for it |
| `SpfSemantics.MechanismUnique` | internal/dnscheck/spf.go:214-308 | and a mechanism at most one outcome and cost |
| `SpfSemantics.SelectsSole` | internal/dnscheck/spf.go:140-152 | the selected records are none, one or several exactly as the declarative reading counts them |
| `SpfSemantics.CheckSound` | internal/dnscheck/spf.go:129-212 | within the budget, verdict and lookups charged have a derivation in the declarative reading |
| `SpfSemantics.TermsSound` | internal/dnscheck/spf.go:163-211 | within the budget, the deciding term is the first that is not silent, or the last redirect at the end, and every term before cost what was charged for it |
| `SpfSemantics.EndSound` | internal/dnscheck/spf.go:193-211 | when every mechanism is silent the verdict is the one the last redirect gives, or neutral |
| `SpfSemantics.MatchSound` | internal/dnscheck/spf.go:217-308 | within the budget, a mechanism's outcome and charges are the declarative ones: its own host or the domain, the address family and prefix of the sender, ten MX hosts, one lookup for a, mx, exists, ptr and include |
| `SpfSemantics.CheckFits` | internal/dnscheck/spf.go:129-212 | a check whose derivation fits in what is left of the budget does not overrun it |
| `SpfSemantics.MatchFits` | internal/dnscheck/spf.go:217-308 | a mechanism whose lookups fit is evaluated to its declarative outcome, for just those lookups |
| `SpfSemantics.WithinBudget` | internal/dnscheck/spf.go:125-212 | for n up to ten, the evaluator returns v having charged n lookups if and only if the standard gives v for n lookups |
| `SpfSemantics.VerdictFollowsTheStandard` | internal/dnscheck/spf.go:125-212 | the evaluator returns v if and only if the reading of RFC 7208 that knows no budget, memo, depth or state derives v for at most ten lookups, or v is permerror and it derives nothing for ten |
| `CampaignControl.CampaignRepo.Commit` | store/doc.go:35-37 | Update writes and bumps the version exactly when the version read is still the row's, and conflicts otherwise, for an Update that is answered, never executed, or executed with an error for an answer |
| `CampaignControl.CampaignRepo.CommitAndTell` | internal/control/events.go:40-60 | the event is in the outbox only after a commit that was answered, with the row as committed; an enqueue that fails is reported and undoes nothing |
| `CampaignControl.CampaignRepo.StartCampaign` | internal/control/campaign.go:30-106 | a draft is scheduled, started with its version pinned and announced, or refused with the first check or read that fails, and nothing else changes |
| `CampaignControl.CampaignRepo.PauseCampaign` | internal/control/campaign.go:111-125 | running becomes paused and is announced; anything else is refused unchanged |
| `CampaignControl.CampaignRepo.ResumeCampaign` | internal/control/campaign.go:129-146 | paused becomes running, keeping its first start time, and is announced as started; anything else is refused unchanged |
| `CampaignControl.CampaignRepo.CancelCampaign` | internal/control/campaign.go:154-171 | any unfinished campaign becomes cancelled with the time and is announced; a finished one is refused unchanged |
| `CampaignControl.CampaignRepo.FinishRetry` | internal/control/campaign.go:179-228 | a completed campaign with requeued deliveries runs again and is announced; a draft, scheduled or cancelled one is refused |
| `CampaignControl.CampaignRepo.Schedule` | internal/control/campaign_loops.go:28-60 | a due scheduled campaign starts with its version pinned, and stays scheduled while its template is unpublished or unreadable; a lost race or event is no error |
| `CampaignControl.CampaignRepo.Complete` | internal/control/campaign_loops.go:114-180 | a running campaign's statistics are refreshed, and it completes and is announced exactly when it had deliveries and none is in flight; a count or refresh that fails stops it there, a lost race or event is no error |
| `CampaignControl.CampaignRepo.UpdateCampaign` | internal/api/campaigns.go:84-111 | a draft or scheduled campaign is edited under the version the client claims, and conflicts when that is not the row's; any other is refused |
| `CampaignControl.PlanIgnoresStats` | internal/control/campaign.go:30-228 | no decision reads the statistics cache, which is written outside optimistic concurrency |
| `CampaignControl.PlannedWrite` | internal/control/campaign.go:30-228 | what a call writes is along an edge of the graph, well formed, and keeps the pinned columns |
| `CampaignControl.WritesIffEdge` | internal/control/campaign.go:30-228 | a call writes if and only if the graph has an edge for it from the row it read, and the edge fixes every column: a start keeps the named version or binds the one the template has published, and records its time |
| `CampaignControl.StartRefusedBecause` | internal/control/campaign.go:36-106 | each reason a start is refused with, if and only if it is the first that applies |
| `CampaignControl.OthersRefusedBecause` | internal/control/campaign.go:108-228 | the other calls are refused for an invalid transition only, a retry exactly for a draft, scheduled or cancelled campaign, and the loops leave what they cannot move |
| `CampaignControl.AnnouncedIsTheStatus` | internal/control/events.go:40-60 | what a call announces is told by the status it wrote, with the version and sender written |
| `CampaignControl.DoneTells` | internal/control/campaign.go:30-228 | however the store serves a call: when the row changed, along which edge, when an event is in the outbox and of what, and when there is no error |
| `CampaignControl.DoneErrors` | internal/control/campaign.go:30-228 | which error a finished call reports, each if and only if |
| `CampaignControl.RefusedOffTheGraph` | internal/control/campaign.go:30-171 | an API call other than a retry is refused as an invalid transition if and only if no edge out of the campaign's status is labelled with such a call, whatever sender, recipients and version it finds |
| `CampaignControl.CommitsFromTheRow` | internal/api/campaigns.go:92-107 | when edits that commit claim the version they read, only a caller that holds the very row it replaces commits |
| `CampaignControl.Preserved` | internal/control/campaign_loops.go:28-180 | every step of every caller keeps the invariant: a held copy is the row itself unless someone committed since |
| `CampaignControl.StepIsAtomic` | store/doc.go:35-37 | a step changes nothing but statistics, or commits a call decided from the very row it replaces |
| `CampaignControl.RunsAreSerial` | internal/control/campaign.go:30-228 | in every interleaving in which edits that commit claim the version they read, the row is what the committed calls produce when replayed one at a time, and it is well formed: completion time exactly in completed and cancelled, version and start time in running, paused and completed |
| `CampaignControl.StatusFollowsTheGraph` | internal/control/campaign.go:30-228 | in every such interleaving a status change is an edge taken by its call, the version a start binds included; past draft and scheduled, template, sender and version never change, nor a start time once set |
| `CampaignControl.CancelledIsFinal` | internal/control/campaign.go:185-190 | in every such interleaving nothing but the statistics of a cancelled campaign ever changes |
| `CampaignControl.EditIsAtomicIff` | internal/api/campaigns.go:106-107 | an edit that commits is decided from the row it replaces if and only if it claims the version of the row it read |
| `CampaignControl.SerialIffFaithful` | internal/api/campaigns.go:84-111 | whatever versions clients send, every commit of a run is decided from the row it replaces if and only if every edit that commits claims the version of the row it read |
| `CampaignControl.HonestRunsAreFaithful` | internal/api/campaigns.go:106-107 | runs in which clients claim no version later than the row the edit read are such |
| `CampaignControl.ClaimAheadRevives` | internal/api/campaigns.go:92-107 | an edit that claims a version nobody has seen yet brings a campaign cancelled meanwhile back as a draft |
| `CampaignWalks.EachCampaign` | internal/control/loops.go:209-229 | the paging loop visits what the specification `Visited` says, over listings that differ from page to page; a failing callback or listing stops it there |
| `CampaignWalks.PageCovers` | internal/control/loops.go:205-229 | a page holds exactly the listed campaigns past its cursor up to the next cursor |
| `CampaignWalks.VisitedOnce` | internal/control/loops.go:205-229 | whatever changes between pages, the visited IDs strictly increase |
| `CampaignWalks.StayersVisited` | internal/control/loops.go:205-229 | a campaign that stays listed is visited by a walk that ends |
| `CampaignWalks.EachCampaignOnce` | internal/control/loops.go:205-229 | both together: every stayer, and none twice |
| `CampaignWalks.Finalizer.RefreshTracking` | internal/control/campaign_loops.go:191-228 | a tick examines whole pages from its cursor until the scan bound or the end and leaves the cursor there, wrapped at the end; one that fails has examined those before and starts the next over; one whose context is over stops at the next page and leaves the cursor where it was |
| `CampaignWalks.Finalizer.ExaminePage` | internal/control/campaign_loops.go:201-222 | one page of a tick: examined, last of the listing, or failed |
| `CampaignWalks.TickEndBounds` | internal/control/campaign_loops.go:197-223 | a tick that does not reach the end examines at least the scan bound |
| `CampaignWalks.ExaminedAhead` | internal/control/campaign_loops.go:191-228 | a campaign ahead of the cursor is examined within the ticks its distance takes |
| `CampaignWalks.ExaminedBehind` | internal/control/campaign_loops.go:191-228 | one behind it is examined once the walk has wrapped |
| `CampaignWalks.EveryCampaignRefreshed` | internal/control/campaign_loops.go:188-228 | by position: over n campaigns any ceil(n / scan) + 1 ticks examine every one, for every page size and position |
| `CampaignWalks.EveryCampaignExamined` | internal/control/campaign_loops.go:188-228 | over a fixed listing any ceil(n / scan) + 1 consecutive error-free ticks examine every campaign in it, for every page size and every cursor the first starts from |
| `CampaignWalks.BoundIsTight` | internal/control/campaign_loops.go:188-228 | for every number of rounds, a walk one past the start misses the first campaign in ceil(n / scan) ticks, so the extra tick is needed |
| `ChunkedUpdates.DeliveryRepo.UpdateMatching` | store/delivery.go:270-278 | the first matching rows up to the limit are changed and counted |
| `ChunkedUpdates.DeliveryRepo.RetryCampaign` | internal/control/campaign.go:192-217 | the rows and the total are those of up to 1000 passes, stopped by a short pass, the deadline or a pass that fails part of the way; an empty selection touches nothing, no status means failed |
| `ChunkedUpdates.DeliveryRepo.CancelTick` | internal/control/campaign_loops.go:300-313 | one tick cancels up to a chunk of the pending, queued and deferred rows and counts them |
| `ChunkedUpdates.BoundedRows` | store/delivery.go:270-278 | row by row: a row is changed exactly when it is among the first matches up to the limit |
| `ChunkedUpdates.TwoPasses` | store/delivery.go:270-278 | two passes of an update whose result no longer matches are one pass with both limits |
| `ChunkedUpdates.PassesAreOne` | internal/control/campaign.go:205-217 | any number of passes, a last failing one included, are one update with the whole budget, and the totals add up |
| `ChunkedUpdates.RetryMovesEachOnce` | internal/control/campaign.go:192-217 | for every chunk size and filter without queued: exactly min(m, passes * chunk + part) of the m matches are requeued, each bumped once, all else untouched |
| `ChunkedUpdates.RetryRows` | internal/control/campaign.go:192-217 | row by row and told without the loop: the first rows of the named IDs, statuses (failed when none is named) and classes are queued in the next generation with their attempts kept, up to the budget, and no other row changes |
| `ChunkedUpdates.BumpedEveryPass` | internal/control/campaign.go:205-217 | with queued in the filter and a full chunk of matches, the first match is bumped by every pass |
| `ChunkedUpdates.RetryIsOnceIff` | internal/control/campaign.go:192-217 | a retry bumps each delivery at most once if and only if the filter leaves out queued or fewer rows than a chunk are wanted |
| `ChunkedUpdates.TicksAreOne` | internal/control/campaign_loops.go:279-313 | k ticks of the canceller are one update of k chunks |
| `ChunkedUpdates.CancellingFinishes` | internal/control/campaign_loops.go:279-313 | row by row: k ticks cancel exactly the first k * chunk pending, queued and deferred rows, all once k * chunk reaches their number, change nothing else of them, and touch no leased or other row |
| `LeaderElection.LockRepo.Acquire` | store/lock.go:19-22 | granted exactly when the lock is free, one's own or expired; the new expiry is recorded |
| `LeaderElection.LockRepo.Renew` | store/lock.go:23-24 | granted exactly while one still holds a live lease |
| `LeaderElection.LockRepo.Release` | store/lock.go:25-26 | drops one's own lock and never another's |
| `LeaderElection.AnswersDecide` | internal/control/leader.go:96-150 | a replica leads only after a granted Acquire, goes on only after a granted renewal, each until the expiry it set, and any other answer to a renewal stops it |
| `LeaderElection.RequestsDecide` | store/lock.go:19-26 | what each request does to the lock, in time or late |
| `LeaderElection.Preserved` | internal/control/leader.go:96-168 | every step but the arrival of an abandoned request keeps: a replica running the loops within its lease owns the lock at least that long |
| `LeaderElection.ArrivalKeepsIffHarmless` | internal/control/leader.go:104-110 | a request that executes after its caller moved on keeps that if and only if its replica does not lead, or it sets an expiry no earlier than the one the replica counts on |
| `LeaderElection.OwnersLeadIffHarmless` | internal/control/leader.go:96-168 | whoever leads within its lease owns the lock at every point of a run if and only if every late request of the run is of that kind |
| `LeaderElection.HarmMeansOverlap` | internal/control/leader.go:96-168 | after any other late request, every idle replica that asks when the lock is due gets it while the first still leads within its lease |
| `LeaderElection.LateAcquireOverlaps` | internal/control/leader.go:104-110 | a run in which an abandoned Acquire executes under a newer lease of its own replica, and two replicas lead at once |
| `LeaderElection.OverlapOnlyWhenOverdue` | internal/control/leader.go:96-168 | in every run without harmful late requests two replicas run the loops at once only if one is past its own last expiry |
| `LeaderElection.HandOver` | internal/control/leader.go:96-168 | in every such run loops are started only by an Acquire, and only when every other replica still running them is overdue |
| `LeaderElection.ReleaseIsSafe` | internal/control/leader.go:152-167 | in every such run a Release never takes the lock from a replica running within its lease |
| `LeaderElection.PunctualMeansExclusive` | internal/control/leader.go:21-25 | in every such run, when no replica is overdue, only the lock's owner runs the loops |
| `LineReading.LineReader.Next` | internal/ingest/ingest.go:485-516 | item and remaining bytes are `NextOf` the unread bytes: the line up to the next LF, too long or end; at most max bytes are held |
| `LineReading.LineReader.Grow` | internal/ingest/ingest.go:493-504 | a chunk is appended without its LF, or the line is dropped once it is over the limit |
| `LineReading.SliceAt` | internal/ingest/ingest.go:488-492 | what a buffered read within a line hands out, placed in the whole stream, for every buffer size |
| `LineReading.ScanFrom` | internal/ingest/ingest.go:485-516 | the loop, entered anywhere in a line, returns the line as read from the whole stream |
| `LineReading.SplitIsFaithful` | internal/ingest/ingest.go:469-475 | the reference split loses nothing: joined with LF its pieces are the stream, and none holds an LF |
| `LineReading.LinesAreRead` | internal/ingest/ingest.go:482-525 | an item of the reference is its piece without one carriage return at the end, or too long when the piece is over the limit |
| `LineReading.ReaderSplits` | internal/ingest/ingest.go:482-525 | for every stream, limit and buffer, the plain split is the reader's items followed by the last line if that one is lost |
| `LineReading.ReaderIsExact` | internal/ingest/ingest.go:505-510 | the reader equals the plain split if and only if there is no unterminated last line that fits and fills the buffer exactly |
| `LineReading.TerminatedStreamsAreExact` | internal/ingest/ingest.go:482-525 | every stream ending with LF is split exactly |
| `LineReading.LostLine` | internal/ingest/ingest.go:505-510 | with the source's read buffer and default line limit, every unterminated body of one line of 65536 bytes yields no line |
| `Ingesting.Run.InsertBatch` | store/delivery.go:191-200 | the rows whose address is new are inserted in order and counted |
| `Ingesting.Run.DoFlush` | internal/ingest/ingest.go:373-386 | counts, rows, batch and seen set after a flush that works, fails with any part inserted, or has nothing to do |
| `Ingesting.Run.FlushWorks` | internal/ingest/ingest.go:377-385 | inserted rows are accepted, the rest of the batch are duplicates |
| `Ingesting.Run.DoReject` | internal/ingest/ingest.go:388-395 | every rejected line counts, and the first ones are listed with their number, clipped address and reason |
| `Ingesting.Run.DoLine` | internal/ingest/ingest.go:330-366 | one line's whole effect: skipped, rejected, duplicate, early flush, refusal at the cap, or batched |
| `Ingesting.Run.DoStream` | internal/ingest/ingest.go:307-371 | the loop over a parsed body: outcome and state equal `Stream`, for every batch size, cap and failure |
| `Ingesting.ProcessTracks` | internal/ingest/ingest.go:330-366 | after every line the run, with its pending batch, stands where the line-at-a-time fold does, or was refused at exactly the cap, or failed on the way |
| `Ingesting.FlushTracks` | internal/ingest/ingest.go:373-386 | a flush keeps that, and a failing one leaves rows between those there were and the fold's |
| `Ingesting.StreamEnds` | internal/ingest/ingest.go:307-371 | how every run ends: all lines taken, refused at a line at the cap, or failed between start and fold |
| `Ingesting.BeforeIsOnTheWay` | internal/ingest/ingest.go:315-366 | the state before any line is a state of the run: from there on it gives the run's outcome |
| `IngestGuarantees.BatchedAgrees` | internal/ingest/ingest.go:307-386 | below the cap, for every body and batch size: the recipients (first valid line wins), counts and listed errors of the fold over one global set |
| `IngestGuarantees.RecipientsIgnoreBatchSize` | internal/ingest/ingest.go:307-386 | without failures the recipients never depend on the batch size, at the cap neither |
| `IngestGuarantees.AcceptedForEveryBatchSize` | internal/ingest/ingest.go:342-358 | a body is accepted whatever the batch size if and only if no recipient line comes after the cap is reached |
| `IngestGuarantees.UnbatchedNeedsRoom` | internal/ingest/ingest.go:350-358 | with a batch size of one the first recipient line after the cap is refused |
| `IngestGuarantees.BatchSizeShowsAtTheCap` | internal/ingest/ingest.go:342-358 | at the cap one batch size counts a repeated address and another refuses it |
| `IngestGuarantees.CapIsHard` | internal/ingest/ingest.go:307-386 | in every run, whatever fails: before every line existing + accepted + pending batch is within the cap, and so are the rows at the end |
| `IngestGuarantees.FirstLineWins` | internal/ingest/ingest.go:338-341 | the reference fold, told from the lines: an address is a recipient if and only if it was one or some valid line has it, and each new one is as its first valid line has it |
| `IngestGuarantees.FoldCounts` | internal/ingest/ingest.go:307-386 | the reference fold counts each first valid line of a new address as accepted, each other valid line as a duplicate, and each rejected line as invalid |
| `IngestGuarantees.BadLinesReported` | internal/ingest/ingest.go:388-395 | the reports are of all rejected lines, each once, in order, with number, reason and address cut to 200 bytes |
| `IngestGuarantees.FailedInsertCounts` | internal/ingest/ingest.go:373-386 | after a failing insert: which rows may be there, what is counted as accepted, and that the batch is kept |
| `IngestGuarantees.AttemptsStayBetween` | internal/ingest/ingest.go:195-203 | after any failed attempts the rows lie between the start and the fold |
| `IngestGuarantees.ResendingRecovers` | internal/ingest/ingest.go:195-203 | after any failed attempts one complete resend reaches exactly the recipients of an uninterrupted run |
| `IngestBody.StreamBody` | internal/ingest/ingest.go:307-371 | the loop with its line reader: outcome and state equal `Stream` on the parsed lines read from the body, for every parse, buffer, line limit and failure |
| `IngestBody.LinesParsed` | internal/ingest/ingest.go:319-337 | line by line what is made of the pieces of a body: rejected when over-long, else parsed without one carriage return |
| `IngestBody.ReadAndLost` | internal/ingest/ingest.go:482-525 | the parsed plain split of a body is the lines the loop takes followed by the last line if the reader loses it |
| `IngestBody.BytesToRecipients` | internal/ingest/ingest.go:307-371 | for every body, buffer, line limit, batch size and parse, below the cap: rows and counts are those of the fold over the parsed plain split if and only if no line is lost or a blank one is, and the recipients if and only if the lost line is no new one |
| `IngestBody.TerminatedBodies` | internal/ingest/ingest.go:307-371 | a body that is empty or ends with LF is taken in full, with its counts and its rejected lines in order |
| `IngestCalls.Ingester.PutChunk` | store/campaign.go:102-106 | a chunk is inserted or replaced, also when the answer is lost |
| `IngestCalls.Ingester.DoIngest` | internal/ingest/ingest.go:204-275 | reply and store of a call, for every way each of its store calls may go |
| `IngestCalls.Ingester.DoStreamed` | internal/ingest/ingest.go:242-274 | the second half: partial counts on an error, the chunk completed only after a full stream |
| `IngestCalls.CompletedStays` | internal/ingest/ingest.go:220-240 | a completed chunk is never changed by later calls |
| `IngestCalls.CompletedChunkReplays` | internal/ingest/ingest.go:195-199 | once a keyed call succeeded, the key replays its counts and changes nothing, after any calls and with any body |
| `IngestCalls.ReplyTellsTheBody` | internal/ingest/ingest.go:242-274 | a reply without an error tells the numbers of fresh, repeated and rejected lines and of the recipients there are; a keyed call has recorded just that |
| `IngestCalls.CallsThatDoNotStream` | internal/ingest/ingest.go:204-240 | when a call is refused, fails before it streams or replays, and that it then changes nothing |
| `IngestCalls.SucceedsIff` | internal/ingest/ingest.go:204-275 | a call succeeds exactly when the campaign is editable, all its store calls are answered and its stream succeeds, or it replays |
| `IngestCalls.NotEditableRefuses` | internal/ingest/ingest.go:209-213 | once a campaign is no longer editable a call is refused and changes nothing |
| `IngestCalls.FailedCallsTellProgress` | internal/ingest/ingest.go:202-203 | a call that failed while streaming reports no more than it added, and its chunk is left in progress unless only the last answer was lost |
| `IngestCalls.RecipientsOnlyGrow` | internal/ingest/ingest.go:204-275 | over any calls recipients are never removed or replaced and never pass the cap |
| `IngestCalls.RepeatStep` | internal/ingest/ingest.go:204-275 | a repeated request keeps the rows on the way, and one without an error has added the whole body |
| `IngestCalls.RetryingReachesTheBody` | internal/ingest/ingest.go:195-203 | repeating a request until it gets no error adds exactly the recipients of one undisturbed call |
| `BounceProcessing.Processor.MarkTerminal` | store/delivery.go:244-260 | the status changes exactly from sent, the lease is taken with it, and the flag says so |
| `BounceProcessing.Processor.Handle` | internal/bounce/process.go:129-279 | the store's new state, told from the mail and the old state: what is recorded, when the delivery moves, what is suppressed and enqueued; and the outcome, with the reason when nothing moves |
| `BounceProcessing.Processor.Settle` | internal/bounce/process.go:232-279 | the compare-and-set wins exactly from sent, and only the winner suppresses and enqueues |
| `BounceProcessing.MarkStays` | store/delivery.go:244-254 | no step moves or marks a delivery that was moved out of sent: no handler, and no claim, result, expiry or cancellation |
| `BounceProcessing.JobKeeps` | store/memstore/delivery.go:221-363 | no store call of sender or control loops moves a marked delivery, because the mark took the lease a late result needs |
| `BounceProcessing.TouchedTells` | store/memstore/delivery.go:153-409 | case by case what claims, results, expiring leases and cancellation do to a row and its lease |
| `BounceProcessing.Preserved` | internal/bounce/process.go:129-279 | every step of every handler and of the rest of the system keeps the invariant |
| `BounceProcessing.AtMostOnce` | internal/bounce/process.go:241-276 | in every run a delivery leaves sent at most once, with at most one event, of its status |
| `BounceProcessing.StatusTellsTheMark` | store/memstore/delivery.go:296-322 | in every run a delivery is bounced or complained if and only if a handler moved it out of sent, whatever results arrive late and leases expire |
| `BounceProcessing.NoMarkWithoutProof` | internal/bounce/process.go:187-243 | whatever moved a delivery is a verified hard bounce or complaint correlated with it |
| `BounceProcessing.WhatItTellsIsProved` | internal/bounce/process.go:232-276 | in every run the status of a bounced or complained delivery, its event and its suppressions are those the mail that moved it proves: bounced for a hard bounce, complained for a complaint |
| `BounceProcessing.ForgeryIsInert` | internal/bounce/process.go:166-196 | in every run a handler of an unverified or unrelated mail changes nothing but the record |
| `BounceProcessing.OnlyTheOwnAddress` | internal/bounce/process.go:254-272 | in every run only the address of a moved, non-probe delivery is ever suppressed, on either list |
| `BounceProcessing.WorkStep` | internal/bounce/process.go:241-276 | without failures each step keeps the winner's work in the store up to its phase |
| `BounceProcessing.ExactlyOnce` | internal/bounce/process.go:241-276 | without failures a moved delivery whose handler finished has its one event and its suppressions |
| `BounceProcessing.HandledEffect` | internal/bounce/process.go:129-279 | a handler's store calls, made alone, have the effect `Handle` is proved to have |
| `BounceProcessing.EffectTells` | internal/bounce/process.go:232-279 | the effect of a verified hard bounce or complaint about a sent delivery: status, event, suppressions and record |
| `BounceProcessing.OtherMailsChangeNothing` | internal/bounce/process.go:129-219 | any other mail changes no delivery, list or outbox |
| `BounceProcessing.RecordedIff` | internal/bounce/process.go:129-230 | which mails are recorded, exactly |
| `BounceProcessing.RedeliveryIsInert` | internal/bounce/process.go:198-219 | handling the same mail again changes nothing but the record |
| `OverlayListing.Page.Limit` | store/page.go:18-26 | the page limit is clamped between 1 and 1000, kept when it is inside, and 50 when it is not positive |
| `OverlayListing.AtoiItoa` | store/overlay.go:290-296 | a synthetic cursor reads back as the position it was minted for |
| `OverlayListing.AtoiReads` | store/overlay.go:326-329 | what reads as the position of a synthetic cursor: decimal digits, with a sign |
| `OverlayListing.FilterPage` | store/overlay.go:306-319 | a backing page without its shadow rows, its cursor kept |
| `OverlayListing.TakeVirtual` | store/overlay.go:337-340 | the virtual entries of a page |
| `OverlayListing.FromVirtual` | store/overlay.go:337-352 | a page that starts among the virtual entries, filled up from the backing list |
| `OverlayListing.OverlayList` | store/overlay.go:300-352 | every cursor's page equals `OverlayPage`, whatever list function pages the rows; an unreadable or negative cursor is refused |
| `OverlayListing.Resumes` | store/overlay.go:306-319 | a backing cursor resumes right after the page that minted it |
| `OverlayListing.PageStep` | store/overlay.go:300-352 | from any minted cursor: at most a limit's worth, the next entries in order, and progress |
| `OverlayListing.WalkRest` | store/overlay.go:286-352 | a walk from any minted cursor yields exactly the entries behind it |
| `OverlayListing.WalkIsComplete` | store/overlay.go:286-352 | a walk with any limits yields the virtual entries, then the backing rows that are no shadow rows, each once and in order |
| `OverlayListing.Pages` | store/overlay.go:286-352 | no page of a walk is over its limit, and there is at most one page per entry and one more |
| `SharedContent.AllShared` | store/overlay_content.go:76-95 | the paging loop returns all shared templates of the system tenant, in order |
| `SharedContent.Prepare` | store/overlay_content.go:230-245 | the key index of the shared templates, and those the tenant has not overridden |
| `SharedContent.ListTemplates` | store/overlay_content.go:221-260 | a page of the listing is the overlay page over these and the own rows, each marked on the page it is on |
| `SharedContent.OwnPagesMarked` | store/overlay_content.go:246-258 | marking a page of the own rows gives the page of the marked rows |
| `SharedContent.MarkedAsAnnotated` | store/overlay_content.go:129-150 | List marks a row exactly as Get does |
| `SharedContent.WalkIsListing` | store/overlay_content.go:221-260 | a full walk with any limits gives the listing |
| `SharedContent.OneRowPerKey` | store/overlay_content.go:170-190 | for unique keys a full walk with any limits has one row for each key the tenant can see, the very row GetByKey returns, and none for others; an own row with a platform ID is the exact exception |
| `SharedContent.ListedAsGot` | store/overlay_content.go:159-168 | a row is in a full walk if and only if Get returns that very row and it is neither overridden nor a shadow row, or an own row has its ID |
| `SharedContent.Overlay.Write` | store/overlay_content.go:152-219 | Create, Update and Delete through the overlay: what is refused and how, and what reaches the tenant's table |
| `SharedContent.GetTells` | store/overlay_content.go:159-168 | Get returns the own row of the ID, marked exactly when a shared template has its key and with the version that one publishes, or else the shared row |
| `SharedContent.GetByKeyTells` | store/overlay_content.go:170-190 | GetByKey likewise, the own row overriding the shared one |
| `SharedContent.WritesAreRead` | store/overlay_content.go:152-219 | a write that succeeds is what Get returns next, a deleted row is gone, and nothing else changes |
| `SharedContent.RefusedExactly` | store/overlay_content.go:152-219 | each way a write is refused, if and only if |
| `SharedContent.TablesStayGood` | store/overlay_content.go:152-219 | after any writes by tenant and system tenant IDs and keys are unique and the tenant owns nothing shared |
| `SharedContent.EveryKeyListedOnce` | store/overlay_content.go:221-260 | in every reachable state a full walk with any limits lists each visible key once, as the row GetByKey returns |
| `SharedContent.TenantReadsItsWrite` | store/overlay_content.go:152-219 | in every reachable state a tenant reads what it wrote, and leaves the shared templates alone |
| `SharedContent.TenantReadsWhatIsShared` | store/overlay_content.go:159-168 | in every reachable state a tenant reads what the system tenant shares, and nothing it does not share |
| `SharedContent.SharedIsReadOnly` | store/overlay_content.go:192-219 | a write naming a shared template the tenant does not own is refused as read-only and changes nothing |
| `PlatformEntities.ShadowsStay` | store/overlay.go:476-481 | no sequence of calls removes a shadow row |
| `PlatformEntities.ColumnsPartition` | store/overlay.go:101-180 | for each of the five aggregates, the configuration columns, the state columns and the shared mark are disjoint and make up the struct |
| `PlatformEntities.ShadowIsState` | store/overlay.go:441-474 | column by column: the row a state write stores has the caller's state, the shared mark, and every other column empty |
| `PlatformEntities.MergeOverlaysState` | store/overlay.go:380-397 | column by column: a merge takes exactly the state columns from the shadow row |
| `PlatformEntities.SameIsConfig` | store/overlay.go:499-509 | the comparison before a state write is about exactly the configuration columns and the shared mark |
| `PlatformEntities.ViewHidesState` | store/overlay.go:527-538 | column by column: another tenant sees a shared sender's configuration and none of its state |
| `PlatformEntities.PlatformStore.DoWriteShadow` | store/overlay.go:441-474 | with other calls taking effect between its store calls, the lost create included, the write is atomic at one moment: the state columns of its aggregate, version checked |
| `PlatformEntities.PlatformStore.DoUpdate` | store/overlay.go:422-437 | an update that changes any configuration column, another tenant's or of an unknown ID is refused unchanged; otherwise the atomic state write |
| `PlatformEntities.PlatformStore.DoUpdateHealth` | store/overlay.go:864-885 | health is updated or, for the first time, created, atomically under races |
| `PlatformEntities.ConfigurationIsNeverStored` | store/overlay.go:439-474 | from every store in which it is so, after any calls by any tenants every stored row with a platform ID is in the system tenant with every configuration column of its aggregate empty |
| `PlatformEntities.RowAfter` | store/overlay.go:422-474 | one call changes the row of one platform entity at most, and only the system tenant's, to the state it wrote |
| `PlatformEntities.StateAfter` | store/overlay.go:380-437 | a state write is what is read of the state columns next, and every other call leaves them |
| `PlatformEntities.ReadsMergeConfigAndState` | store/overlay.go:532-554 | from every store, after any calls, column by column: the system tenant reads configuration from the catalog and state as last written, as it was before any write; another tenant reads shared senders without state, and nothing else |
| `PlatformEntities.ReadModifyWrite` | store/overlay.go:574-613 | what was read can be written back with any state columns changed, and exactly those are read next; a writer that read before that is refused |
| `PlatformEntities.OwnEntitiesPassThrough` | store/overlay.go:399-437 | a tenant's own entities: a call that succeeds is what its tenant reads next, and no other read changes |
| `PlatformEntities.OwnEntitiesRefused` | store/overlay.go:399-437 | and it is refused exactly when the entity is there already, is not there, or was written since it was read |
| `PlatformEntities.TenantsCannotInterfere` | store/overlay.go:16-42 | non-interference: what any tenant reads of any platform entity after any calls is what it reads after the system tenant's calls alone |
| `PlatformConcurrency.ActIsApply` | store/overlay.go:422-474 | one store call of a write, read, create, second read or update: it completes the call as the whole call would there, or changes nothing and has found out what the next relies on |
| `PlatformConcurrency.EveryCallIsProgress` | store/overlay.go:441-474 | a writer makes four store calls at most |
| `PlatformConcurrency.Preserved` | store/overlay.go:422-474 | every store call of every writer, failing ones included, keeps: the tables are those after the calls that took effect, and each writer's answer is its call's there |
| `PlatformConcurrency.EveryRunIsSerial` | store/overlay.go:422-474 | however the store calls of any writers interleave and fail, the tables are those after whole calls one after the other; each answered call is among them once, with its answer, and a failed one at most once |
| `PlatformConcurrency.EarlierComesFirst` | store/overlay.go:422-474 | a call that took effect before another began comes before it in that order |
| `PlatformConcurrency.NoRunStoresConfiguration` | store/overlay.go:439-474 | no interleaving stores a configuration column of a platform entity |
| `TrackingBuffering.TrackingBuffer.Record` | internal/control/tracking.go:82-113 | the event is appended, the oldest dropped and counted when full, refused and counted when closed |
| `TrackingBuffering.TrackingBuffer.Flush` | internal/control/tracking.go:191-222 | the buffer is emptied, every event is counted as flushed or failed, and each tenant that is up has its columns derived from its own events |
| `TrackingBuffering.TrackingBuffer.WriteTenant` | internal/control/tracking.go:205-221 | one tenant's events are counted once, and only its columns change |
| `TrackingBuffering.TrackingBuffer.GroupByTenant` | internal/control/tracking.go:201-204 | each tenant with events gets exactly its events, in order |
| `TrackingBuffering.TrackingBuffer.DeriveFirsts` | internal/control/tracking.go:232-266 | the loop with its seen set derives what the specification does |
| `TrackingBuffering.DerivesFirsts` | internal/control/tracking.go:232-266 | deriving sets an empty column of an existing delivery to the first counting event and leaves all else |
| `TrackingBuffering.WithoutOthers` | internal/control/tracking.go:201-221 | taking one tenant's events out of a batch leaves the others' untouched and in order |
| `TrackingBuffering.EventsAreConserved` | internal/control/tracking.go:82-113 | in every run recorded = buffered + in flight + flushed + failed + dropped, and the buffer stays within its bound |
| `TrackingBuffering.OldestAreDropped` | internal/control/tracking.go:95-102 | in every run the buffer holds the newest events recorded |
| `TrackingBuffering.ColumnsFollowWrites` | internal/control/tracking.go:224-266 | in every run the columns hold the first counting event among those written |
| `TrackingBuffering.FirstIsTheInteraction` | internal/control/tracking.go:239-257 | the reference is the tenant's first event of the column's kind and delivery that is not a suspected bot's, a clicked unsubscribe link being none |
| `TrackingBuffering.FirstsAreTheRecordedFirsts` | internal/control/tracking.go:191-266 | with nothing lost, however events split into flushes, a column is set if and only if its delivery exists and an interaction by no suspected bot was recorded, and then to the time of the first |
| `RateLimiting.IpLimiter.DoSweep` | internal/api/tracking.go:139-149 | at most once per idle time exactly the idle buckets are dropped |
| `RateLimiting.IpLimiter.DoAllow` | internal/api/tracking.go:108-135 | answer and buckets after a request: refilled, capped, one token taken or refused, a stranger admitted when the table is full |
| `RateLimiting.SweepKeepsLevel` | internal/api/tracking.go:137-149 | sweeping changes no level from the earliest time a further request may carry on |
| `RateLimiting.IdleIsRipe` | internal/api/tracking.go:144-148 | an idle bucket is full for every request still to come, however times up to 298.5 seconds out of order were served |
| `RateLimiting.TakeLevels` | internal/api/tracking.go:125-134 | a request is admitted exactly with a token, takes one, and raises no address's level |
| `RateLimiting.SweepingIsInvisible` | internal/api/tracking.go:108-149 | while no address finds the table full, every request sequence, served out of order or not, is answered as by a limiter that never sweeps |
| `RateLimiting.WitnessDiffers` | internal/api/tracking.go:108-149 | beyond 298.5 seconds of disorder: a run of 123 tracked requests whose last is admitted, and refused by a limiter that never sweeps |
| `RateLimiting.ToleranceIsExact` | internal/api/tracking.go:108-149 | sweeping is invisible in every run at most so far out of order if and only if that is at most 298.5 seconds |
| `RateLimiting.AdmittedPlusLevel` | internal/api/tracking.go:108-135 | admitted requests plus the level left never exceed the burst plus the refill since the window began |
| `RateLimiting.WindowBound` | internal/api/tracking.go:80-135 | an address is admitted at most 60 + 20 (t - s) of its requests that carry times from s to t, in any stretch of any run, served out of order or not |
| `RateLimiting.AdmittedIff` | internal/api/tracking.go:108-135 | told without a bucket: a request is admitted if and only if, counted from each of the address's earlier requests, those admitted since and this one are within 60 + 20 per second since |
| `RateLimiting.UntrackedIff` | internal/api/tracking.go:115-121 | an address is untracked exactly when it is new and the table holds 50000 after the sweep |
| `RateLimiting.SweptExactly` | internal/api/tracking.go:137-149 | what a sweep keeps and when there is one |
| `RateLimiting.FullTableAdmitsAll` | internal/api/tracking.go:115-121 | an address that finds the table full is admitted without bound, so the window bound needs its condition |
| `MailboxReachability.Mailbox.Record` | internal/mbhealth/mbhealth.go:109-154 | the row is written first and the transition's event enqueued after, with the health just written; which error occurs when, and what each leaves |
| `MailboxReachability.RowTellsHistory` | internal/mbhealth/mbhealth.go:82-100 | over every trace the failures counted are the length of the current failing streak, the last success is the check before it, and status, stage and reason are the last check's |
| `MailboxReachability.BeginningsAreLongRuns` | internal/mbhealth/mbhealth.go:45-53 | the outages counted begin exactly at the maximal runs of two or more failures |
| `MailboxReachability.EndsAreLongRuns` | internal/mbhealth/mbhealth.go:156-160 | and end exactly at the successes right after such a run |
| `MailboxReachability.AnnouncedIs` | internal/mbhealth/mbhealth.go:161-170 | a check announces an outage exactly at its second failure and a recovery exactly at its end |
| `MailboxReachability.EventsTellOutages` | internal/mbhealth/mbhealth.go:102-108 | over every trace the events strictly alternate, one unhealthy per maximal run of two or more failures and one recovered per such run ended |
| `MailboxReachability.AnnouncedInTurn` | internal/mbhealth/mbhealth.go:161-170 | what a check announces is the event whose turn it is, whatever became of those before |
| `MailboxReachability.OutageAnnouncedOnce` | internal/mbhealth/mbhealth.go:105-108 | an outage is announced at its second failure and its recovery at the success ending it, and no other check of the run announces anything: a lost event is not made up for |
| `MailboxReachability.OutboxAlternatesIff` | internal/mbhealth/mbhealth.go:147-153 | with failing enqueues the outbox still has outages and recoveries in strict turn if and only if every event enqueued came after an even number of lost ones |
| `MailboxReachability.UntoldRecovery` | internal/mbhealth/mbhealth.go:156-160 | two failures whose unhealthy is lost and then a success: recovery is announced to somebody never told of the outage |
| `MailboxReachability.RecoveriesAreToldIff` | internal/mbhealth/mbhealth.go:156-160 | with failing enqueues, whoever is told of a recovery was told of its outage if and only if, for every outage that ended, the enqueue at its end failed or the one at its second failure succeeded |
| `MailboxReachability.UntoldInTurn` | internal/mbhealth/mbhealth.go:147-160 | two outages whose events alternate in the outbox although a recovery is told without its outage |
| `MailboxReachability.ToldOutOfTurn` | internal/mbhealth/mbhealth.go:147-160 | two outages whose recoveries are all told to somebody told of the outage although the events do not alternate |

## Left out

- HTTP handlers, configuration, authentication, the web packages, IMAP, POP3, SMTP, MIME, DNS transport, JSON, Liquid, HMAC and encryption: foreign libraries or one branch at a time.
- The SPF record parser and CIDR arithmetic: arbitrary functions of the model, so the theorems hold for every parser.
- DoCheck: the record, matched and hasAll fields kept for display are not modelled; they decide no verdict.
- DoRecords: likewise, the record kept for display.
- DoTerms: likewise, matched and hasAll.
- DoFollow: likewise, matched and hasAll.
- Parsing and validating recipient lines, bounce mails and campaign edits: the models start from the parsed result.
- Deduplication of deliveries without a campaign, and what senders decide: claims, results and expiring leases are steps of the bounce model with any outcome.
- CommitAndTell: the campaign's ID, name and counts in the payload, which are copied, are not modelled.
- UpdateCampaign: validation and the locale and variables of the edit, which no other call reads, are not modelled.
- Campaign deletion.
- FinishRetry: how many deliveries were requeued is a parameter here; the loop that requeues them is `RetryCampaign`.
- Complete: the skip counters of large campaigns, which leave a campaign for another tick, are not modelled.
- The choice of which examined campaign to recount, and tenant ticking: they change no status.
- UpdateMatching: rows are taken in listing order, as the reference store takes them; the contract leaves the order open.
- RetryCampaign: a Requeue that fails is taken to report the rows it moved.
- What the leader loops do, and tenants cached by the leader.
- Next: reading errors other than the end of the stream appear in ingest (`StreamBody`), not in the line reader.
- AtMostOnce: runs have no manual retry, which puts a delivery back in the queue on purpose so that it may be sent, and leave sent, again.
- Handle: its own store calls all succeed; failing and interleaved calls are in the state machine the theorems are about (`Next`). The fields of recorded bounce events and the resolution of a shared mailbox's tenant are not modelled, nor is at-least-once after a failure, which the code does not provide.
- OverlayList: a synthetic cursor too large for a machine integer, which this package never mints, and errors of the backing list are not modelled.
- ListTemplates: store errors are not modelled. Layouts and versions, which are shared the same way, are left out.
- DoWriteShadow: store errors other than not found and conflict are in the state machine of `PlatformConcurrency`, not in this method.
- DoUpdate: likewise.
- DoUpdateHealth: likewise.
- ReadsMergeConfigAndState: timestamps, the rewriting of a shared sender's tenant and the listing of enabled mailboxes are not modelled.
- Record: in TrackingBuffering, the defaulted ID and time of an event and the flusher's wake-up are not modelled.
- Flush: failing column setters, which are only logged, and the flusher's timers are not modelled.
- WindowBound: exact reals stand for float64 tokens, and the bound is only for addresses the table tracks.
- Record: in MailboxReachability, checks of one mailbox are sequential; the time an event occurred is the check's.
