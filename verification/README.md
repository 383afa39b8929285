# Model of the svkexe gateway

svkexe is a gateway that creates VMs for its users, routes web requests and SSH sessions to
them, and runs an AI agent inside each. This project models the parts of it that hold state
or parse input: custom-domain claims, the life of a VM's initial task, the choice of the
model a VM opens on, the metadata service's view of addresses and its tokens, the SSH
shell's line editor and command parser, and the host names and grants behind every
forwarded request. Each part is stated in the gateway's own terms and proved for every
input, every run, or every interleaving of its steps.

`dafny verify dfyconfig.toml` checks all of it.

## How the project is laid out

- Custom domains: `AliasTable` (the SQL statements), `AliasRuns` (every interleaving of the
  single statements), `AliasLimits` (what interleaving costs), `AliasManager` (whole calls),
  `AliasCalls` (that the statements of a call make up the call), `DnsCheck` and `AliasSweep`
  (the DNS verdict and the periodic re-check), `AliasNames` and `HostnameRules` (hostnames).
- Initial task: `TaskLifecycle` (rows, rounds, and runs of whole calls on one VM, one after
  the other), `TaskOutcome` (what each raw reply leaves in the row), `TaskRaces` (every interleaving of the statements of calls that overlap) and
  `TaskRaceRuns` (runs that reach its bounds), `VmGate` (the per-VM lock).
- Models: `ModelChoice` (which model a VM opens on), `OwnerModels` (connections, defaults).
- Metadata service: `Resolver`, `ResolverFacts`, `MetadataToken`.
- SSH shell: `Terminal`, `EditorModel`, `Keystrokes`, `PlainLines`, `LineEditor`,
  `CommandLine`, `CommandParser`, `CommandOutcome`.
- Routing: `HostNames`, `AccessTable`, `Proxy`, `ProxyOutcome`.
- Page embedding: `JsEscape`.
- Shared: `Basics`, `NetAddr`, `Bytes`, `Text`.

What the source updates in place is a class whose methods follow the code statement by
statement and are tied to a function of the old state; what is promised is then proved about
that function. The modules named after outcomes and rules, and the lemmas ending in `Means`,
`Iff`, `Settles` and `Leaves`, state what an operation does in terms of raw inputs and of the
tables before and after, without the functions that compute it. Where several processes share state, a step is one SQL statement, one
transaction or one critical section, and the environment chooses the order, the failures,
the clock and every answer from outside.

## Findings

- The DNS check compares the operator's static addresses as written. It recognises every
  name that points at the gateway if and only if each listed address is also listed in
  unmapped form (`DnsCheck.StaticFormDecides`).
- The resume budget bounds the requests the agent answers, not the turns it runs. A request
  that starts a turn and whose answer is lost, to the round's deadline or to curl's, is taken
  for one that never arrived (`internal/picoclaw/task_monitor.go:285-290`): nothing is charged,
  and the failure of the turn it started is fresh, so the age limit does not end it. One
  delivery causes at most four turns, one more for each round since whose counter write failed
  after an answer, and one more for each whose request started a turn unanswered; that holds
  in every run of calls that do not overlap and is reached for every pair of numbers
  (`TaskLifecycle.TurnsAreBounded`, `TaskLifecycle.BoundIsReached`,
  `TaskLifecycle.UnansweredResumeIsFree`). A round charges exactly when the agent is asked and
  answers and the write succeeds (`TaskLifecycle.ChargedIffCounted`). A posted task leaves
  pending exactly when its outcome is recorded (`TaskLifecycle.PostedOnceIffRecorded`).
- Calls on one VM do overlap: a delivery tests the row before it waits for the gate and not
  again, and the owner's `task` command polls beside the monitor. A task is then posted up to
  as often as deliveries were under way at once, plus the outcomes that were not recorded; the
  resume count goes up to two plus the rounds under way at once, and the turns with it. Both
  bounds hold under every interleaving and both are reached (`TaskRaces.OverlapIsBounded`,
  `TaskRaceRuns.PostsAreReached`, `TaskRaceRuns.TurnsAreReached`). Done is final for calls that load
  the row afterwards, but a delivery still waiting for the gate records its failure over it
  (`TaskRaces.DoneStays`, `TaskRaceRuns.DoneIsOverwritten`). Sent, working and done carry a valid
  conversation unless since the last retry a round that loaded the row before it recorded
  working or done; one that does so after the retry makes a task that waits for its delivery
  look done, and it is never delivered (`TaskRaces.ConversationUnlessLate`,
  `TaskRaceRuns.RetryIsOverwritten`).
- An abandoned command goes on inside the VM, so the gate alone does not keep the model table
  still. The model a delivery posts is in the table at that moment if and only if the last
  write since it was listed, if there was one, kept it; while the delivery holds the gate only
  a reseed given up earlier can be that write, and it can (`VmGate.PostedModelIsInTheTable`,
  `VmGate.LateReseedDropsModel`).
- The guest's configuration is read again when it does not parse, but an empty read, which is
  what a truncated file gives, is taken for an empty configuration at once
  (`internal/picoclaw/provider_keys.go:180-182`). The other settings survive if and only if
  nothing is written, there are none, or the read the gateway goes by was whole
  (`ModelChoice.OthersSurviveIff`, `ModelChoice.OneEmptyReadLosesSettings`).
- A plain session whose end of stream is reported together with data takes all that is left
  for one line. Its lines are those of the stream if and only if what is left, the unfinished
  line and the bytes that came with the end, has no newline, or one, after something that is
  not blank and before something that is (`PlainLines.SessionIsRightIff`,
  `PlainLines.JoinedCommands`).
- A VM may get more than ten custom domains when Adds run at once: nine plus the most Adds that
  were ever between their count and their insert, and that many are reached
  (`AliasLimits.RowsAreBounded`, `AliasLimits.LimitIsExceeded`). A row outlives its VM exactly
  when its insert runs while the VM is not there, which a deletion between the checks and the
  insert brings about (`AliasLimits.OrphansComeFromLateInserts`, `AliasLimits.RowOutlivesVm`).
- Facts the metadata service serves from its cache were read under the view they are served
  with if and only if the view was not replaced while their reader was on its way to storing
  them; otherwise they are older, for the whole window
  (`ResolverFacts.ServedFactsAreCurrentIff`, `ResolverFacts.OldFactsAreServed`).
- A failure's age in seconds is multiplied into a 64-bit duration. The product is exact if and
  only if the count is within 9223372036 of zero; beyond that it wraps, and 18446744074 seconds
  count as fresh (`TaskLifecycle.DurationIsExactIff`, `TaskLifecycle.WrappedAgeIsResumed`).
- VM hosts parse back if and only if the configured domain does not itself read as
  `host:port` (`HostNames.PrintedHostParsesBack`).
- `internal/proxy/proxy.go:116-118` sets a share identity on an agent route, but lines 91-94
  have already refused every share token there; the model keeps the code's outcome.
- The age of a cached view counts the time a refresh takes, at most d: it was stored less than
  7*ttl + 6*(g + d) ago and asked for less than 7*ttl + 6*g + 7*d ago. On a clock of whole
  nanoseconds 7*(ttl - 1) + 6*g + 7*d is the largest age, and it occurs
  (`Resolver.AgeIsAttained`).

## Model

| member | source | states |
|---|---|---|
| AliasTable.ProveEffect | internal/db/container_aliases.go:239-282 | a successful verification leaves the row verified, removes exactly the pending claims of other VMs on its name and touches no other row |
| AliasTable.ProveKeeps | internal/db/container_aliases.go:235-282 | verification keeps one verified row per hostname and one row per VM and hostname |
| AliasTable.InsertKeeps | internal/db/container_aliases.go:142-156 | a new claim keeps both uniqueness rules |
| AliasTable.WithdrawalKeeps | internal/db/container_aliases.go:349-388 | any write that only removes or clears rows keeps both uniqueness rules |
| AliasRuns.EveryInterleavingKeepsInv | internal/aliases/aliases.go:70-210 | however the single statements of Add, Recheck, Remove, Release, VM and account deletion and the sweep interleave, no hostname has two verified rows and no VM lists a hostname twice |
| AliasRuns.StepHistory | internal/db/container_aliases.go:116-156 | no step but an insert makes a row, none but a verification verifies one, none but a lookup passes the lookup |
| AliasRuns.RunsAreAccurate | internal/db/container_aliases.go:116-156 | in every run each row's recorded lookup and verification are the steps that performed them |
| AliasRuns.PendingBesideVerified | internal/db/container_aliases.go:116-156 | a pending row of one VM beside a verified row of another comes from a CreateContainerAlias whose lookup ran before the step by which the other row became verified, as which it has stayed ever since |
| AliasLimits.RowsAreBounded | internal/db/container_aliases.go:116-152 | under every interleaving a VM's rows and the Adds past their count number at most nine plus the most Adds ever past it at once |
| AliasLimits.LimitIsExceeded | internal/db/container_aliases.go:116-152 | for every number of simultaneous Adds a run reaches that bound |
| AliasLimits.OrphansComeFromLateInserts | internal/db/containers.go:383-409 | under every interleaving a row without a VM was inserted while the VM was not there |
| AliasLimits.RowOutlivesVm | internal/db/container_aliases.go:142-152 | a run in which a VM is deleted between an Add's checks and its insert and the row outlives it |
| AliasManager.Refusal | internal/db/container_aliases.go:116-140 | a claim is admitted exactly when the VM has fewer than ten rows, no other VM is verified on the name and this VM does not list it |
| AliasManager.AliasStore.CreateContainerAlias | internal/db/container_aliases.go:116-156 | which refusal is given, and that an admitted claim is stored unverified and nothing else changes |
| AliasManager.AliasStore.SetAliasVerification | internal/db/container_aliases.go:239-282 | clearing always succeeds; verifying either runs the whole transaction or reports the name taken and changes nothing |
| AliasManager.AliasStore.Check | internal/aliases/aliases.go:169-210 | after a check the row is verified if and only if DNS points here and no other row was verified on the name, with the pending claims of other VMs gone; otherwise it is out of routing with the reason stored and every other row as it was |
| AliasManager.CheckedLeaves | internal/aliases/aliases.go:169-210 | exactly what a check leaves in the table, whatever DNS said and whoever holds the name |
| AliasManager.MayClaimIff | internal/db/container_aliases.go:116-140 | a VM may claim a name if and only if it has fewer than ten, does not list it and no row is verified on it; which refusal is given otherwise |
| AliasManager.AliasStore.Add | internal/aliases/aliases.go:70-82 | a typed hostname is refused with its reason and nothing changes, or its normal form is stored exactly when the VM may claim it, and left as a check leaves it |
| AliasManager.AliasStore.Recheck | internal/aliases/aliases.go:87-93 | only the VM's own row is checked again; any answer but this gateway takes it out of routing |
| AliasManager.AliasStore.Remove | internal/aliases/aliases.go:96-106 | only the VM's own row is removed |
| AliasManager.AliasStore.Release | internal/aliases/aliases.go:119-149 | every claim on the hostname, normalised as every lookup normalises it, goes and the count is returned |
| AliasManager.AliasStore.DeleteContainer | internal/db/containers.go:389-409 | a VM goes with all its aliases, without foreign-key cascade |
| AliasManager.AliasStore.DeleteUser | internal/db/users.go:117-157 | an account goes with its VMs and their aliases |
| AliasManager.EveryCallSequenceIsSound | internal/db/container_aliases.go:116-156 | when calls are atomic, a verified hostname has exactly one row platform-wide, no VM lists a name twice or has more than ten rows, and no row outlives its VM |
| AliasManager.StoredNamesAreNormal | internal/aliases/aliases.go:70-82 | whatever hostnames were typed, every stored one is valid and in the normal form it is looked up under |
| AliasCalls.AddAlone | internal/aliases/aliases.go:70-82 | the statements of an Add that nothing interrupts make up the whole call |
| AliasCalls.RecheckAlone | internal/aliases/aliases.go:87-93 | the same for a Recheck |
| AliasCalls.RemoveAlone | internal/aliases/aliases.go:96-106 | the same for a Remove |
| AliasCalls.ReleaseAlone | internal/aliases/aliases.go:119-149 | the same for a Release |
| DnsCheck.Verifier.GatewayAddrs | internal/dnscheck/dnscheck.go:154-193 | which address set is trusted at a moment, and that only a successful lookup is cached |
| DnsCheck.TrustedSet | internal/dnscheck/dnscheck.go:154-193 | the operator's addresses come first, a resolved set is trusted for less than five minutes from when it was stored, and only an answer with a readable address replaces it |
| DnsCheck.Verifier.Verify | internal/dnscheck/dnscheck.go:109-149 | the verdict is that of the trusted set against the hostname's readable addresses |
| DnsCheck.JudgeMeaning | internal/dnscheck/dnscheck.go:109-149 | elsewhere is said exactly when the gateway knows itself, the name has a readable address and the sets are disjoint; here exactly when they overlap |
| DnsCheck.ResolvedSetsAreUnmapped | internal/dnscheck/dnscheck.go:154-206 | a resolved set is always in unmapped form |
| DnsCheck.StaticFormDecides | internal/dnscheck/dnscheck.go:73-92 | every name pointing at a static address is recognised if and only if each is also listed unmapped |
| AliasSweep.ReverifyOnce | internal/aliases/aliases.go:273-306 | a sweep withdraws exactly the verified rows that definitely moved and whose write succeeded; every other row is left as it was |
| AliasSweep.SweepNeverPromotes | internal/aliases/aliases.go:273-306 | a sweep verifies nothing, and without a definite move it changes nothing |
| AliasSweep.MovedIsElsewhere | internal/aliases/aliases.go:273-306 | a row counts as moved exactly when the check says elsewhere, with the cache as the sweep has left it |
| AliasNames.AcceptedIsStable | internal/db/container_aliases.go:70-107 | an accepted hostname is its own normal form and is accepted again unchanged |
| HostnameRules.HostnameIsJudged | internal/db/container_aliases.go:70-107 | every typed hostname is accepted as its normal form, or refused for the first rule its labels break |
| HostnameRules.TrimmedIsMiddle | internal/db/container_aliases.go:70-74 | trimming drops white space at both ends and nothing else |
| AliasNames.AcceptedIsFound | internal/db/container_aliases.go:184-197 | a Host header spelling an accepted name in any letter case, with trailing dot or port, is looked up as that name, normalised by the proxy and again by the query |
| AliasNames.AliasNeverShadows | internal/db/container_aliases.go:66-107 | for any domain no accepted name is inside it as normalised, and for a domain written without outer spaces or a trailing dot none is what a VM host is looked up as |
| TaskLifecycle.TaskRow.RefreshTaskState | internal/picoclaw/task_monitor.go:108-143 | one round's whole effect on the row, and whether the agent was asked to resume and answered, for any replies and any failing writes |
| TaskOutcome.RoundSettles | internal/picoclaw/task_monitor.go:231-319 | from the raw reply: answered gives done, an idle turn that neither answered nor erred gives failed, running gives working, a missing conversation gives failed, an unreadable reply leaves the row; for an error, which failures are resumed, charged or reported, and with which reason |
| TaskOutcome.AdoptionSettles | internal/picoclaw/task_monitor.go:158-181 | a task without a conversation adopts the valid one found, fails when there is none, and is left alone otherwise |
| TaskOutcome.FailureUnreadIff | internal/picoclaw/task_monitor.go:342-366 | which failure replies are unreadable, and which are retryable |
| TaskOutcome.DeliverySettles | internal/picoclaw/task.go:46-141 | when a task is posted and exactly what the row then says |
| TaskOutcome.RetrySettles | internal/db/containers.go:505-522 | a retried task is as new, and only a failed one with text is retried |
| TaskLifecycle.TaskRow.ResumeAfterFailure | internal/picoclaw/task_monitor.go:278-319 | when a failed turn is resumed, charged, refused or left undecided |
| TaskLifecycle.TaskRow.DeliverInitialTask | internal/picoclaw/task.go:46-141 | whether the task is posted and what the row says afterwards |
| TaskLifecycle.TaskRow.SetInitialTaskDelivered | internal/db/containers.go:425-434 | delivery records the conversation and clears the resume count |
| TaskLifecycle.TaskRow.SetInitialTaskConversation | internal/db/containers.go:439-458 | a conversation is adopted only where none is recorded |
| TaskLifecycle.TaskRow.CountInitialTaskResume | internal/db/containers.go:464-474 | the count grows by one and the new value is returned |
| TaskLifecycle.TaskRow.RetryInitialTask | internal/db/containers.go:505-522 | only a failed task with text goes back to pending, with nothing spent |
| TaskLifecycle.ProgressMeans | internal/picoclaw/task_monitor.go:231-270 | exactly which replies mean answered, failed, gone, busy and cut short |
| TaskLifecycle.FailureReadsBack | internal/picoclaw/task_monitor.go:342-366 | a failure's verdict and age are read as printed, and one of unknown age is never resumed |
| TaskLifecycle.DurationIsExactIff | internal/picoclaw/task_monitor.go:359-363 | the age in nanoseconds is exact if and only if the seconds are within 9223372036 of zero |
| TaskLifecycle.WrappedAgeIsResumed | internal/picoclaw/task_monitor.go:334-363 | an age of 18446744074 seconds wraps and counts as fresh |
| TaskLifecycle.ReadFound | internal/picoclaw/task_monitor.go:187-210 | a conversation found by its task text is a valid one |
| TaskLifecycle.EveryRunIsSane | internal/db/containers.go:236-252 | in every run, with any writes failing: without text a task stays inert, a pending one has spent nothing, sent, working and done carry a valid conversation, and the count never exceeds 3 |
| TaskLifecycle.TurnsAreBounded | internal/picoclaw/task_monitor.go:278-336 | in every run, with any writes failing and any answers lost: one delivery causes at most 4 turns, one more per round since that lost the count of an answer and one more per request that started a turn unanswered |
| TaskLifecycle.BoundIsReached | internal/picoclaw/task_monitor.go:278-319 | that bound is reached for every number of lost counts and of lost answers |
| TaskLifecycle.BudgetIsKept | internal/picoclaw/task_monitor.go:278-336 | against any agent, as long as counter writes succeed, recorded resumes equal the resume requests answered since the last delivery and never exceed 3; turns are at most 4 and the silent ones, so 4 if every request that starts a turn is answered |
| TaskLifecycle.PostedOnce | internal/picoclaw/task.go:46-141 | as long as calls do not overlap and the outcome of deliveries is recorded, a task is posted at most once between becoming pending and becoming pending again |
| TaskLifecycle.StatesAreLeftAsPromised | internal/db/containers.go:412-522 | no text means inert, done is final, failed is left only by a retry, pending is entered only by a retry |
| TaskLifecycle.DoneIsAbsorbing | internal/picoclaw/task_monitor.go:108-143 | once done, a task's row never changes again, whatever follows |
| TaskLifecycle.UnreachableChangesNothing | internal/picoclaw/task_monitor.go:231-270 | an agent that answers nothing costs and changes nothing |
| TaskLifecycle.UnansweredResumeIsFree | internal/picoclaw/task_monitor.go:283-291 | a resume request without an answer changes nothing in the row, whether or not it started a turn |
| TaskLifecycle.RepeatingFailureEnds | internal/picoclaw/task_monitor.go:278-336 | whatever happens between them, more recorded failed rounds than the budget has left end the task: failed, or done if the agent did answer |
| TaskLifecycle.ChargedIffCounted | internal/picoclaw/task_monitor.go:278-319 | a round asks exactly when the turn ended on a resumable failure, and charges exactly when it asks, the agent answers and the counter write succeeds |
| TaskLifecycle.PostedOnceIffRecorded | internal/picoclaw/task.go:120-141 | a posted task leaves pending if and only if the outcome is recorded |
| TaskRaces.OverlapIsBounded | internal/picoclaw/task_monitor.go:108-319 | however the statements of deliveries, rounds and retries on one VM interleave and whatever is lost: posts are at most the deliveries ever under way at once and the outcomes not recorded; the resume count is at most 2 and the rounds ever under way at once; turns exceed that by the lost counts and the silent turns |
| TaskRaceRuns.PostsAreReached | internal/picoclaw/task.go:46-141 | for every number of deliveries at once and of unrecorded outcomes a run posts that often |
| TaskRaceRuns.TurnsAreReached | internal/picoclaw/task_monitor.go:278-319 | for every number of rounds at once, of lost counts and of silent turns a run reaches the bounds on the resume count and on turns |
| TaskRaces.RoundAlone | internal/picoclaw/task_monitor.go:108-143 | the statements of a round that nothing interrupts have the effect of the whole round |
| TaskRaces.DeliveryAlone | internal/picoclaw/task.go:46-141 | the statements of a delivery that nothing interrupts have the effect of the whole delivery |
| TaskRaces.DoneStays | internal/picoclaw/task_monitor.go:108-143 | with no call under way a done row never changes again |
| TaskRaceRuns.DoneIsOverwritten | internal/picoclaw/task.go:78-85 | a run in which a delivery that waited for the gate records its failure over a done task, which may then be posted again |
| TaskRaces.ConversationUnlessLate | internal/picoclaw/task_monitor.go:108-181 | however calls overlap and whatever writes fail, sent, working and done carry a valid conversation unless since the last retry a round that loaded the row before it recorded working or done |
| TaskRaces.TextStays | internal/db/containers.go:412-522 | however calls overlap, the task's text is never changed |
| TaskRaceRuns.RetryIsOverwritten | internal/picoclaw/task_monitor.go:134-141 | a run in which a round's late record makes a retried task done before it was delivered |
| VmGate.GateIsExclusive | internal/picoclaw/task.go:78-91 | for every interleaving of setup, key refresh, agent update and delivery at most one is inside the gate, each acquisition is released exactly once and a timeout releases nothing |
| VmGate.ReleaseNeverBlocks | internal/picoclaw/setup.go:45-52 | whoever is about to leave finds its own token in the gate |
| VmGate.PostedModelIsInTheTable | internal/picoclaw/task.go:66-124 | for every interleaving, with commands that outlive their operation: a posted model was in the VM's table when it was listed, and is there when posted if and only if the last write since kept it; inside the gate only a late reseed writes in between |
| VmGate.LateReseedDropsModel | internal/runtime/incus.go:284-304 | a run in which a reseed given up at its deadline lands between a later delivery's listing and its post, and the model posted is gone |
| ModelChoice.DesiredIsAvailable | internal/picoclaw/provider_keys.go:105-142 | the choice lies in the available models and is empty only when there are none |
| ModelChoice.DesiredPrefersTheOwner | internal/picoclaw/provider_keys.go:88-142 | the picked model wins, a model made inside the VM is kept, else an owner's own model stays or the first of the owner's that the VM has replaces the platform's, else the current one stays |
| ModelChoice.DesiredFallsBackInOrder | internal/picoclaw/provider_keys.go:116-142 | with neither a picked nor a current model in the VM the choice is the first of the owner's models it has, else of the platform's, else the first the gateway seeded, else the first of all |
| ModelChoice.DesiredIsFixpoint | internal/picoclaw/provider_keys.go:105-142 | fed back as current, the choice is itself |
| ModelChoice.Guest.ApplyDefaultModel | internal/picoclaw/provider_keys.go:170-262 | for any two reads, whether and what is written; when the read gone by was whole the file then names the wanted model, every other setting survives and it was written only if it had to change |
| ModelChoice.OthersSurviveIff | internal/picoclaw/provider_keys.go:170-262 | the other settings survive if and only if nothing is written, there are none, or the read gone by was whole |
| ModelChoice.OneEmptyReadLosesSettings | internal/picoclaw/provider_keys.go:178-182 | one read of a truncated file loses a setting and the model the VM was on |
| ModelChoice.WholeReadApplies | internal/picoclaw/provider_keys.go:242-262 | with a whole read the file names the wanted model afterwards, names one exactly if there is one, and is rewritten exactly if it changes |
| ModelChoice.Guest.ApplyTwice | internal/picoclaw/provider_keys.go:242-262 | a second application writes nothing |
| ModelChoice.Guest.SetupThenDeliver | internal/picoclaw/task.go:158-169 | a task delivered after setup runs on the VM's own default model |
| OwnerModels.NormalizeNames | internal/db/provider.go:78-93 | the names are exactly the typed ones, trimmed, each once and in the order they were first typed; a list with a blank inside a name is refused |
| OwnerModels.NormalizeProvider | internal/db/provider.go:46-104 | exactly which settings are accepted, what URL and protocol they become, and that the stored list splits back to the typed names |
| OwnerModels.ProviderRules | internal/db/provider.go:46-104 | which of endpoint, models, protocol and key each kind of provider must have or may not have |
| OwnerModels.NormalMeans | internal/db/provider.go:46-76 | what URL and protocol are stored for what was typed |
| OwnerModels.UserModelIDInjective | internal/db/provider.go:150-161 | on valid providers a model ID determines provider and model |
| OwnerModels.ProviderModels | internal/secrets/materialize.go:109-132 | what is seeded lists, in order, exactly the IDs its owner may choose from |
| OwnerModels.OfferedOnce | internal/db/provider.go:163-191 | no model is offered twice |
| OwnerModels.OfferedIff | internal/db/provider.go:163-191 | a model is offered if and only if a connection of the owner's with an endpoint names it |
| OwnerModels.ProviderStore.PruneDefaultModel | internal/db/provider.go:197-217 | a default that is no longer offered is emptied, any other is kept |
| OwnerModels.PrunedPrunes | internal/db/provider.go:197-217 | pruning empties exactly the owner's default that is no longer offered, and touches nothing else |
| OwnerModels.ProviderStore.SaveProviderKey | internal/db/provider.go:114-148 | the owner's row for the provider is replaced by one with the typed names, URL and protocol as normalised, and the default is pruned with it |
| OwnerModels.ProviderStore.DeleteAPIKey | internal/db/apikeys.go:86-153 | the row goes and its owner's default is pruned, within the caller's scope |
| OwnerModels.ProviderStore.SetUserDefaultModel | internal/db/provider.go:235-262 | a default is stored exactly when it is empty or offered |
| OwnerModels.DefaultIsStoredIff | internal/db/provider.go:235-262 | the new default is stored if and only if the account is there and the model is offered or empty; otherwise nothing changes |
| OwnerModels.EveryHistoryIsSound | internal/db/provider.go:114-262 | in every reachable state each default is empty or offered, and the offer is duplicate-free |
| Resolver.RuntimeResolver.Snapshot | internal/metadata/resolver.go:174-207 | an address maps to an instance if and only if exactly one pinned instance claims it |
| Resolver.RuntimeResolver.AddressIsPinned | internal/metadata/resolver.go:228-238 | an unpinned instance is refused and warned about once |
| Resolver.RuntimeResolver.HolderOf | internal/metadata/resolver.go:124-161 | the view after a request and the answer it gives |
| Resolver.RefreshMeans | internal/metadata/resolver.go:129-146 | when the runtime is asked, and what a listing and a failure do to the view, its window and what was cached with it |
| Resolver.AnsweredIff | internal/metadata/resolver.go:124-161 | in every run an address is served if and only if the last listing had it and at most six refreshes failed since; when it is stale, unknown or unavailable |
| Resolver.AnswerMeans | internal/metadata/resolver.go:156-161 | what is served is the holder the view names and what is cached under its name |
| Resolver.RuntimeResolver.Remember | internal/metadata/resolver.go:164-171 | an identity is stored under its instance name and nothing else changes |
| Resolver.ViewIgnoresOrder | internal/metadata/resolver.go:174-207 | the view is the same for any order of the listing |
| Resolver.ServedViewIsFresh | internal/metadata/resolver.go:124-161 | what is served rests on the last successful snapshot, at most 6 refreshes failed since, and it was stored less than 7*ttl + 6*(g + d) and asked for less than 7*ttl + 6*g + 7*d ago |
| Resolver.AgeIsAttained | internal/metadata/resolver.go:124-161 | for every ttl, spacing and refresh time a run serves a view of the largest age |
| Resolver.RefusedUntilRefreshed | internal/metadata/resolver.go:148-154 | past six failures every request is refused until one refresh succeeds |
| Resolver.OneListPerWindow | internal/metadata/resolver.go:124-143 | once loaded, the runtime is listed at most once per window |
| Resolver.ReturnedIdentityIsOwn | internal/metadata/resolver.go:101-120 | under every interleaving a returned identity carries the name and MAC the view gave for the caller's own address and facts read for that very instance |
| ResolverFacts.ServedFactsAreCurrentIff | internal/metadata/resolver.go:101-171 | facts served from the cache were read under the view they are served with if and only if the view was not replaced between their reading and their storing |
| ResolverFacts.OldFactsAreServed | internal/metadata/resolver.go:115-140 | a run in which facts read under one view are stored after the next was loaded and served with it |
| ResolverFacts.OwnFactsAreCurrent | internal/metadata/resolver.go:115-119 | a caller that reads the database itself reads it after it was given its view |
| Terminal.FeedSequence | internal/sshgw/menu.go:152-316 | a counted cursor sequence as formatted acts as the control function it names |
| Terminal.FeedText | internal/sshgw/menu.go:152-316 | printable bytes overwrite from the cursor on and move it |
| EditorModel.TypedKeyIsRead | internal/sshgw/menu.go:183-316 | every key is decoded from the bytes a terminal sends for it, whatever follows |
| Keystrokes.KeyReadIffSpelled | internal/sshgw/menu.go:183-316 | the first key read is k, taking n bytes, if and only if the first n bytes spell k in one of its spellings; every other byte or escape sequence is ignored |
| Keystrokes.KeyedLineIsEntered | internal/sshgw/menu.go:183-316 | for every key in every spelling, pressed anywhere in any text, the line entered after one more character is the text as that key changes it |
| Keystrokes.EndingKey | internal/sshgw/menu.go:183-216 | which keys end a line, what each answers and the bytes it sends |
| Keystrokes.RecalledLineIsEntered | internal/sshgw/menu.go:246-263 | n Ups and m Downs enter the line n - m back in the history |
| EditorModel.KeyRefinesZipper | internal/sshgw/menu.go:152-316 | every key does to buf, pos and history position what it does to a pure editor of two texts |
| EditorModel.KeyShows | internal/sshgw/menu.go:152-316 | after every key the visible line equals buf and the cursor column equals pos |
| EditorModel.ScreenFollowsEditor | internal/sshgw/menu.go:152-316 | on any input the screen follows the editor, and an entered line fits the history |
| EditorModel.EditRefinesZipper | internal/sshgw/menu.go:152-316 | the line entered is the pure editor's text for the decoded keys, trimmed |
| EditorModel.UpsThenDownsRestore | internal/sshgw/menu.go:246-263 | in the pure editor k Ups then k Downs give back the typed line |
| EditorModel.TypedUpsAndDownsRestore | internal/sshgw/menu.go:246-263 | after the bytes of k Up keys and k Down keys the editor goes on from the line it had, whatever follows |
| EditorModel.RememberFits | internal/sshgw/menu.go:100-108 | history stays at most 200 printable, non-empty lines of at most 8192 bytes |
| EditorModel.RememberKeepsNewest | internal/sshgw/menu.go:100-108 | the newest line comes last and the others are kept, but for the oldest of 200 |
| LineEditor.LineEditor.Remember | internal/sshgw/menu.go:100-108 | a non-empty line is appended and the oldest one dropped at 200 |
| LineEditor.LineEditor.Handle | internal/sshgw/menu.go:152-316 | one key's new state and exactly the bytes it sends |
| LineEditor.LineEditor.ReadLineEdited | internal/sshgw/menu.go:152-316 | the result, the unread rest and every byte sent are those of the editor model; only an entered line reaches the history |
| LineEditor.LineEditor.ReadPlain | internal/sshgw/menu.go:126-149 | the next line depends on the bytes before the end of the stream and those that came with it, not on how they were divided into reads; only an overlong line is refused; pending never exceeds 8192 + 1024 bytes |
| LineEditor.LineEditor.ReadSession | internal/sshgw/menu.go:126-149 | the lines of a whole session for any division into reads and any bytes that come with the end; with an end reported alone they are the stream split at newlines, each trimmed |
| PlainLines.SessionIsRightIff | internal/sshgw/menu.go:126-149 | a session answers the lines of the stream if and only if what is left when the end is reported has no newline, or one, after something not blank and before something blank |
| PlainLines.NewlinesAreAll | internal/sshgw/menu.go:126-137 | a stream is divided at every newline and nowhere else |
| PlainLines.JoinedCommands | internal/sshgw/menu.go:138-146 | two lines whose bytes arrive together with the end of the stream are answered as one |
| CommandLine.SplitArgs | internal/sshgw/command.go:402-437 | the loop computes the tokenizer's fold over the line, including the unbalanced quote |
| CommandLine.WrittenLineSplits | internal/sshgw/command.go:402-437 | words are what stands between blanks; bare and quoted pieces next to each other make one word, and quotes keep blanks and the other mark |
| CommandLine.OpenQuoteIsRefused | internal/sshgw/command.go:430-432 | a quote that is not closed is refused, naming its mark |
| CommandLine.QuotedLineSplitsBack | internal/sshgw/command.go:399-437 | every list of tokens can be written as a line that splits back to it |
| CommandParser.ParseLine | internal/sshgw/command.go:262-337 | the loop and its early returns compute the declarative parse, error for error |
| CommandOutcome.LineOutcome | internal/sshgw/command.go:262-337 | from the tokens alone: a line is accepted if and only if its word is known, its action runs, every flag before a "--" is declared in its shape and not repeated, and its positional tokens fit; otherwise the first of these that fails is named; what an accepted line hands over |
| CommandOutcome.ClassifyMeans | internal/sshgw/command.go:289-297 | which tokens are positional, which is the "--" and how a flag's name and value are read |
| CommandOutcome.JsonIsASwitch | internal/sshgw/command.go:359-380 | an action takes the flags it declares and, if it answers in JSON, the switch for it |
| CommandParser.TokensAccountedFor | internal/sshgw/command.go:288-315 | each token after the words goes, in order, to the arguments or to the flags, or is the "--" that ends them, and nothing else does |
| CommandParser.SplitAtDashes | internal/sshgw/command.go:288-294 | after the first "--" every token is an argument |
| CommandParser.CheckedOnce | internal/sshgw/command.go:295-313 | flags that pass are distinct and each is kept with its value |
| CommandParser.AcceptedLinesAreAccountedFor | internal/sshgw/command.go:262-337 | in every accepted line each token is accounted for once, flags are declared by the resolved action, shaped as declared and never repeated, and arguments do not exceed those declared |
| CommandParser.RenderedLineParsesBack | internal/sshgw/command.go:262-337 | any action with any admissible flags and arguments, written as a quoted line, splits and parses back to exactly that action |
| CommandParser.QuotedOrNot | internal/sshgw/command.go:381-389 | a repeated last argument means the same quoted or not |
| HostNames.HostParsesIffSpelled | internal/proxy/proxy.go:341-388 | a host is routed exactly when it spells a route to a valid name under the domain, and then to that route |
| HostNames.PrintedHostParsesBack | internal/proxy/proxy.go:334-388 | every form of every valid name parses back to its route, if and only if the domain is not of the form host:port |
| HostNames.PortSuffixIsIgnored | internal/proxy/proxy.go:390-401 | the port a browser appends makes no difference |
| HostNames.PortSpelling | internal/proxy/proxy.go:373-382 | the decimal form of every valid port is a spelling of it |
| HostNames.ParsedRouteIsValid | internal/db/containers.go:149-164 | a parsed route has a valid name and a valid port or none |
| HostNames.NameMeans | internal/db/containers.go:137-157 | exactly which names a VM may have |
| HostNames.PortsAndServices | internal/db/containers.go:159-164 | exactly which ports can be published |
| AccessTable.AccessStore.CreateContainer | internal/db/containers.go:236-264 | a VM is stored exactly when its port is valid, after the default, and its id and name are free |
| AccessTable.CreateMeans | internal/db/containers.go:236-264 | exactly which VMs are stored, with which port |
| AccessTable.AccessStore.UpdateContainerPublish | internal/db/containers.go:167-179 | only a valid port is stored |
| AccessTable.PublishMeans | internal/db/containers.go:167-179 | the port and the bit are stored as given, for a VM that is there and a port in range |
| AccessTable.AccessStore.GrantContainerAccess | internal/db/access.go:84-142 | use is granted exactly by a non-guest owner to somebody else, who is either new or already holds the given key, and nothing else changes but a new guest |
| AccessTable.GrantMeans | internal/db/access.go:84-142 | exactly whom an invitation grants use, and what it leaves in the tables |
| AccessTable.InvitationsLeaveKeysAlone | internal/db/access.go:84-142 | no invitation changes whose account a key opens or adds a key to an account that was there |
| AccessTable.AccessStore.RevokeContainerAccess | internal/db/access.go:161-171 | only the owner withdraws exactly that grant |
| AccessTable.RevokeMeans | internal/db/access.go:161-171 | exactly that grant is gone when its owner withdraws it |
| AccessTable.AccessStore.DeleteContainer | internal/db/containers.go:389-409 | a VM goes with its grants |
| AccessTable.AccessStore.DeleteUser | internal/db/users.go:117-157 | an account goes with its grants, links and VMs, deleted in an order that loses none of them |
| AccessTable.DeletionMeans | internal/db/users.go:117-157 | exactly what goes with a VM and with an account, and that everything else stays |
| AccessTable.RunsKeepInv | internal/db/containers.go:162-264 | in every reachable state every published port is valid, names are unique per owner, and no grant outlives its VM or its user |
| AccessTable.GrantsComeFromTheOwner | internal/db/access.go:84-142 | every grant in force goes back to an invitation that reached that account, made by the VM's present owner |
| Proxy.UniqueAccessibleName | internal/db/access.go:68-82 | the scan finds the VM exactly when one has the name, and tells none from several |
| Proxy.ResolvedIffOnlyOne | internal/db/access.go:25-82 | a name resolves to a VM if and only if it is the only one of that name the user owns or was granted, in any row order |
| Proxy.RouteForwardIsAuthorised | internal/proxy/proxy.go:69-170 | every forward on a VM host is by publication of the bare host, a live share link of that VM, or a user who owns it or holds a grant seen twice |
| ProxyOutcome.PublicOutcome | internal/proxy/proxy.go:69-86 | the bare host of a published VM is open without a session |
| ProxyOutcome.ShareOutcome | internal/proxy/proxy.go:88-122 | a share token opens exactly the workload of the VM its unexpired link names, under its own name; every other answer to it |
| ProxyOutcome.UserOutcome | internal/proxy/proxy.go:120-170 | a session reaches exactly the one VM of that name its user owns or was granted and still may use; every other answer to it |
| ProxyOutcome.StrangerOutcome | internal/proxy/proxy.go:130-142 | without a session or a token there is only the login page or a refusal |
| ProxyOutcome.AliasOutcome | internal/proxy/proxy.go:194-238 | a custom domain opens if and only if its VM is published or the token names an unexpired link of that VM; every other answer to it |
| ProxyOutcome.HostOutcome | internal/proxy/proxy.go:50-66 | a host that is no VM's is a custom domain unless it lies inside the gateway's own |
| Proxy.AgentPortIsGuarded | internal/proxy/proxy.go:50-238 | in every reachable state, with writers between the queries, port 9000 is reached only on an agent route by a session user who owns or was granted the VM, without a share token; every other forward uses a valid port |
| Proxy.AgentReachedIff | internal/proxy/proxy.go:124-169 | exactly who reaches a VM's agent on tables that stand still |
| Proxy.VmHostsIgnoreAliases | internal/proxy/proxy.go:50-66 | no custom-domain row changes what is decided for a VM host, whatever the domain |
| Proxy.UpgradeIsTheOwners | internal/proxy/proxy.go:144-151 | only the owner's request, without a share token, upgrades the agent |
| Proxy.Exchange.ServeHTTP | internal/proxy/proxy.go:50-170 | the handler takes the decision; a forwarded request carries no identity header but the session's user on an agent route, and after a forward admitted by a share no token is left in the query and it was handed out as the cookie |
| Proxy.Exchange.ServeAlias | internal/proxy/proxy.go:194-238 | a custom domain, looked up as the query normalises it, reaches the published workload or one opened by its own share link, and never an identity |
| Proxy.Exchange.AcceptShareCookie | internal/proxy/proxy.go:252-267 | a token from the query becomes the cookie and leaves the query; otherwise nothing changes |
| MetadataToken.DecodeEncode | internal/metadata/token.go:71-76 | base64url gives back every byte string and never writes the separator |
| MetadataToken.CutLastAround | internal/metadata/token.go:118-125 | the last separator divides the signature from its payload |
| MetadataToken.IssuedTokenAccepted | internal/metadata/token.go:59-110 | an issued token is accepted exactly for its container and before floor(t + ttl), and its life lies in (ttl - 1s, ttl] |
| MetadataToken.AcceptedIffSigned | internal/metadata/token.go:79-110 | a token is accepted if and only if it ends in the store's signature over everything before it, names the container and has not expired |
| MetadataToken.AnyTokenNamesOneContainer | internal/metadata/token.go:79-110 | any token is accepted for one container at most, and never again once refused by the clock |
| MetadataToken.NewTokenWorks | internal/metadata/token.go:59-110 | with a lifetime of a second or more a new token is accepted at once |
| MetadataToken.EqualTokensAgree | internal/metadata/token.go:64-76 | two tokens are equal only if container, nonce and expiry agree |
| JsEscape.EscapeJSString | agent/shelley/claudetool/output_iframe.go:218-263 | the loop with its skipped indices computes the escape of the string |
| JsEscape.EscapedReadsBack | agent/shelley/claudetool/output_iframe.go:211-263 | every byte string is given back by a reader of JavaScript string literals, so no quote in the output is unescaped |
| JsEscape.EscapedIsSafe | agent/shelley/claudetool/output_iframe.go:201-263 | nowhere in the output does `</`, `<!--`, a raw CR or LF, or a raw U+2028 or U+2029 begin |

## Left out

- HTTP handlers, the dashboard, templates, metrics, the Incus client, systemd and guest
  scripts: they enter as answers, failures and orders the environment chooses.
- AES-GCM, HMAC and bcrypt: the signature is an arbitrary function of the payload and no
  cryptographic claim is made; carrying a stored credential over when a key is saved empty is
  not modelled.
- Error texts are reduced to which error is given, and the 500-byte cut of an agent's error
  wording and the length limit on an initial task's text are not modelled.
- Log lines, timers, jitter, the guest guide refreshed after an alias changes, and the address
  the proxy stores after asking the runtime for it.
- The zone of an IPv6 address, and addresses the runtime reports in a form that does not parse,
  beyond being skipped.
- Letters outside ASCII whose lower case is outside ASCII are left as they are, and lengths of
  host names count characters: such names are refused either way, for another reason at most.
- Bytes that are not valid UTF-8 in a typed command line: lines are sequences of characters.
- JSON keys that differ from `default_model` in letter case, and the JSON text of the agent's
  answers: the conversation ID is taken as extracted.
- Parsing of mail addresses and SSH keys in a grant: the address and the key's fingerprint are
  given, and an address has one account whatever its letter case.
- The gateway's command registry itself: the parser is proved for every registry whose action
  words are listed once and do not begin with "--".
- The cancellation of a shared connection when its grant disappears later
  (`internal/db/access_context.go`), and sessions: the session's user is given.
- TaskLifecycle.EveryRunIsSane: a run is one of whole calls on a VM, one after the other, here
  and in the rest of `TaskLifecycle`; what becomes of it when calls overlap is in `TaskRaces`.
- LineEditor.LineEditor.ReadSession: says nothing about a stream with a line over 8192 bytes; a
  read that brings neither data nor an end is an empty chunk.
- AliasNames.AliasNeverShadows: its second half is for a configured domain written without
  outer spaces or a trailing dot, which the gateway does not check; VM hosts are decided
  before custom ones in any case.
- JsEscape.EscapedReadsBack: the reader does not know octal, hexadecimal and braced escapes,
  surrogates and line continuations, which the escaper never writes.
- internal/ratelimit, internal/vmconfig, internal/updater, internal/llmproxy,
  internal/integrations and the agent's other tools: plumbing over files, processes and the
  network, or members with easy properties.
