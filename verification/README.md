# A verified model of channel replacement, configuration apply, probing and rules

The repository runs VPN clients in Docker containers ("channels") and routes traffic to them
through the mihomo core. Three things have to stay in step although any call may fail and the
process may die at any point: the SQLite rows, the Docker world and the core's live
configuration. This project models the protocols that keep them in step and proves what they
promise.

## The parts

**Replacement with crash recovery** (`names`, `settings`, `journal`, `store`, `world`, `drift`,
`renames`, `resources`, `transitions`, `effects`, `host`, `copying`, `closing`, `recovery`,
`lineage`, `replacement`, `comeback`, `logins`, `stopping`, `deletion`, `life`, `safety`, `descent`).

- `journal` has one function per SQLite transaction; class `Store` in `store` makes the same
  changes in place and every method is proved equal to its function.
- `world` defines the state (containers, volumes, rows, and history variables) and the invariant
  `Inv`. `drift`, `renames`, `resources` and `transitions` prove, effect by effect, that each
  effect of the program keeps `Inv` in the phase in which the program performs it. The hypotheses
  are named `MayRename`, `MayAdd`, `MayRemove`, `MayDrop`, `MayStart`, `MayAdvance` and so on, and
  the methods that perform the effects have to establish them: skipping the copy, renaming in the
  wrong order or committing early would leave one of them unproved.
- Class `Host` in `host` is the Docker host with its journal. Between any two calls Docker may
  restart, stop or write through every container that is running or has a restart policy. Every
  call may be performed or not, and may be answered, fail although it was performed, or be the last
  thing the process does. A method therefore ends `Done`, `Raised` (an exception) or `Crashed`, and
  a crash can follow every single effect. All methods keep `Inv` on every ending, so what `Inv`
  implies (module `Safety`) holds after every single step of every run, at every crash point.
- What a method promises on `Done` comes from reading back and holds under all faults. `Calm()`
  (no faults, nothing moving) gives progress: it says exactly when a method gets through.
- `recovery` holds the convergence theorem: `Recover`, started from any sound state whatever, ends
  with the old side restored, and with working calls it gets through if and only if the state is
  not the trap described under Findings. No ending of `Recover` leads into the trap or changes the
  plan on record.
- `comeback` puts it together: one `Replace` and any number of `Recover`s, each of them cut short
  anywhere, with lost replies, while `Host.Weather` starts and stops both faults and drift; then
  one `Recover` that is left alone ends with no record and either side complete, and unless the world
  has moved the channel runs exactly if it ran. `lineage` is the invariant of such a history.
- `descent` names the effects once more, as one datatype with one theorem, and uses them for the run
  described under Findings.
- History variables (`Past`, `Seed`, `foreign`, `base`, `answers`) remember what the old volume held when the old
  container came to rest, whether the world has stood still, whether a stop has lowered the plan's
  flag, what others' containers were like, and how probes were answered; no branch of the program
  reads them.

**Configuration apply** (`utf8`, `fingerprint`, `ruletext`, `rules`, `routing`, `tickets`,
`readback`, `apply`, `sources`). The typed encoding behind a configuration's digest with its decoder; rule
normalisation and compilation, and where a request then goes as the core works through the printed
lines; the ticket row as a class and as runs of events with stale tickets;
the comparison of both programs with what the core shows; and one application as a method over a
core, a startup file and sources that others keep changing. `sources` connects stop wishes to the
triggers that bump the source revision.

**Probing** (`probes`, `reports`). The slot with its two locks: its critical sections as functions and as a
class, and runs of any interleaving of callers, workers, operations, wishes and the shutdown. An
operation may start between any two sections, also while a caller holds the probe lock, which
operations do not take. A worker's report is five steps: the status, the confirmation of a login, the
answer, the cache, the return; wishes and callers come in between. `Interleave` proves that the class
yields these runs. `reports` says what the workers' reports do to a channel and ties them to the rows.

**Polling in the browser** (`poll`). The closure of `poll.js` as a class and as runs of timers,
visibility events, kicks and stop. A page flips its visibility and fires the event as two steps.

## Findings

Places where the code does less than one might expect; each is stated as a lemma.

- `Safety.StopCanTrap`: a recovery that dies after its new container has taken the channel's name
  converges when tried again, but a stop that comes first lowers `old_running`; from then on the
  old container can never take its name back. `Recovery.Recover` says that with working calls recovery
  gets through if and only if it is not in this trap, and that from the trap it never does;
  `Stopping.BeforeStop` says exactly when a stop falls into it. `Safety.EveryRebuildCanTrap` says the same of
  every state in which a recovery is about to build a channel anew, which is where every recovery of a
  running channel whose old container was put away arrives, and `Descent.TrapIsReached` gives a run
  from a new channel into the trap. `Deletion.Discard` is the way out that always works.
- `Settings.RollbackIsExact`, `RollbackCanAddMirror` and `RollbackCanTrim`: a rollback restores every
  column but a first client version with outer blanks, and the mirror inside `config_json` only if it
  agreed with the columns before.
- `Journal.StaleRecordNeverWrites`: commit, confirm, resume, both rollbacks and the end of a deletion
  compare a fixed phase and not the phase their record was read in, so that an older record of the
  same operation can still write; the condition is exact. The operation is always compared.
- `RuleText.NormTwice`: normalising a domain is stable if and only if its host, rid of one wildcard
  and of outer dots, does not begin with a wildcard again.
- `Readback.ProgramsDiffer`: the desktop program also accepts proxy entries that are no objects, and
  rules whose `extra` is present but no object or whose `disabled` is anything but `true` that counts as
  true; nothing else sets the two comparisons apart. `Readback.TwoSwitchesFool` and
  `OneLookIsNotEnough` give the exact strength of reading the proxies twice.
- `Probes.OldCallerCanBeAnswered` and `LockHolderCanBeAnswered`: a caller that had looked before a stop
  wish was saved from outside can still be told what was measured before it, with its probe until an
  operation starts, and from the cache also afterwards if it held the probe lock. `CollectAnswers` and
  `ActAnswers` give the exact conditions.
- `Probes.LoginConfirmedAfterWish`: a worker writes the status and confirms a login in two transactions,
  and the second does not look for a wish; `OnlyOldConfirms` bounds the case.
- `Readback.ModeMayLag`: the rules that are read may stand under another mode at that moment;
  `ModeIsTheTickets` says what holds when the mode is read.
- `Apply.FlushesCompared` and `FlushesOverRetries`: while the startup file cannot be delivered the Web
  program flushes the DNS cache on every retry, the desktop program never again.
- `Poll.KickFromInsideOverlaps`: a callback must not kick before its first await.

## Model

| member | source | states |
|---|---|---|
| Settings.CleanTwice | app/store.py:105-113 | cleaning a field value a second time changes nothing |
| Settings.ExactlyBlanksGo | app/store.py:105-113 | of a gateway or an account exactly the blanks go, wherever they are, and everything else stays in order |
| Settings.ExactlyEndsGo | app/store.py:105-113 | of any other text exactly the blanks at both ends go |
| Settings.UpdateSpelled | app/store.py:162-180 | what a write does field by field: names, gateway, version, account and probe address are cleaned, the password is taken as given, gateway, account and password are mirrored, a registered secret as given, and nothing else changes |
| Settings.PostponedSpelled | app/replacement_store.py:66-78 | what a new request does to a wish field by field: gateway, account, password and client version stay wanted exactly if they differ from the column, and nothing else becomes wanted |
| Settings.UpdateKeepsTidy | app/store.py:162-180 | a write leaves every column it names in a form that writing again would keep, whatever the request holds, so that afterwards all columns are exactly if those it does not name were |
| Settings.RollbackRestoresColumns | app/replacement.py:164-165 | writing back the values saved before a change restores every column if and only if the changed ones held values that a write would have left there, which every column does that has been written once |
| Settings.RollbackIsExact | app/replacement_store.py:173-180 | the whole settings value, config mirror included, comes back if and only if the changed columns were as a write leaves them and their mirrors agreed with them |
| Settings.RollbackCanTrim | app/store.py:139-143 | finding: the first client version is stored uncleaned, and a rollback takes its outer blanks off |
| Settings.RollbackCanAddMirror | app/store.py:270-279 | a channel without a mirrored gateway gains one through a rollback: the case in which the restoration is not exact |
| Settings.QueueingLosesNothing | app/replacement_store.py:55-80 | for any sequence of requests: queueing them all and applying the wish in the end gives the columns that applying each at once would have given |
| Settings.QueueingAndTheMirror | app/store.py:176-180 | and the config mirror comes out the same if and only if every mirrored field asked for last either equals its column and is mirrored as it would be written, or, where it is mirrored as given, needed no cleaning |
| Names.NamesNeverCollide | app/replacement_docker.py:18-30 | the names of candidates, backups, copiers and recovery containers of any two channels and operations are all different |
| Names.SuffixWouldCollide | app/replacement_docker.py:22-27 | the fixed length of operation identifiers is what keeps the restore suffix unambiguous |
| ReplacementStore.Store.BeginPlan | app/replacement_store.py:38-52 | a plan begins only where no operation is on record, or over the queued intent the caller read |
| ReplacementStore.Store.QueueIntent | app/replacement_store.py:55-80 | metadata is written and the wish replaced in one transaction, or nothing is |
| ReplacementStore.Store.Cancel | app/replacement_store.py:83-88 | only the queued intent that was read is cancelled |
| ReplacementStore.Store.AdvanceTo | app/replacement_store.py:120-135 | a phase changes only along the legal graph and only from the row that was read |
| ReplacementStore.Store.CommitPlan | app/replacement_store.py:149-156 | settings, runtime and phase change together or not at all |
| ReplacementStore.Store.ConfirmLogin | app/replacement_store.py:159-163 | only a waiting operation becomes committed |
| ReplacementStore.Store.Resume | app/replacement_store.py:166-170 | the runtime of a waiting operation is renewed without touching settings |
| ReplacementStore.Store.RollBackPlan | app/replacement_store.py:173-180 | old settings, runtime and outcome are written together or not at all |
| ReplacementStore.Store.RestoreWithout | app/replacement_store.py:183-196 | without an old instance the row loses its container and gets settings and volume back |
| ReplacementStore.Store.FinishPlan | app/replacement_store.py:199-206 | the record goes only with an outcome and only for its own operation; absence is no error |
| ReplacementStore.Store.DeleteAll | app/replacement_store.py:216-221 | row, wish and record go together, and only once a deletion is on record |
| ReplacementStore.Store.AskStop | app/stop_intents.py:16-25 | a wish keeps its first ticket and sets the channel to stopped at once; refused while a deletion is under way |
| ReplacementStore.Store.StopConfirmed | app/stop_intents.py:28-34 | only the ticket that was read clears the wish |
| Journal.CallFollowsGraph | app/replacement_store.py:120-135 | one call moves an operation along one edge of the phase graph or leaves it |
| Journal.WritesOnlyWhenCompared | app/replacement_store.py:26-29 | a call that carries a record writes only if the stored row has that operation and the compared phase |
| Journal.OverNeverWrites | app/replacement_store.py:26-29 | a record whose operation is over changes nothing |
| Journal.AbleIsExact | app/replacement_store.py:38-221 | what each call demands of its arguments alone: whoever meets it gets through in some state of the tables, and nobody else ever does |
| Journal.StaleRecordNeverWrites | app/replacement_store.py:26-29 | for every call that carries a record and whose other arguments are acceptable: a record whose phase has passed changes nothing in any state of the tables if and only if it was read in the phase that the call compares |
| Journal.OldPhaseCanStillConfirm | app/replacement_store.py:159-163 | finding: a record read before the switch still confirms the awaited login |
| Journal.OperationIsOnePath | app/replacement_store.py:120-221 | over any sequence of calls with any stale records an operation is on record without gaps and its phases form a path in the graph |
| Journal.OneOutcome | app/replacement_store.py:199-221 | committed and rolled back exclude each other and are left only by deletion or when the row goes |
| Journal.SidesMoveTogether | app/replacement_store.py:149-196 | no call changes settings without changing the phase and naming the volume in the same transaction |
| Hosts.Host.Rename | app/replacement.py:30-37 | after a normal return the container has the target name, whatever happened to the reply; nothing but this container changes |
| Hosts.Host.SetPolicy | app/replacement.py:40-46 | after a normal return the restart policy is the one asked for, by read-back |
| Hosts.Host.SetRunning | app/replacement.py:49-57 | after a normal return the container runs exactly if asked to, by read-back; a start is admissible only under the channel name |
| Hosts.Host.Remove | app/replacement.py:60-64 | after a normal return the container is gone; nobody else is touched |
| Hosts.Host.FindOwned | app/replacement.py:67-75 | finds the container that carries an operation's labels under its own or the channel name; none found means none exists |
| Hosts.Host.RemoveVolume | app/replacement.py:78-87 | a volume goes only if nobody uses it and its labels allow it; a normal return means it is gone |
| Hosts.Host.EnsureVolume | app/replacement_docker.py:46-58 | a normal return means the operation's labelled volume exists |
| Hosts.Host.CreateCandidate | app/replacement_docker.py:61-79 | a normal return means a never started container with the operation's labels under its name |
| Hosts.Host.Advance | app/replacement.py:101-104 | the record moves or stays, and a normal return hands back the record as stored |
| Hosts.Host.constructor | app/store.py:135-146 | a new channel beside arbitrary foreign containers and volumes, one under its own default volume name included, satisfies the invariant |
| Drift.DriftKeepsInv | app/replacement.py:40-57 | the invariant survives Docker restarting, stopping and writing through every container that may run |
| Drift.StartKeepsInv | app/replacement.py:197-198 | a start keeps the invariant, and a candidate's first start finds a copy of what the old volume has held since the old container came to rest |
| Renames.RenameKeepsInv | app/replacement.py:189-194 | each of the five renames keeps the invariant at the moment it is made |
| Resources.AddKeepsInv | app/replacement_docker.py:61-79 | creating candidate, recovery container or copier keeps the invariant |
| Resources.RemoveKeepsInv | app/replacement.py:309-316 | each removal keeps the invariant in its phase |
| Resources.DropSparesChannelData | app/replacement.py:317-321 | outside a deletion no removed volume is the one the channel's row names, and none is somebody else's |
| Resources.RefillKeepsInv | app/replacement_docker.py:124-143 | the new volume may hold anything while the old container has not made way |
| Transitions.BeginKeepsInv | app/replacement.py:169-175 | the plan that replace writes down starts an operation in a sound state |
| Transitions.AdvanceKeepsInv | app/replacement.py:101-104 | every advance the program makes keeps the invariant; the switch is recorded only over a faithful copy |
| Transitions.CommitKeepsInv | app/replacement_store.py:149-156 | a commit hands settings, volume and container to the new side together |
| Transitions.RollBackKeepsInv | app/replacement_store.py:173-180 | a rollback hands all three back together |
| Transitions.RestoreAbsentKeepsInv | app/replacement_store.py:183-196 | the compensation without an old instance leaves a sound row |
| Transitions.FinishKeepsInv | app/replacement_store.py:199-206 | the record goes only when nothing of the operation is left but the channel |
| Transitions.EraseKeepsInv | app/replacement_store.py:216-221 | rows go only when no container and no labelled volume of the channel is left |
| Transitions.QueueKeepsInv | app/replacement_store.py:55-80 | queueing a wish keeps the invariant |
| Copying.CheckUsers | app/replacement_docker.py:108-116 | a normal return means that only the old container and the candidate hold the volume |
| Copying.RunAndRemove | app/replacement_docker.py:136-150 | the copier is gone afterwards, and a normal return means the two volumes hold the same |
| Copying.CopyVolume | app/replacement_docker.py:92-155 | from an old volume as it was when its container came to rest a normal return means a faithful copy of that, which nobody else holds, with the old container still stopped; with working calls it returns exactly when nobody else holds the two volumes |
| Closing.CommittedNames | app/replacement.py:314-316 | after a commit no candidate or recovery container is left under an operation name |
| Closing.WhetherClosable | app/replacement.py:317-321 | the losing volume can be removed exactly when nobody but the old container uses it |
| Closing.Cleanup | app/replacement.py:287-322 | a normal return leaves the winner with its policy, volume and name and nothing of the loser; with calls that work it returns exactly when nobody else uses the old volume |
| Recovery.SetAside | app/replacement.py:242-245 | the candidate ends stopped under its own name, or there is none |
| Recovery.GiveBack | app/replacement.py:253-279 | the old container or a recovery container holds the channel name on the old volume and runs exactly if the old one did |
| Recovery.Recover | app/replacement.py:227-284 | from every sound state: whenever the record is gone, however the call ended, the old side is back entirely, the old container itself if it was never stopped or was not to run, its row showing whether it runs and, without an old instance, an error unless the channel was to be stopped (or the outcome on record is closed); while it stays, it is the same operation with the same plan; no ending leads into the trap or out of it; with calls that work it returns normally exactly when the state is not the trap |
| Recovery.TrapGoesOn | app/replacement.py:246-279 | two sound states of one operation are both in the trap or both outside it |
| Recovery.NoTrapWithoutOld | app/replacement.py:246-252 | without an old instance there is no trap |
| Recovery.SameSituation | app/replacement.py:237-245 | removing the copier and setting the candidate aside neither opens nor closes the trap |
| Replacing.FindOld | app/replacement.py:143-152 | a normal return means the old container as it is, under the channel name and on its volume, or none, and one that is missing is shown as an error |
| Replacing.DrawPlan | app/replacement.py:143-174 | the plan remembers id, volume, policy and running state of the old container, whether its volume exists and the values of the fields that change; the channel is to run unless it was stopped and nobody asks for more |
| Replacing.MoveOld | app/replacement.py:185-189 | a normal return means stopped, copied and moved out of the way; with working calls it returns exactly when nobody else holds the old volume |
| Replacing.TakeName | app/replacement.py:193-195 | the candidate takes the channel name before the switch is recorded |
| Replacing.MayRecordSwitch | app/replacement.py:195 | with the name taken the copy is faithful, the old container away and no copier about |
| Replacing.ProbeThrice | app/replacement.py:200-204 | three probes at most, until one is answered well |
| Replacing.StartAndProbe | app/replacement.py:196-205 | where a login has to be proved a normal return means that a probe has just vouched for it, and otherwise nobody probes; with calls that work it gives up only after three bad answers, and the candidate runs exactly if the channel is to run |
| Replacing.Try | app/replacement.py:196-209 | a normal return means a commit, and the new container under the channel name; whenever a commit is on record, its login is waited for exactly if no probe has vouched for it and there is an old container, old data or a changed field, and the status is logged in with a probe's word, running without, and stopped if the channel is not to run |
| Replacing.NoTrapYet | app/replacement.py:216 | an attempt that fails cannot have fallen into the trap |
| Replacing.StopOld | app/replacement.py:185-187 | a normal return means the old container is stopped for good, and what its volume then holds is remembered |
| Replacing.Replace | app/replacement.py:135-224 | a normal return means the merged settings are in force on the operation's own volume, and where a login had to be proved a probe has vouched for it; a login nobody has vouched for is waited for, the old container kept under its backup name and the old volume in place, unless there was nothing to lose, and only otherwise is the change committed; with calls that work the channel then runs exactly if it is to, under its name and with its policy; an exception, with calls that work, means nothing was begun or everything is as before, running exactly if it ran; however the call ends, either nothing was begun, or the record holds this one plan, or the change is in force, or everything is as before, and the trap is not set; a plan it began has its flag as it was drawn, and counts as undisturbed exactly if Docker was at rest; with calls that work and no login insisted on it succeeds if and only if the channel is as expected, its name its own or free, and nobody else holds its volume |
| Lineage.StoryGoesOn | app/replacement.py:213-284 | whatever a recovery ends in continues the history of the one change that was begun |
| Lineage.Concluded | app/replacement.py:227-322 | a recovery that has removed the record has left the new side complete or the old side as the plan describes it, running exactly as planned in a world at rest |
| Comeback.WhatRemains | app/replacement.py:227-284 | outside the trap recovery can be held up only by a change that was merely queued or by somebody who holds the loser's volume |
| Comeback.ComeBack | app/replacement.py:135-284 | a change and any number of recoveries may each stop anywhere and lose any reply while the world moves; the first recovery left alone ends with no record, and nothing begun, the new settings in force, or old settings, volume, name and policy back; unless the world moved meanwhile the channel then runs exactly if it ran before the change, and nothing has lowered the plan's flag |
| Logins.Confirmed | app/replacement.py:325-330 | the only change is from waiting to committed, and only for the container on record, for which with calls that work it always happens |
| Life.ProbeAndConfirm | app/channel_state.py:77-90 | a probe answered well by the running container is what confirms a waiting login, and with calls that work always does; nothing else is written |
| Logins.ReconcileWaiting | app/replacement.py:352-362 | a normal return means the candidate holds the channel name and the row names it and, at rest, shows whether it runs, with its policy if it does; with calls that work it returns exactly when the candidate exists |
| Logins.Restart | app/replacement.py:380-399 | the waiting candidate runs again under the channel name with its policy, on the same volume |
| Logins.Resume | app/replacement.py:365-399 | what was under way is taken up: queued settings come into force in a channel that runs, a waiting candidate becomes the running channel, the very same one if it runs already, and with calls that work the latter always succeeds; an operation midway is refused untouched, and otherwise nothing is left on record |
| Stopping.BeforeStop | app/replacement.py:402-421 | with calls that work it succeeds exactly when what is under way can be stopped, which for an operation midway means that no recovery container holds the channel name while the old one is away; otherwise it ends stuck; an operation midway that is stopped leaves the channel shown as stopped; and under no ending does it set the trap unless it came at such a moment |
| Stopping.Apply | app/stop_intents.py:42-62 | the wish is cleared only in a state in which nothing runs under the channel name; with calls that work it is cleared exactly when what is under way can be stopped and the name is the channel's or free |
| Stopping.Halt | app/stop_intents.py:46-61 | a normal return means nothing runs under the channel name; with calls that work it returns exactly when the name is the row's container's or free |
| Deletion.Collect | app/replacement.py:431-439 | every container of the channel is accounted for: old, candidate, recovery container, copier |
| Deletion.RemoveVolumes | app/replacement.py:90-98 | every volume with the channel's labels goes, unlabelled ones stay |
| Deletion.Discard | app/replacement.py:424-450 | a normal return means no rows, no containers and no labelled volumes of the channel; with calls that work it always gets through once an operation has begun, from the trap too |
| Life.QueueSettings | app/replacement_store.py:55-80 | metadata is in force at once and the wish is the earlier one overlaid with the new fields |
| Life.Boot | app/replacement.py:333-349 | starting up keeps the invariant whatever the record says and never raises; with calls that work an operation under way is ended unless recovery is barred, a candidate that is waited for is the channel again, and a deletion goes through |
| Life.Step | app/replacement.py:135-450 | every operation, cut short anywhere, keeps the invariant |
| Life.Live | app/replacement.py:333-349 | the invariant holds over every sequence of operations, crashes and restarts in changing weather |
| Safety.AtMostOneActive | app/replacement.py:185-198 | in every reachable state at most one of a channel's containers runs, at most one has a restart policy, and it is the same one |
| Safety.DataIsKept | app/replacement.py:317-321 | outside a deletion the volume named by the row exists from the first commit on |
| Safety.OldDataIsKept | app/replacement.py:287-322 | the old volume exists until a commit is confirmed |
| Safety.NewVolumeIsPrivate | app/replacement_docker.py:124-130 | the candidate never mounts the old volume and the copier never writes to it |
| Safety.FirstStartIsFaithful | app/replacement.py:188-198 | when a candidate first starts, its volume equals the old one, and both what the old one held when the old container came to rest |
| Safety.SidesAgree | app/replacement_store.py:138-196 | settings and data volume belong to the same side in every phase |
| Safety.RollbackRestores | app/replacement.py:280-282 | a rollback before a commit touches no setting; one that takes back a commit leaves every column as it was if and only if the changed ones were as a write leaves them, and everything if and only if the mirrors agreed as well |
| Safety.OthersAreUntouched | app/replacement.py:135-153 | containers and volumes of others keep name, labels, policy and mounts, and as long as Docker does nothing by itself nobody's container is stopped, started or changed at all |
| Safety.StopCanTrap | app/replacement.py:259-279 | finding: from a recoverable state two steps before the end of a recovery, a stop leads to a state that no recovery leaves |
| Safety.EveryRebuildCanTrap | app/replacement.py:259-279 | finding: whatever the state in which a recovery of a channel that ran is about to build it anew, two effects later it can still be recovered, and with a stop in between it never can |
| Descent.EveryActKeepsInv | app/replacement.py:135-450 | each effect that the program has on containers, volumes and rows keeps the invariant wherever the program makes it |
| Descent.TrapIsReached | app/replacement.py:259-279 | finding: twenty-nine effects, in the order in which replace, recover and before_stop make them, lead from a channel just entered on an empty host into the trap |
| Sources.RoutesChangeOnlyWithBump | app/config_apply_schema.sql:25-36 | no journal write, wish or probe opens or closes a channel's routes without bumping the source revision |
| Sources.SilentFromWishToConfirmation | app/stop_intents.py:16-34 | from the wish to its confirmation the channel has no route, over any interleaving of writes |
| Utf8.OrdersAgree | desktop/core/src/config_apply.rs:32-37 | sorting keys by code point and by UTF-8 bytes is the same |
| Utf8.TextRoundTrip | app/config_apply.py:30-32 | texts are recovered from their bytes |
| Utf8.DecimalIsRead | app/config_apply.py:26 | lengths and integers are recovered from their digits |
| Fingerprint.RoundTrip | app/config_apply.py:19-37 | a decoder recovers the value, with mappings sorted, and what follows it |
| Fingerprint.SameEncodes | app/config_apply.py:34-35 | the order in which a mapping lists its entries does not matter |
| Fingerprint.SameBytesSameValue | app/config_apply.py:19-37 | two values have the same bytes if and only if they are the same value, and no encoding starts another |
| Fingerprint.SortsAgree | desktop/core/src/config_apply.rs:32-37 | both programs sort the keys of a mapping alike |
| Fingerprint.EncodesEncodable | app/config_apply.py:22-36 | a value is encoded if and only if it is encodable: null, booleans, texts, integers from -2^63 to 2^64-1, finite floats, and lists and mappings of such values |
| Fingerprint.ScalarBytes | app/config_apply.py:22-32 | the bytes of everything but lists and mappings, spelled out |
| Fingerprint.ListBytes | app/config_apply.py:33 | a list is its tag, its length and its parts in order |
| Fingerprint.DictBytes | app/config_apply.py:34-35 | a mapping is its tag, its size and each key with its value, by ascending keys |
| Fingerprint.EncodeInto | desktop/core/src/config_apply.rs:14-45 | the buffer the desktop program fills holds the Web program's bytes, and it fails exactly for what is not encodable |
| Fingerprint.SortedAscends | app/config_apply.py:35 | keys come out strictly ascending |
| RuleText.NormalizedIsSafe | app/ruleutil.py:9-11 | a normalised pattern holds no comma, quote, blank or control character |
| RuleText.NormShape | app/ruleutil.py:26-32 | a normalised domain has up to 253 characters, none of them upper case, dangerous or part of a scheme, path, user or port, and no outer or double dots |
| RuleText.HostIsFound | app/ruleutil.py:26-32 | of an address as users paste it exactly the host is kept: scheme, login, port and path go |
| RuleText.DomainIsAccepted | app/ruleutil.py:26-32 | a sound host is accepted however it is pasted, rid of one wildcard in front and of capitals |
| RuleText.AddressIsAccepted | app/ruleutil.py:35-55 | an address is taken with its mask if and only if that is a number and the network can be read, and as /32 or /128 without one; a zone is refused |
| RuleText.ClassifyChooses | app/ruleutil.py:58-71 | a token is an address if what stands before its first slash is one, and a domain otherwise |
| RuleText.NormTwice | app/ruleutil.py:26-32 | normalising again changes nothing if and only if the token's host, rid of one wildcard and of outer dots, does not begin with a wildcard again |
| RuleText.NormNotStable | app/ruleutil.py:14-18 | finding: +.+.a becomes +.a and then a |
| RuleText.ClassifiedIsCompiled | app/ruleutil.py:58-80 | what a user's token has been classified as is never dropped when rules are compiled, and is compiled as it was stored if and only if it is an address or its host does not begin with two wildcards |
| Rules.FirstDomainIsLongest | app/manager.py:357-369 | the first domain rule that covers a host is the longest one, ties going to input order |
| Rules.FirstAddressIsNarrowest | app/manager.py:313-372 | among the address rules in force that cover an address the first has the most bits in its mask, the number behind the slash, ties going to input order |
| Rules.AddressHasBits | app/ruleutil.py:35-55 | every address rule has such a mask |
| Rules.LongerHasMoreLabels | app/manager.py:367 | of two domains that cover one host the one with more labels is the longer |
| Rules.EmittedIsPermutation | app/manager.py:361-372 | the emitted rules are the enabled valid rules, each once, with their channel and normalised pattern |
| Rules.SortOrders | app/manager.py:367-368 | the sort is strict and stable |
| Rules.EffectiveIsExact | app/store.py:339-348 | exactly the rules of silenced channels are switched off |
| Rules.NoRouteToStopped | app/store.py:342-347 | no line routes to a channel that is stopped, broken, switched off or about to be stopped |
| Rules.Compile | app/manager.py:347-378 | the program's one pass with two buckets yields the specified list, and its last two lines refuse made-up addresses and send the rest out directly |
| Routing.HostGoesToLongest | app/manager.py:357-378 | working through the printed lines, a host goes to the channel of the longest domain among all rules in force that cover it, the earlier of two equal ones, and directly if and only if there is none |
| Routing.AddressGoesToNarrowest | app/manager.py:357-378 | an address goes to the channel of the narrowest network among all rules in force that hold it, the earlier of two; otherwise it is refused in 198.18.0.0/15 and goes directly elsewhere |
| Routing.DeadIsSilent | app/store.py:342-347 | the rule query silences a channel exactly if it is switched off, stopped, broken or has a wish to stop |
| Routing.NothingGoesToTheSilent | app/store.py:339-348 | whatever is asked for goes through a channel only while that channel's routes are open in the database |
| Readback.MarkInjective | app/config_apply.py:40-41 | a marker determines generation and digest |
| Readback.PrintedRuleIsRead | app/config_apply.py:63-69 | printing a rule and splitting it again gives it back, in both programs |
| Readback.AcceptsFaithfulView | app/config_apply.py:50-72 | the comparison accepts every faithful view of the stamped configuration |
| Readback.AcceptanceIsExact | desktop/core/src/config_apply.rs:56-82 | acceptance means the same channel proxies, this generation and digest, and the same rule lines in the same order |
| Readback.MatchesIffLive | app/config_apply.py:50-72 | with nothing moving the comparison accepts if and only if the configuration is live |
| Readback.WebIsStricter | app/config_apply.py:64-71 | what the Web program accepts the desktop program accepts |
| Readback.ProgramsDiffer | app/config_apply.py:50-72 | the Web program accepts exactly what the desktop program accepts with every proxy entry an object and every rule plainly enabled: no extra, or an object whose disabled, if there, does not count as true |
| Readback.DesktopIsLaxer | desktop/core/src/config_apply.rs:78-79 | finding: a rule disabled by the number 1 passes in the desktop program only |
| Readback.NullExtraDiffers | app/config_apply.py:64 | finding: so does a rule whose extra is null |
| Readback.TornReadsAreRefused | app/config_apply.py:93-103 | with at most one switch across the read-back, proxies and rules were both the ticket's when the rules were read |
| Readback.ModeIsTheTickets | app/config_apply.py:93-103 | and when the mode is read, what is live has the ticket's marker and mode, with the rules that were read or rules loaded since under that marker |
| Readback.ModeMayLag | app/config_apply.py:97-103 | finding: when the rules are read the mode may still be that of older rules that read the same |
| Readback.TwoSwitchesFool | app/config_apply.py:102-103 | two switches can fool the read-back: the proxies live when the rules were read are not the ticket's |
| Readback.OneLookIsNotEnough | app/config_apply.py:102-103 | without the second look one switch is enough for that |
| Tickets.TicketStore.Prepare | app/config_apply_store.py:50-63 | a ticket is issued only for the present source revision; the generation grows exactly with new content |
| Tickets.TicketStore.RecordReadback | app/config_apply_store.py:80-88 | only the ticket that equals the row in every column is recorded |
| Tickets.TicketStore.Failed | app/config_apply_store.py:91-100 | only the current ticket can be marked failed, with a known code |
| Tickets.TicketStore.Status | app/config_apply_store.py:26-38 | not pending if and only if the current ticket is for the present sources and switch and was read back without an error since |
| Tickets.OnlyLatestActs | app/config_apply_store.py:66-100 | over any run a ticket has an effect only while it is the latest that was prepared |
| Tickets.TicketsDiffer | desktop/core/src/config_apply_store.rs:64-79 | no two tickets are equal |
| Tickets.EqualGenerationsEqualHashes | app/config_apply_store.py:58-62 | equal generations imply equal hashes, and the applied one never runs ahead |
| Tickets.NotPendingMeansSettled | app/config_apply_store.py:32-37 | not pending if and only if the latest ticket was confirmed after its prepare, with no source change and the same routing switch |
| Apply.RenderMakesProxies | app/manager.py:349-355 | one SOCKS proxy for every channel, in the order of the channels, and what is not managed stays as it was |
| Apply.RenderServes | app/manager.py:349-377 | if every rule belongs to a listed channel every printed line leads to a proxy that is there |
| Apply.RenderForgetsStamp | app/manager.py:347-378 | rendering over a stamped configuration gives the unstamped one back |
| Apply.RenderIsRendered | app/manager.py:361-377 | every rendered configuration can be recognised line by line |
| Apply.Applier.ReadBack | app/config_apply.py:93-103 | an accepted read-back has moments at which the ticket's configuration was shown |
| Apply.Applier.Draft | app/config_apply.py:114-124 | the ticket and the configuration belong to one consistent snapshot; it gives up only after the sources have moved eight times |
| Apply.Applier.Verify | app/config_apply.py:126-152 | live by one look, or by a look, an answered reload and another look |
| Apply.Applier.Deliver | app/config_apply.py:153-177 | flush if the core was right already, write if the file differs, and look again after either |
| Apply.Applier.Apply | app/config_apply.py:106-181 | 204 means: rendered from the present sources, with one proxy per channel and every line leading to one, seen live, startup file stamped, flush done where needed, not pending; anything else stays pending; undisturbed it succeeds, and a second run only looks |
| Apply.FlushesCompared | desktop/core/src/config_apply.rs:149-152 | the two programs decide alike whether to flush, but for failed deliveries of the startup file |
| Apply.FlushesOverRetries | desktop/core/src/config_apply.rs:149-152 | over any number of attempts that find the core right and cannot deliver the startup file, all but the first flush in the Web program and none of them in the desktop program, whatever came before |
| Probes.SlotObject.SaveWish | app/stop_intents.py:16-25 | a wish shows in the status at once, needs no lock and takes no earlier wish back |
| Probes.SlotObject.Peek | app/channel_state.py:107-121 | what a caller is told, case by case: the shutdown, a missing channel, a wish to stop, an unfinished operation, a status that is not running, and only otherwise to look further |
| Probes.SlotObject.TakeLock | app/channel_state.py:123-127 | the probe lock is kept exactly by a caller whose generation is still current |
| Probes.SlotObject.Ask | app/channel_state.py:128-138 | an answer comes from the cache of the generation seen and is stale exactly when its time is over; otherwise there is one probe to wait for, sent out only if none was out |
| Probes.SlotObject.Execute | app/channel_state.py:77-87 | the status is written exactly if the probe's generation is current, the service open and the channel present and running, as logged in after a good answer and running after a bad one; nothing else of the row is |
| Probes.SlotObject.Confirm | app/channel_state.py:88-90 | a transaction of its own: the phase changes exactly if the probe was good and a login is awaited, wish or no wish |
| Probes.SlotObject.PutTogether | app/channel_state.py:91-95 | the answer holds what was measured and the phase of this moment |
| Probes.SlotObject.Remember | app/channel_state.py:96-99 | the answer is cached under its probe's generation for 30 seconds if it is good, and for 5, 10, 20 and then 30 seconds as bad ones follow each other |
| Probes.Interleave | app/channel_state.py:14-142 | any interleaving of the critical sections carried out on the object is one of the runs below |
| Probes.AlwaysSound | app/channel_state.py:14-142 | in every interleaving: generations seen and sent out are not ahead, and behind while an operation runs; the lock holder is the one caller between check and answer |
| Reports.ReportWrites | app/channel_state.py:81-86 | in every run a report counts exactly in its own generation, with the service open and the channel running, and then leaves logged in or running behind |
| Reports.WorkersKeepRunning | app/channel_state.py:77-99 | in every run no worker takes a channel out of the two running statuses or brings it back to them, and none touches a wish |
| Reports.FailureIsNotFinal | app/channel_state.py:106-121 | after a report that counted, a bad one included, whoever looks is told to look further, until the row is written from outside or the service shuts down |
| Reports.ReportIsWritten | app/store.py:194-199 | a report that counts is the database's own write of a probe result, which opens or closes no route and makes no configuration outdated |
| Reports.WishIsWritten | app/stop_intents.py:16-25 | a wish in the slot is the database's own write of it |
| Probes.OneProbeOut | app/channel_state.py:134-136 | at most one probe of a slot is out |
| Probes.NoStaleWrite | app/channel_state.py:82-96 | in every interleaving a probe writes to row, journal or cache only if no operation has started since its caller looked |
| Probes.AnswersAreCurrent | app/channel_state.py:123-142 | every answer, waited for or cached, was measured in the generation its caller saw, and that generation is current at a moment of the call: when the answer is handed out or, from the cache, when the lock was taken; the phase beside it was read before the worker let go of the operation lock |
| Probes.TwoRoundsAreEnough | app/channel_state.py:106-142 | a caller is turned back twice only if an operation has started since the look of its first round |
| Probes.CollectAnswers | app/channel_state.py:139-142 | who waits is answered if and only if the probe has brought an answer of the generation seen and no operation has started since the look |
| Probes.ActAnswers | app/channel_state.py:128-138 | who holds the probe lock is answered if and only if the cache holds the generation seen and is in time, or a probe is out or can be sent out |
| Probes.StopWins | app/channel_state.py:107-118 | from the wish to its confirmation whoever looks is told stopped, whatever operations write to the row in between |
| Probes.NothingIsMeasured | app/channel_state.py:82-91 | while the wish is open no worker writes a status or measures anything that counts, and it changes the phase exactly where it confirms a login |
| Probes.OnlyOldConfirms | app/channel_state.py:87-89 | a login confirmed while the wish is open belongs to a status written before it, under one hold of the lock |
| Probes.LoginConfirmedAfterWish | app/channel_state.py:87-89 | finding: a wish that lands between the two transactions does not keep the second from committing the login |
| Probes.OnlyOldAnswers | app/channel_state.py:123-142 | whoever is answered while the wish is open had looked before it and gets what was measured before it |
| Probes.OldCallersAreTurned | app/channel_state.py:126-141 | once an operation has started or if one was under way, callers that had looked before are turned back at the lock and with a probe in hand |
| Probes.OldCallerCanBeAnswered | app/channel_state.py:139-142 | finding: until then a caller whose probe is back is told what was measured before the wish |
| Probes.LockHolderCanBeAnswered | app/channel_state.py:123-133 | finding: a caller that held the probe lock when the wish came is so from the cache even after an operation has started |
| Poll.Poller.DoKick | app/ui/js/poll.js:16-38 | a kick is placed at once: in a run that begins now, in the one after the present run, or resolved once stopped; one run at a time and all promises kept |
| Poll.Poller.DoFinish | app/ui/js/poll.js:30-36 | the run's promises resolve, those that waited get the next run at once, a visible page has a run or a timer; one run at a time and all promises kept |
| Poll.Play | app/ui/js/poll.js:6-53 | the closure's handlers, called in any order, go through exactly the runs below |
| Poll.NeverOverlapsNorStalls | app/ui/js/poll.js:6-53 | never two runs, and a visible page that is not stopped has a run or a timer |
| Poll.StopIsFinal | app/ui/js/poll.js:40-53 | after a stop no run begins any more |
| Poll.KicksSeeALaterRun | app/ui/js/poll.js:16-25 | a kick resolves only after a run that began later, or after stop |
| Poll.TwoEndsSettleAKick | app/ui/js/poll.js:30-35 | a kick has resolved by the second end of a run after it |
| Poll.KickFromInsideOverlaps | app/ui/js/poll.js:28-30 | a kick from the synchronous part of the callback would overlap |

## Left out

- Docker, HTTP, SQLite, YAML and Fernet themselves: they are state plus the outcomes named above; YAML load and dump and encryption are the identity, and a SQLite transaction is atomic.
- Somebody else removing, renaming or relabelling the channel's own containers and volumes, or creating containers while an operation runs: other containers and volumes are arbitrary but fixed, apart from their lives and data.
- Images, ports, VNC passwords, VPN client start-up, DNS recovery scripts and the SOCKS probe itself: a client start-up or a probe is a nondeterministic result.
- Operation locks: the replacement code's callers hold the channel's operation lock, so its methods run one at a time; only crashes and Docker interleave with them. The probe model interleaves everything.
- The desktop program's own code for queued settings, stop wishes and upgrades, which shares these tables, is not modelled.
- overlay_queued, public_status and the HTTP handlers: single reads.
- persist_container and the runtime-idle deferral of the desktop program's apply: another read-back loop of the same kind and one early return.
- The waiting loop of the file lock and its 45 seconds, time-to-live values and time stamps: a held lock and a monotone clock.
- Unreadable rows and payloads that fail to decrypt: reading the journal either raises or returns the row.
- Replace: where policy or cleanup fail after a commit, which the program leaves to later maintenance, it promises settings, volume, status and login but not the restart policy; on an exception with failing calls it promises the history of `Lineage.Story` and not the old side, because the recovery may be unfinished as well.
- ComeBack: where Docker has restarted or stopped containers meanwhile (`moved`) it promises everything but the running state.
- constructor: the channel's identifier is new, so that no container carries its labels yet.
- OthersAreUntouched: says of others' volumes that they are there with their labels, not what they hold.
- CreateCandidate: of the run arguments only name, labels, mounts and policy are modelled.
- Confirmed: is stated for calls that follow a probe answered through the container in the row, under the channel's name, as its own comment demands; `Life.ProbeAndConfirm` is the two together, without that condition.
- Apply: the digest is an arbitrary function into 64 hexadecimal digits, so that two configurations may share one; that the bytes behind it differ is `Fingerprint.SameBytesSameValue`. Exceptions of the ticket store cannot occur under the lock and are not modelled.
- Render: of a channel's proxy only name and type are modelled; server, port and UDP flag are constants beside them.
- Route: how the core reads a rule list is modelled as its documentation has it: first hit wins, a line with no-resolve applies to addresses only, and which addresses a network holds is a parameter.
- Parse: a rule line with too few parts is no rule, where Python would raise an IndexError; rendered lines always have enough.
- Encode: a mapping with a key that is not text is Unsupported, and texts are Unicode scalar values, so lone surrogates, on which Python raises, do not occur. Integers beyond 64 bits cannot occur in the desktop program's YAML values.
- NormDomain: lower-cases ASCII letters only.
- NormIp: Python's ipaddress module is a parameter; ClassifiedIsCompiled assumes of it that every address is a network with the full prefix length.
- PrefixLength: reads digits only, where Python's int also takes signs, blanks and underscores; normalised patterns hold none of these.
- TwoRoundsAreEnough: counts rounds; the 35 second limit on waiting for a probe and the size of the pool are left out.
