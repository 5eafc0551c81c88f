# A verified model of fcvm's shared-state protocols

fcvm starts micro-VMs from many short-lived processes that share one host. Each process can
be killed at any instruction, and the next one has to find, and only find, what the last one
left. This project models the parts of fcvm where that is hard, and proves what they promise
for every input and every interleaving. `dafny verify dfyconfig.toml` checks all of it.

| files | what they model |
|---|---|
| `Resources`, `UndoAll`, `Owner` | an owner's record: resources written down before they are made, undone newest first, kernel objects taken off the record before they are deleted |
| `LockProtocol`, `LockTakeover` | the lock files, unlinked while held and inherited by helpers, and who can come to hold one |
| `ReclaimSystem`, `ReclaimSafety`, `ReclaimPaths`, `ReclaimTheorems`, `ReclaimEndings`, `ReclaimPasses` | any number of owners, passes and helpers over those locks, with crashes, failed writes, reboots and foreign namespaces; what an ended owner can leave behind, and what a full pass has cleaned up |
| `OwnerDirs` | choosing one of 64 owner directories, concurrently |
| `Decimal`, `Cgroup`, `CgroupProtocol` | VM scopes: names, the sweep, entering and leaving |
| `HealthMonitor`, `HealthSystem` | the health monitor's loop, alone and beside the path that pauses the VM for a startup snapshot |
| `KeyEncoding`, `Fingerprint`, `VersionCache`, `ImageDigest`, `DigestSystem`, `DigestSafety`, `DigestTheorems` | the two-layer digest cache while files are replaced and rewritten |
| `MountView`, `ClonePlan` | the mount namespace of a restored clone: which binds are made, their directories, and where every path then leads |
| `Printk` | finding printk records and crash headlines in a console line |
| `LinearAlgebra`, `GaussJordan`, `Ols` | matrix inversion and least squares, over exact reals |
| `Quarantine`, `ReplayQueries`, `NetTrace` | the benchmark's publication cleanup, its bracket records, and its network-trace fold |

Protocols are transition systems: a state, the steps any participant may take next, and an
invariant every step keeps, so that a statement about every reachable state covers every
interleaving, and a crash is a participant that takes no further step. Loops of the source are
methods whose contracts tie them to a small-step function or to a declarative definition, and
the promises are proved of that definition.

## Hypotheses

- A rename replaces a file atomically. A write of a record leaves the old or the new record.
- An undo that answers `Done` has removed its resource; `Kept` and `InUse` remove nothing.
- Owner ids are not reused. `record` and `forget` do not overlap `complete` on one owner, and
  `discard` is called only once the owner's paths are removed or published.
- A helper makes only what was on record when a helper of its owner was started.
- A kernel name (a network namespace, a link, a rule, a host route) belongs to one owner of one
  boot and user namespace while it exists; deleting one frees it and what was made after it.
- An owner records owner-named kernel objects in the order they become its own, and a forget drops
  only the newest of those and no file or directory, as the callers in `src/network/bridged.rs`
  and `src/network/routed.rs` do. `forget` itself would drop whatever its caller selects.
- `undo_all` learns why a resource stays from a tag, where the source looks at a string prefix.
- `/proc` gives the boot id and the user namespace.
- A pid and a start time name one process. A cgroup that holds a process cannot be removed.
- A write in place gives a file a stamp it has not had before; two files may share a stamp. SHA
  and the fingerprint are arbitrary functions; a claim that needs a collision-free key hash
  says so.
- Mount paths are absolute and free of `.`, `..` and symbolic links.
- Arithmetic in `Ols` is over real numbers: floating-point rounding is idealised away.
- An inode number names one file, and only the cleanup that moved a file aside touches the
  quarantine name it is at.

## Where the code does less than its documentation says

- An owner whose `complete` or file deletion meets an error drops its lock guard, and dropping
  the guard unlocks the file for inherited descriptors too. A live helper then no longer keeps
  the owner's record from being taken. `DroppedGuardExposesAHelper` is such a run, and
  `HelperKeepsOwnerLiveIff` is the exact condition.
- A helper that holds an owner's lock is documented to keep what it still writes from being
  reclaimed. Discarding or completing the owner meanwhile deletes the record under it, and what
  the helper then makes is on no record. `DiscardedUnderAHelper` is such a run;
  `EndingWithAHelper` and `NoLockFileNothingLeft` say exactly when it can happen.
- The health monitor documents that once `Healthy` is visible the data plane is live. The ack
  that lets it publish is also sent after a resume that failed, and it is given up with the VM
  still paused by `prepare` and the shutdown paths. `HealthyAfterAFailedResume` and
  `HealthyAfterALostAck` are such runs, and `PublishesIffTheAckIsGone` says exactly when.
- The socket a snapshot names is documented to lead to the clone's vsock directory. One named
  `disks`, in a VM directory that is redirected apart from its disks, leads to the clone's disks
  instead. `VsockIsTheTarget` is the exact condition.

## Model

| member | source | states |
|---|---|---|
| UndoLoop.UndoAll | src/reclaim.rs:792-857 | The loop's effects are a complete trace of the small-step form, each with the host's own answer to that call, and what it returns is what that trace keeps, in recorded order |
| UndoLoop.PassIsDetermined | src/reclaim.rs:792-857 | The host's answers determine the whole pass: no other trace is truthful about them |
| UndoLoop.DiskHoldsAKernelPrefix | src/reclaim.rs:807-857 | At every point of a same-boot pass, crashed or with failing writes, the kernel objects on disk are a prefix of the recorded ones, at most one further existing one is unrecorded, and the rest are the ones undone |
| UndoLoop.ListsAreSubsequences | src/reclaim.rs:802-857 | Every list a pass persists or returns is an in-order subsequence of its input |
| UndoLoop.RetiredBeforeUndone | src/reclaim.rs:828-857 | A kernel object is undone only in its own boot, only after a record without it was written, and the record still lists every older kernel object |
| UndoLoop.ForeignPassTouchesNoKernelObject | src/reclaim.rs:820-831 | A pass in another boot or namespace undoes no kernel object and writes no record |
| UndoLoop.SmoothPassKeepsNothing | src/reclaim.rs:802-857 | A pass whose writes and undos all succeed keeps nothing |
| UndoLoop.NothingIsLost | src/reclaim.rs:802-857 | At the end of a pass, kept, undone and abandoned resources together are exactly the recorded ones, so the counts add up |
| OwnerState.Owner.Record | src/reclaim.rs:656-675 | A recorded resource is on disk before it may be made; a failed write leaves memory and disk equal and unchanged; a repeat is recorded once, except a rule |
| OwnerState.Owner.Forget | src/reclaim.rs:746-768 | The matching records leave disk and memory together, in order, or not at all, and only a failed write is an error |
| OwnerState.Owner.Discard | src/reclaim.rs:483-573 | The owner is completed without undoing; the record goes if its removal succeeds, the lock file is deleted exactly if all three removals do, otherwise the guard is dropped; a second end is refused |
| OwnerState.Owner.Complete | src/reclaim.rs:677-719 | The pass is the one the host's answers determine; whatever fails, each path is gone or still recorded and the kernel objects on disk are the oldest; result, lock and record are exactly what the kept resources and the host's next answers say |
| LockProtocol.StepKeepsInv | src/reclaim.rs:425-492 | Every open, flock, identity check, unlink, release, crash, inheritance and reboot keeps the lock invariant |
| LockProtocol.MutualExclusion | src/reclaim.rs:421-451 | Two validated locks on one id are the same, and the name still leads to that inode |
| LockProtocol.HoldersNameIsStable | src/reclaim.rs:421-451 | No step but the holder's own unlink changes what the lock's name leads to |
| LockProtocol.AtMostOneHolder | src/reclaim.rs:421-492 | In every interleaving at most one description is validated for an id |
| LockTakeover.HelperKeepsOwnerLiveIff | src/reclaim.rs:586-653 | Beside a live helper, some run lets another description be validated for the id exactly when the guard was dropped or the lock file unlinked |
| LockTakeover.StepKeepsNames | src/reclaim.rs:421-492 | Every step keeps each open lock file under the one name it was opened by, or under none once it is unlinked |
| LockProtocol.DroppedGuardExposesAHelper | src/reclaim.rs:677-719 | A run in which a dropped guard lets the next pass take the lock of an owner whose helper lives |
| ReclaimSafety.StepKeepsInv | src/reclaim.rs:463-857 | Every step of every owner, pass, helper and of the host keeps the joint invariant of locks, records and kernel objects |
| ReclaimPaths.StepKeepsPaths | src/reclaim.rs:463-857 | Every step but ending an owner whose helper still lives keeps the invariant that ties files and directories, and what helpers may make, to the records |
| ReclaimTheorems.NoOneElseHasTheRecord | src/reclaim.rs:1013-1032 | Whoever works on a record is alone with it, so no pass reads or undoes the record of a live owner or of its helpers |
| ReclaimTheorems.WorkIsUnderTheLock | src/reclaim.rs:993-1079 | Work on a record happens under a validated lock |
| ReclaimTheorems.ExistingPathsAreRecorded | src/reclaim.rs:656-719 | In every run that ends no owner of the id while its helper lives, each existing runtime directory and temporary is in the record on disk |
| ReclaimEndings.EndingWithAHelper | src/reclaim.rs:564-719 | After such a run, ending the owner lets some further run leave a path on no record exactly when a helper started for a path still lives |
| ReclaimEndings.DiscardedUnderAHelper | src/setup/mod.rs:256-276 | A run in which a discarded owner's helper makes a temp that no record lists |
| ReclaimTheorems.LiveOwnerMirrorsDisk | src/reclaim.rs:656-675 | Between a live owner's operations its list in memory is its list on disk |
| ReclaimTheorems.RecordsNameOnlyTheirOwn | src/reclaim.rs:807-857 | A record on disk that names a kernel object lists the oldest of what its owner recorded in this world, and everything an undo deleted lies behind that; owner-named ones are still this owner's and no other's |
| ReclaimTheorems.RestampedRecordsHoldNoKernelObject | src/reclaim.rs:463-481 | A record stamped with a world its owner did not begin in holds no kernel object |
| ReclaimTheorems.NoNamesakeIsUndone | src/reclaim.rs:1046-1079 | Whatever kernel object a pass undoes is the next of its own owner's in this world, was not undone before, and if owner-named is nobody else's |
| ReclaimEndings.NoLockFileNothingLeft | src/reclaim.rs:483-492 | An id without a lock file has no record and no half-written one; a path of it is or can be left exactly when one is there or a helper started for one lives, and neither is the case if no owner was ended while its helper lived |
| ReclaimPasses.EveryFullPassCleansUp | src/reclaim.rs:993-1079 | In every run, whatever other processes do and however many passes were killed before, a pass that is not killed and meets no failure has, by its end, passed a state without any owner file of the id, and without any path unless an owner was ended while its helper lived; once the owner had begun, the id has no record, temp or such path at the end either |
| ReclaimPasses.AFullPassIsPossible | src/reclaim.rs:993-1079 | From every reachable state such a pass can take a lock nobody holds and run to its end |
| OwnerDirs.SameSlotIffSameUid | src/reclaim.rs:211-250 | Whatever slots there are at first and however the choices interleave, two processes share a slot exactly when they share a uid, and it is the first their uid owns |
| OwnerDirs.NeverASecond | src/reclaim.rs:211-250 | No slot goes or changes hands, and none is made for a uid that has another |
| OwnerDirs.FullMeansFull | src/reclaim.rs:245-249 | A process gives up only when all slots are other uids' |
| OwnerDirs.Shared.Pick | src/reclaim.rs:211-250 | Undisturbed, the first slot the uid owns, making nothing; else the first free slot; else none |
| Cgroup.NameRoundTrip | src/cgroup.rs:117-149 | Reading a scope's name back gives the process it was named for |
| Cgroup.NamesDiffer | src/cgroup.rs:117-149 | Different processes have differently named scopes |
| Cgroup.Sweep | src/cgroup.rs:160-199 | Undisturbed, exactly the empty scopes without a live owner go, and the counts are those removed and those refused |
| CgroupProtocol.StepKeepsInv | src/cgroup.rs:289-437 | Every step of entering, sweeping, leaving for the cgroup it came from and dying keeps the invariant of scopes, lock and processes |
| CgroupProtocol.RemovalIsSafe | src/cgroup.rs:165-199 | In every interleaving a removed scope was empty, and never lay between its creation and its live owner's entry unless that owner gave up |
| CgroupProtocol.EnteredScopeStands | src/cgroup.rs:376-421 | The scope of a process that has entered and not left is there and holds it, with the swap limit it asked for |
| CgroupProtocol.NoSwapBeforeEntry | src/cgroup.rs:376-421 | A process that asked for no swap enters only a scope whose swap limit is already zero |
| CgroupProtocol.SweepMissesNothing | src/cgroup.rs:165-214 | When a sweep ends, every scope there is was, at some state of the run since the sweep took the lock, not fcvm's, or had a live owner, or held a process |
| HealthMonitor.Watch | src/health.rs:96-293 | The loop's log is a run of the step function with the host's own answers, ends with the loop's variables, and falls short of the given iterations only when the loop is over |
| HealthMonitor.TriggerIsOneShot | src/health.rs:177-209 | In every run the trigger is sent at most once, `is_healthy` implies it is spent, and polling is at 10 s exactly when `is_healthy` |
| HealthMonitor.EndsForAReason | src/health.rs:112-292 | The loop ends only by cancellation or right after `Stopped` was persisted |
| HealthMonitor.WritesAreFresh | src/health.rs:154-233 | What is written is what the same iteration's check saw, so an observation from before an abandoned snapshot is never written |
| HealthSystem.StepKeepsInv | src/health.rs:96-293 | Every step of the monitor, the snapshot path and the token keeps the joint invariant |
| HealthSystem.HealthyWaitsForTheAck | src/health.rs:172-233 | `Healthy` is never persisted between the trigger and the ack being sent or dropped |
| HealthSystem.HealthyIsInvisibleWhilePaused | src/health.rs:63-72 | Until the ack is used or lost the state file does not say `Healthy`; of a paused VM it says so only once the path no longer has the ack |
| HealthSystem.PublishesIffTheAckIsGone | src/commands/podman/mod.rs:3361-3365 | The monitor alone can publish `Healthy` exactly when no ack is outstanding and no trigger will be delivered; of a paused VM, exactly when the ack was used or lost |
| HealthSystem.HealthyAfterALostAck | src/commands/podman/mod.rs:3586-3588 | A run that leaves `Healthy` in the state file of a paused VM whose ack was given up |
| HealthSystem.HealthyAfterAFailedResume | src/commands/common.rs:6110-6155 | A run that leaves `Healthy` in the state file of a VM whose resume failed before the ack was sent |
| HealthSystem.NeverWedged | src/health.rs:50-53 | A monitor that is not over can always step, except while it waits for an ack that is neither used nor lost and it is not cancelled |
| HealthSystem.OverMeansCancelledOrStopped | src/health.rs:278-291 | A monitor that is over was cancelled or left `Stopped` in the state file |
| KeyEncoding.KeyRoundTrip | src/version_cache.rs:111-119 | The bytes hashed for a key determine path, time, length and namespace |
| KeyEncoding.KeysDiffer | src/version_cache.rs:111-119 | Different identities have different key bytes, given NUL-free paths |
| VersionCache.DistinctSlots | src/version_cache.rs:111-119 | If the hash does not collide on key bytes, no two identities, of one binary or another, share a slot |
| VersionCache.MemoIsExact | src/version_cache.rs:206-213 | With collision-free slots the in-process layer hands back only values derived for the very identity asked for |
| VersionCache.MemoIsTrueIff | src/version_cache.rs:206-213 | Over every history of stores, the in-process layer hands back only values stored for the identity asked for exactly when no two identities share a slot |
| VersionCache.DiskHitWasStored | src/version_cache.rs:44-46 | The disk layer does so whatever the slots |
| VersionCache.Cache.Derived | src/version_cache.rs:198-237 | What is returned was derived for that file, stamp and namespace; a failed derivation changes neither layer; a hit computes nothing; only one slot of each layer changes |
| Fingerprint.SampleRanges | src/utils.rs:2311-2331 | Every sampled range lies in the file and fits the buffer |
| Fingerprint.BlockFits | src/utils.rs:2318-2321 | The offset arithmetic stays in 64 bits and a block starts inside the file |
| Fingerprint.SmallImagesAreReadWhole | src/utils.rs:2299-2317 | Every byte of an image of at most 2 MiB is sampled |
| ImageDigest.DigestOf | src/utils.rs:2338-2375 | A digest is returned only if the file had the stamp it will be cached under, and then, since stamps are not reused, it is the hash of one version's bytes however the file was written meanwhile |
| DigestSafety.StepKeepsInv | src/utils.rs:2276-2375 | Every replacement, rewrite and call step keeps the invariant that both layers hold only true digests |
| DigestTheorems.CachedDigestsAreTrue | src/version_cache.rs:198-270 | Under every interleaving, what either layer holds for an identity is the hash of bytes a file at that path had under that stamp and fingerprint |
| DigestTheorems.AnswersAreTrue | src/utils.rs:2276-2293 | And so is every answer |
| DigestTheorems.AnswersAgreeWithHashing | src/utils.rs:2276-2293 | Where fingerprints tell versions of one stamp apart, an answer is what hashing the file gives |
| DigestTheorems.FailuresAreNotCached | src/version_cache.rs:225-235 | In every run, none of the operations of a call that fails, from its first to the failure, changed either layer |
| MountView.ViewDirs | src/utils.rs:936-958 | The directories are exactly those needed, strictly inside the view, parents first, none twice |
| MountView.ParentsFirstDistinct | src/utils.rs:934-958 | Such a list holds no directory twice |
| MountView.MkdirsSucceed | src/utils.rs:1240-1243 | Every mkdir of it succeeds in an empty tmpfs |
| MountView.ExactlyOneClass | src/utils.rs:1026-1045 | Every mountpoint but the view is in exactly one class: made in the tmpfs, made on the host, or inside an earlier pair's source |
| MountView.PlannerAgrees | src/utils.rs:926-932 | The pair a bind leads into is the innermost earlier one, which the planner picks, exactly when no pair around the mountpoint was bound before inside it; otherwise nothing is there or the same mountpoint was bound before |
| MountView.CreateMountTargets | src/utils.rs:1026-1045 | Every mountpoint that belongs on the host is there afterwards, and nothing else was made but its ancestors |
| MountView.BindsFind | src/utils.rs:1244-1274 | With the mountpoints in order a bind finds its mountpoint, except inside a source whose directory the caller did not make |
| MountView.PlanWorks | src/utils.rs:1021-1045 | All binds of a prepared plan succeed exactly when the caller did its part |
| MountView.BindAll | src/utils.rs:1249-1274 | The bind loop succeeds exactly when every bind in order finds its mountpoint |
| MountView.OutOfOrderMisplans | src/utils.rs:1031-1035 | A list, not one a clone is given, in which a mountpoint made on the host is not where its bind leads |
| ClonePlan.CloneSourceDirs | src/commands/common.rs:2760-2770 | The source directories are different ones directly in the view, and hold the lineage's first VM and the VM the snapshot was taken of |
| ClonePlan.BuildRedirects | src/commands/common.rs:3105-3162 | Refused exactly when the socket's directory and a disk directory nest; otherwise the redirects |
| ClonePlan.CloneMountView | src/commands/common.rs:3204-3260 | The redirects, the directories that hold them bound first, the clone's own bound last, the rest kept; or a refusal |
| ClonePlan.RedirectsStand | src/commands/common.rs:3190-3260 | Whatever is bound around them, and whichever kept directories still exist, a path under a redirect leads where the redirects alone lead it |
| ClonePlan.DisksAreTheClones | src/commands/common.rs:3091-3104 | Every disk path of a source VM leads into the clone's own disks |
| ClonePlan.VsockIsTheTarget | src/commands/common.rs:3091-3104 | The socket the snapshot names leads into the clone's vsock directory, exactly unless it is named as the disks are |
| ClonePlan.PlanInOrder | src/commands/common.rs:3204-3260 | No mountpoint of a clone's plan is a proper ancestor of an earlier one |
| ClonePlan.LeftToTheCaller | src/commands/common.rs:3656-3667 | The only directory a plan leaves to its caller is the one the clone's disks are bound back over |
| ClonePlan.CloneViewWorks | src/commands/common.rs:3656-3667 | With that directory made, every bind of a clone's prepared plan finds its mountpoint |
| Printk.ReaderIsExact | src/utils.rs:497-511 | The reader accepts exactly the timestamps: spaces, digits, a dot, six digits, at least twelve columns in brackets, within the window |
| Printk.OnlyTheLastMatters | src/utils.rs:491-496 | Looking only at the last record found is enough: an earlier record's comm field would have hidden that one too |
| Printk.Line.PrintkTimestamps | src/utils.rs:482-515 | The positions found are exactly those where a timestamp stands outside every earlier record's comm field, in order, and the bytes read, each time one is read, are linear in the line |
| Printk.RecordsAreThePlaces | src/utils.rs:480-515 | A stamp is listed exactly when a record opens there |
| Printk.RecordsAscend | src/utils.rs:480-515 | The stamps are in ascending order |
| Printk.StampsDoNotOverlap | src/utils.rs:505-509 | The next timestamp opens no earlier than this one's message starts |
| Printk.SlicesAreSafe | src/utils.rs:455-459 | Every message slice is in range and cut on character boundaries |
| Printk.IsKernelCrashHeadline | src/utils.rs:455-466 | A line is a headline exactly when one of its records is |
| GaussJordan.Inv | bench/chromium/analyze.py:107-123 | A returned matrix is a left and a right inverse of its input; a refusal means a singular matrix is within 1e-12 of the input in every entry |
| GaussJordan.NoPivotNearSingular | bench/chromium/analyze.py:111-113 | When no pivot reaches the threshold, taking the leftover column out of the input gives a singular matrix |
| GaussJordan.FindPivot | bench/chromium/analyze.py:111-112 | The pivot has the largest magnitude in its column |
| GaussJordan.InverseMeansNonsingular | bench/chromium/analyze.py:107-123 | A matrix with a left inverse sends only zero to zero |
| Ols.Fitted | bench/chromium/analyze.py:126-143 | A refusal means too few rows or a Gram matrix within 1e-12 of a singular one; otherwise the coefficients solve the normal equations, are the unique minimiser of the residual sum of squares, R² is in [0,1] with an intercept, and, given a square root, the standard errors' squares are the residual variance times the inverse's diagonal |
| Ols.RssSplits | bench/chromium/analyze.py:136-138 | Any other coefficients add exactly the square of how far they move the fit |
| Ols.R2InUnit | bench/chromium/analyze.py:138-143 | With a column of ones R² is between 0 and 1 |
| Ols.ResidualVariance | bench/chromium/analyze.py:141-141 | Times the residual degrees of freedom it is the residual sum of squares, and it is not negative |
| Ols.InverseDiagonal | bench/chromium/analyze.py:141-142 | Each diagonal entry of the inverse Gram matrix is a squared length |
| Quarantine.StepKeepsInv | bench/chromium/campaign_summary.py:396-434 | Every step of any number of cleanups and other writers keeps each moved file at its own quarantine name |
| Quarantine.OnlyTheExpectedIsRemoved | bench/chromium/campaign_summary.py:396-434 | Whatever others do at the output name, a file moved aside is the expected, unprotected one that was removed after its inode, mode, size and time were found unchanged in quarantine, or stood at the output name again when its cleanup ended, or is still in quarantine |
| Quarantine.CleanupsLoseNothingElse | bench/chromium/campaign_summary.py:386-434 | No cleanup step makes a name stand for another file, and none takes a file's last name but the removal of the expected one |
| Quarantine.Directory.UnlinkIfUnchanged | bench/chromium/campaign_summary.py:396-434 | Undisturbed, and if one of the names it draws is unused, the file goes exactly if it is the expected one, unprotected; otherwise the directory is as it was |
| ReplayQueries.CheckReplayQueries | bench/chromium/campaign_summary.py:888-983 | Acceptance means every bracket is well formed and borne out by the log; a refusal names the first bracket that is not and the first of its faults, each with its own meaning |
| ReplayQueries.WindowsAreDisjoint | bench/chromium/campaign_summary.py:950-962 | The windows of accepted brackets are pairwise disjoint, in order |
| ReplayQueries.ClaimsFitTheLog | bench/chromium/campaign_summary.py:965-976 | The claimed queries together are at most the qualifying rows of the log |
| ReplayQueries.HostsWereAnsweredInside | bench/chromium/campaign_summary.py:977-983 | Every host of a bracket was answered inside that bracket's own window |
| ReplayQueries.TruthIsNotRefused | bench/chromium/campaign_summary.py:881-887 | A truthful record whose bracket ended by the next one's first row is never refused by the log |
| NetTrace.FoldEvents | bench/chromium/cdpdrive.py:383-462 | One row per announced id, each field what the event list says of it, in order of first announcement |
| NetTrace.ReduceNetTrace | bench/chromium/cdpdrive.py:473-547 | One request per announced id, judged against the load event, with the summary's counts of finished, failed and pending ones |
| NetTrace.OrderIsTheAnnounced | bench/chromium/cdpdrive.py:398-430 | An id is listed exactly when it was announced |
| NetTrace.OrderIsDistinct | bench/chromium/cdpdrive.py:398-430 | No id is listed twice |
| NetTrace.AttachKeepsRow | bench/chromium/cdpdrive.py:427-462 | Attaching an event gives the row of the longer list: redirects are announcements less one, the first end time counts, the last failure and reply count |
| NetTrace.ExtraInfoMayComeAnywhere | bench/chromium/cdpdrive.py:387-396 | Traces that differ only in where their ExtraInfo events come give the same rows in the same order |
| NetTrace.StartedRowsSplit | bench/chromium/cdpdrive.py:475-484 | Finished and pending exclude each other; with a known load time a request started by then is exactly one of pending, finished and failed |
| NetTrace.CountsAddUp | bench/chromium/cdpdrive.py:534-547 | So with a known load time the requests started by then are the pending ones, those of them that finished and those that failed; without one nothing finished and the pending ones are those without an end |

## Left out

- HealthMonitor.Watch: takes a number of iterations, because the loop need not end; the failure counter is unbounded where the source has 32 bits.
- NetTrace.ReduceNetTrace: leaves out the tallies of addresses and error texts, each request's network timings, and rounding to milliseconds, because they only count or convert what the rows hold.
- The undo commands themselves (iptables, ip, directory removal) and what they find: their answers are arbitrary here.
- Record and cache files as JSON text, SHA-256, and reading `/proc`.
- The names of owner directories and the mapping of uids between user namespaces.
- Writing cgroup interface files and enabling the memory controller level by level.
- The health checks themselves, log throttling, and the skipped container health check.
- `version_cache::derived` with a binary replaced while it is executed: only derivations that read the file check its stamp.
- The files a mount view keeps, making the kept directories' mountpoints at bind time, bind flags, and the file descriptors of the sources; relative components of a socket's path.
- Pausing the VM by anything but the startup snapshot.
- The other refusals of the campaign index, parsing of its records and rows, and canonical addresses.
- The ten slowest requests and the ordering of pending ones.
- Bootstrap statistics, charts, reports and everything that only formats results.
