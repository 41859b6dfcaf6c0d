# Verified model of the coding-agent workspace platform

The platform runs coding agents in per-branch workspaces on Kubernetes. A controller owns the
life of a workspace (a volume, a StatefulSet with one Pod, a status with a phase) and a queue of
tasks; a gateway hands a workspace's terminal session to one browser at a time and keeps the users;
a supervisor inside each workspace runs the tests, evacuates the working directory to an object
store and restores it. This project models that control code in Dafny and proves what it promises,
over every input, every interleaving and every failing request.

How the model is built:

- **Stores are values with a history.** The API server is one `World` value (workspaces,
  StatefulSets, volume claims, templates, clock) or one `State` value. A reconciler is a class whose
  methods make one request at a time; before every request anything may happen outside, and every
  request may fail before or after it took effect. The class keeps a trace of all states it went
  through, and the theorems about runs speak about all such traces.
- **Two kinds of statement per operation.** Under interference: the invariants and gates that hold
  at every moment. In a pass that is left alone (`calm`): exactly what the pass achieves.
- **Protocols between several parties** (taking a session over, editing the user Secret) are state
  machines over their single steps, with theorems about all runs, next to the classes that carry out
  those steps.

| file | content |
|---|---|
| `Orders.dfy`, `Rewriting.dfy` | string order, sorting, counting; maps rewritten key by key |
| `Naming.dfy`, `Words.dfy` | DNS labels, resource names, host names |
| `Cluster.dfy`, `ClusterSteps.dfy`, `StatusWrites.dfy` | the world of the workspace controller, its invariant and gates, and why every step keeps them |
| `Ownership.dfy`, `Admission.dfy`, `Lifecycle.dfy`, `Runs.dfy` | canonical ownership, admission checks, the reconciler, theorems about whole runs |
| `Quota.dfy`, `TaskQueue.dfy`, `QueuePasses.dfy` | quota windows and model chain, the positional meaning of a queue pass, the dispatch loop |
| `Handover.dfy`, `HandoverProtocol.dfy` | gateway and supervisor of the single-writer handover, and the protocol between them |
| `UserStore.dfy`, `UserProtocol.dfy`, `UserReplica.dfy` | edits of the user map, replicas editing it concurrently, sessions |
| `Failures.dfy`, `Heal.dfy` | failure reports, and the self-healing test loop |
| `Porcelain.dfy`, `Paths.dfy`, `Disk.dfy`, `Evacuation.dfy` | git status parsing, paths and links, what the file system makes of a name, evacuate and restore |
| `Recovery.dfy` | the controller's volume gate and the stored objects together |
| `Conflict.dfy` | file conflicts between branches |

## What turned out not to hold

Each of these is proved at an input, with the exact condition under which the code does meet the
promise.

- A narrowed test re-run can leave out a test that failed: failures are merged by a slug of the last
  name segment, so of two tests with one title only the longer name is re-run, and all names without
  a Latin letter or digit share one slug. A suite that failed before naming any test is re-run
  narrowed to the word `e2e`. Without a declared filter the whole suite is re-run.
  (`Heal.RecheckedIff`, `Heal.SameTitleIsSkipped`, `Failures.ForeignNamesCollide`)
- A session issued while a password change is between stamping and writing its record outlives the
  change. (`UserProtocol.LoginDuringChangeSurvives`, `UserStore.AcceptedUnlessEditedSince`)
- An input checked before a handover may land after it. (`HandoverProtocol.LateInputHappens`,
  `HandoverProtocol.LateInputWasCheckedEarly`)
- The session host of branch `x/preview` is the preview host of branch `x`.
  (`Naming.SessionHostCollides`, `Naming.SessionHostCollision`)
- A fallback chain that repeats a name makes a workspace cycle through it for ever.
  (`Quota.SwitchingEnds`)
- A rename marked in the second status column is misread by the evacuation: the tail of the old name
  is taken for a path, and an old name like README.md swallows the next record, whose file is then
  lost. (`Porcelain.SecondColumnRename`, `Evacuation.SwallowedFileIsLost`,
  `Porcelain.DirtyPathsRoundTrip`, `Porcelain.DirtyPathsMembers`)
- Behind a rename within the editor's directory that is marked in the second column, a change is not
  seen as local work either, and a restore replays over it. (`Porcelain.ChangeIsOverlooked`,
  `Porcelain.SomethingDirtyIff`)
- A branch that was behind its remote is restored at the remote's commit, files that were deleted come
  back, and changed symbolic links do not. A file that took the place of a link is written through
  that link, onto another file or out of the directory, and a reported path below an ignored link
  brings back a file too many. (`Evacuation.RoundTrip`, `Evacuation.LinkIsWrittenThrough`,
  `Paths.LinkLeadsOut`, `Evacuation.IgnoredLinkIsFollowed`)
- A working directory in which a reported name passes through a file, directly or behind a link,
  cannot be evacuated: so when a directory of the commit gave way to a file or to a link to one.
  (`Evacuation.DirectoryBecameFile`, `Evacuation.DirectoryBecameLinkToFile`,
  `Evacuation.Agent.WriteDirtyArchive`)
- An evacuation cut off between its two uploads leaves the new bundle beside the older archive, and
  the volume may then go behind the older success. Such a pair gives back the new or the old work only
  under the conditions proved. (`Evacuation.TornPairLosesWork`, `Evacuation.TornPairIff`,
  `Recovery.VolumeGoesBehindPair`)

## Model

| member | source | states |
|---|---|---|
| `Naming.SanitizeNormalizes` | controller/internal/controller/naming.go:41-60 | every branch becomes "" or a valid label without double dashes; its letters and digits survive in order, losing at most a tail, all of them if nothing is cut |
| `Naming.SanitizeFixedPoints` | controller/internal/controller/naming.go:41-60 | the fixed points are exactly the normal forms, so sanitizing is idempotent |
| `Naming.SanitizersAgree` | gateway/internal/gateway/workspaces.go:296-304 | the gateway's separately written sanitizer agrees with the controller's on every input |
| `Words.WordsAreRuns` | controller/internal/controller/naming.go:41-60 | a text is its words, the maximal runs of small letters and digits, with gaps of other characters between them, none empty |
| `Words.SanitizedIsDashedWords` | controller/internal/controller/naming.go:41-60 | a label is exactly the words of the lower-cased branch with one dash between any two, cut at 63 without a dash left at the cut |
| `Words.CapitalsBecomeSmall` | controller/internal/controller/naming.go:41-60 | Latin capitals become their small letters, small letters and digits stay |
| `Naming.DerivedNameIsFreeAndValid` | controller/internal/controller/naming.go:23-39 | a derived name is a free, valid label in normal form, as the host names ask for; the plain one exactly when that is free, else the hashed one; derivation fails exactly when both are taken |
| `Naming.HostLabelIsValid` | controller/internal/controller/ingress_reconciler.go:46-67 | a suffixed host stays a valid label of at most 63 octets and keeps as much of the name as fits, less a dash at the cut |
| `Naming.HostsAreInjective` | controller/internal/controller/ingress_reconciler.go:46-67 | for all names: preview and report hosts are valid, never equal to each other, and shared by two names exactly when these agree on what the suffix leaves of them; up to 55 bytes never |
| `Naming.SessionHostCollision` | controller/internal/controller/ingress_reconciler.go:46-67 | for all names a session host is another name's preview or report host exactly when it is what the suffix leaves of that name plus the suffix |
| `Naming.SessionHostCollides` | controller/internal/controller/ingress_reconciler.go:46-67 | for every label x up to 55 bytes, branch x/preview is given the preview host of x |
| `Ownership.FindCanonical` | controller/internal/controller/workspace_controller.go:317-360 | nobody for the oldest live workspace of a branch by creation time and then name, that oldest one for every other, whatever the listing order |
| `Orders.BeforeMeans` | controller/internal/controller/workspace_controller.go:355-360 | names are compared by their first difference: where one ends or has the smaller character |
| `Ownership.OneOwnerPerBranch` | controller/internal/controller/workspace_controller.go:317-360 | all live workspaces of one branch name the same owner, and exactly the owner gets no answer |
| `Admission.ResourceQuotaHasRoom` | controller/internal/controller/admission.go:163-211 | room exactly when every governed resource still fits |
| `Admission.NodeDiskBudgetHasRoom` | controller/internal/controller/admission.go:216-267 | room exactly when the declared sizes on the node, the own one included, are within the template's budget |
| `Admission.WhatCounts` | controller/internal/controller/admission.go:236-262 | live workspaces other than the own one count with the size of their template on its node, unless failed or mirrors |
| `Admission.CheckMeansRoom` | controller/internal/controller/admission.go:216-267 | passing the check leaves room among the admitted workspaces for every budget the node's templates agree on |
| `ClusterSteps.EnvironmentIsHarmless` | controller/internal/controller/workspace_controller.go:172-206 | nothing outside the controller breaks the invariant or passes a gate |
| `ClusterSteps.OutsideActionsAreCovered` | controller/internal/controller/lifecycle.go:68-80 | creating, deleting, re-specifying, marking activity, Pod readiness and time are all among the moves the controller is proved against |
| `ClusterSteps.StatusWriteKeeps` | controller/internal/controller/workspace_controller.go:493-516 | a status write that is legal keeps the invariant and respects all gates |
| `ClusterSteps.TakeFinalizerKeeps` | controller/internal/controller/evacuation.go:73-84 | taking the finalizer off, with the garbage collection it triggers, keeps the invariant and respects the gates |
| `ClusterSteps.DeleteClaimKeeps` | controller/internal/controller/lifecycle.go:374-387 | deleting the volume in a pass over its deleted, evacuated workspace respects the gates |
| `ClusterSteps.ScaleKeeps` | controller/internal/controller/lifecycle.go:307-324 | scaling to zero respects the gates in a pass that noted no ready replica of this id, or put a snapshot on record, and was not refused |
| `StatusWrites.SuspendLegal` | controller/internal/controller/lifecycle.go:129-158 | the suspended status may be written once compute is scaled down, for idleness only 30 minutes after the last use |
| `StatusWrites.ResumeLegal` | controller/internal/controller/lifecycle.go:192-223 | the resumed status may be written with a ready replica seen and a resume asked for |
| `StatusWrites.AllocateLegal` | controller/internal/controller/workspace_controller.go:250-259 | an unused id may be given to a workspace for which there is room |
| `StatusWrites.MirrorLegal` | controller/internal/controller/workspace_controller.go:362-383 | a mirror may take over phase and id of its branch's owner |
| `Lifecycle.WorkspaceReconciler.UpdateStatus` | controller/internal/controller/evacuation.go:93-128 | a status write takes effect only on the version that was read; what it leaves in the world in each case |
| `Lifecycle.WorkspaceReconciler.Scale` | controller/internal/controller/lifecycle.go:307-324 | only an entitled pass scales to zero; a missing or already scaled StatefulSet is left alone; exact new replicas |
| `Lifecycle.WorkspaceReconciler.ComputeRunning` | controller/internal/controller/evacuation.go:132-141 | that no replica runs is noted exactly when none of the id is ready at that moment |
| `Lifecycle.WorkspaceReconciler.EvacuateBeforeStop` | controller/internal/controller/evacuation.go:93-141 | safe means no ready replica was seen or a fresh snapshot is persisted; a refusal changes only the Evacuated condition |
| `Lifecycle.WorkspaceReconciler.Suspend` | controller/internal/controller/lifecycle.go:129-158 | undisturbed: the whole status, that of before with phase, Suspended condition and evacuation record changed, and compute scaled to zero; or only the Evacuated condition if a running Pod could not be evacuated |
| `Lifecycle.WorkspaceReconciler.ReconcileReady` | controller/internal/controller/lifecycle.go:86-158 | undisturbed: a connection is recorded as use, an idle or unwanted workspace is suspended, otherwise nothing changes |
| `Lifecycle.WorkspaceReconciler.ReconcileSuspended` | controller/internal/controller/lifecycle.go:163-190 | undisturbed: the destroy mark is set exactly after seven days of suspension; a resume request is acted on |
| `Lifecycle.WorkspaceReconciler.ReconcileResume` | controller/internal/controller/lifecycle.go:192-223 | undisturbed: one replica is asked for, and the workspace is Ready again exactly when that replica is, with the whole status given: use dated now, suspension over, request and destroy mark gone |
| `Lifecycle.WorkspaceReconciler.ReconcileTerminating` | controller/internal/controller/lifecycle.go:330-396 | undisturbed: compute, volume and object gone in one pass and nothing else, a mirror with nothing of its owner; unless a running Pod refuses (Terminating, nothing touched) or nothing was ever evacuated (Terminating, volume and finalizer stay) |
| `Lifecycle.WorkspaceReconciler.RemoveFinalizer` | controller/internal/controller/evacuation.go:73-84 | the finalizer goes only on the version that was read and behind the gates |
| `Lifecycle.WorkspaceReconciler.MirrorCanonical` | controller/internal/controller/workspace_controller.go:362-383 | a mirror takes phase and id and the duplicate mark and nothing else, and touches no substrate |
| `Lifecycle.WorkspaceReconciler.FailAndRollback` | controller/internal/controller/workspace_controller.go:438-491 | undisturbed: Failed with exactly StatefulSet and volume of the given id gone, none touched without an id |
| `Lifecycle.WorkspaceReconciler.RequeueOrFail` | controller/internal/controller/workspace_controller.go:429-434 | before the deadline nothing changes, after it the rollback |
| `Lifecycle.WorkspaceReconciler.MarkReady` | controller/internal/controller/workspace_controller.go:493-516 | Ready with the activity clock started, only after a ready replica was seen |
| `Lifecycle.WorkspaceReconciler.Admit` | controller/internal/controller/admission.go:51-125 | undisturbed: admitted exactly when image, quota and disk checks pass, and then there is room |
| `Lifecycle.WorkspaceReconciler.ProvisionSubstrate` | controller/internal/controller/workspace_controller.go:261-310 | undisturbed: exactly the missing ones of volume and one-replica StatefulSet are created as far as the dependencies are there, Ready as soon as the Pod and all dependencies are, rolled back after the deadline |
| `Lifecycle.WorkspaceReconciler.ClaimName` | controller/internal/controller/workspace_controller.go:250-259 | undisturbed: the derived name that no other workspace has becomes the id, or the workspace fails with nothing created |
| `Lifecycle.WorkspaceReconciler.ReconcileProvisioning` | controller/internal/controller/workspace_controller.go:214-310 | undisturbed: mirror, wait, name, build or fail, exactly by owner, template, admission and dependencies |
| `Lifecycle.WorkspaceReconciler.Reconcile` | controller/internal/controller/workspace_controller.go:172-206 | every state and step of a pass with interference is lawful; undisturbed, the outcome of the phase it finds, on its first pass with the finalizer put on before |
| `Lifecycle.WorkspaceReconciler.Run` | controller/internal/controller/workspace_controller.go:172-206 | any schedule of passes with anything in between is a lawful run |
| `Runs.VolumeOutlastsEvacuation` | controller/internal/controller/lifecycle.go:330-396 | in every run the volume of a workspace that was Ready and never shared its branch is there until a moment at which it is deleted with an evacuation on record |
| `Runs.ObjectOutlastsVolume` | controller/internal/controller/evacuation.go:73-128 | such a workspace disappears only after a moment at which its compute and volume are gone and an evacuation is on record |
| `Runs.NeverSharedIsSolo` | controller/internal/controller/workspace_controller.go:317-383 | a workspace with no sibling in any state of the run is one the lifecycle invariant speaks about |
| `Runs.ComputeStopsBehindEvacuation` | controller/internal/controller/lifecycle.go:129-158 | compute that stops outside a rollback is that of the pass's own id, and at an earlier moment of the same pass no replica of it was ready, or a step of it put a snapshot of the workspace on record |
| `Runs.RecordWasReported` | controller/internal/controller/evacuation.go:93-128 | behind every evacuation on record there is an earlier step in which a pass over that workspace was told of a snapshot |
| `Runs.RollbackMeansProvisioning` | controller/internal/controller/workspace_controller.go:438-466 | a pass that may roll back began over a live workspace still being provisioned |
| `Runs.RefusalLeavesEverything` | controller/internal/controller/evacuation.go:93-128 | from a refused evacuation until the next pass begins, finalizer, volumes and replicas stay |
| `Runs.RecordsFitPhase` | controller/internal/controller/lifecycle.go:114-223 | in every state Suspended means a true condition, Ready means no resume request and no destroy mark |
| `Runs.ResumeWasAsked` | controller/internal/controller/lifecycle.go:68-80 | a resume request on record was made in a step that marked activity while the workspace was suspended, and has stood ever since |
| `Runs.OtherPassesLeaveIt` | controller/internal/controller/workspace_controller.go:172-206 | as long as no pass is about a workspace its status stays but for the activity mark |
| `Runs.SuspensionIsUnbroken` | controller/internal/controller/lifecycle.go:129-158 | the condition's time is the second in which the current unbroken suspension began |
| `Runs.DestroyCandidateAfterSevenDays` | controller/internal/controller/lifecycle.go:163-190 | a destroy candidate has been suspended without a break for seven days |
| `Runs.IdleMeansUnused` | controller/internal/controller/lifecycle.go:68-158 | an idle suspension comes 30 minutes or more after every activity on record at any time before |
| `Runs.IdsAndBudgetsHold` | controller/internal/controller/workspace_controller.go:233-259 | in every state no two unmarked workspaces share an id, and admitted sizes stay within every node's common budget |
| `Quota.WidestIsWidest` | controller/internal/controller/quota.go:134-154 | the answer is the scope of a spent active window and none spent is wider; none exactly when no window is spent |
| `Quota.WidestSpelledOut` | controller/internal/controller/quota.go:134-154 | which windows are spent and which scope they have, on the fields the supervisor reports |
| `Quota.WidestIgnoresOrder` | controller/internal/controller/quota.go:134-154 | it depends only on which windows were reported |
| `Quota.ExhaustedScope` | controller/internal/controller/quota.go:134-154 | the early-exit scan computes that widest window |
| `Quota.FindNextModel` | controller/internal/controller/taskqueue.go:287-305 | the scan finds the entry after the current one, the second for an unset one, nothing at the end or for a stranger |
| `Quota.NextModelSpelledOut` | controller/internal/controller/taskqueue.go:287-305 | the second entry for an unset model, nothing for a stranger, else the entry behind its first place |
| `Quota.SwitchMovesForward` | controller/internal/controller/taskqueue.go:287-305 | with distinct non-blank names a switch moves exactly one place down the chain |
| `Quota.SwitchingEnds` | controller/internal/controller/taskqueue.go:287-305 | repeated switching ends exactly when the chain up to its first blank entry repeats no name |
| `Quota.SwitchesAreBounded` | controller/internal/controller/taskqueue.go:259-305 | any history of models has at most one switch less than the chain has entries |
| `TaskQueue.PassIsDetermined` | controller/internal/controller/taskqueue.go:153-203 | queue order, stopping point and outcome of an undisturbed pass are determined by what is stored |
| `TaskQueue.EveryoneIsTold` | controller/internal/controller/taskqueue.go:157-200 | each waiting task runs in a slot, or goes on waiting with a reason; nothing else about it changes |
| `TaskQueue.ThrottleMeans` | controller/internal/controller/taskqueue.go:229-257 | what a reading does, by error kind and windows: stop for the credential or the account, move the model on, stop where there is no next one |
| `TaskQueue.LoadAfterPass` | controller/internal/controller/taskqueue.go:157-200 | a pass that is not stopped fills the free slots or dispatches every task with a Ready workspace |
| `TaskQueue.ThirdPassIsQuiet` | controller/internal/controller/taskqueue.go:157-200 | without an observer and with the world left alone, the third pass finds every task told already |
| `TaskQueue.OnlySkippedTasksChangeReason` | controller/internal/controller/taskqueue.go:157-200 | between the first two passes only tasks held for their workspace change their reason, to the concurrency limit |
| `QueuePasses.OutsideTakesNoSlot` | controller/internal/controller/taskqueue.go:143-150 | creation, completion, deletion and phase moves by others never take a slot |
| `QueuePasses.SortedIsQueue` | controller/internal/controller/taskqueue.go:153-155 | sorting the waiting tasks, however listed, gives the queue: earlier created first, by name among equals |
| `QueuePasses.ModelsMoveDownTheChain` | controller/internal/controller/taskqueue.go:259-282 | over any run a workspace's model only moves down the chain, at most length minus one times |
| `QueuePasses.NoRepeatedNotice` | controller/internal/controller/taskqueue.go:310-328 | a stop in force is announced again only if the same pass dispatched a task before it |
| `QueuePasses.QueueReconciler.UpdateTask` | controller/internal/controller/taskqueue.go:352-378 | a task is written only as it was read, and takes at most one slot |
| `QueuePasses.QueueReconciler.Hold` | controller/internal/controller/taskqueue.go:366-378 | a hold is written exactly when its reason is new |
| `QueuePasses.QueueReconciler.SwitchModel` | controller/internal/controller/taskqueue.go:263-282 | the workspace moves to the next model of the chain or stays where there is none |
| `QueuePasses.QueueReconciler.Throttle` | controller/internal/controller/taskqueue.go:229-257 | credential errors and account-wide windows stop the queue, a model window only when there is no model to switch to; announced unless in force |
| `QueuePasses.QueueReconciler.RecordQuotaHit` | controller/internal/controller/taskqueue.go:382-389 | the history is the latest twenty hits |
| `QueuePasses.EverySpentWindowIsAHit` | controller/internal/controller/taskqueue.go:229-257 | each reading with a spent window, switched away from or not, is one more hit; the latest twenty are kept |
| `QueuePasses.QueueReconciler.Collect` | controller/internal/controller/taskqueue.go:137-151 | the count is the number of tasks running, verifying or in human intervention, the list is exactly the pending and unset ones |
| `QueuePasses.QueueReconciler.PlaceTask` | controller/internal/controller/taskqueue.go:158-199 | one round does to the task what its position calls for |
| `QueuePasses.QueueReconciler.HoldAll` | controller/internal/controller/taskqueue.go:331-338 | from the stopping point on every task is told the reason |
| `QueuePasses.QueueReconciler.Reconcile` | controller/internal/controller/taskqueue.go:131-203 | slots in use stay within the cap at every moment with any interference; undisturbed, the positional outcome, and no write exactly when all tasks have been told |
| `QueuePasses.QueueReconciler.Run` | controller/internal/controller/taskqueue.go:131-203 | over any number of passes with writes failing before or after effect, the tasks running, verifying or in human intervention never exceed the larger of limit and start; the limit is the configured one, two if that is not positive |
| `QueuePasses.QueueReconciler.ThreePasses` | controller/internal/controller/taskqueue.go:157-200 | the third of three undisturbed passes without an observer writes nothing |
| `Handover.BrowserSessions.Attach` | gateway/internal/gateway/handover.go:31-42 | a new connection may not write; at most one writer is kept |
| `Handover.BrowserSessions.Detach` | gateway/internal/gateway/handover.go:44-55 | the connection is gone; at most one writer is kept; the number remaining |
| `Handover.BrowserSessions.Promote` | gateway/internal/gateway/handover.go:57-71 | succeeds exactly for a known connection while no other may write, and then it may |
| `Handover.BrowserSessions.Release` | gateway/internal/gateway/handover.go:73-85 | the connection may no longer write |
| `Handover.FirstWritableOther` | supervisor/internal/session/tmux.go:221-228 | the first other client that may write, none exactly when there is none |
| `Handover.Supervisor.HoldWritable` | supervisor/internal/session/session.go:83-92 | from now on nobody but the holder may send, and the holder exactly if it could before |
| `Handover.Supervisor.ReleaseWritable` | supervisor/internal/session/session.go:94-98 | nobody loses the right to send, and only senders kept out by this hold gain it |
| `Handover.Supervisor.ListClients` | supervisor/internal/session/session.go:194-209 | exactly the attached clients and the held ids as writable clients |
| `Handover.Supervisor.SendInputFrom` | supervisor/internal/session/session.go:140-167 | which of the four answers is given, exactly: not running, another client may write (named), rejected, or delivered |
| `Handover.Supervisor.HoldSendRelease` | supervisor/internal/session/session.go:83-167 | during a hold others are refused and the holder gets through as before; the release undoes the hold for everybody |
| `HandoverProtocol.StepKeeps` | gateway/internal/gateway/handover.go:90-138 | every single step of browsers, requests, declarations, releases and senders keeps the protocol's invariant |
| `HandoverProtocol.AtMostOneWriter` | gateway/internal/gateway/handover.go:31-85 | in no state of any run may two connections of a workspace write |
| `HandoverProtocol.OnlyGrantedWrite` | gateway/internal/gateway/handover.go:113-138 | a connection that may write or type was granted the session or is being handed it; after its last request has failed one that was never granted may not |
| `HandoverProtocol.UndoneMayNotWrite` | gateway/internal/gateway/handover.go:133-134 | undoing a failed handover takes the write access back at once |
| `HandoverProtocol.GrantWasEarned` | gateway/internal/gateway/handover.go:113-138 | a success stands for a request that asked when no client could write and whose declaration arrived |
| `HandoverProtocol.CloseSendsRelease` | gateway/internal/gateway/handler.go:155-175 | closing a connection that may write sends the release of its hold |
| `HandoverProtocol.ReleaseLetsGo` | supervisor/internal/session/session.go:94-98 | after a release has arrived the id is held only if a declaration for it arrives later |
| `HandoverProtocol.HoldWasDeclared` | supervisor/internal/session/session.go:83-92 | what is held and was not before was declared in between |
| `HandoverProtocol.TypedWhileWritable` | gateway/internal/gateway/handover.go:81-85 | an input on its way from a browser was typed while that connection could write |
| `HandoverProtocol.HolderIsProtected` | gateway/internal/gateway/handover.go:113-138 | after a successful handover the supervisor holds the id until that connection closes, and every other sender's check in that window fails |
| `HandoverProtocol.DeliveredInputsWereChecked` | supervisor/internal/session/session.go:140-167 | every delivered input saw no writable client but its own sender, held or attached; one typed in a browser comes from a promoted connection |
| `HandoverProtocol.LateInputWasCheckedEarly` | supervisor/internal/session/session.go:140-167 | an input of another sender still in flight during a hold was checked before the hold |
| `HandoverProtocol.LateInputHappens` | supervisor/internal/session/session.go:140-167 | there is a run in which such an input lands after the handover |
| `UserStore.ReplayRunsEdits` | gateway/internal/gateway/userstore.go:97-128 | in a serial log each edit turns the map before it into the map after it |
| `UserStore.UpdatedAtIncreases` | gateway/internal/gateway/userstore.go:97-128 | the time on a user's record strictly increases from edit to edit |
| `UserStore.LaterEditIsNoCreation` | gateway/internal/gateway/userstore.go:97-111 | only the first edit of a user can be a creation |
| `UserStore.RecordIsLatest` | gateway/internal/gateway/userstore.go:69-76 | the record on file is that of the user's last edit, none exactly if there is none |
| `UserStore.SessionLastsItsTime` | gateway/internal/gateway/session_issuer.go:66-130 | a session of a known user with no newer record is accepted exactly until its time to live is over; nothing is accepted without a key or for nobody |
| `UserStore.AcceptedUnlessEditedSince` | gateway/internal/gateway/session_issuer.go:94-130 | a session is accepted exactly while unexpired, its user known, and no edit of the user is stamped later than its issue |
| `UserProtocol.StepKeeps` | gateway/internal/gateway/userstore.go:173-222 | every read, decision, conditional write and failure of any replica keeps the store's invariant |
| `UserProtocol.NoLostUpdate` | gateway/internal/gateway/userstore.go:173-222 | at every moment the stored users are the effective edits in commit order, and these are exactly the calls that took effect, once each |
| `UserProtocol.OneCreator` | gateway/internal/gateway/userstore.go:97-111 | at most one creation per user takes effect, so at most one call reports that the user is new; who reports a user has one |
| `UserProtocol.OnlyCommitsChangeRecords` | gateway/internal/gateway/userstore.go:97-128 | a record changes only by a committed password change of that user, to a later time |
| `UserProtocol.PasswordChangeEndsSessions` | gateway/internal/gateway/session_issuer.go:66-130 | a session issued before a password change began is rejected once it has returned, whatever else happens |
| `UserProtocol.LoginDuringChangeSurvives` | gateway/internal/gateway/userstore.go:116-128 | a session issued between stamp and write of a change is accepted after it |
| `UserProtocol.PasswordChangeInProgress` | gateway/internal/gateway/userstore.go:116-128 | such a moment is reached |
| `UserReplica.Replica.Mutate` | gateway/internal/gateway/userstore.go:173-222 | at most five attempts from fresh reads amid arbitrary actions of others; every execution is a run of the protocol and ends the call as it reports |
| `UserReplica.Replica.CreateUser` | gateway/internal/gateway/userstore.go:97-111 | how existed and failed follow from how the call ended, both ways; existed means this call wrote nothing, not existed without error that it created the user |
| `UserReplica.Replica.ChangePassword` | gateway/internal/gateway/userstore.go:116-128 | how found and failed follow from how the call ended, both ways; on success every session issued to the user before the call is rejected |
| `Failures.ParseReports` | supervisor/internal/testrun/failure.go:80-100 | the flushing loop yields the reports of the output |
| `Failures.PrintedReportsParse` | supervisor/internal/testrun/failure.go:80-100 | printed reports parse back, whatever text precedes them |
| `Failures.ParsingIsLossless` | supervisor/internal/testrun/failure.go:80-100 | any output is text followed by its reports printed |
| `Failures.Merge` | supervisor/internal/testrun/failure.go:194-209 | the loop with its key index computes the fold by key |
| `Failures.SameKeyIff` | supervisor/internal/testrun/failure.go:187-209 | the key is the words of the lower-cased title with dashes; two names share it exactly when their titles have the same words |
| `Failures.LastSegmentIsLastPart` | supervisor/internal/testrun/failure.go:197-198 | the title is the last of the parts that splitting the name at its separators gives |
| `Failures.ShareEntryIff` | supervisor/internal/testrun/failure.go:194-209 | two failures go into one entry exactly when their titles have the same words |
| `Failures.EntriesAreRichest` | supervisor/internal/testrun/failure.go:211-228 | an entry has the first longest name and message of its failures, the first stack and screenshot, and the first category that is no defect |
| `Failures.MergedInOrder` | supervisor/internal/testrun/failure.go:194-209 | entries stand in the order in which their titles first appear |
| `Failures.BytesAreCounted` | supervisor/internal/testrun/failure.go:211-228 | length is in bytes: one per ASCII character, two to four for others |
| `Failures.MergedKeysDiffer` | supervisor/internal/testrun/failure.go:194-209 | one entry per key |
| `Failures.MergedCovers` | supervisor/internal/testrun/failure.go:211-228 | every failure has an entry of its key with evidence at least as rich |
| `Failures.MergedIsMadeOf` | supervisor/internal/testrun/failure.go:211-228 | name and message of an entry come from failures of its key |
| `Failures.FailedTests` | supervisor/internal/testrun/heal.go:200-211 | the loop yields the names in order of first appearance, once each |
| `Failures.NamesOfMembers` | supervisor/internal/testrun/heal.go:200-211 | exactly the non-blank names of the failures |
| `Failures.NamesInOrder` | supervisor/internal/testrun/heal.go:200-211 | each name stands once, where it first appeared |
| `Failures.NarrowingIsFaithfulIff` | supervisor/internal/testrun/failure.go:187-209 | after merging every reported name is re-run exactly when none is blank and no two different names have titles of the same words |
| `Failures.ForeignNamesCollide` | supervisor/internal/testrun/failure.go:280-282 | all names without a Latin letter or digit have one key |
| `Heal.CollectFailures` | supervisor/internal/testrun/failure.go:58-76 | the merged failures of the failed steps, a step without reports counting as one |
| `Heal.CollectedInOrder` | supervisor/internal/testrun/failure.go:58-76 | the failures are those of the steps, one after the other; a failed step gives what it reported, or one failure in its own name |
| `Heal.FailedRunHasFailures` | supervisor/internal/testrun/failure.go:58-76 | failures are collected exactly when a step failed |
| `Heal.DecideNext` | supervisor/internal/testrun/heal.go:189-196 | everything after a failed unit suite, the failed names otherwise |
| `Heal.LastRunIsLast` | supervisor/internal/testrun/heal.go:105-120 | the last run of a suite is a step of that name with none behind it |
| `Heal.PassedMeansVerified` | supervisor/internal/testrun/heal.go:105-120 | a session that ends in a pass has a successful last run of every declared suite |
| `Heal.NextAttempt` | supervisor/internal/testrun/heal.go:183-196 | each re-run has something to run, and no failed suite is left behind by narrowing |
| `Heal.RecheckedIff` | supervisor/internal/testrun/heal.go:189-211 | after a failed E2E suite the next attempt covers what it reported exactly when no filter is declared, or it named a test and its names are distinguishable |
| `Heal.WholeSuiteIsPlanned` | supervisor/internal/testrun/runner.go:160-165 | without names or without a filter the whole suite is planned, otherwise exactly the names behind the filter |
| `Heal.SameTitleIsSkipped` | supervisor/internal/testrun/failure.go:187-209 | with a filter, of two failed tests of one title in different suites one is not re-run |
| `Heal.Loop.RunSuites` | supervisor/internal/testrun/runner.go:111-174 | the unit step runs the declared unit command, first and only in a full attempt; the E2E step runs the declared E2E command, or the words of the filter and the names; both are there when declared; it passed exactly if none failed |
| `Heal.Loop.Heal` | supervisor/internal/testrun/heal.go:105-135 | at most three requests and four runs, no re-run empty, every step the declared command of its name; verified only with the last run of each declared command successful; exhausted only after all runs, with failures to show |
| `Porcelain.ParseChangedFiles` | supervisor/internal/session/changedfiles.go:31-54 | the loop with its index skips yields the sorted paths of the fields |
| `Porcelain.ChangedFilesRoundTrip` | supervisor/internal/session/changedfiles.go:31-54 | any printed status reads back as its paths without CLAUDE.md |
| `Porcelain.DirtyPaths` | supervisor/internal/evacuation/snapshot.go:166-184 | the loop with its index skips yields the paths of the fields |
| `Porcelain.DirtyPathsRoundTrip` | supervisor/internal/evacuation/snapshot.go:166-184 | for every legal status the names read are its paths exactly when each source read as a record is balanced by the record it swallows; then the dirty paths are the paths outside the editor's directory, and exactly then where nothing is under it |
| `Porcelain.ReadOfPrinted` | supervisor/internal/evacuation/snapshot.go:166-184 | what the reader makes of any printed status, in terms of its records, swallowed ones included |
| `Porcelain.DirtyPathsMembers` | supervisor/internal/evacuation/snapshot.go:166-184 | a path is among the dirty paths exactly when it is outside the editor's directory and read at a record that is not skipped or as the tail of a source |
| `Porcelain.DirtyPathsExactly` | supervisor/internal/evacuation/snapshot.go:166-184 | for every legal status exactly the paths outside the editor's directory are read, up to order and repetition, when none of them is lost and no tail of a source is a name of its own |
| `Porcelain.SomethingDirtyIff` | supervisor/internal/evacuation/restore.go:81-88 | something is dirty exactly when a record reads a path outside the editor's directory; with rename marks in the first column, exactly when a record has one |
| `Porcelain.ChangeIsOverlooked` | supervisor/internal/evacuation/restore.go:81-88 | an input at which a reported change is not seen |
| `Porcelain.FirstColumnRoundTrip` | supervisor/internal/evacuation/snapshot.go:166-184 | in particular whenever renames are marked in the first column |
| `Porcelain.SecondColumnRename` | supervisor/internal/evacuation/snapshot.go:174-176 | what a rename in the second column does: a stray name, and the next record swallowed if the old name begins with R or C |
| `Paths.WalkIsClean` | supervisor/internal/evacuation/restore.go:140-143 | a joined path has no dots left, so the check compares plain names; links are another matter |
| `Paths.NormalPathsStay` | supervisor/internal/evacuation/restore.go:140-143 | git's own paths are inside by name, at their own place |
| `Paths.ClimbingEscapes` | supervisor/internal/evacuation/restore.go:140-143 | a name that climbs out of the directory is refused |
| `Paths.DestinationIsNoLink` | supervisor/internal/evacuation/restore.go:144-153 | opening for writing never puts anything in the place of a link |
| `Paths.WhereIsDestination` | supervisor/internal/evacuation/restore.go:144-153 | where a name finds something other than a link, it is also written; what is found outside is written outside |
| `Paths.NormalPathsAreFound` | supervisor/internal/evacuation/snapshot.go:186-199 | a path without links above it is found at its own place |
| `Paths.LinkLeadsOut` | supervisor/internal/evacuation/restore.go:140-147 | a name that is inside may be written outside through a link |
| `Disk.FilesAreSeen` | supervisor/internal/evacuation/snapshot.go:186-199 | a file on disk is looked up in its place, with its content |
| `Disk.GoneIsNoError` | supervisor/internal/evacuation/snapshot.go:186-194 | a path gone from disk, with no file or link above it, is looked up without an error and nothing is found |
| `Disk.SightedIsWhere` | supervisor/internal/evacuation/snapshot.go:186-199 | a look-up that comes through, past existing directories only, ends where the links lead |
| `Disk.OpenedIsDestination` | supervisor/internal/evacuation/restore.go:140-150 | what is opened after the directories were made is below the root by name and stands where the links lead |
| `Disk.OpensInPlace` | supervisor/internal/evacuation/restore.go:140-150 | with no file above it, no directory and no link in its place, a name is opened in its place, whatever directories are missing |
| `Disk.OpensInPlaceIff` | supervisor/internal/evacuation/restore.go:140-150 | without links a name is opened exactly when no file stands above it and no directory in its place |
| `Disk.OutsideIsRefused` | supervisor/internal/evacuation/restore.go:140-143 | a name that climbs out, and the directory itself, are never opened |
| `Evacuation.HeadComesBack` | supervisor/internal/evacuation/snapshot.go:112-127 | the bundle applies to every fresh clone, and gives back the commit exactly when the branch is not behind |
| `Evacuation.ArchiveComesBack` | supervisor/internal/evacuation/snapshot.go:135-214 | where the links agree, the archive writes exactly the carried files, each with its own content |
| `Evacuation.PairRestoresIff` | supervisor/internal/evacuation/restore.go:54-76 | any stored pair gives back a directory's work exactly when the bundle leads to its commit and the archive describes its files |
| `Evacuation.LinkIsWrittenThrough` | supervisor/internal/evacuation/restore.go:144-153 | a link in the place of an archived file stays, and the file it leads to is overwritten |
| `Evacuation.RoundTrip` | supervisor/internal/evacuation/restore.go:27-106 | for every legal status: commit and non-ignored files come back exactly when the branch is not behind, no path of the commit is gone, no link was changed, made or replaced, and what the names read from the status bring is what stands in the directory; unless a name leads through an ignored link, exactly when every change is a regular file reached by such a name |
| `Evacuation.IgnoredLinkIsFollowed` | supervisor/internal/evacuation/snapshot.go:186-199 | an input at which a reported path leads through an ignored link: all of the work is archivable, but a file too many comes back |
| `Evacuation.CarriedFromRecords` | supervisor/internal/evacuation/snapshot.go:166-184 | a file is reached if one of its records is not skipped and it is not the editor's; otherwise only if another name happens to lead to it |
| `Evacuation.SwallowedFileIsLost` | supervisor/internal/evacuation/snapshot.go:166-184 | a changed file reported behind a second-column rename of a name with R or C in front is not archived |
| `Evacuation.FirstColumnArchivable` | supervisor/internal/evacuation/snapshot.go:166-184 | with rename marks in the first column, and what is staged on disk, the work is archivable exactly when no path is gone, no link touched and no change under the editor's directory; then all names are on disk and none leads through an ignored link |
| `Evacuation.TornPairIff` | supervisor/internal/evacuation/snapshot.go:88-95 | a new bundle beside an old archive gives back the new work exactly when the old archive describes it, the old work exactly when the bundle leads to the old commit and the old work was recoverable |
| `Evacuation.OldArchiveDescribesIff` | supervisor/internal/evacuation/snapshot.go:88-95 | without links: exactly when every file it carries is unchanged since and every other file is as in the new commit |
| `Evacuation.TornPairLosesWork` | supervisor/internal/evacuation/snapshot.go:88-95 | an edit evacuated, edited again and committed: the torn pair puts the outdated edit over the new commit |
| `Evacuation.DirectoryBecameFile` | supervisor/internal/evacuation/snapshot.go:186-196 | a reported path below what is now a regular file makes the archive fail |
| `Evacuation.DirectoryBecameLinkToFile` | supervisor/internal/evacuation/snapshot.go:186-196 | so does one below what is now a link to a file |
| `Evacuation.RecoverySucceeds` | supervisor/internal/evacuation/restore.go:54-159 | with all names on disk, no path gone, no link touched and a branch not behind, every name can be looked up, the bundle applies and every entry can be written |
| `Evacuation.FreshHasNoLocalWork` | supervisor/internal/evacuation/restore.go:81-106 | a fresh clone has nothing dirty and no commit beyond its remote |
| `Evacuation.LocalChangeIsSeen` | supervisor/internal/evacuation/restore.go:81-88 | with rename marks in the first column every reported change outside the editor's directory is seen |
| `Evacuation.Agent.WriteBundle` | supervisor/internal/evacuation/snapshot.go:112-127 | the head with exactly the commits the tracked branch lacks, all of them without one; nothing exactly when there are none |
| `Evacuation.Agent.WriteDirtyArchive` | supervisor/internal/evacuation/snapshot.go:135-214 | succeeds exactly when no name passes through a file or too many links, on the way through the name or behind a link, inside or outside; with the regular files the names lead to, in order |
| `Evacuation.Agent.Evacuate` | supervisor/internal/evacuation/snapshot.go:56-106 | the directory is untouched; which of the two objects is new for every point at which it is cut off |
| `Evacuation.Agent.ExtractArchive` | supervisor/internal/evacuation/restore.go:112-159 | for any archive: left alone and within the limit it succeeds exactly when each entry in turn is below the directory by name, its directories are there or can be made, and it leads to a file or to nothing; only files that entries lead to change, and what is outside only through a link leading out |
| `Evacuation.Agent.Restore` | supervisor/internal/evacuation/restore.go:27-77 | nothing is touched when something is dirty or the branch has a commit its remote lacks; exactly otherwise bundle, then archive, are replayed; left alone that succeeds exactly when the bundle applies and the entries can be written |
| `Evacuation.Agent.LoseAndRecover` | supervisor/internal/evacuation/restore.go:27-106 | evacuating, losing the node and restoring gives the work back exactly under the condition of the round trip; left alone it succeeds exactly when all names can be looked up and all entries written, and always in the case of `Evacuation.RecoverySucceeds` |
| `Recovery.StoredPair` | supervisor/internal/evacuation/snapshot.go:88-95 | once an attempt has succeeded both objects are stored, the archive by the last attempt that got that far, the bundle by that or a later one |
| `Recovery.TornPairIsLeft` | supervisor/internal/evacuation/snapshot.go:88-95 | a success followed by an attempt cut off between its uploads leaves a torn pair |
| `Recovery.RecordsAreTrue` | controller/internal/controller/evacuation.go:93-128 | if the supervisor tells of a snapshot only when an attempt succeeded, then behind every record there is a success |
| `Recovery.VolumeGoesBehindPair` | controller/internal/controller/lifecycle.go:382-394 | at the step in which a volume goes both objects are stored, and a directory is given back exactly under the condition for that pair |
| `Conflict.ConflictReport` | controller/internal/controller/conflict.go:41-80 | exactly the files shared with another branch's entry, in order, each with the branches changing it |
| `Conflict.ReportIsUnique` | controller/internal/controller/conflict.go:48-80 | there is one such report |
| `Conflict.ReportIsEssential` | controller/internal/controller/conflict.go:41-63 | it is the same under any order of entries and files and any repetition |
| `Conflict.ConflictIsMutual` | controller/internal/controller/conflict.go:36-81 | two branches sharing a file both hear of it |
| `Conflict.TwoBranchesAgree` | controller/internal/controller/conflict.go:36-81 | with no third branch they hear of the same files |
| `Conflict.FileConflictDetail` | controller/internal/controller/conflict.go:36-81 | the text of that report, blank for an inactive or unchanged branch |
| `Conflict.DetailIsEssential` | controller/internal/controller/conflict.go:48-80 | the same situation gives the same text |
| `Conflict.DetailsDiffer` | controller/internal/controller/conflict.go:74-80 | different reports have different texts, quoting being prefix-free and branch names without spaces |
| `Conflict.ConflictWatch.ReconcileFileConflicts` | controller/internal/controller/conflict.go:87-124 | the condition shows the conflict; it is announced exactly if it is not the one shown, and not by a pass that fails |
| `Conflict.ConflictWatch.Watch` | controller/internal/controller/conflict.go:87-124 | a series of passes announces exactly each non-blank conflict that differs from the one before |

## Left out

Premises of the model:

- Reads are current and passes over workspaces are serial: no stale informer cache, one worker.
- Lifecycle safety is stated for workspaces that have no sibling on their repository and branch in any state of the run, and so were never marked a duplicate; the mark is never cleared and a mirror copies its owner's id.
- A recorded evacuation is some snapshot, not necessarily the latest one.
- A hold whose declaration arrives after the release of its closed connection stays: what is proved is that nothing else leaves one behind. Session ids are not reused and the supervisor does not restart.
- Waiting workspaces count against each other in the disk check: the bound is proved, not progress.
- A missing phase is Provisioning; reading the clock and the write that carries the reading are one step; API-server deletes take effect at once, and garbage collection with the object's removal; only the evacuation finalizer is modelled.
- Templates do not change during a run of the workspace controller.
- A conflicting write is one whose object differs from the one read; a conflict on an object that is back to its old content is covered by writes that fail.
- In an undisturbed queue pass the usage reading of a workspace is the same for all its tasks.
- Nobody but the queue moves a task into a phase that takes a slot, and nobody else sets a workspace's active model; fallback chains come without blanks from the list splitting of the configuration.
- The user Secret is not deleted, and all replicas and the issuer read one strictly increasing clock; hashes and signatures are abstract.

Not modelled, because it would only add easy members or belongs to foreign tools:

- Object builders, routing, database, shared document and git credential adapters: their answers are inputs of a pass.
- Parse errors of template quantities, and readings that are not numbers in quota percentages.
- Which output lines name a failing test, how a report's text is split and classified, and the look-up of screenshots.
- Unicode lower-casing beyond the runes whose lower case is an ASCII letter.
- Publishing of test reports, the watch that starts healing sessions, queue statistics, notifications' transport.
- Parsing of the multiplexer's client lines, the output pump of a browser connection, and an issuer configured without a user store, which skips the look-up.
- tmux, sshd, git, tar, gzip and S3 beyond the abstract behaviour used here; file modes and permissions, links inside archives, and empty directories, which git does not know; links and special files outside the working directory are taken for what they lead to.
- The text of messages and the quoting of names in them; hold and stop reasons are values instead of formatted strings.
- Evacuation.Agent.LoseAndRecover: an archive over the limit is left to `Evacuation.Agent.ExtractArchive`.
- Evacuation.FirstColumnArchivable: states one direction where a staged path is not on disk; the exact condition is then that of `Evacuation.RoundTrip`.
- Recovery.VolumeGoesBehindPair: that the supervisor tells of a snapshot only when an attempt succeeded, and that the restored clone is fresh, are its premises.
- Conflict.FileConflictDetail: entries are compared by branch name alone, as in the code, whatever their repository.
