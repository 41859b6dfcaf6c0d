/** The workspace reconciler: one pass at a time, each pass a sequence of API calls any of which may
    fail before or after taking effect, with the rest of the world moving in between. */
module Lifecycle {
  import opened Orders
  import opened Cluster
  import opened ClusterSteps
  import opened StatusWrites
  import Ownership
  import Admission
  import Naming

  /** The copy of an object a pass works on, against the stored one: they agree on everything the
      outside cannot change, and entirely as long as the version is the same. */
  ghost predicate Synced(w: World, n: Name, ws: Workspace) {
    n in w.store && n == w.history.pass.subject && Agreement(w, n, ws) == AsPlanned
  }

  ghost function Agreement(w: World, n: Name, ws: Workspace): Course
    requires n in w.store
  {
    var o := w.store[n];
    if && o.finalizer && ws.finalizer
       && o.repository == ws.repository && o.branch == ws.branch && o.created == ws.created && o.template == ws.template
       && (ws.deleting ==> o.deleting)
       && ws.version <= w.revision
       && (o.version == ws.version ==> o == ws)
       && o.status == ws.status.(lastActivity := o.status.lastActivity, resumeRequested := o.status.resumeRequested)
    then AsPlanned
    else Amiss
  }

  /** Nobody else holds the id, or only workspaces of the same branch do. */
  ghost predicate FreeId(w: World, n: Name, id: string) {
    forall m :: m in w.store && m != n ==> w.store[m].status.id != id
  }

  ghost predicate BranchId(w: World, ws: Workspace, id: string) {
    forall m :: m in w.store && w.store[m].status.id == id != "" ==> SameBranch(w.store[m], ws)
  }

  /** When a pass over `n` may stop the compute of an id; what happens outside does not change it. */
  predicate Entitled(p: Pass, n: Name, id: string) {
    if p.rollback then p.subject == n else p.target == id && (p.sawNoReplica || p.captured) && !p.refused
  }

  lemma EntitledMayStop(w: World, n: Name, ws: Workspace)
    requires Synced(w, n, ws) && Entitled(w.history.pass, n, ws.status.id)
    ensures MayStop(w, ws.status.id)
  {
  }

  /** What a pass may rely on across an outside move. */
  ghost predicate Undisturbed(w: World, w': World, n: Name) {
    && w.clock <= w'.clock
    && w'.history.pass == w.history.pass && w'.history.passes == w.history.passes
    && w'.templates == w.templates
    && w'.claims == w.claims
    && w'.sets.Keys == w.sets.Keys
    && (forall i :: i in w.sets ==> w'.sets[i].replicas == w.sets[i].replicas)
    && (n in w'.history.solo ==> n in w.history.solo)
  }

  lemma EnvKeepsPlans(w: World, w': World, n: Name, ws: Workspace)
    requires Inv(w) && EnvMoves(w, w') && Synced(w, n, ws)
    ensures Synced(w', n, ws)
    ensures RoomFor(w, n) ==> RoomFor(w', n)
    ensures forall id :: id != "" && FreeId(w, n, id) ==> FreeId(w', n, id)
    ensures forall id :: BranchId(w, ws, id) ==> BranchId(w', ws, id)
    ensures Undisturbed(w, w', n)
  {
    assert ObjectMoves(w, w', n) by { assert !NewObject(w, w', n) || w.store[n].finalizer; }
    if RoomFor(w, n) {
      EnvKeepsRoom(w, w', n);
    }
    forall m | m in w'.store && w'.store[m].status.id != ""
      ensures m in w.store && w.store[m].status.id == w'.store[m].status.id && SameBranch(w.store[m], w'.store[m])
    {
      assert !NewObject(w, w', m);
    }
  }

  lemma EnvKeepsRoom(w: World, w': World, n: Name)
    requires EnvMoves(w, w') && n in w.store && n in w'.store && ObjectMoves(w, w', n) && RoomFor(w, n)
    ensures RoomFor(w', n)
  {
    forall node, budget: nat | CommonBudget(w'.templates, node, budget)
      ensures SumOf(Shares(w', node) - {n}) + SizeOn(w'.templates, w'.store[n], node) <= budget
    {
      SumMonotone(Shares(w', node) - {n}, Shares(w, node) - {n});
      assert CommonBudget(w.templates, node, budget);
    }
  }

  // ---- what a pass achieves when nothing gets in its way ----

  function Scaled(sets: map<string, ComputeSet>, id: string, replicas: nat): map<string, ComputeSet> {
    if id in sets then sets[id := sets[id].(replicas := replicas)] else sets
  }

  /** With a running Pod, compute may stop exactly when the supervisor produced a snapshot, and that
      snapshot is then the recorded one; a refusal changes nothing but the Evacuated condition. */
  ghost predicate EvacuationOutcome(w: World, w': World, n: Name, ws: Workspace, snapshot: Option<nat>, safe: bool) {
    var running := ws.status.id != "" && ReadyReplica(w, ws.status.id);
    && w'.sets == w.sets && w'.claims == w.claims && w'.clock == w.clock
    && n in w'.store && w'.store[n].finalizer
    && (safe <==> !running || snapshot.Some?)
    && w'.store[n].status ==
         if !running then ws.status
         else if snapshot.Some? then ws.status.(lastEvacuation := snapshot, evacuated := Some(true))
         else ws.status.(evacuated := Some(false))
  }

  /** Suspending ends with compute scaled down and the suspension dated now, or, when the running
      Pod could not be evacuated, with the workspace exactly as available as before. */
  ghost predicate SuspendOutcome(w: World, w': World, n: Name, snapshot: Option<nat>)
    requires n in w.store
  {
    var o := w.store[n];
    var id := o.status.id;
    && n in w'.store
    && if ReadyReplica(w, id) && id != "" && snapshot.None? then
         w'.store[n].status == o.status.(evacuated := Some(false)) && w'.sets == w.sets && w'.claims == w.claims
       else
         && w'.store[n].status == o.status.(
              phase := Suspended,
              suspended := Some(Condition(
                true,
                if o.status.suspended.Some? && o.status.suspended.value.status then o.status.suspended.value.since else Stored(w.clock),
                if o.suspendWanted then SuspendRequested else IdleTimeout)),
              lastEvacuation := if ReadyReplica(w, id) && id != "" then snapshot else o.status.lastEvacuation,
              evacuated := if ReadyReplica(w, id) && id != "" then Some(true) else o.status.evacuated)
         && w'.claims == w.claims
         && w'.sets == (if id != "" && id in w.sets then w.sets[id := w.sets[id].(replicas := 0)] else w.sets)
  }

  /** Stopping compute: it is stopped unless a running Pod could not be evacuated. */
  ghost predicate StopOutcome(w: World, w': World, n: Name, found: Workspace, snapshot: Option<nat>, stopped: bool, ws: Workspace) {
    var running := found.status.id != "" && ReadyReplica(w, found.status.id);
    && w'.clock == w.clock && w'.claims == w.claims && n in w'.store
    && (stopped <==> !running || snapshot.Some?)
    && (stopped ==> w'.store[n] == ws && w'.sets == if ws.status.id != "" then Scaled(w.sets, ws.status.id, 0) else w.sets)
    && (!stopped ==> w'.sets == w.sets && w'.store[n].status == found.status.(evacuated := Some(false)))
    && (stopped ==> ws.status == found.status.(
          lastEvacuation := if running then snapshot else found.status.lastEvacuation,
          evacuated := if running then Some(true) else found.status.evacuated))
  }

  /** Whether a step did what it has to, as one value for the contracts below; `Amiss` is any other
      outcome. */
  datatype Course = AsPlanned | Amiss

  ghost function StepCourse(w: World, w': World): Course {
    if Inv(w') && Safe(w, w') then AsPlanned else Amiss
  }

  ghost function StopCourse(w: World, w': World, n: Name, found: Workspace, snapshot: Option<nat>, stopped: bool, ws: Workspace): Course {
    if StopOutcome(w, w', n, found, snapshot, stopped, ws) then AsPlanned else Amiss
  }

  /** Safe to stop: the copy is the one found but for the evacuation, which is not lost, and the pass
      is entitled. */
  ghost function SafeCourse(w: World, w': World, n: Name, ws: Workspace, ws': Workspace): Course {
    if && Synced(w', n, ws')
       && ws' == ws.(version := ws'.version, status := ws.status.(lastEvacuation := ws'.status.lastEvacuation, evacuated := ws'.status.evacuated))
       && (ws.status.lastEvacuation.Some? ==> ws'.status.lastEvacuation.Some?)
       && w'.history.pass.subject == n && !w'.history.pass.refused
       && (ws.status.id != "" ==> Entitled(w'.history.pass, n, ws.status.id))
       && w'.clock >= w.clock
    then AsPlanned
    else Amiss
  }

  /** The snapshot is on record, in the store and in the pass. */
  ghost function SnapshotCourse(w: World, n: Name, ws: Workspace, snapshot: Option<nat>, ws': Workspace): Course {
    if && Synced(w, n, ws') && w.history.pass == NewPass(n, ws.status.id, false).(reported := true, captured := true)
       && ws' == ws.(version := ws'.version, status := ws.status.(lastEvacuation := snapshot, evacuated := Some(true)))
    then AsPlanned
    else Amiss
  }

  /** An undisturbed request leaves the snapshot on record, or only the refusal. */
  ghost function RequestCourse(w: World, w': World, n: Name, ws: Workspace, snapshot: Option<nat>, ws': Workspace): Course {
    if && w'.sets == w.sets && w'.claims == w.claims && w'.clock == w.clock
       && n in w'.store && w'.store[n].finalizer && (snapshot.Some? ==> w'.store[n] == ws')
       && (snapshot.None? ==> w'.store[n].status == ws.status.(evacuated := Some(false)))
    then AsPlanned
    else Amiss
  }

  lemma EvacuationRequested(w: World, w': World, n: Name, ws: Workspace, snapshot: Option<nat>, safe: bool, ok: bool, ws': Workspace)
    requires safe == snapshot.Some? && w'.clock >= w.clock
    requires safe && ok ==> SnapshotCourse(w', n, ws, snapshot, ws') == AsPlanned
    ensures safe && ok ==> SafeCourse(w, w', n, ws, ws') == AsPlanned
    ensures ok && ws.status.id != "" && ReadyReplica(w, ws.status.id) && RequestCourse(w, w', n, ws, snapshot, ws') == AsPlanned ==>
              EvacuationCourse(w, w', n, ws, snapshot, safe) == AsPlanned && n in w'.store && (safe ==> w'.store[n] == ws')
  {
  }

  lemma NothingToEvacuate(w: World, w': World, n: Name, ws: Workspace, snapshot: Option<nat>)
    requires Synced(w', n, ws) && w'.clock >= w.clock
    ensures w'.history.pass.subject == n && !w'.history.pass.refused && (ws.status.id != "" ==> Entitled(w'.history.pass, n, ws.status.id)) ==>
              SafeCourse(w, w', n, ws, ws) == AsPlanned
    ensures w' == w.(history := w'.history) && w'.store[n] == ws && !(ws.status.id != "" && ReadyReplica(w, ws.status.id)) ==>
              EvacuationCourse(w, w', n, ws, snapshot, true) == AsPlanned
  {
  }

  /** After stopping: the copy is the one found but for the evacuation, and no replica is asked for. */
  ghost function StoppedCourse(w: World, w': World, n: Name, found: Workspace, ws: Workspace): Course {
    if Synced(w', n, ws)
       && ws == found.(version := ws.version, status := found.status.(lastEvacuation := ws.status.lastEvacuation, evacuated := ws.status.evacuated))
       && (ws.status.id in w'.sets ==> w'.sets[ws.status.id].replicas == 0)
       && w'.clock >= w.clock
    then AsPlanned
    else Amiss
  }

  ghost function EvacuationCourse(w: World, w': World, n: Name, ws: Workspace, snapshot: Option<nat>, safe: bool): Course {
    if EvacuationOutcome(w, w', n, ws, snapshot, safe) then AsPlanned else Amiss
  }

  ghost function SuspendCourse(w: World, w': World, n: Name, snapshot: Option<nat>): Course
    requires n in w.store
  {
    if SuspendOutcome(w, w', n, snapshot) then AsPlanned else Amiss
  }

  lemma StopComesOut(w: World, mid: World, w': World, n: Name, found: Workspace, snapshot: Option<nat>, safe: bool, ws: Workspace)
    requires EvacuationCourse(w, mid, n, found, snapshot, safe) == AsPlanned && n in mid.store
    requires safe ==> mid.store[n] == ws
    requires w' == if safe then ScaledDown(mid, ws.status.id) else mid
    requires safe ==> SafeCourse(w, mid, n, found, ws) == AsPlanned
    ensures StopCourse(w, w', n, found, snapshot, safe, ws) == AsPlanned
  {
  }

  function ScaledDown(w: World, id: string): World {
    if id != "" then w.(sets := Scaled(w.sets, id, 0)) else w
  }

  lemma StoppedFromSafe(w: World, mid: World, w': World, n: Name, found: Workspace, ws: Workspace)
    requires SafeCourse(w, mid, n, found, ws) == AsPlanned && Synced(w', n, ws) && w'.clock >= mid.clock
    ensures (ws.status.id in w'.sets ==> w'.sets[ws.status.id].replicas == 0) ==> StoppedCourse(w, w', n, found, ws) == AsPlanned
  {
  }

  /** What `DeleteClaim` demands amounts to what the gate demands. */
  lemma ClaimMayGo(w: World, n: Name, ws: Workspace)
    requires Inv(w) && Synced(w, n, ws)
    requires n in w.history.solo && ws.status.phase != Provisioning && ws.status.phase != Failed ==> ws.deleting && ws.status.lastEvacuation.Some?
    ensures w.store[n].status.id == ws.status.id
    ensures Protected(w, n) ==> w.store[n].deleting && w.store[n].status.lastEvacuation.Some?
  {
    assert ObjectInv(w, n);
  }

  lemma StoppedMeans(w: World, w': World, n: Name, found: Workspace, ws: Workspace)
    requires StoppedCourse(w, w', n, found, ws) == AsPlanned
    ensures Synced(w', n, ws) && SameSuspension(found, ws) && w'.clock >= w.clock
    ensures ws.status.phase == found.status.phase && ws.status.lastActivity == found.status.lastActivity
    ensures ws.status.id in w'.sets ==> w'.sets[ws.status.id].replicas == 0
  {
  }

  lemma NoSetWithoutId(w: World)
    requires Inv(w)
    ensures "" !in w.sets
  {
  }

  lemma NotSuspended(w: World, w': World, n: Name, ws: Workspace, snapshot: Option<nat>)
    requires n in w.store && StopOutcome(w, w', n, w.store[n], snapshot, false, ws)
    ensures SuspendOutcome(w, w', n, snapshot)
  {
  }

  predicate SameSuspension(o: Workspace, ws: Workspace) {
    ws.status.id == o.status.id && ws.status.suspended == o.status.suspended && ws.suspendWanted == o.suspendWanted
  }

  lemma SuspensionComesOut(w: World, mid: World, w': World, n: Name, ws: Workspace, snapshot: Option<nat>)
    requires n in w.store && n in w'.store && StopOutcome(w, mid, n, w.store[n], snapshot, true, ws)
    requires var o := w.store[n];
      && w'.sets == mid.sets && w'.claims == mid.claims
      && w'.store[n].status == SuspendedStatus(ws.status, if o.suspendWanted then SuspendRequested else IdleTimeout, mid.clock)
    ensures SuspendOutcome(w, w', n, snapshot)
  {
  }

  ghost predicate ReadyOutcome(w: World, w': World, n: Name, connected: bool, snapshot: Option<nat>)
    requires n in w.store
  {
    var o := w.store[n];
    var idle := o.status.lastActivity.Some? && w.clock - o.status.lastActivity.value >= 30 * 60 * 1_000_000_000;
    if !o.suspendWanted && connected then
      n in w'.store && w'.store[n].status == o.status.(lastActivity := Some(Stored(w.clock))) && w'.sets == w.sets && w'.claims == w.claims
    else if idle || o.suspendWanted then SuspendOutcome(w, w', n, snapshot)
    else w' == w
  }

  /** A resume asks for one replica; the workspace is Ready again as soon as that replica is. */
  ghost predicate ResumeOutcome(w: World, w': World, n: Name)
    requires n in w.store
  {
    var o := w.store[n];
    var id := o.status.id;
    && n in w'.store && w'.claims == w.claims
    && w'.sets == (if id != "" && id in w.sets then w.sets[id := w.sets[id].(replicas := 1)] else w.sets)
    && w'.store[n].status ==
         if id == "" || !ReadyReplica(w, id) then o.status
         else o.status.(
           phase := Ready, lastActivity := Some(Stored(w.clock)),
           suspended := Some(Condition(
             false,
             if o.status.suspended.Some? && !o.status.suspended.value.status then o.status.suspended.value.since else Stored(w.clock),
             Resumed)),
           resumeRequested := false, destroyCandidate := false)
  }

  ghost predicate RetentionOutcome(w: World, w': World, n: Name)
    requires n in w.store
  {
    var s := w.store[n].status;
    var due := s.suspended.Some? && s.suspended.value.status && w.clock - s.suspended.value.since >= 7 * 24 * 3600 * 1_000_000_000;
    n in w'.store && w'.sets == w.sets && w'.claims == w.claims
    && w'.store[n].status == s.(destroyCandidate := s.destroyCandidate || due)
  }

  /** The object is gone, and with it what was filed under the id and what it owned, nothing else. */
  ghost predicate Gone(sets: map<string, ComputeSet>, claims: map<string, Name>, w: World, n: Name, id: string) {
    && n !in w.store
    && w.sets == (map i | i in sets && i != id && sets[i].owner != n :: sets[i])
    && w.claims == (map i | i in claims && i != id && claims[i] != n :: claims[i])
  }

  lemma TakenFinalizerGone(sets: map<string, ComputeSet>, claims: map<string, Name>, mid: World, n: Name, id: string)
    requires n in mid.store
    requires (mid.sets == sets && id !in sets) || mid.sets == sets - {id}
    requires (mid.claims == claims && id !in claims) || mid.claims == claims - {id}
    ensures Gone(sets, claims, TakeFinalizer(mid, n), n, id)
  {
  }

  ghost function TearDownCourse(sets: map<string, ComputeSet>, claims: map<string, Name>, ws: Workspace, w': World, n: Name): Course {
    if TornDown(sets, claims, ws, w', n) then AsPlanned else Amiss
  }

  ghost predicate TornDown(sets: map<string, ComputeSet>, claims: map<string, Name>, ws: Workspace, w': World, n: Name) {
    if ws.status.lastEvacuation.Some? then Gone(sets, claims, w', n, ws.status.id)
    else
      && n in w'.store && w'.store[n].finalizer && w'.store[n].status == ws.status
      && w'.claims == claims && w'.sets == sets - {ws.status.id}
  }

  ghost function TerminateCourse(w: World, w': World, n: Name, snapshot: Option<nat>): Course
    requires n in w.store
  {
    if TerminateOutcome(w, w', n, snapshot) then AsPlanned else Amiss
  }

  ghost function DestroyCourse(running: bool, sets: map<string, ComputeSet>, claims: map<string, Name>, s: Status,
                               w': World, n: Name, snapshot: Option<nat>): Course
  {
    if DestroyOutcome(running, sets, claims, s, w', n, snapshot) then AsPlanned else Amiss
  }

  lemma MirrorGone(w: World, n: Name, snapshot: Option<nat>)
    requires SubstrateInv(w) && n in w.store && (w.store[n].status.id == "" || w.store[n].status.duplicate)
    ensures TerminateCourse(w, TakeFinalizer(w, n), n, snapshot) == AsPlanned
  {
    TakenFinalizerGone(w.sets, w.claims, w, n, "");
  }

  lemma DestroyedIsTerminated(w: World, w': World, n: Name, snapshot: Option<nat>)
    requires n in w.store && w.store[n].status.id != "" && !w.store[n].status.duplicate
    requires DestroyCourse(ReadyReplica(w, w.store[n].status.id), w.sets, w.claims, w.store[n].status, w', n, snapshot) == AsPlanned
    ensures TerminateCourse(w, w', n, snapshot) == AsPlanned
  {
  }

  lemma DestroyComesOut(w: World, mid: World, w': World, n: Name, found: Workspace, snapshot: Option<nat>, safe: bool, ws: Workspace)
    requires found.status.id != "" && found.status.phase == Terminating
    requires EvacuationCourse(w, mid, n, found, snapshot, safe) == AsPlanned
    requires safe ==> n in mid.store && mid.store[n] == ws && ws.status.id == found.status.id
    requires if safe then TearDownCourse(mid.sets, mid.claims, ws, w', n) == AsPlanned else w' == mid
    ensures DestroyCourse(ReadyReplica(w, found.status.id), w.sets, w.claims, found.status, w', n, snapshot) == AsPlanned
  {
  }

  lemma DestroyFromTerminating(running: bool, sets: map<string, ComputeSet>, claims: map<string, Name>, s: Status,
                               w': World, n: Name, snapshot: Option<nat>)
    requires DestroyCourse(running, sets, claims, s.(phase := Terminating), w', n, snapshot) == AsPlanned
    ensures DestroyCourse(running, sets, claims, s, w', n, snapshot) == AsPlanned
  {
  }

  ghost function ResumeCourse(w: World, w': World, n: Name): Course
    requires n in w.store
  {
    if ResumeOutcome(w, w', n) then AsPlanned else Amiss
  }

  lemma ResumeComesOut(w: World, mid: World, w': World, n: Name, ready: bool)
    requires n in w.store && w.store[n].status.id != "" && ready == ReadyReplica(w, w.store[n].status.id)
    requires mid.store == w.store && mid.claims == w.claims && mid.sets == Scaled(w.sets, w.store[n].status.id, 1) && mid.clock == w.clock
    requires if ready then
               n in w'.store && w'.sets == mid.sets && w'.claims == mid.claims && w'.store[n].status == ResumedStatus(w.store[n].status, w.clock)
             else w'.store == mid.store && w'.sets == mid.sets && w'.claims == mid.claims
    ensures ResumeCourse(w, w', n) == AsPlanned
  {
  }

  /** A deleted workspace is taken down completely in one pass, unless its Pod is running and cannot
      be evacuated (nothing is touched) or it was never evacuated at all (the volume stays). */
  ghost predicate DestroyOutcome(running: bool, sets: map<string, ComputeSet>, claims: map<string, Name>, s: Status,
                                 w': World, n: Name, snapshot: Option<nat>)
  {
    if running && snapshot.None? then
      && n in w'.store && w'.store[n].finalizer && w'.sets == sets && w'.claims == claims
      && w'.store[n].status == s.(phase := Terminating, evacuated := Some(false))
    else if running || s.lastEvacuation.Some? then Gone(sets, claims, w', n, s.id)
    else
      && n in w'.store && w'.store[n].finalizer && w'.claims == claims && w'.sets == sets - {s.id}
      && w'.store[n].status == s.(phase := Terminating)
  }

  ghost predicate TerminateOutcome(w: World, w': World, n: Name, snapshot: Option<nat>)
    requires n in w.store
  {
    var s := w.store[n].status;
    if s.id == "" || s.duplicate then Gone(w.sets, w.claims, w', n, "")
    else DestroyOutcome(ReadyReplica(w, s.id), w.sets, w.claims, s, w', n, snapshot)
  }

  /** The outside answers one pass gets: is a developer connected, what the evacuation request
      returned, and whether the prerequisites and dependencies of provisioning are there. */
  datatype Answers = Answers(
    connected: bool,
    snapshot: Option<nat>,
    imageStaged: bool,
    quota: seq<Admission.QuotaLine>,
    database: bool,
    document: bool,
    routing: bool)

  ghost predicate TimedOut(w: World, ws: Workspace) {
    w.clock - ws.created >= 180 * 1_000_000_000
  }

  /** A workspace that already has its id: the volume and the StatefulSet exist, and it becomes
      Ready once the Pod is; past the deadline everything is rolled back. */
  ghost predicate SubstrateOutcome(sets: map<string, ComputeSet>, claims: map<string, Name>, clock: nat, created: nat, s: Status,
                                   w': World, n: Name, a: Answers)
  {
    var madeClaims := if a.database && s.id !in claims then claims[s.id := n] else claims;
    var madeSets := if a.database && a.document && s.id !in sets then sets[s.id := ComputeSet(n, 1, 0)] else sets;
    var done := a.database && a.document && s.id in sets && sets[s.id].ready >= 1 && a.routing;
    && n in w'.store
    && if done then
         w'.store[n].status == s.(phase := Ready, lastActivity := Some(Stored(clock))) && w'.claims == madeClaims && w'.sets == madeSets
       else if clock - created >= 180 * 1_000_000_000 then
         w'.store[n].status == s.(phase := Failed) && w'.claims == madeClaims - {s.id} && w'.sets == madeSets - {s.id}
       else
         w'.store[n].status == s && w'.claims == madeClaims && w'.sets == madeSets
  }

  /** The admission gates for a workspace, at one moment. */
  ghost predicate AdmissionOpen(w: World, n: Name, ws: Workspace, a: Answers)
    requires ws.template in w.templates
  {
    var t := w.templates[ws.template];
    && a.imageStaged
    && (forall q :: q in a.quota && q.hard.Some? ==> q.used + q.needed <= q.hard.value)
    && (t.budget.Some? ==> t.size + SumOf(Admission.Counted(w, n, t.node)) <= t.budget.value)
  }

  /** The ids in use by workspaces other than `n`. */
  function Taken(store: map<Name, Workspace>, n: Name): string -> bool {
    x => exists m :: m in store && m != n && store[m].status.id == x
  }

  predicate InUse(store: map<Name, Workspace>, n: Name, id: string) {
    exists m :: m in store && m != n && store[m].status.id == id
  }

  /** The plain name unless another workspace has it, else the hashed one unless another has that. */
  predicate DerivedOf(store: map<Name, Workspace>, n: Name, base: string, digest: string, derived: Option<string>) {
    var hashed := Naming.HostLabel(base, "-" + digest);
    derived == if !InUse(store, n, base) then Some(base) else if !InUse(store, n, hashed) then Some(hashed) else None
  }

  lemma DerivedNameIsFree(w: World, n: Name, branch: string, digest: string)
    requires Naming.Digest(digest)
    ensures var r := Naming.DeriveResourceName(branch, digest, Taken(w.store, n));
            r.Some? ==> r.value != "" && FreeId(w, n, r.value)
    ensures DerivedOf(w.store, n, if Naming.Sanitize(branch) == "" then "ws" else Naming.Sanitize(branch), digest,
                      Naming.DeriveResourceName(branch, digest, Taken(w.store, n)))
  {
    Naming.DerivedNameIsFreeAndValid(branch, digest, Taken(w.store, n));
  }

  /** A workspace being named: it gets the derived free name and goes on from there; when both
      candidates are taken it fails with nothing created. */
  ghost predicate NamedOutcome(w: World, w': World, n: Name, a: Answers, derived: Option<string>)
    requires n in w.store
  {
    var o := w.store[n];
    match derived
    case None => n in w'.store && w'.store[n].status == o.status.(phase := Failed) && w'.sets == w.sets && w'.claims == w.claims
    case Some(id) =>
      SubstrateOutcome(w.sets, w.claims, w.clock, o.created, o.status.(id := id), w', n, a)
  }

  ghost predicate ProvisionOutcome(w: World, w': World, n: Name, a: Answers, digest: string)
    requires n in w.store
  {
    var o := w.store[n];
    exists answer :: Ownership.CanonicalAnswer(w.store, o, n, answer) && n in w'.store &&
      match answer
      case Some(c) =>
        w'.store[n].status == o.status.(phase := w.store[c].status.phase, id := w.store[c].status.id, duplicate := true) && w'.sets == w.sets && w'.claims == w.claims
      case None =>
        if o.template !in w.templates then
          && w'.store[n].status == (if TimedOut(w, o) then o.status.(phase := Failed) else o.status)
          && w'.sets == w.sets && w'.claims == w.claims
        else if o.status.id != "" then SubstrateOutcome(w.sets, w.claims, w.clock, o.created, o.status, w', n, a)
        else if AdmissionOpen(w, n, o, a) then NamedOutcome(w, w', n, a, Naming.DeriveResourceName(o.branch, digest, Taken(w.store, n)))
        else w' == w
  }

  /** A rival exists only for a workspace that shares its branch, and its id belongs to the branch. */
  lemma MirrorIsAllowed(w: World, n: Name, ws: Workspace, c: Name)
    requires Inv(w) && Synced(w, n, ws) && Ownership.Rival(w.store, ws, n, c)
    ensures n !in w.history.solo
    ensures w.store[c].status.phase != Terminating
    ensures BranchId(w, ws, w.store[c].status.id)
  {
    assert SameBranch(w.store[c], w.store[n]);
    assert ObjectInv(w, c);
    forall m | m in w.store && w.store[m].status.id == w.store[c].status.id != "" ensures SameBranch(w.store[m], ws) {
      assert m == c || SameBranch(w.store[m], w.store[c]);
    }
  }

  /** A pass over `n` begins. */
  function Begun(w: World, n: Name): World
    requires n in w.store
  {
    var o := w.store[n];
    w.(history := w.history.(
      pass := NewPass(n, o.status.id, !o.deleting && o.status.phase == Provisioning),
      passes := w.history.passes + 1))
  }

  /** One undisturbed pass over a live workspace, by the phase it finds. */
  ghost predicate LiveOutcome(w: World, w': World, n: Name, a: Answers, digest: string)
    requires n in w.store
  {
    match w.store[n].status.phase
    case Ready => ReadyOutcome(w, w', n, a.connected, a.snapshot)
    case Suspended => if w.store[n].status.resumeRequested then ResumeOutcome(w, w', n) else RetentionOutcome(w, w', n)
    case Failed => w' == w
    case Provisioning => ProvisionOutcome(w, w', n, a, digest)
    case Terminating => true
  }

  ghost function LiveCourse(w: World, w': World, n: Name, a: Answers, digest: string): Course
    requires n in w.store
  {
    if LiveOutcome(w, w', n, a, digest) then AsPlanned else Amiss
  }

  /** One undisturbed pass over a workspace: torn down if deleted, otherwise by its phase, the very
      first time with the finalizer put on before. */
  ghost predicate PassOutcome(w: World, w': World, n: Name, a: Answers, digest: string)
    requires n in w.store
  {
    if w.store[n].deleting then TerminateOutcome(Begun(w, n), w', n, a.snapshot)
    else if w.store[n].finalizer then LiveOutcome(Begun(w, n), w', n, a, digest)
    else LiveOutcome(PutFinalizer(Begun(w, n), n), w', n, a, digest)
  }

  ghost function PassCourse(w: World, w': World, n: Name, a: Answers, digest: string): Course
    requires n in w.store
  {
    if PassOutcome(w, w', n, a, digest) then AsPlanned else Amiss
  }

  class WorkspaceReconciler {
    var w: World
    /** Every state since `anchor` was taken, one entry per API call or outside move. */
    ghost var trace: seq<World>
    ghost var anchor: seq<World>
    const shortHash: string -> string
    /** In a calm run no call fails and nothing outside the pass moves while it runs. */
    const calm: bool

    /** Every state so far satisfies the invariant and every step so far respected the gates. */
    ghost predicate Valid()
      reads this
    {
      Standing() == AsPlanned
    }

    ghost function Standing(): Course
      reads this
    {
      if Lawful(trace) && trace[|trace| - 1] == w && Inv(w) && anchor <= trace && (forall b :: Naming.Digest(shortHash(b)))
      then AsPlanned
      else Amiss
    }

    constructor (templates: map<string, Template>, shortHash: string -> string, calm: bool)
      requires forall b :: Naming.Digest(shortHash(b))
      ensures Valid() && this.calm == calm
      ensures trace == [w] && w.store == map[] && w.templates == templates && w.history.pass == NewPass("", "", false)
    {
      this.shortHash := shortHash;
      this.calm := calm;
      var start := World(templates, map[], map[], map[], 0, 0,
                         History(NewPass("", "", false), 0, {}, {}, map[], map[]));
      forall node, budget: nat | CommonBudget(start.templates, node, budget) ensures Committed(start, node) <= budget {
        assert Shares(start, node) == map[];
      }
      w := start;
      trace := [start];
      anchor := [];
    }

    method Advance(next: World)
      requires Valid() && StepCourse(w, next) == AsPlanned
      modifies `w, `trace
      ensures Valid() && w == next
    {
      LawfulExtends(trace, next);
      w := next;
      trace := trace + [next];
    }

    /** The outside moves, seen from a pass over `n`. */
    method Environment(ghost n: Name, ghost ws: Workspace)
      requires Valid() && Synced(w, n, ws)
      modifies `w, `trace
      ensures Valid() && Synced(w, n, ws) && Undisturbed(old(w), w, n)
      ensures calm ==> w == old(w)
    {
      EnvironmentBeforeIdWrite(n, ws, "");
    }

    /** The same, for a pass that still has to write a new id. */
    method EnvironmentBeforeIdWrite(ghost n: Name, ghost ws: Workspace, ghost id: string)
      requires Valid() && Synced(w, n, ws)
      modifies `w, `trace
      ensures Valid() && Synced(w, n, ws) && Undisturbed(old(w), w, n)
      ensures old(RoomFor(w, n)) ==> RoomFor(w, n)
      ensures id != "" && old(FreeId(w, n, id)) ==> FreeId(w, n, id)
      ensures old(BranchId(w, ws, id)) ==> BranchId(w, ws, id)
      ensures calm ==> w == old(w)
    {
      var rounds: int := *;
      while rounds > 0 && !calm
        invariant Valid() && Synced(w, n, ws) && Undisturbed(old(w), w, n)
        invariant old(RoomFor(w, n)) ==> RoomFor(w, n)
        invariant id != "" && old(FreeId(w, n, id)) ==> FreeId(w, n, id)
        invariant old(BranchId(w, ws, id)) ==> BranchId(w, ws, id)
        invariant calm ==> w == old(w)
      {
        OneMove(n, ws, id);
        rounds := rounds - 1;
      }
    }

    method OneMove(ghost n: Name, ghost ws: Workspace, ghost id: string)
      requires Valid() && Synced(w, n, ws)
      modifies `w, `trace
      ensures Valid() && Synced(w, n, ws) && Undisturbed(old(w), w, n)
      ensures old(RoomFor(w, n)) ==> RoomFor(w, n)
      ensures id != "" && old(FreeId(w, n, id)) ==> FreeId(w, n, id)
      ensures old(BranchId(w, ws, id)) ==> BranchId(w, ws, id)
    {
      var next: World := *;
      if EnvMoves(w, next) {
        EnvironmentIsHarmless(w, next);
        EnvKeepsPlans(w, next, n, ws);
        Advance(next);
      }
    }

    // ---- API calls ----

    /** Whether a call takes effect, and whether the caller learns that it did. */
    method Call() returns (reaches: bool, answered: bool)
      ensures calm ==> reaches && answered
    {
      reaches, answered := *, *;
      reaches, answered := reaches || calm, answered || calm;
    }

    /** A status write is conditional on the version the pass read; it may be lost on the way there
        or its answer on the way back. */
    method UpdateStatus(n: Name, ws: Workspace, s: Status, intent: Intent) returns (ok: bool, ws': Workspace)
      requires Valid() && Synced(w, n, ws)
      requires w.store[n] == ws ==> LegalStatus(w, n, s, intent)
      modifies `w, `trace
      ensures Valid()
      ensures ok ==> Synced(w, n, ws') && ws' == ws.(status := s, version := ws'.version)
      ensures ok ==> w.history.pass == (if intent.Capture? then old(w.history.pass).(captured := true) else old(w.history.pass))
      ensures w.sets == old(w.sets) && w.claims == old(w.claims) && w.clock == old(w.clock) && w.history.solo == old(w.history.solo)
      ensures w.history.pass == old(w.history.pass) || (intent.Capture? && w.history.pass == old(w.history.pass).(captured := true))
      ensures old(RoomFor(w, n)) ==> RoomFor(w, n)
      ensures calm && old(w.store[n]) == ws ==> ok && ws' == w.store[n] && w == WriteStatus(old(w), n, s, intent)
    {
      var reaches, answered := Call();
      ok, ws' := false, ws;
      if reaches && w.store[n].version == ws.version {
        StatusWriteKeeps(w, n, s, intent);
        StatusWriteRoom(w, n, s, intent);
        Advance(WriteStatus(w, n, s, intent));
        if answered {
          ok, ws' := true, w.store[n];
        }
      }
    }

    /** What the pass has learned is noted beside the objects. */
    method Note(ghost n: Name, ghost ws: Workspace, p: Pass)
      requires Valid() && Synced(w, n, ws)
      requires PassGoesOn(w, w.(history := w.history.(pass := p)))
      modifies `w, `trace
      ensures Valid() && Synced(w, n, ws)
      ensures w == old(w).(history := old(w).history.(pass := p))
    {
      var next := w.(history := w.history.(pass := p));
      SubstrateStepKeeps(w, next);
      Advance(next);
    }

    /** `scaleStatefulSet`; a missing StatefulSet and one already at the count are left alone. */
    method Scale(n: Name, ws: Workspace, replicas: nat) returns (ok: bool)
      requires Valid() && Synced(w, n, ws)
      requires replicas == 0 ==> Entitled(w.history.pass, n, ws.status.id)
      modifies `w, `trace
      ensures Valid() && Synced(w, n, ws)
      ensures w.history.pass == old(w.history.pass) && w.clock >= old(w.clock)
      ensures n in w.history.solo ==> n in old(w.history.solo)
      ensures ok && ws.status.id in w.sets ==> w.sets[ws.status.id].replicas == replicas
      ensures calm ==> ok && w == old(w).(sets := Scaled(old(w).sets, ws.status.id, replicas))
    {
      Environment(n, ws);
      var id := ws.status.id;
      var _, readable := Call();
      var reaches, answered := Call();
      if !readable {
        return false;
      }
      if id !in w.sets || w.sets[id].replicas == replicas {
        return true;
      }
      if reaches {
        if replicas == 0 {
          EntitledMayStop(w, n, ws);
        }
        ScaleKeeps(w, id, replicas);
        Advance(w.(sets := w.sets[id := w.sets[id].(replicas := replicas)]));
      }
      ok := reaches && answered;
    }

    method DeleteStatefulSet(n: Name, ws: Workspace) returns (ok: bool)
      requires Valid() && Synced(w, n, ws)
      requires Entitled(w.history.pass, n, ws.status.id)
      modifies `w, `trace
      ensures Valid() && Synced(w, n, ws)
      ensures w.history.pass == old(w.history.pass)
      ensures n in w.history.solo ==> n in old(w.history.solo)
      ensures ok ==> ws.status.id !in w.sets
      ensures calm ==> ok && w == old(w).(sets := old(w).sets - {ws.status.id})
    {
      Environment(n, ws);
      var reaches, answered := Call();
      if reaches {
        EntitledMayStop(w, n, ws);
        DeleteSetKeeps(w, ws.status.id);
        Advance(w.(sets := w.sets - {ws.status.id}));
      }
      ok := reaches && answered;
    }

    /** The volume of a workspace that has been Ready may go only behind its evacuation. */
    method DeleteClaim(n: Name, ws: Workspace) returns (ok: bool)
      requires Valid() && Synced(w, n, ws)
      requires w.history.pass.subject == n && !w.history.pass.refused
      requires n in w.history.solo && ws.status.phase != Provisioning && ws.status.phase != Failed ==>
                 ws.deleting && ws.status.lastEvacuation.Some?
      modifies `w, `trace
      ensures Valid() && Synced(w, n, ws)
      ensures w.history.pass == old(w.history.pass) && w.sets.Keys == old(w.sets.Keys)
      ensures n in w.history.solo ==> n in old(w.history.solo)
      ensures ok ==> ws.status.id !in w.claims
      ensures calm ==> ok && w == old(w).(claims := old(w).claims - {ws.status.id})
    {
      Environment(n, ws);
      var reaches, answered := Call();
      if reaches {
        ClaimMayGo(w, n, ws);
        DeleteClaimKeeps(w, n, ws.status.id);
        Advance(w.(claims := w.claims - {ws.status.id}));
      }
      ok := reaches && answered;
    }

    /** `ensureCreated`: an object that already exists is accepted as it is. */
    method EnsureClaim(n: Name, ws: Workspace) returns (ok: bool)
      requires Valid() && Synced(w, n, ws) && ws.status.id != ""
      modifies `w, `trace
      ensures Valid() && Synced(w, n, ws)
      ensures w.history.pass == old(w.history.pass)
      ensures ok ==> ws.status.id in w.claims
      ensures calm ==> ok && w == old(w).(claims := if ws.status.id in old(w).claims then old(w).claims else old(w).claims[ws.status.id := n])
    {
      Environment(n, ws);
      var reaches, answered := Call();
      if reaches && ws.status.id !in w.claims {
        CreateClaimKeeps(w, n, ws.status.id);
        Advance(w.(claims := w.claims[ws.status.id := n]));
      }
      ok := reaches && answered;
    }

    method EnsureStatefulSet(n: Name, ws: Workspace) returns (ok: bool)
      requires Valid() && Synced(w, n, ws) && ws.status.id != ""
      modifies `w, `trace
      ensures Valid() && Synced(w, n, ws)
      ensures w.history.pass == old(w.history.pass) && w.claims == old(w.claims)
      ensures ok ==> ws.status.id in w.sets
      ensures calm ==> ok && w == old(w).(sets := if ws.status.id in old(w).sets then old(w).sets else old(w).sets[ws.status.id := ComputeSet(n, 1, 0)])
    {
      Environment(n, ws);
      var reaches, answered := Call();
      if reaches && ws.status.id !in w.sets {
        CreateSetKeeps(w, n, ws.status.id);
        Advance(w.(sets := w.sets[ws.status.id := ComputeSet(n, 1, 0)]));
      }
      ok := reaches && answered;
    }

    /** `removeEvacuationFinalizer`: the object goes with its last finalizer. */
    method RemoveFinalizer(n: Name, ws: Workspace)
      requires Valid() && Synced(w, n, ws) && ws.deleting
      requires n in w.history.solo && ws.status.id != "" && !ws.status.duplicate ==>
                 ws.status.lastEvacuation.Some? && ws.status.id !in w.claims && ws.status.id !in w.sets && !w.history.pass.refused
      modifies `w, `trace
      ensures Valid()
      ensures calm && old(w.store[n]) == ws ==> w == TakeFinalizer(old(w), n)
    {
      Environment(n, ws);
      var reaches, _ := Call();
      if reaches && w.store[n].version == ws.version {
        assert ObjectInv(w, n);
        TakeFinalizerKeeps(w, n);
        Advance(TakeFinalizer(w, n));
      }
    }

    /** Status upkeep that the modelled fields do not show: node condition, Blackboard entry, shared
        document, file conflicts, resource waits. It may write, do nothing, or fail. */
    method Incidental(n: Name, ws: Workspace) returns (ok: bool, ws': Workspace)
      requires Valid() && Synced(w, n, ws)
      modifies `w, `trace
      ensures Valid()
      ensures ok ==> Synced(w, n, ws') && ws' == ws.(version := ws'.version)
      ensures w.history.pass == old(w.history.pass)
      ensures n in w.history.solo ==> n in old(w.history.solo)
      ensures calm ==> ok && ws' == ws && w == old(w)
    {
      Environment(n, ws);
      var fails: bool, writes: bool := *, *;
      ok, ws' := calm || !fails, ws;
      if !calm && !fails && writes {
        if w.store[n] == ws {
          PlainLegal(w, n, ws.status.evacuated);
        }
        ok, ws' := UpdateStatus(n, ws, ws.status, Plain);
      }
    }

    // ---- stopping compute ----

    /** `computeRunning`: whether the StatefulSet has a ready replica. */
    method ComputeRunning(n: Name, ws: Workspace) returns (ok: bool, running: bool)
      requires Valid() && Synced(w, n, ws)
      requires w.history.pass.target == ws.status.id && !w.history.pass.refused
      modifies `w, `trace
      ensures Valid() && Synced(w, n, ws)
      ensures n in w.history.solo ==> n in old(w.history.solo)
      ensures w.clock >= old(w.clock)
      ensures w.history.pass == if ok && !running then old(w.history.pass).(sawNoReplica := true) else old(w.history.pass)
      ensures calm ==> ok && running == ReadyReplica(old(w), ws.status.id) && w == old(w).(history := old(w).history.(pass := w.history.pass))
    {
      Environment(n, ws);
      var _, answered := Call();
      ok := answered;
      running := ws.status.id in w.sets && w.sets[ws.status.id].ready >= 1;
      if ok && !running {
        NoteAbsence(n, ws);
      }
    }

    method NoteAbsence(ghost n: Name, ghost ws: Workspace)
      requires Valid() && Synced(w, n, ws) && !w.history.pass.refused && !ReadyReplica(w, w.history.pass.target)
      modifies `w, `trace
      ensures Valid() && Synced(w, n, ws)
      ensures w == old(w).(history := old(w).history.(pass := old(w).history.pass.(sawNoReplica := true)))
    {
      Note(n, ws, w.history.pass.(sawNoReplica := true));
    }

    method RecordSnapshot(n: Name, ws: Workspace, snapshot: nat) returns (ok: bool, ws': Workspace)
      requires Valid() && Synced(w, n, ws)
      requires w.history.pass.subject == n && w.history.pass.reported && !w.history.pass.refused
      modifies `w, `trace
      ensures Valid()
      ensures ok ==> Synced(w, n, ws')
      ensures ok ==> ws' == ws.(version := ws'.version, status := ws.status.(lastEvacuation := Some(snapshot), evacuated := Some(true)))
      ensures ok ==> w.history.pass == old(w.history.pass).(captured := true)
      ensures n in w.history.solo ==> n in old(w.history.solo)
      ensures w.clock >= old(w.clock)
      ensures calm && old(w.store[n]) == ws ==>
                && ok && ws' == w.store[n]
                && w == WriteStatus(old(w), n, ws.status.(lastEvacuation := Some(snapshot), evacuated := Some(true)), Capture)
    {
      Environment(n, ws);
      if w.store[n] == ws {
        CaptureLegal(w, n, snapshot);
      }
      ok, ws' := UpdateStatus(n, ws, ws.status.(lastEvacuation := Some(snapshot), evacuated := Some(true)), Capture);
    }

    method RecordRefusal(n: Name, ws: Workspace) returns (ok: bool)
      requires Valid() && Synced(w, n, ws)
      requires !w.history.pass.sawNoReplica && !w.history.pass.captured
      modifies `w, `trace
      ensures Valid() && w.history.pass == old(w.history.pass).(refused := true) && w.clock >= old(w.clock)
      ensures n in w.history.solo ==> n in old(w.history.solo)
      ensures calm && old(w.store[n]) == ws ==>
                && ok && w.sets == old(w.sets) && w.claims == old(w.claims) && w.clock == old(w.clock)
                && n in w.store && w.store[n].status == ws.status.(evacuated := Some(false)) && w.store[n].finalizer
    {
      Environment(n, ws);
      Note(n, ws, w.history.pass.(refused := true));
      if w.store[n] == ws {
        PlainLegal(w, n, Some(false));
      }
      var ignored;
      ok, ignored := UpdateStatus(n, ws, ws.status.(evacuated := Some(false)), Plain);
    }

    /** `evacuateBeforeStop`: whether compute may stop now. */
    method EvacuateBeforeStop(n: Name, ws: Workspace, snapshot: Option<nat>) returns (safe: bool, ok: bool, ws': Workspace)
      requires Valid() && Synced(w, n, ws)
      requires w.history.pass == NewPass(n, ws.status.id, false)
      modifies `w, `trace
      ensures Valid()
      ensures safe && ok ==> SafeCourse(old(w), w, n, ws, ws') == AsPlanned
      ensures n in w.history.solo ==> n in old(w.history.solo)
      ensures calm && old(w.store[n]) == ws ==> ok && EvacuationCourse(old(w), w, n, ws, snapshot, safe) == AsPlanned && n in w.store && (safe ==> w.store[n] == ws')
    {
      safe, ok, ws' := true, true, ws;
      var running := false;
      if ws.status.id != "" {
        ok, running := ComputeRunning(n, ws);
      }
      if ok && running {
        safe, ok, ws' := RequestEvacuation(n, ws, snapshot);
        EvacuationRequested(old(w), w, n, ws, snapshot, safe, ok, ws');
      } else {
        NothingToEvacuate(old(w), w, n, ws, snapshot);
      }
    }

    /** The supervisor either produced a snapshot, which is recorded at once, or refused. */
    method RequestEvacuation(n: Name, ws: Workspace, snapshot: Option<nat>) returns (safe: bool, ok: bool, ws': Workspace)
      requires Valid() && Synced(w, n, ws)
      requires w.history.pass == NewPass(n, ws.status.id, false)
      modifies `w, `trace
      ensures Valid() && safe == snapshot.Some? && w.clock >= old(w.clock)
      ensures n in w.history.solo ==> n in old(w.history.solo)
      ensures safe && ok ==> SnapshotCourse(w, n, ws, snapshot, ws') == AsPlanned
      ensures calm && old(w.store[n]) == ws ==> ok && RequestCourse(old(w), w, n, ws, snapshot, ws') == AsPlanned
    {
      ws' := ws;
      safe := snapshot.Some?;
      if safe {
        Note(n, ws, w.history.pass.(reported := true));
        ok, ws' := RecordSnapshot(n, ws, snapshot.value);
      } else {
        ok := RecordRefusal(n, ws);
      }
    }

    // ---- Ready ----

    method RecordUse(n: Name, ws: Workspace)
      requires Valid() && Synced(w, n, ws)
      modifies `w, `trace
      ensures Valid()
      ensures calm && old(w.store[n]) == ws ==>
                n in w.store && w.sets == old(w.sets) && w.claims == old(w.claims) && w.store[n].status == ws.status.(lastActivity := Some(Stored(old(w).clock)))
    {
      Environment(n, ws);
      if w.store[n] == ws {
        UseLegal(w, n);
      }
      var _, _ := UpdateStatus(n, ws, ws.status.(lastActivity := Some(Stored(w.clock))), Use);
    }

    /** The suspension is written down; `w0` is where the pass found the workspace. */
    method RecordSuspended(n: Name, ws: Workspace, requested: bool, ghost w0: World, ghost snapshot: Option<nat>)
      requires Valid() && Synced(w, n, ws) && ws.status.phase == Ready
      requires ws.status.id in w.sets ==> w.sets[ws.status.id].replicas == 0
      requires requested == ws.suspendWanted
      requires !requested ==> ws.status.lastActivity.Some? && ws.status.lastActivity.value + IDLE_SUSPEND_TIMEOUT <= w.clock
      requires n in w0.store
      modifies `w, `trace
      ensures Valid()
      ensures calm && StopCourse(w0, old(w), n, w0.store[n], snapshot, true, ws) == AsPlanned && SameSuspension(w0.store[n], ws) ==>
                SuspendCourse(w0, w, n, snapshot) == AsPlanned
    {
      ghost var mid := w;
      Environment(n, ws);
      var reason := if requested then SuspendRequested else IdleTimeout;
      if w.store[n] == ws {
        SuspendLegal(w, n, reason);
      }
      var _, _ := UpdateStatus(n, ws, SuspendedStatus(ws.status, reason, w.clock), Plain);
      if calm && StopOutcome(w0, mid, n, w0.store[n], snapshot, true, ws) && SameSuspension(w0.store[n], ws) {
        SuspensionComesOut(w0, mid, w, n, ws, snapshot);
      }
    }

    /** The stop half of `reconcileReady`: evacuate, scale down, record the suspension. */
    method Suspend(n: Name, found: Workspace, requested: bool, snapshot: Option<nat>)
      requires Valid() && Synced(w, n, found) && found.status.phase == Ready
      requires w.history.pass == NewPass(n, found.status.id, false)
      requires requested == found.suspendWanted
      requires !requested ==> found.status.lastActivity.Some? && found.status.lastActivity.value + IDLE_SUSPEND_TIMEOUT <= w.clock
      modifies `w, `trace
      ensures Valid()
      ensures calm && old(w.store[n]) == found ==> SuspendCourse(old(w), w, n, snapshot) == AsPlanned
    {
      var stopped, ws := StopCompute(n, found, snapshot);
      if stopped {
        StoppedMeans(old(w), w, n, found, ws);
        RecordSuspended(n, ws, requested, old(w), snapshot);
      } else if calm && old(w.store[n]) == found {
        NotSuspended(old(w), w, n, ws, snapshot);
      }
    }

    method ScaleDown(n: Name, ws: Workspace) returns (ok: bool)
      requires Valid() && Synced(w, n, ws) && (ws.status.id != "" ==> Entitled(w.history.pass, n, ws.status.id))
      modifies `w, `trace
      ensures Valid() && Synced(w, n, ws) && w.clock >= old(w.clock)
      ensures ok && ws.status.id in w.sets ==> w.sets[ws.status.id].replicas == 0
      ensures calm ==> ok && w == ScaledDown(old(w), ws.status.id)
    {
      ok := true;
      if ws.status.id != "" {
        ok := Scale(n, ws, 0);
      } else {
        NoSetWithoutId(w);
      }
    }

    method StopCompute(n: Name, found: Workspace, snapshot: Option<nat>) returns (stopped: bool, ws: Workspace)
      requires Valid() && Synced(w, n, found)
      requires w.history.pass == NewPass(n, found.status.id, false)
      modifies `w, `trace
      ensures Valid()
      ensures stopped ==> StoppedCourse(old(w), w, n, found, ws) == AsPlanned
      ensures calm && old(w.store[n]) == found ==> StopCourse(old(w), w, n, found, snapshot, stopped, ws) == AsPlanned
    {
      var safe, ok;
      safe, ok, ws := EvacuateBeforeStop(n, found, snapshot);
      stopped := ok && safe;
      if stopped {
        stopped := StopSafely(n, found, ws, old(w), snapshot);
      } else if calm && old(w.store[n]) == found {
        StopComesOut(old(w), w, w, n, found, snapshot, false, ws);
      }
    }

    /** Compute stops once that is safe; `w0` is where the pass found the workspace. */
    method StopSafely(n: Name, ghost found: Workspace, ws: Workspace, ghost w0: World, ghost snapshot: Option<nat>) returns (stopped: bool)
      requires Valid() && SafeCourse(w0, w, n, found, ws) == AsPlanned
      modifies `w, `trace
      ensures Valid()
      ensures stopped ==> StoppedCourse(w0, w, n, found, ws) == AsPlanned
      ensures calm && EvacuationCourse(w0, old(w), n, found, snapshot, true) == AsPlanned && old(w.store[n]) == ws ==>
                StopCourse(w0, w, n, found, snapshot, stopped, ws) == AsPlanned
    {
      ghost var mid := w;
      stopped := ScaleDown(n, ws);
      StoppedFromSafe(w0, mid, w, n, found, ws);
      if calm && EvacuationCourse(w0, mid, n, found, snapshot, true) == AsPlanned && mid.store[n] == ws {
        StopComesOut(w0, mid, w, n, found, snapshot, true, ws);
      }
    }

    /** `reconcileReady`. */
    method ReconcileReady(n: Name, found: Workspace, connected: bool, snapshot: Option<nat>)
      requires Valid() && Synced(w, n, found) && found.status.phase == Ready
      requires w.history.pass == NewPass(n, found.status.id, false)
      modifies `w, `trace
      ensures Valid()
      ensures calm && old(w.store[n]) == found ==> ReadyOutcome(old(w), w, n, connected, snapshot)
    {
      var ok, ws := Incidental(n, found);
      if !ok {
        return;
      }
      Environment(n, ws);
      var idle := ws.status.lastActivity.Some? && w.clock - ws.status.lastActivity.value >= IDLE_SUSPEND_TIMEOUT;
      var requested := ws.suspendWanted;
      if !requested && connected {
        RecordUse(n, ws);
      } else if idle || requested {
        Suspend(n, ws, requested, snapshot);
      }
    }

    // ---- Suspended ----

    method RecordDestroyCandidate(n: Name, ws: Workspace)
      requires Valid() && Synced(w, n, ws) && ws.status.phase == Suspended
      requires ws.status.suspended.Some? && ws.status.suspended.value.since + SUSPENDED_RETENTION <= w.clock
      modifies `w, `trace
      ensures Valid()
      ensures calm && old(w.store[n]) == ws ==>
                n in w.store && w.sets == old(w.sets) && w.claims == old(w.claims) && w.store[n].status == ws.status.(destroyCandidate := true)
    {
      Environment(n, ws);
      if w.store[n] == ws {
        DestroyCandidateLegal(w, n);
      }
      var _, _ := UpdateStatus(n, ws, ws.status.(destroyCandidate := true), Plain);
    }

    /** A fresh read of the StatefulSet; a missing one is an error. */
    method SeesReplica(n: Name, ws: Workspace) returns (ok: bool, ready: bool)
      requires Valid() && Synced(w, n, ws)
      requires w.history.pass.subject == n
      modifies `w, `trace
      ensures Valid() && Synced(w, n, ws)
      ensures ok && ready ==> ws.status.id in w.sets && w.history.pass == old(w.history.pass).(sawReplica := true)
      ensures !(ok && ready) ==> w.history.pass == old(w.history.pass)
      ensures ws.status.id in w.sets ==> ws.status.id in old(w.sets) && w.sets[ws.status.id].replicas == old(w.sets)[ws.status.id].replicas
      ensures w.claims == old(w.claims)
      ensures calm ==> (ok <==> ws.status.id in old(w).sets) && ready == ReadyReplica(old(w), ws.status.id) && w == old(w).(history := old(w).history.(pass := w.history.pass))
    {
      Environment(n, ws);
      var _, answered := Call();
      ok := answered && ws.status.id in w.sets;
      ready := ok && w.sets[ws.status.id].ready >= 1;
      if ready {
        Note(n, ws, w.history.pass.(sawReplica := true));
      }
    }

    method RecordResumed(n: Name, ws: Workspace)
      requires Valid() && Synced(w, n, ws) && ws.status.phase == Suspended && ws.status.resumeRequested
      requires w.history.pass.subject == n && w.history.pass.sawReplica
      requires ws.status.id in w.sets && w.sets[ws.status.id].replicas == 1
      modifies `w, `trace
      ensures Valid()
      ensures calm && old(w.store[n]) == ws ==>
                n in w.store && w.sets == old(w.sets) && w.claims == old(w.claims) && w.store[n].status == ResumedStatus(ws.status, old(w).clock)
    {
      Environment(n, ws);
      if w.store[n] == ws {
        ResumeLegal(w, n);
      }
      var _, _ := UpdateStatus(n, ws, ResumedStatus(ws.status, w.clock), Use);
    }

    /** `reconcileResume`: one replica again, and Ready only once it is seen ready. */
    method ReconcileResume(n: Name, ws: Workspace)
      requires Valid() && Synced(w, n, ws) && ws.status.phase == Suspended && ws.status.resumeRequested
      requires w.history.pass == NewPass(n, ws.status.id, false)
      modifies `w, `trace
      ensures Valid()
      ensures calm && old(w.store[n]) == ws ==> ResumeCourse(old(w), w, n) == AsPlanned
    {
      if ws.status.id == "" {
        return;
      }
      var ok := Scale(n, ws, 1);
      if !ok {
        return;
      }
      ghost var mid := w;
      var ready;
      ok, ready := SeesReplica(n, ws);
      if ok && ready {
        RecordResumed(n, ws);
      }
      if calm && old(w.store[n]) == ws {
        ResumeComesOut(old(w), mid, w, n, ready);
      }
    }

    /** `reconcileSuspended`. */
    method ReconcileSuspended(n: Name, found: Workspace)
      requires Valid() && Synced(w, n, found) && found.status.phase == Suspended
      requires w.history.pass == NewPass(n, found.status.id, false)
      modifies `w, `trace
      ensures Valid()
      ensures calm && old(w.store[n]) == found && found.status.resumeRequested ==> ResumeCourse(old(w), w, n) == AsPlanned
      ensures calm && old(w.store[n]) == found && !found.status.resumeRequested ==> RetentionOutcome(old(w), w, n)
    {
      if found.status.resumeRequested {
        ReconcileResume(n, found);
        return;
      }
      var ok, ws := Incidental(n, found);
      if !ok {
        return;
      }
      Environment(n, ws);
      var c := ws.status.suspended;
      if c.Some? && c.value.status && !ws.status.destroyCandidate && w.clock - c.value.since >= SUSPENDED_RETENTION {
        RecordDestroyCandidate(n, ws);
      }
    }

    // ---- Terminating ----

    method RecordTerminating(n: Name, ws: Workspace) returns (ok: bool, ws': Workspace)
      requires Valid() && Synced(w, n, ws) && ws.deleting
      modifies `w, `trace
      ensures Valid() && w.history.pass == old(w.history.pass)
      ensures ok ==> Synced(w, n, ws') && ws' == ws.(version := ws'.version, status := ws.status.(phase := Terminating))
      ensures n in w.history.solo ==> n in old(w.history.solo)
      ensures calm && old(w.store[n]) == ws ==>
                ok && n in w.store && ws' == w.store[n] && w.sets == old(w.sets) && w.claims == old(w.claims)
    {
      Environment(n, ws);
      if w.store[n] == ws {
        TerminatingLegal(w, n);
      }
      ok, ws' := UpdateStatus(n, ws, ws.status.(phase := Terminating), Plain);
    }

    /** The tail of `reconcileTerminating`: compute, then the volume behind the recorded evacuation,
        then the finalizer. */
    method TearDown(n: Name, ws: Workspace)
      requires Valid() && Synced(w, n, ws) && ws.deleting && ws.status.id != ""
      requires w.history.pass.subject == n && !w.history.pass.refused && Entitled(w.history.pass, n, ws.status.id)
      modifies `w, `trace
      ensures Valid()
      ensures calm && old(w.store[n]) == ws ==>
                TearDownCourse(old(w).sets, old(w).claims, ws, w, n) == AsPlanned
    {
      var ok := DeleteStatefulSet(n, ws);
      var _, released := Call();
      if !ok || !released || ws.status.lastEvacuation.None? {
        return;
      }
      ok := DeleteClaim(n, ws);
      if !ok {
        return;
      }
      if calm && old(w.store[n]) == ws {
        TakenFinalizerGone(old(w).sets, old(w).claims, w, n, ws.status.id);
      }
      RemoveFinalizer(n, ws);
    }

    /** `reconcileTerminating`. */
    method ReconcileTerminating(n: Name, found: Workspace, snapshot: Option<nat>)
      requires Valid() && Synced(w, n, found) && found.deleting
      requires w.history.pass == NewPass(n, found.status.id, false)
      modifies `w, `trace
      ensures Valid()
      ensures calm && old(w.store[n]) == found ==> TerminateCourse(old(w), w, n, snapshot) == AsPlanned
    {
      var ok, ws := Incidental(n, found);
      if !ok {
        return;
      }
      if ws.status.id == "" || ws.status.duplicate {
        if calm && old(w.store[n]) == found {
          MirrorGone(w, n, snapshot);
        }
        RemoveFinalizer(n, ws);
      } else {
        Destroy(n, ws, snapshot);
        if calm && old(w.store[n]) == found {
          DestroyedIsTerminated(old(w), w, n, snapshot);
        }
      }
    }

    /** The phase is written unless it is there already. */
    method EnterTerminating(n: Name, found: Workspace) returns (ok: bool, ws: Workspace)
      requires Valid() && Synced(w, n, found) && found.deleting
      modifies `w, `trace
      ensures Valid() && w.history.pass == old(w.history.pass)
      ensures ok ==> Synced(w, n, ws) && ws == found.(version := ws.version, status := found.status.(phase := Terminating))
      ensures calm && old(w.store[n]) == found ==>
                ok && n in w.store && ws == w.store[n] && w.sets == old(w.sets) && w.claims == old(w.claims)
    {
      ok, ws := true, found;
      if ws.status.phase != Terminating {
        ok, ws := RecordTerminating(n, ws);
      }
    }

    /** The destroy of a workspace that owns substrate. */
    method Destroy(n: Name, found: Workspace, snapshot: Option<nat>)
      requires Valid() && Synced(w, n, found) && found.deleting && found.status.id != ""
      requires w.history.pass == NewPass(n, found.status.id, false)
      modifies `w, `trace
      ensures Valid()
      ensures calm && old(w.store[n]) == found ==>
                DestroyCourse(ReadyReplica(old(w), found.status.id), old(w).sets, old(w).claims, found.status, w, n, snapshot) == AsPlanned
    {
      var ok, ws := EnterTerminating(n, found);
      if ok {
        EvacuateAndTearDown(n, ws, snapshot);
      }
      if calm && old(w.store[n]) == found {
        DestroyFromTerminating(ReadyReplica(old(w), found.status.id), old(w).sets, old(w).claims, found.status, w, n, snapshot);
      }
    }

    method EvacuateAndTearDown(n: Name, found: Workspace, snapshot: Option<nat>)
      requires Valid() && Synced(w, n, found) && found.deleting && found.status.id != "" && found.status.phase == Terminating
      requires w.history.pass == NewPass(n, found.status.id, false)
      modifies `w, `trace
      ensures Valid()
      ensures calm && old(w.store[n]) == found ==>
                DestroyCourse(ReadyReplica(old(w), found.status.id), old(w).sets, old(w).claims, found.status, w, n, snapshot) == AsPlanned
    {
      var safe, ok, ws := EvacuateBeforeStop(n, found, snapshot);
      ghost var mid := w;
      if ok && safe {
        TearDown(n, ws);
      }
      if calm && old(w.store[n]) == found {
        DestroyComesOut(old(w), mid, w, n, found, snapshot, safe, ws);
      }
    }

    // ---- Provisioning ----

    /** One listing of the workspaces, in no particular order. */
    method ListNames() returns (names: seq<Name>)
      ensures Ownership.Enumerates(names, w.store)
    {
      names := [];
      var rest := w.store.Keys;
      while rest != {}
        invariant forall m :: m in w.store <==> m in rest || m in names
        invariant forall m :: m in rest ==> m !in names
        invariant forall i, j :: 0 <= i < j < |names| ==> names[i] != names[j]
        decreases rest
      {
        var m :| m in rest;
        names := names + [m];
        rest := rest - {m};
      }
    }

    /** `mirrorCanonical`. */
    method MirrorCanonical(n: Name, ws: Workspace, phase: Phase, id: string)
      requires Valid() && Synced(w, n, ws) && n !in w.history.solo && phase != Terminating && BranchId(w, ws, id)
      modifies `w, `trace
      ensures Valid()
      ensures calm && old(w.store[n]) == ws ==>
                n in w.store && w.store[n].status == ws.status.(phase := phase, id := id, duplicate := true) && w.sets == old(w.sets) && w.claims == old(w.claims)
    {
      EnvironmentBeforeIdWrite(n, ws, id);
      if w.store[n] == ws {
        MirrorLegal(w, n, phase, id);
      }
      var _, _ := UpdateStatus(n, ws, MirrorStatus(ws.status, phase, id), Plain);
    }

    method RecordId(n: Name, ws: Workspace, id: string) returns (ok: bool, ws': Workspace)
      requires Valid() && Synced(w, n, ws) && ws.status.phase == Provisioning && ws.status.id == "" && id != ""
      requires RoomFor(w, n) && FreeId(w, n, id)
      modifies `w, `trace
      ensures Valid() && w.history.pass == old(w.history.pass)
      ensures ok ==> Synced(w, n, ws') && ws' == ws.(version := ws'.version, status := ws.status.(id := id))
      ensures calm && old(w.store[n]) == ws ==>
                && ok && n in w.store && w.store[n] == ws'
                && w.sets == old(w.sets) && w.claims == old(w.claims) && w.clock == old(w.clock)
    {
      EnvironmentBeforeIdWrite(n, ws, id);
      if w.store[n] == ws {
        AllocateLegal(w, n, id);
      }
      ok, ws' := UpdateStatus(n, ws, ws.status.(id := id), Plain);
    }

    method RecordFailed(n: Name, ws: Workspace)
      requires Valid() && Synced(w, n, ws) && ws.status.phase == Provisioning
      modifies `w, `trace
      ensures Valid()
      ensures calm && old(w.store[n]) == ws ==>
                n in w.store && w.store[n].status == ws.status.(phase := Failed) && w.sets == old(w.sets) && w.claims == old(w.claims)
    {
      Environment(n, ws);
      if w.store[n] == ws {
        FailedLegal(w, n);
      }
      var _, _ := UpdateStatus(n, ws, ws.status.(phase := Failed), Plain);
    }

    /** `failAndRollback`; `substrate` says whether a resource name was passed along. */
    method FailAndRollback(n: Name, ws: Workspace, substrate: bool)
      requires Valid() && Synced(w, n, ws) && ws.status.phase == Provisioning
      requires w.history.pass == NewPass(n, w.history.pass.target, true).(sawReplica := w.history.pass.sawReplica)
      modifies `w, `trace
      ensures Valid()
      ensures calm && old(w.store[n]) == ws ==>
                && n in w.store && w.store[n].status == ws.status.(phase := Failed)
                && w.sets == (if substrate then old(w.sets) - {ws.status.id} else old(w.sets))
                && w.claims == (if substrate then old(w.claims) - {ws.status.id} else old(w.claims))
    {
      if substrate {
        var ok := DeleteStatefulSet(n, ws);
        if !ok {
          return;
        }
        ok := DeleteClaim(n, ws);
        var _, released := Call();
        if !ok || !released {
          return;
        }
      }
      RecordFailed(n, ws);
    }

    /** `requeueOrFail`: wait, or give up once the provisioning deadline has passed. */
    method RequeueOrFail(n: Name, ws: Workspace, substrate: bool)
      requires Valid() && Synced(w, n, ws) && ws.status.phase == Provisioning
      requires w.history.pass == NewPass(n, w.history.pass.target, true).(sawReplica := w.history.pass.sawReplica)
      modifies `w, `trace
      ensures Valid()
      ensures calm && old(w.store[n]) == ws && !TimedOut(old(w), ws) ==> w == old(w)
      ensures calm && old(w.store[n]) == ws && TimedOut(old(w), ws) ==>
                && n in w.store && w.store[n].status == ws.status.(phase := Failed)
                && w.sets == (if substrate then old(w.sets) - {ws.status.id} else old(w.sets))
                && w.claims == (if substrate then old(w.claims) - {ws.status.id} else old(w.claims))
    {
      Environment(n, ws);
      if w.clock - ws.created >= PROVISIONING_TIMEOUT {
        FailAndRollback(n, ws, substrate);
      }
    }

    /** `markReady`. */
    method MarkReady(n: Name, ws: Workspace)
      requires Valid() && Synced(w, n, ws) && ws.status.phase == Provisioning && ws.status.id != ""
      requires w.history.pass.subject == n && w.history.pass.sawReplica
      requires ws.status.id in w.sets && ws.status.id in w.claims
      modifies `w, `trace
      ensures Valid()
      ensures calm && old(w.store[n]) == ws ==>
                n in w.store && w.store[n].status == ws.status.(phase := Ready, lastActivity := Some(Stored(old(w).clock))) && w.sets == old(w.sets) && w.claims == old(w.claims)
    {
      Environment(n, ws);
      if w.store[n] == ws {
        ReadyLegal(w, n);
      }
      var _, _ := UpdateStatus(n, ws, ReadyStatus(ws.status, w.clock), Use);
    }

    /** Volume, document, StatefulSet: the creation half of `reconcileProvisioning`. */
    method CreateSubstrate(n: Name, ws: Workspace, a: Answers) returns (ok: bool)
      requires Valid() && Synced(w, n, ws) && ws.status.id != ""
      modifies `w, `trace
      ensures Valid() && Synced(w, n, ws) && w.history.pass == old(w.history.pass)
      ensures ok ==> ws.status.id in w.claims && ws.status.id in w.sets
      ensures calm ==>
                && (ok <==> a.database && a.document)
                && w == old(w).(
                     claims := if a.database && ws.status.id !in old(w).claims then old(w).claims[ws.status.id := n] else old(w).claims,
                     sets := if a.database && a.document && ws.status.id !in old(w).sets then old(w).sets[ws.status.id := ComputeSet(n, 1, 0)] else old(w).sets)
    {
      ok := false;
      if a.database {
        ok := EnsureClaim(n, ws);
        ok := ok && a.document;
        if ok {
          ok := EnsureStatefulSet(n, ws);
        }
      }
    }

    /** `reconcileProvisioning` from the point where the workspace has its id. */
    method ProvisionSubstrate(n: Name, ws: Workspace, a: Answers)
      requires Valid() && Synced(w, n, ws) && ws.status.phase == Provisioning && ws.status.id != ""
      requires w.history.pass == NewPass(n, w.history.pass.target, true)
      modifies `w, `trace
      ensures Valid()
      ensures calm && old(w.store[n]) == ws ==> SubstrateOutcome(old(w).sets, old(w).claims, old(w).clock, ws.created, ws.status, w, n, a)
    {
      var ok := CreateSubstrate(n, ws, a);
      if !ok {
        RequeueOrFail(n, ws, true);
        return;
      }
      var ready;
      ok, ready := SeesReplica(n, ws);
      if !ok {
        return;
      }
      if !ready || !a.routing {
        RequeueOrFail(n, ws, true);
        return;
      }
      MarkReady(n, ws);
    }

    /** `reconcileAdmission`, followed by the status write that clears a standing wait: the gates in
        order, each one short-circuiting. */
    method Admit(n: Name, ws: Workspace, a: Answers) returns (admitted: bool, ws': Workspace)
      requires Valid() && Synced(w, n, ws) && ws.template in w.templates
      modifies `w, `trace
      ensures Valid() && w.history.pass == old(w.history.pass)
      ensures admitted ==> Synced(w, n, ws') && RoomFor(w, n) && ws' == ws.(version := ws'.version)
      ensures calm ==> w == old(w) && (admitted <==> AdmissionOpen(old(w), n, ws, a)) && (admitted ==> ws' == ws)
    {
      EnvironmentBeforeIdWrite(n, ws, "");
      var blocked := !a.imageStaged;
      if !blocked {
        var room := Admission.ResourceQuotaHasRoom(a.quota);
        blocked := !room;
      }
      if !blocked {
        var names := ListNames();
        var room := Admission.NodeDiskBudgetHasRoom(w, names, n, w.templates[ws.template]);
        blocked := !room;
      }
      if blocked {
        admitted, ws' := Incidental(n, ws);
        return false, ws';
      }
      Admission.CheckMeansRoom(w, n);
      admitted, ws' := ClearWait(n, ws);
    }

    method ClearWait(n: Name, ws: Workspace) returns (ok: bool, ws': Workspace)
      requires Valid() && Synced(w, n, ws) && RoomFor(w, n)
      modifies `w, `trace
      ensures Valid() && w.history.pass == old(w.history.pass)
      ensures ok ==> Synced(w, n, ws') && RoomFor(w, n) && ws' == ws.(version := ws'.version)
      ensures calm ==> ok && ws' == ws && w == old(w)
    {
      EnvironmentBeforeIdWrite(n, ws, "");
      var fails: bool, writes: bool := *, *;
      ok, ws' := calm || !fails, ws;
      if !calm && !fails && writes {
        if w.store[n] == ws {
          PlainLegal(w, n, ws.status.evacuated);
        }
        ok, ws' := UpdateStatus(n, ws, ws.status, Plain);
      }
    }

    /** `resolveResourceName` for a workspace without an id; a failed listing counts as no name. */
    method DeriveName(n: Name, ws: Workspace) returns (derived: Option<string>)
      requires Valid() && Synced(w, n, ws) && RoomFor(w, n)
      modifies `w, `trace
      ensures Valid() && Synced(w, n, ws) && RoomFor(w, n) && w.history.pass == old(w.history.pass)
      ensures derived.Some? ==> derived.value != "" && FreeId(w, n, derived.value)
      ensures calm ==> w == old(w) && derived == Naming.DeriveResourceName(ws.branch, shortHash(ws.branch), Taken(w.store, n))
    {
      EnvironmentBeforeIdWrite(n, ws, "");
      DerivedNameIsFree(w, n, ws.branch, shortHash(ws.branch));
      var _, listed := Call();
      derived := if listed then Naming.DeriveResourceName(ws.branch, shortHash(ws.branch), Taken(w.store, n)) else None;
    }

    /** The derived name is claimed by a status write before anything is created under it. */
    method ClaimName(n: Name, ws: Workspace, a: Answers, derived: Option<string>)
      requires Valid() && Synced(w, n, ws) && ws.status.phase == Provisioning && ws.status.id == "" && RoomFor(w, n)
      requires derived.Some? ==> derived.value != "" && FreeId(w, n, derived.value)
      requires w.history.pass == NewPass(n, w.history.pass.target, true)
      modifies `w, `trace
      ensures Valid()
      ensures calm && old(w.store[n]) == ws ==> NamedOutcome(old(w), w, n, a, derived)
    {
      if derived.None? {
        FailAndRollback(n, ws, false);
        return;
      }
      var ok, named := RecordId(n, ws, derived.value);
      if ok {
        ProvisionSubstrate(n, named, a);
      }
    }

    /** `reconcileProvisioning`. */
    method ReconcileProvisioning(n: Name, ws: Workspace, a: Answers)
      requires Valid() && Synced(w, n, ws) && ws.status.phase == Provisioning
      requires w.history.pass == NewPass(n, w.history.pass.target, true)
      modifies `w, `trace
      ensures Valid()
      ensures calm && old(w.store[n]) == ws ==> ProvisionOutcome(old(w), w, n, a, shortHash(ws.branch))
    {
      Environment(n, ws);
      var _, listed := Call();
      if !listed {
        return;
      }
      var names := ListNames();
      var answer := Ownership.FindCanonical(w.store, names, n, ws);
      assert Ownership.CanonicalAnswer(w.store, ws, n, answer);
      if answer.Some? {
        var canonical := w.store[answer.value];
        MirrorIsAllowed(w, n, ws, answer.value);
        MirrorCanonical(n, ws, canonical.status.phase, canonical.status.id);
        return;
      }
      if ws.template !in w.templates {
        RequeueOrFail(n, ws, false);
      } else if ws.status.id != "" {
        ProvisionSubstrate(n, ws, a);
      } else {
        var admitted, ws' := Admit(n, ws, a);
        if admitted {
          var derived := DeriveName(n, ws');
          ClaimName(n, ws', a, derived);
        }
      }
    }

    // ---- a whole pass, and whole runs ----

    /** Outside moves between passes. */
    method Outside()
      requires Valid()
      modifies `w, `trace
      ensures Valid() && (calm ==> w == old(w))
    {
      OutsideKeepsPass();
    }

    method BeginPass(n: Name)
      requires Valid() && n in w.store
      modifies `w, `trace
      ensures Valid() && w == Begun(old(w), n)
    {
      SubstrateStepKeeps(w, Begun(w, n));
      Advance(Begun(w, n));
    }

    /** The finalizer is put on before anything else happens to a live workspace. */
    method AddFinalizer(n: Name, found: Workspace) returns (ok: bool, ws: Workspace)
      requires Valid() && n in w.store && w.store[n] == found && !found.finalizer && n == w.history.pass.subject
      modifies `w, `trace
      ensures Valid() && w.history.pass == old(w.history.pass)
      ensures ok ==> n in w.store && w.store[n] == ws && ws == found.(finalizer := true, version := ws.version)
      ensures calm ==> ok && w == PutFinalizer(old(w), n)
    {
      var pass := w.history.pass;
      ws := found;
      OutsideKeepsPass();
      var reaches, answered := Call();
      ok := false;
      if reaches && n in w.store && w.store[n] == found {
        PutFinalizerKeeps(w, n);
        Advance(PutFinalizer(w, n));
        ok, ws := answered, w.store[n];
      }
    }

    method OutsideKeepsPass()
      requires Valid()
      modifies `w, `trace
      ensures Valid() && w.history.pass == old(w.history.pass) && (calm ==> w == old(w))
    {
      var rounds: int := *;
      while rounds > 0 && !calm
        invariant Valid() && w.history.pass == old(w.history.pass) && (calm ==> w == old(w))
      {
        var next: World := *;
        if EnvMoves(w, next) {
          EnvironmentIsHarmless(w, next);
          Advance(next);
        }
        rounds := rounds - 1;
      }
    }

    /** `Reconcile`: one pass over one workspace. */
    method Reconcile(n: Name, a: Answers)
      requires Valid()
      modifies `w, `trace
      ensures Valid()
      ensures calm && n in old(w.store) ==> PassCourse(old(w), w, n, a, shortHash(old(w.store)[n].branch)) == AsPlanned
    {
      Outside();
      var _, readable := Call();
      if !readable || n !in w.store {
        return;
      }
      var ws := w.store[n];
      assert ObjectInv(w, n);
      BeginPass(n);
      if ws.deleting {
        ReconcileTerminating(n, ws, a.snapshot);
      } else {
        Prepare(n, ws, a);
      }
    }

    /** A live workspace: the finalizer first, then the phase. */
    method Prepare(n: Name, found: Workspace, a: Answers)
      requires Valid() && n in w.store && w.store[n] == found && !found.deleting
      requires w.history.pass == NewPass(n, found.status.id, found.status.phase == Provisioning)
      modifies `w, `trace
      ensures Valid()
      ensures calm ==> LiveCourse(if found.finalizer then old(w) else PutFinalizer(old(w), n), w, n, a, shortHash(found.branch)) == AsPlanned
    {
      var ws := found;
      if !ws.finalizer {
        var ok;
        ok, ws := AddFinalizer(n, ws);
        if !ok {
          return;
        }
      }
      assert ObjectInv(w, n);
      ReconcileLive(n, ws, a);
    }

    /** The phase switch of `Reconcile`. */
    method ReconcileLive(n: Name, ws: Workspace, a: Answers)
      requires Valid() && Synced(w, n, ws) && ws.status.phase != Terminating
      requires w.history.pass == NewPass(n, ws.status.id, ws.status.phase == Provisioning)
      modifies `w, `trace
      ensures Valid()
      ensures calm && old(w.store[n]) == ws ==> LiveCourse(old(w), w, n, a, shortHash(ws.branch)) == AsPlanned
    {
      match ws.status.phase
      case Ready => ReconcileReady(n, ws, a.connected, a.snapshot);
      case Suspended => ReconcileSuspended(n, ws);
      case Failed =>
      case Provisioning => ReconcileProvisioning(n, ws, a);
    }

    /** Any number of passes over any workspaces, in any order, with anything happening in between:
        every state satisfies the invariant and every step respects the gates. */
    method Run(schedule: seq<(Name, Answers)>)
      requires Valid()
      modifies this
      ensures Valid() && old(trace) <= trace && Lawful(trace)
    {
      anchor := trace;
      for k := 0 to |schedule|
        invariant Valid() && anchor == old(trace)
      {
        Reconcile(schedule[k].0, schedule[k].1);
      }
      Outside();
    }
  }
}
