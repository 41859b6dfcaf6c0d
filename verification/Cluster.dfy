/** The API server as the workspace controller sees it: Workspace objects with versions, the
    StatefulSets and PVCs named after workspace ids, a clock, what may change behind the
    controller's back, and the properties every state and every step must have. */
module Cluster {
  import opened Orders

  type Name = string

  const SECOND: nat := 1_000_000_000
  const IDLE_SUSPEND_TIMEOUT: nat := 30 * 60 * SECOND
  const SUSPENDED_RETENTION: nat := 7 * 24 * 3600 * SECOND
  const PROVISIONING_TIMEOUT: nat := 180 * SECOND

  /** Times reach the API server with whole-second resolution. */
  function Stored(t: nat): (r: nat)
    ensures r <= t < r + SECOND && r % SECOND == 0
  {
    t - t % SECOND
  }

  /** The empty phase and Provisioning take the same branch everywhere and are one value here. */
  datatype Phase = Provisioning | Ready | Suspended | Failed | Terminating

  datatype Reason = IdleTimeout | SuspendRequested | Resumed

  datatype Condition = Condition(status: bool, since: nat, reason: Reason)

  /** `meta.SetStatusCondition` with an explicit transition time: the time moves only when the
      status flips. */
  function SetCondition(previous: Option<Condition>, status: bool, reason: Reason, now: nat): Condition {
    if previous.Some? && previous.value.status == status
    then Condition(status, previous.value.since, reason)
    else Condition(status, Stored(now), reason)
  }

  datatype Status = Status(
    phase: Phase,
    id: string,
    lastActivity: Option<nat>,
    lastEvacuation: Option<nat>,
    evacuated: Option<bool>,
    suspended: Option<Condition>,
    resumeRequested: bool,
    destroyCandidate: bool,
    duplicate: bool)

  datatype Workspace = Workspace(
    repository: string,
    branch: string,
    created: nat,
    template: string,
    suspendWanted: bool,
    deleting: bool,
    finalizer: bool,
    version: nat,
    status: Status)

  datatype Template = Template(node: string, size: nat, budget: Option<nat>)

  datatype ComputeSet = ComputeSet(owner: Name, replicas: nat, ready: nat)

  /** What the pass in progress is about, and what it has seen and done so far: the workspace and the
      id it had, whether it may roll provisioning back, whether it found no ready replica or one, was
      told of a snapshot, put one on record, or was refused one. */
  datatype Pass = Pass(
    subject: Name,
    target: string,
    rollback: bool,
    sawNoReplica: bool,
    sawReplica: bool,
    reported: bool,
    captured: bool,
    refused: bool)

  /** A pass that has just begun. */
  function NewPass(n: Name, target: string, rollback: bool): Pass {
    Pass(n, target, rollback, false, false, false, false, false)
  }

  /** Facts about the past that the objects themselves do not carry. `solo` holds the workspaces
      that never shared their repository and branch with another object, `passes` counts the passes
      begun. */
  datatype History = History(
    pass: Pass,
    passes: nat,
    solo: set<Name>,
    everReady: set<Name>,
    enteredAt: map<Name, nat>,
    lastUse: map<Name, nat>)

  datatype World = World(
    templates: map<string, Template>,
    store: map<Name, Workspace>,
    sets: map<string, ComputeSet>,
    claims: map<string, Name>,
    clock: nat,
    revision: nat,
    history: History)

  const FRESH_STATUS: Status := Status(Provisioning, "", None, None, None, None, false, false, false)

  predicate SameBranch(a: Workspace, b: Workspace) {
    a.repository == b.repository && a.branch == b.branch
  }

  // ---- disk budget ----

  /** The sum of the values of a map. */
  ghost function SumOf(m: map<Name, nat>): nat
    decreases |m|
  {
    if m == map[] then 0
    else
      var k :| k in m;
      m[k] + SumOf(m - {k})
  }

  lemma {:induction false} SumSplit(m: map<Name, nat>, k: Name)
    requires k in m
    ensures SumOf(m) == m[k] + SumOf(m - {k})
    decreases |m|
  {
    var j :| j in m && SumOf(m) == m[j] + SumOf(m - {j});
    if j != k {
      SumSplit(m - {j}, k);
      SumSplit(m - {k}, j);
      assert m - {j} - {k} == m - {k} - {j};
    }
  }

  /** Replacing one entry of a map. */
  lemma SumExcept(m: map<Name, nat>, m': map<Name, nat>, k: Name)
    requires k in m && m.Keys == m'.Keys
    requires forall j :: j in m && j != k ==> m'[j] == m[j]
    ensures SumOf(m') == m'[k] + SumOf(m - {k})
    ensures SumOf(m) == m[k] + SumOf(m - {k})
  {
    SumSplit(m, k);
    SumSplit(m', k);
    assert m - {k} == m' - {k};
  }

  lemma {:induction false} SumMonotone(m: map<Name, nat>, more: map<Name, nat>)
    requires forall k :: k in m ==> if k in more then m[k] <= more[k] else m[k] == 0
    ensures SumOf(m) <= SumOf(more)
    decreases |m|
  {
    if m != map[] {
      var k :| k in m;
      SumSplit(m, k);
      SumMonotone(m - {k}, more - {k});
      if k in more {
        SumSplit(more, k);
      } else {
        assert more - {k} == more;
      }
    }
  }

  /** The workspaces whose declared size the node is committed to: admitted, not failed, not on
      their way out, and not a mirror of another one. */
  predicate Admitted(o: Workspace) {
    o.status.id != "" && o.status.phase != Failed && !o.deleting && !o.status.duplicate
  }

  function SizeOn(templates: map<string, Template>, o: Workspace, node: string): nat {
    if o.template in templates && templates[o.template].node == node then templates[o.template].size else 0
  }

  function Share(templates: map<string, Template>, o: Workspace, node: string): nat {
    if Admitted(o) then SizeOn(templates, o, node) else 0
  }

  ghost function Shares(w: World, node: string): map<Name, nat> {
    map n | n in w.store :: Share(w.templates, w.store[n], node)
  }

  ghost function Committed(w: World, node: string): nat {
    SumOf(Shares(w, node))
  }

  /** Every template that targets the node declares the same budget for it. */
  ghost predicate CommonBudget(templates: map<string, Template>, node: string, budget: nat) {
    forall t :: t in templates && templates[t].node == node ==> templates[t].budget == Some(budget)
  }

  /** Admitting `n` keeps every node within its budget. */
  ghost predicate RoomFor(w: World, n: Name) {
    n in w.store ==>
      forall node, budget: nat :: CommonBudget(w.templates, node, budget) ==>
        SumOf(Shares(w, node) - {n}) + SizeOn(w.templates, w.store[n], node) <= budget
  }

  ghost predicate WithinBudget(w: World) {
    forall node, budget: nat :: CommonBudget(w.templates, node, budget) ==> Committed(w, node) <= budget
  }

  // ---- invariant of every reachable state ----

  /** What holds of a workspace that never shared its branch. */
  ghost predicate SoloInv(w: World, n: Name)
    requires n in w.store
  {
    var s, h := w.store[n].status, w.history;
    && !s.duplicate
    && (s.phase == Ready || s.phase == Suspended ==> n in h.everReady)
    && (n in h.everReady ==> s.id != "")
    && (n in h.everReady ==> (s.phase == Ready || s.phase == Suspended || s.phase == Terminating) && w.store[n].finalizer)
    // the suspension record
    && (s.phase == Suspended ==>
          && s.suspended.Some? && s.suspended.value.status
          && n in h.enteredAt && h.enteredAt[n] <= w.clock
          && s.suspended.value.since == Stored(h.enteredAt[n]))
    && (s.phase == Ready ==> !s.resumeRequested && !s.destroyCandidate && (s.suspended.Some? ==> !s.suspended.value.status))
    && (s.phase == Provisioning || s.phase == Failed ==> !s.resumeRequested && !s.destroyCandidate && s.suspended.None?)
    && (s.destroyCandidate ==> n in h.enteredAt && Stored(h.enteredAt[n]) + SUSPENDED_RETENTION <= w.clock)
    // the activity record
    && (s.lastActivity.Some? <==> n in h.lastUse)
    && (n in h.lastUse ==> h.lastUse[n] <= w.clock && s.lastActivity == Some(Stored(h.lastUse[n])))
    && (n in h.everReady ==> n in h.lastUse)
  }

  ghost predicate ObjectInv(w: World, n: Name)
    requires n in w.store
  {
    && w.store[n].version <= w.revision
    && (w.store[n].status.phase == Terminating ==> w.store[n].deleting)
    && (w.store[n].deleting ==> w.store[n].finalizer)
    && (n in w.history.solo ==> SoloInv(w, n))
  }

  /** Two objects with one id are of one branch, and at most one of them is unmarked. */
  ghost predicate IdsInv(w: World) {
    forall m, n :: m in w.store && n in w.store && m != n && w.store[m].status.id == w.store[n].status.id != "" ==>
      && SameBranch(w.store[m], w.store[n])
      && (w.store[m].status.duplicate || w.store[n].status.duplicate)
  }

  ghost predicate SoloAlone(w: World) {
    && w.history.solo <= w.store.Keys
    && (forall m, n :: n in w.history.solo && m in w.store && m != n ==> !SameBranch(w.store[m], w.store[n]))
  }

  /** Compute and volumes are owned by live objects that hold the finalizer; a solo owner's are
      filed under its own id. */
  ghost predicate SubstrateInv(w: World) {
    && (forall i :: i in w.claims ==>
          && i != ""
          && w.claims[i] in w.store && w.store[w.claims[i]].finalizer
          && (w.claims[i] in w.history.solo ==> w.store[w.claims[i]].status.id == i))
    && (forall i :: i in w.sets ==>
          && i != ""
          && w.sets[i].owner in w.store && w.store[w.sets[i].owner].finalizer)
  }

  ghost predicate Inv(w: World) {
    && (forall n :: n in w.store ==> ObjectInv(w, n))
    && w.history.everReady <= w.store.Keys
    && IdsInv(w)
    && SoloAlone(w)
    && SubstrateInv(w)
    && WithinBudget(w)
  }

  // ---- what every single step must respect ----

  ghost predicate Protected(w: World, n: Name) {
    n in w.history.solo && n in w.history.everReady && n in w.store
  }

  /** A volume goes only behind a recorded evacuation, in a pass over its own deleted workspace. */
  ghost predicate VolumeGate(w: World, w': World) {
    forall i :: i in w.claims && Protected(w, w.claims[i]) && !(i in w'.claims && w'.claims[i] == w.claims[i]) ==>
      var n := w.claims[i];
      && w.store[n].deleting
      && w.store[n].status.lastEvacuation.Some?
      && w.history.pass.subject == n && !w.history.pass.refused
  }

  /** The finalizer goes only after compute and volume are gone, behind the same evacuation. */
  ghost predicate FinalizerGate(w: World, w': World) {
    forall n :: Protected(w, n) && !(n in w'.store && w'.store[n].finalizer) ==>
      var o := w.store[n];
      && o.deleting
      && o.status.lastEvacuation.Some?
      && o.status.id !in w.claims && o.status.id !in w.sets
      && !w.history.pass.refused
  }

  predicate ReadyReplica(w: World, id: string) {
    id in w.sets && w.sets[id].ready >= 1
  }

  /** When a pass may stop compute: a rollback, that of its workspace; any other pass that of the id
      it is about, having seen no ready replica or put a snapshot on record, and not been refused. */
  predicate MayStop(w: World, id: string) {
    var p := w.history.pass;
    if p.rollback then p.subject in w.store && w.store[p.subject].status.id == id
    else p.target == id && (p.sawNoReplica || p.captured) && !p.refused
  }

  /** Compute stops only where the pass in progress may stop it. */
  ghost predicate StopGate(w: World, w': World) {
    forall i :: i in w.sets && w.sets[i].replicas > 0 && !StillRuns(w, w', i) && w.sets[i].owner in w'.store ==> MayStop(w, i)
  }

  /** The StatefulSet is the same one and still asks for replicas. */
  predicate StillRuns(w: World, w': World, id: string)
    requires id in w.sets
  {
    id in w'.sets && w'.sets[id].replicas > 0 && w'.sets[id].owner == w.sets[id].owner
  }

  /** A status with a snapshot put on record, and nothing else changed. */
  predicate RecordsSnapshot(before: Status, after: Status) {
    after.lastEvacuation.Some? && after == before.(lastEvacuation := after.lastEvacuation, evacuated := Some(true))
  }

  /** This very step put a snapshot of the workspace on record. */
  predicate Captures(w: World, w': World, n: Name) {
    && n in w.store && n in w'.store
    && w.revision < w'.store[n].version && RecordsSnapshot(w.store[n].status, w'.store[n].status)
  }

  /** What a pass notes is so: no ready replica when it says so, a ready one when it says so, a
      snapshot recorded in that step. Nothing is forgotten before the next pass begins, and after a
      refusal no permission is added. */
  ghost predicate PassGoesOn(w: World, w': World) {
    var p, p' := w.history.pass, w'.history.pass;
    && p'.subject == p.subject && p'.target == p.target && p'.rollback == p.rollback
    && (p.sawNoReplica ==> p'.sawNoReplica) && (p.sawReplica ==> p'.sawReplica)
    && (p.reported ==> p'.reported) && (p.captured ==> p'.captured) && (p.refused ==> p'.refused)
    && (p'.sawNoReplica && !p.sawNoReplica ==> !p.refused && !ReadyReplica(w, p.target))
    && (p'.sawReplica && !p.sawReplica ==> p.subject in w.store && ReadyReplica(w, w.store[p.subject].status.id))
    && (p'.captured && !p.captured ==> !p.refused && p.reported && Captures(w, w', p.subject))
    && (p'.refused && !p.refused ==> !p.sawNoReplica && !p.captured)
  }

  /** A pass begins over a workspace as it is stored, with nothing noted and nothing changed; it may
      roll back only a live workspace that is still being provisioned. */
  ghost predicate PassBegins(w: World, w': World) {
    var p' := w'.history.pass;
    && w' == w.(history := w.history.(pass := p', passes := w.history.passes + 1))
    && p'.subject in w.store && p'.target == w.store[p'.subject].status.id
    && p' == NewPass(p'.subject, p'.target, !w.store[p'.subject].deleting && w.store[p'.subject].status.phase == Provisioning)
  }

  ghost predicate PassGate(w: World, w': World) {
    if w'.history.passes == w.history.passes then PassGoesOn(w, w') else PassBegins(w, w')
  }

  /** An evacuation is put on record only by a pass over that workspace that was told of one. */
  predicate RecordGate(w: World, w': World) {
    forall n :: n in w'.store && w'.store[n].status.lastEvacuation.Some? ==>
      && n in w.store
      && (w.store[n].status.lastEvacuation.Some? || (w.history.pass.subject == n && w.history.pass.reported))
  }

  /** A resume is asked for only by activity that is marked, in this very step, on a suspended
      workspace. */
  predicate ResumeGate(w: World, w': World) {
    forall n :: n in w'.store && w'.store[n].status.resumeRequested ==>
      && n in w.store
      && (w.store[n].status.resumeRequested || AskedToResume(w, w', n))
  }

  predicate AskedToResume(w: World, w': World, n: Name) {
    && n in w.store && n in w'.store && w.store[n].status.phase == Suspended && !w.store[n].status.resumeRequested
    && n in w'.history.lastUse && w.clock <= w'.history.lastUse[n] <= w'.clock
    && w'.store[n].status == w.store[n].status.(lastActivity := Some(Stored(w'.history.lastUse[n])), resumeRequested := true)
    && w'.history.pass == w.history.pass
  }

  /** A pass writes no workspace but its own: of any other only the activity mark may change, and that
      from outside, unless it is replaced by a new object. */
  predicate OwnGate(w: World, w': World) {
    forall m :: m in w.store && m in w'.store && m != w.history.pass.subject && !NewObject(w, w', m) ==>
      var o, o' := w.store[m], w'.store[m];
      && o'.finalizer == o.finalizer
      && o'.status == o.status.(lastActivity := o'.status.lastActivity, resumeRequested := o'.status.resumeRequested)
  }

  /** No other object has the same branch. */
  predicate AloneNow(w: World, n: Name)
    requires n in w.store
  {
    forall m :: m in w.store && m != n ==> !SameBranch(w.store[m], w.store[n])
  }

  /** A workspace that no other shares its branch with, and that was alone before or is new, is alone. */
  predicate SoloGate(w: World, w': World) {
    forall n :: n in w'.store && (n in w.store ==> n in w.history.solo) && AloneNow(w', n) ==> n in w'.history.solo
  }

  /** The phase machine of a workspace that never shared its branch. */
  predicate PhaseStep(before: Phase, after: Phase) {
    || before == after
    || after == Terminating
    || (before == Provisioning && (after == Ready || after == Failed))
    || (before == Ready && after == Suspended)
    || (before == Suspended && after == Ready)
  }

  ghost predicate PhaseGate(w: World, w': World) {
    forall n :: n in w.store && n in w'.store && n in w'.history.solo && w.store[n].finalizer ==>
      var o, o' := w.store[n], w'.store[n];
      && PhaseStep(o.status.phase, o'.status.phase)
      && (o.status.id != "" ==> o'.status.id == o.status.id)
      && (o.status.phase != Suspended && o'.status.phase == Suspended ==> SuspendStep(w, n, o'))
      && (o.status.phase != Ready && o'.status.phase == Ready ==> ReadyStep(w, n, o'))
      && RecordsMove(w, w', n)
  }

  /** The moment of suspension is set on entry and kept; the last use only moves forward. */
  ghost predicate RecordsMove(w: World, w': World, n: Name)
    requires n in w.store && n in w'.store
  {
    var h, h' := w.history, w'.history;
    && (w'.store[n].status.phase == Suspended && w.store[n].status.phase != Suspended ==> n in h'.enteredAt && h'.enteredAt[n] == w.clock)
    && (w'.store[n].status.phase == Suspended && w.store[n].status.phase == Suspended ==>
          (n in h.enteredAt ==> n in h'.enteredAt && h'.enteredAt[n] == h.enteredAt[n]))
    && (n in h.lastUse ==> n in h'.lastUse && h.lastUse[n] <= h'.lastUse[n])
    && (n in h.everReady ==> n in h'.everReady)
  }

  /** Suspending: compute is already scaled down; an idle suspension comes 30 minutes or more
      after the second in which any use was last recorded. */
  ghost predicate SuspendStep(w: World, n: Name, o': Workspace)
    requires n in w.store
  {
    var o := w.store[n];
    && o'.status.suspended.Some?
    && (o.status.id in w.sets ==> w.sets[o.status.id].replicas == 0)
    && (match o'.status.suspended.value.reason
        case IdleTimeout => !o.suspendWanted && n in w.history.lastUse && Stored(w.history.lastUse[n]) + IDLE_SUSPEND_TIMEOUT <= w.clock
        case SuspendRequested => o.suspendWanted
        case Resumed => false)
  }

  /** Becoming Ready: this pass saw a ready replica; a resume was asked for and runs one replica;
      a first start has its volume. */
  ghost predicate ReadyStep(w: World, n: Name, o': Workspace)
    requires n in w.store
  {
    var o := w.store[n];
    && w.history.pass.subject == n && w.history.pass.sawReplica
    && o'.status.id in w.sets
    && (o.status.phase == Suspended ==> o.status.resumeRequested && w.sets[o'.status.id].replicas == 1)
    && (o.status.phase == Provisioning ==> o'.status.id in w.claims)
  }

  ghost predicate Safe(w: World, w': World) {
    && VolumeGate(w, w') && FinalizerGate(w, w') && StopGate(w, w') && PhaseGate(w, w') && PassGate(w, w') && SoloGate(w, w')
    && RecordGate(w, w') && ResumeGate(w, w') && OwnGate(w, w')
  }

  /** A run: every state satisfies the invariant, every step respects the gates. */
  ghost predicate Lawful(run: seq<World>) {
    && run != []
    && (forall i :: 0 <= i < |run| ==> Inv(run[i]))
    && (forall i :: 0 <= i < |run| - 1 ==> Safe(run[i], run[i + 1]))
  }

  lemma LawfulExtends(run: seq<World>, next: World)
    requires Lawful(run) && Inv(next) && Safe(run[|run| - 1], next)
    ensures Lawful(run + [next])
  {
    var more := run + [next];
    forall i | 0 <= i < |more| ensures Inv(more[i]) {
      if i < |run| {
        assert more[i] == run[i];
      }
    }
    forall i | 0 <= i < |more| - 1 ensures Safe(more[i], more[i + 1]) {
      assert more[i] == run[i];
      if i < |run| - 1 {
        assert more[i + 1] == run[i + 1];
      }
    }
  }

  // ---- what may change behind the controller's back ----

  /** An object as the rest of the world may leave it: status is the controller's own, except for
      the activity mark, and a finalizer stays until the controller takes it off. */
  predicate ObjectMoves(w: World, w': World, n: Name)
    requires n in w.store && n in w'.store
  {
    var o, o' := w.store[n], w'.store[n];
    && o'.repository == o.repository && o'.branch == o.branch && o'.created == o.created && o'.template == o.template
    && o'.finalizer == o.finalizer
    && (o.deleting ==> o'.deleting)
    && (o'.deleting ==> o.deleting || o.finalizer)
    && (o'.version == o.version ==> o' == o)
    && (o'.version != o.version ==> w.revision < o'.version <= w'.revision)
    && o'.status == o.status.(lastActivity := o'.status.lastActivity, resumeRequested := o'.status.resumeRequested)
    && (n in w'.history.everReady <==> n in w.history.everReady)
    && (n in w.history.enteredAt <==> n in w'.history.enteredAt)
    && (n in w.history.enteredAt ==> w'.history.enteredAt[n] == w.history.enteredAt[n])
    && ActivityMoves(w, w', n)
  }

  predicate ActivityMoves(w: World, w': World, n: Name)
    requires n in w.store && n in w'.store
  {
    var s, s' := w.store[n].status, w'.store[n].status;
    || (&& s'.lastActivity == s.lastActivity && s'.resumeRequested == s.resumeRequested
        && (n in w.history.lastUse <==> n in w'.history.lastUse)
        && (n in w.history.lastUse ==> w'.history.lastUse[n] == w.history.lastUse[n]))
    || (&& n in w'.history.lastUse && w.clock <= w'.history.lastUse[n] <= w'.clock
        && s'.lastActivity == Some(Stored(w'.history.lastUse[n]))
        && s'.resumeRequested == (s.resumeRequested || s.phase == Suspended))
  }

  predicate NewObject(w: World, w': World, n: Name)
    requires n in w'.store
  {
    var o' := w'.store[n];
    && w.revision < o'.version <= w'.revision
    && !o'.deleting && !o'.finalizer
    && o'.status == FRESH_STATUS
    && n !in w'.history.everReady && n !in w'.history.lastUse
  }

  /** Any number of outside actions: users create, delete and re-specify workspaces, activity is
      marked, Pods become ready or stop being so, time passes. An object without the finalizer
      disappears when it is deleted. */
  predicate EnvMoves(w: World, w': World) {
    && w'.templates == w.templates
    && w.clock <= w'.clock && w.revision <= w'.revision
    && w'.history.pass == w.history.pass && w'.history.passes == w.history.passes
    && w'.claims == w.claims
    && w'.sets.Keys == w.sets.Keys
    && (forall i :: i in w.sets ==> w'.sets[i].owner == w.sets[i].owner && w'.sets[i].replicas == w.sets[i].replicas)
    && (forall n :: n in w.store && n !in w'.store ==> !w.store[n].finalizer)
    && (forall n :: n in w'.store ==>
          || (n in w.store && ObjectMoves(w, w', n))
          || ((n in w.store ==> !w.store[n].finalizer) && NewObject(w, w', n)))
    && w'.history.everReady <= w'.store.Keys
    && w'.history.solo <= w'.store.Keys
    && (forall n :: n in w'.history.solo ==>
          && (n in w.history.solo || NewObject(w, w', n))
          && (forall m :: m in w'.store && m != n ==> !SameBranch(w'.store[m], w'.store[n])))
    && SoloGate(w, w')
  }
}
