/** The writes the controller can issue, as functions on the world, and for each of them the
    condition under which it keeps the invariant and respects the gates. */
module ClusterSteps {
  import opened Orders
  import opened Cluster

  lemma ProtectedHaveFinalizer(w: World)
    requires Inv(w)
    ensures forall m :: Protected(w, m) ==> w.store[m].finalizer
  {
    forall m | Protected(w, m) ensures w.store[m].finalizer {
      assert ObjectInv(w, m);
    }
  }

  // ---- environment ----

  lemma EnvKeepsBudget(w: World, w': World)
    requires WithinBudget(w) && EnvMoves(w, w')
    ensures WithinBudget(w')
  {
    forall node, budget: nat | CommonBudget(w'.templates, node, budget) ensures Committed(w', node) <= budget {
      SumMonotone(Shares(w', node), Shares(w, node));
    }
  }

  lemma EnvKeepsIds(w: World, w': World)
    requires Inv(w) && EnvMoves(w, w')
    ensures IdsInv(w')
  {
    forall m, n | m in w'.store && n in w'.store && m != n && w'.store[m].status.id == w'.store[n].status.id != ""
      ensures SameBranch(w'.store[m], w'.store[n])
      ensures w'.store[m].status.duplicate || w'.store[n].status.duplicate
    {
      assert !NewObject(w, w', m) && !NewObject(w, w', n);
      assert ObjectMoves(w, w', m) && ObjectMoves(w, w', n);
    }
  }

  lemma EnvKeepsObject(w: World, w': World, n: Name)
    requires Inv(w) && EnvMoves(w, w') && n in w'.store
    ensures ObjectInv(w', n)
  {
    if n in w.store && ObjectMoves(w, w', n) {
      assert ObjectInv(w, n);
      if n in w'.history.solo && n !in w.history.solo {
        assert NewObject(w, w', n);
      }
    } else {
      assert NewObject(w, w', n);
    }
  }

  lemma EnvKeepsSubstrate(w: World, w': World)
    requires SubstrateInv(w) && EnvMoves(w, w')
    ensures SubstrateInv(w')
  {
    forall n | n in w.store && w.store[n].finalizer ensures n in w'.store && ObjectMoves(w, w', n) {
    }
  }

  lemma EnvRespectsGates(w: World, w': World)
    requires EnvMoves(w, w') && (forall n :: n in w.store ==> ObjectInv(w, n)) && forall n :: Protected(w, n) ==> w.store[n].finalizer
    ensures Safe(w, w')
  {
    forall n | n in w.store && n in w'.store && w.store[n].finalizer ensures ObjectMoves(w, w', n) {
    }
  }

  /** Nothing that happens outside the controller breaks the invariant or passes a gate. */
  lemma EnvironmentIsHarmless(w: World, w': World)
    requires Inv(w) && EnvMoves(w, w')
    ensures Inv(w') && Safe(w, w')
  {
    EnvKeepsBudget(w, w');
    EnvKeepsIds(w, w');
    forall n | n in w'.store ensures ObjectInv(w', n) {
      EnvKeepsObject(w, w', n);
    }
    EnvKeepsSubstrate(w, w');
    ProtectedHaveFinalizer(w);
    EnvRespectsGates(w, w');
  }

  /** The outside actions one by one. */
  datatype Outside =
    | Create(name: Name, initial: Workspace)
    | Delete(name: Name)
    | Want(name: Name, suspended: bool)
    | MarkActivity(name: Name)
    | PodsReady(id: string, ready: nat)
    | Tick(span: nat)

  predicate Enabled(w: World, a: Outside) {
    match a
    case Create(n, o) => n !in w.store && !o.deleting && !o.finalizer && o.status == FRESH_STATUS
    case Delete(n) => n in w.store
    case Want(n, _) => n in w.store
    case MarkActivity(n) => n in w.store
    case PodsReady(i, _) => i in w.sets
    case Tick(_) => true
  }

  function Touch(w: World, n: Name, o: Workspace): World {
    w.(store := w.store[n := o.(version := w.revision + 1)], revision := w.revision + 1)
  }

  /** `MarkActivity`: the activity time, and the resume request when the workspace is suspended. */
  function Marked(s: Status, now: nat): Status {
    s.(lastActivity := Some(Stored(now)), resumeRequested := s.resumeRequested || s.phase == Suspended)
  }

  function Act(w: World, a: Outside): World
    requires Enabled(w, a)
  {
    match a
    case Create(n, o) =>
      var siblings := set m | m in w.store && SameBranch(w.store[m], o) :: m;
      var h := w.history;
      Touch(w, n, o).(history := h.(
        solo := if siblings == {} then h.solo + {n} else h.solo - siblings - {n},
        everReady := h.everReady - {n},
        lastUse := h.lastUse - {n}))
    case Delete(n) =>
      if w.store[n].finalizer then Touch(w, n, w.store[n].(deleting := true))
      else w.(store := w.store - {n}, history := w.history.(solo := w.history.solo - {n}, everReady := w.history.everReady - {n}))
    case Want(n, suspended) => Touch(w, n, w.store[n].(suspendWanted := suspended))
    case MarkActivity(n) =>
      Touch(w, n, w.store[n].(status := Marked(w.store[n].status, w.clock)))
        .(history := w.history.(lastUse := w.history.lastUse[n := w.clock]))
    case PodsReady(i, ready) => w.(sets := w.sets[i := w.sets[i].(ready := ready)])
    case Tick(span) => w.(clock := w.clock + span)
  }

  lemma CreateIsCovered(w: World, n: Name, o: Workspace)
    requires Inv(w) && Enabled(w, Create(n, o))
    ensures EnvMoves(w, Act(w, Create(n, o)))
  {
    var w' := Act(w, Create(n, o));
    assert NewObject(w, w', n);
    forall m | m in w'.store && m != n ensures m in w.store && ObjectMoves(w, w', m) {
      assert w'.store[m] == w.store[m];
      assert ObjectInv(w, m);
    }
    CreateSolo(w, n, o);
  }

  lemma CreateSolo(w: World, n: Name, o: Workspace)
    requires SoloAlone(w) && Enabled(w, Create(n, o))
    ensures var w' := Act(w, Create(n, o));
      && SoloGate(w, w')
      && (forall k :: k in w'.history.solo ==> (k in w.history.solo || k == n) && k in w'.store && AloneNow(w', k))
  {
    var w' := Act(w, Create(n, o));
    var siblings := set m | m in w.store && SameBranch(w.store[m], o) :: m;
    forall k | k in w'.history.solo ensures k in w'.store && AloneNow(w', k) {
      forall m | m in w'.store && m != k ensures !SameBranch(w'.store[m], w'.store[k]) {
        if k == n {
          assert siblings == {};
          assert m !in siblings;
        } else if m == n {
          assert k !in siblings;
        }
      }
    }
    forall m | m in siblings ensures m in w'.store && !AloneNow(w', m) && !AloneNow(w', n) {
      assert m != n && SameBranch(w'.store[n], w'.store[m]);
    }
    assert AloneNow(w', n) ==> siblings == {};
  }

  lemma OutsideActionOnObject(w: World, a: Outside, n: Name)
    requires Enabled(w, a) && !a.Create? && n in Act(w, a).store
    requires n in w.store ==> w.store[n].version <= w.revision
    ensures n in w.store && ObjectMoves(w, Act(w, a), n)
  {
    match a
    case Delete(k) =>
    case Want(k, _) =>
    case MarkActivity(k) =>
    case PodsReady(_, _) =>
    case Tick(_) =>
  }

  lemma OutsideActionSolo(w: World, a: Outside)
    requires Inv(w) && Enabled(w, a) && !a.Create?
    ensures var w' := Act(w, a);
            && w'.history.solo <= w'.store.Keys && w'.history.solo <= w.history.solo
            && (forall m, n :: n in w'.history.solo && m in w'.store && m != n ==> !SameBranch(w'.store[m], w'.store[n]))
  {
    var w' := Act(w, a);
    assert w'.history.solo <= w.history.solo && w'.history.solo <= w'.store.Keys;
    forall m, n | n in w'.history.solo && m in w'.store && m != n ensures !SameBranch(w'.store[m], w'.store[n]) {
      assert m in w.store ==> ObjectInv(w, m);
      assert n in w.store ==> ObjectInv(w, n);
      OutsideActionOnObject(w, a, m);
      OutsideActionOnObject(w, a, n);
      assert !SameBranch(w.store[m], w.store[n]);
    }
  }

  lemma OutsideActionFrame(w: World, a: Outside)
    requires w.history.everReady <= w.store.Keys && Enabled(w, a) && !a.Create?
    ensures var w' := Act(w, a);
            && w'.templates == w.templates && w.clock <= w'.clock && w.revision <= w'.revision
            && w'.history.pass == w.history.pass && w'.history.passes == w.history.passes && w'.claims == w.claims && w'.sets.Keys == w.sets.Keys
            && (forall i :: i in w.sets ==> w'.sets[i].owner == w.sets[i].owner && w'.sets[i].replicas == w.sets[i].replicas)
            && (forall n :: n in w.store && n !in w'.store ==> !w.store[n].finalizer)
            && w'.history.everReady <= w'.store.Keys
  {
    match a
    case Delete(_) =>
    case Want(_, _) =>
    case MarkActivity(_) =>
    case PodsReady(_, _) =>
    case Tick(_) =>
  }

  /** Every outside action is one of the moves the controller is proved against. */
  lemma OutsideActionsAreCovered(w: World, a: Outside)
    requires Inv(w) && Enabled(w, a)
    ensures EnvMoves(w, Act(w, a))
  {
    var w' := Act(w, a);
    if a.Create? {
      CreateIsCovered(w, a.name, a.initial);
    } else {
      forall n | n in w'.store ensures n in w.store && ObjectMoves(w, w', n) {
        assert n in w.store ==> ObjectInv(w, n);
        OutsideActionOnObject(w, a, n);
      }
      OutsideActionSolo(w, a);
      OutsideActionFrame(w, a);
    }
  }

  // ---- the controller's writes ----

  /** What a status write records beside the status itself: nothing, a use of the workspace at this
      moment, or a snapshot obtained by this pass. */
  datatype Intent = Plain | Use | Capture

  function WriteStatus(w: World, n: Name, s: Status, intent: Intent): World
    requires n in w.store
  {
    var h := w.history;
    var before := w.store[n].status;
    Touch(w, n, w.store[n].(status := s)).(history := h.(
      everReady := if s.phase == Ready then h.everReady + {n} else h.everReady,
      enteredAt := if s.phase == Suspended && before.phase != Suspended then h.enteredAt[n := w.clock] else h.enteredAt,
      lastUse := if intent.Use? then h.lastUse[n := w.clock] else h.lastUse,
      pass := if intent.Capture? then h.pass.(captured := true) else h.pass))
  }

  /** When a status may be written over the stored one. */
  ghost predicate LegalStatus(w: World, n: Name, s: Status, intent: Intent)
    requires n in w.store
  {
    var o := w.store[n];
    && (intent.Capture? ==> RecordsSnapshot(o.status, s) && n == w.history.pass.subject && w.history.pass.reported && !w.history.pass.refused)
    && (!intent.Capture? ==> s.lastEvacuation == o.status.lastEvacuation)
    && (s.resumeRequested ==> o.status.resumeRequested)
    && (s.phase == Terminating ==> o.deleting)
    && (o.status.duplicate ==> s.duplicate)
    && (forall m :: m in w.store && m != n && w.store[m].status.id == s.id != "" ==>
          SameBranch(w.store[m], o) && (w.store[m].status.duplicate || s.duplicate))
    && (Admitted(o.(status := s)) && !Admitted(o) ==> RoomFor(w, n))
    && (n in w.history.solo ==> SoloLegal(w, n, s, intent))
  }

  ghost predicate SoloLegal(w: World, n: Name, s: Status, intent: Intent)
    requires n in w.store
  {
    var o, w' := w.store[n], WriteStatus(w, n, s, intent);
    && SoloInv(w', n)
    && PhaseStep(o.status.phase, s.phase)
    && (o.status.id != "" ==> s.id == o.status.id)
    && (o.status.phase != Suspended && s.phase == Suspended ==> SuspendStep(w, n, w'.store[n]))
    && (o.status.phase != Ready && s.phase == Ready ==> ReadyStep(w, n, w'.store[n]))
  }

  lemma StatusWriteBudget(w: World, n: Name, s: Status, intent: Intent)
    requires WithinBudget(w) && n in w.store && LegalStatus(w, n, s, intent)
    ensures WithinBudget(WriteStatus(w, n, s, intent))
  {
    var w' := WriteStatus(w, n, s, intent);
    forall node, budget: nat | CommonBudget(w'.templates, node, budget) ensures Committed(w', node) <= budget {
      StatusWriteOnNode(w, n, s, intent, node, budget);
    }
  }

  lemma StatusWriteOnNode(w: World, n: Name, s: Status, intent: Intent, node: string, budget: nat)
    requires WithinBudget(w) && n in w.store
    requires Admitted(w.store[n].(status := s)) && !Admitted(w.store[n]) ==> RoomFor(w, n)
    requires CommonBudget(w.templates, node, budget)
    ensures Committed(WriteStatus(w, n, s, intent), node) <= budget
  {
    var before := Shares(w, node);
    var now := Shares(WriteStatus(w, n, s, intent), node);
    SumExcept(before, now, n);
    if now[n] > before[n] {
      assert RoomFor(w, n);
    } else {
      assert Committed(w, node) <= budget;
    }
  }

  /** Writing a workspace's own status does not use up the room found for it. */
  lemma StatusWriteRoom(w: World, n: Name, s: Status, intent: Intent)
    requires n in w.store
    ensures RoomFor(w, n) ==> RoomFor(WriteStatus(w, n, s, intent), n)
  {
    var w' := WriteStatus(w, n, s, intent);
    forall node, budget: nat | RoomFor(w, n) && CommonBudget(w'.templates, node, budget)
      ensures SumOf(Shares(w', node) - {n}) + SizeOn(w'.templates, w'.store[n], node) <= budget
    {
      assert Shares(w', node) - {n} == Shares(w, node) - {n};
      assert CommonBudget(w.templates, node, budget);
    }
  }

  lemma StatusWriteObjects(w: World, n: Name, s: Status, intent: Intent, m: Name)
    requires n in w.store && m in w.store && ObjectInv(w, n) && ObjectInv(w, m) && LegalStatus(w, n, s, intent)
    ensures ObjectInv(WriteStatus(w, n, s, intent), m)
  {
  }

  lemma StatusWriteSubstrate(w: World, n: Name, s: Status, intent: Intent)
    requires IdsInv(w) && SoloAlone(w) && SubstrateInv(w) && n in w.store && LegalStatus(w, n, s, intent)
    ensures IdsInv(WriteStatus(w, n, s, intent))
    ensures SoloAlone(WriteStatus(w, n, s, intent))
    ensures SubstrateInv(WriteStatus(w, n, s, intent))
  {
    StatusWriteIds(w, n, s, intent);
    StatusWriteOwned(w, n, s, intent);
  }

  lemma StatusWriteIds(w: World, n: Name, s: Status, intent: Intent)
    requires IdsInv(w) && n in w.store && LegalStatus(w, n, s, intent)
    ensures IdsInv(WriteStatus(w, n, s, intent))
  {
  }

  lemma StatusWriteOwned(w: World, n: Name, s: Status, intent: Intent)
    requires SubstrateInv(w) && n in w.store && (n in w.history.solo ==> SoloLegal(w, n, s, intent))
    ensures SubstrateInv(WriteStatus(w, n, s, intent))
  {
  }

  lemma StatusWriteGates(w: World, n: Name, s: Status, intent: Intent)
    requires n in w.store && forall m :: Protected(w, m) ==> w.store[m].finalizer
    ensures VolumeGate(w, WriteStatus(w, n, s, intent)) && FinalizerGate(w, WriteStatus(w, n, s, intent))
    ensures StopGate(w, WriteStatus(w, n, s, intent))
  {
  }

  lemma StatusWritePhase(w: World, n: Name, s: Status, intent: Intent)
    requires n in w.store && (n in w.history.solo ==> SoloInv(w, n) && SoloLegal(w, n, s, intent))
    ensures PhaseGate(w, WriteStatus(w, n, s, intent))
  {
  }

  lemma StatusWriteKeeps(w: World, n: Name, s: Status, intent: Intent)
    requires Inv(w) && n in w.store && n == w.history.pass.subject && LegalStatus(w, n, s, intent)
    ensures Inv(WriteStatus(w, n, s, intent)) && Safe(w, WriteStatus(w, n, s, intent))
  {
    var w' := WriteStatus(w, n, s, intent);
    StatusWriteBudget(w, n, s, intent);
    StatusWriteSubstrate(w, n, s, intent);
    ProtectedHaveFinalizer(w);
    StatusWriteGates(w, n, s, intent);
    assert ObjectInv(w, n);
    StatusWritePhase(w, n, s, intent);
    forall m | m in w'.store ensures ObjectInv(w', m) {
      StatusWriteObjects(w, n, s, intent, m);
    }
  }

  /** A finalizer is put on; nothing else changes. */
  function PutFinalizer(w: World, n: Name): World
    requires n in w.store
  {
    Touch(w, n, w.store[n].(finalizer := true))
  }

  lemma SameShares(w: World, w': World)
    requires WithinBudget(w)
    requires w'.templates == w.templates && w'.store.Keys == w.store.Keys
    requires forall n :: n in w.store ==> w'.store[n].status == w.store[n].status && w'.store[n].template == w.store[n].template
                                          && w'.store[n].deleting == w.store[n].deleting
    ensures WithinBudget(w')
  {
    forall node, budget: nat | CommonBudget(w'.templates, node, budget) ensures Committed(w', node) <= budget {
      SumMonotone(Shares(w', node), Shares(w, node));
    }
  }

  lemma PutFinalizerKeeps(w: World, n: Name)
    requires Inv(w) && n in w.store && n == w.history.pass.subject
    ensures Inv(PutFinalizer(w, n)) && Safe(w, PutFinalizer(w, n))
  {
    var w' := PutFinalizer(w, n);
    SameShares(w, w');
    forall m | m in w'.store ensures ObjectInv(w', m) {
      PutFinalizerObjects(w, n, m);
    }
    PutFinalizerSubstrate(w, n);
    ProtectedHaveFinalizer(w);
    PutFinalizerGates(w, n);
  }

  lemma PutFinalizerSubstrate(w: World, n: Name)
    requires IdsInv(w) && SoloAlone(w) && SubstrateInv(w) && n in w.store
    ensures IdsInv(PutFinalizer(w, n)) && SoloAlone(PutFinalizer(w, n)) && SubstrateInv(PutFinalizer(w, n))
  {
  }

  lemma PutFinalizerObjects(w: World, n: Name, m: Name)
    requires Inv(w) && n in w.store && m in w.store
    ensures ObjectInv(PutFinalizer(w, n), m)
  {
    assert ObjectInv(w, m);
  }

  lemma PutFinalizerGates(w: World, n: Name)
    requires n in w.store && n == w.history.pass.subject && forall m :: Protected(w, m) ==> w.store[m].finalizer
    ensures Safe(w, PutFinalizer(w, n))
  {
  }

  /** The finalizer comes off a deleted object: the object goes, and the garbage collector takes
      what it still owned. */
  function TakeFinalizer(w: World, n: Name): World
    requires n in w.store
  {
    var h := w.history;
    w.(store := w.store - {n},
       sets := map i | i in w.sets && w.sets[i].owner != n :: w.sets[i],
       claims := map i | i in w.claims && w.claims[i] != n :: w.claims[i],
       revision := w.revision + 1,
       history := h.(solo := h.solo - {n}, everReady := h.everReady - {n}))
  }

  ghost predicate MayTakeFinalizer(w: World, n: Name) {
    && n in w.store && w.store[n].deleting
    && (Protected(w, n) ==>
          && w.store[n].status.lastEvacuation.Some?
          && w.store[n].status.id !in w.claims && w.store[n].status.id !in w.sets
          && !w.history.pass.refused)
  }

  lemma TakeFinalizerKeeps(w: World, n: Name)
    requires Inv(w) && MayTakeFinalizer(w, n)
    ensures Inv(TakeFinalizer(w, n)) && Safe(w, TakeFinalizer(w, n))
  {
    var w' := TakeFinalizer(w, n);
    forall m | m in w'.store ensures ObjectInv(w', m) {
      TakeFinalizerObjects(w, n, m);
    }
    TakeFinalizerBudget(w, n);
    ProtectedHaveFinalizer(w);
    TakeFinalizerGates(w, n);
  }

  lemma TakeFinalizerBudget(w: World, n: Name)
    requires WithinBudget(w) && n in w.store
    ensures WithinBudget(TakeFinalizer(w, n))
  {
    var w' := TakeFinalizer(w, n);
    forall node, budget: nat | CommonBudget(w'.templates, node, budget) ensures Committed(w', node) <= budget {
      SumMonotone(Shares(w', node), Shares(w, node));
    }
  }

  lemma TakeFinalizerObjects(w: World, n: Name, m: Name)
    requires Inv(w) && n in w.store && m in TakeFinalizer(w, n).store
    ensures ObjectInv(TakeFinalizer(w, n), m)
  {
    assert ObjectInv(w, m);
  }

  lemma TakeFinalizerGates(w: World, n: Name)
    requires SubstrateInv(w) && MayTakeFinalizer(w, n) && forall m :: Protected(w, m) ==> w.store[m].finalizer
    ensures Safe(w, TakeFinalizer(w, n))
  {
  }

  /** Steps that touch only the substrate or the record of the pass. */
  ghost predicate SubstrateStep(w: World, w': World) {
    && w' == w.(sets := w'.sets, claims := w'.claims, history := w.history.(pass := w'.history.pass, passes := w'.history.passes))
  }

  ghost predicate SubstrateGates(w: World, w': World) {
    VolumeGate(w, w') && StopGate(w, w') && PassGate(w, w')
  }

  lemma SubstrateStepKeeps(w: World, w': World)
    requires Inv(w) && SubstrateStep(w, w') && SubstrateInv(w') && SubstrateGates(w, w')
    ensures Inv(w') && Safe(w, w')
  {
    SameShares(w, w');
    forall m | m in w'.store ensures ObjectInv(w', m) {
      assert ObjectInv(w, m);
    }
    ProtectedHaveFinalizer(w);
  }

  /** The volume filed under a workspace's id can only be a protected workspace's own. */
  lemma ProtectedOwner(w: World, n: Name, i: string)
    requires Inv(w) && n in w.store && w.store[n].status.id == i && i in w.claims && Protected(w, w.claims[i])
    ensures w.claims[i] == n
  {
    var m := w.claims[i];
    assert w.store[m].status.id == i;
  }

  lemma ScaleKeeps(w: World, id: string, replicas: nat)
    requires Inv(w) && id in w.sets && (replicas == 0 ==> MayStop(w, id))
    ensures var w' := w.(sets := w.sets[id := w.sets[id].(replicas := replicas)]);
            Inv(w') && Safe(w, w')
  {
    SubstrateStepKeeps(w, w.(sets := w.sets[id := w.sets[id].(replicas := replicas)]));
  }

  lemma DeleteSetKeeps(w: World, id: string)
    requires Inv(w) && MayStop(w, id)
    ensures Inv(w.(sets := w.sets - {id})) && Safe(w, w.(sets := w.sets - {id}))
  {
    SubstrateStepKeeps(w, w.(sets := w.sets - {id}));
  }

  lemma CreateSetKeeps(w: World, n: Name, id: string)
    requires Inv(w) && n in w.store && w.store[n].finalizer && id != "" && id !in w.sets
    ensures var w' := w.(sets := w.sets[id := ComputeSet(n, 1, 0)]);
            Inv(w') && Safe(w, w')
  {
    SubstrateStepKeeps(w, w.(sets := w.sets[id := ComputeSet(n, 1, 0)]));
  }

  lemma CreateClaimKeeps(w: World, n: Name, id: string)
    requires Inv(w) && n in w.store && w.store[n].finalizer && w.store[n].status.id == id != "" && id !in w.claims
    ensures var w' := w.(claims := w.claims[id := n]);
            Inv(w') && Safe(w, w')
  {
    var w' := w.(claims := w.claims[id := n]);
    assert VolumeGate(w, w') && StopGate(w, w') && PassGate(w, w');
    assert SubstrateInv(w');
    SubstrateStepKeeps(w, w');
  }

  lemma DeleteClaimKeeps(w: World, n: Name, id: string)
    requires Inv(w) && n in w.store && w.store[n].status.id == id
    requires w.history.pass.subject == n && !w.history.pass.refused
    requires Protected(w, n) ==> w.store[n].deleting && w.store[n].status.lastEvacuation.Some?
    ensures Inv(w.(claims := w.claims - {id})) && Safe(w, w.(claims := w.claims - {id}))
  {
    if id in w.claims && Protected(w, w.claims[id]) {
      ProtectedOwner(w, n, id);
    }
    var w' := w.(claims := w.claims - {id});
    assert VolumeGate(w, w');
    assert StopGate(w, w') && PassGate(w, w');
    assert SubstrateInv(w');
    SubstrateStepKeeps(w, w');
  }
}
