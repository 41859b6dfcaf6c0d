/** The statuses the reconciler writes, and why each of them may be written. */
module StatusWrites {
  import opened Orders
  import opened Cluster
  import opened ClusterSteps

  ghost predicate Writable(w: World, n: Name) {
    Inv(w) && n in w.store && w.store[n].finalizer
  }

  /** A write that keeps the id, marks nothing and admits nobody is legal if it is for the workspace
      itself. */
  lemma LegalIfSoloLegal(w: World, n: Name, s: Status, intent: Intent)
    requires IdsInv(w) && n in w.store
    requires s.id == w.store[n].status.id && s.duplicate == w.store[n].status.duplicate
    requires intent.Capture? ==> RecordsSnapshot(w.store[n].status, s) && n == w.history.pass.subject && w.history.pass.reported && !w.history.pass.refused
    requires !intent.Capture? ==> s.lastEvacuation == w.store[n].status.lastEvacuation
    requires s.resumeRequested ==> w.store[n].status.resumeRequested
    requires s.phase == Terminating ==> w.store[n].deleting
    requires s.phase != w.store[n].status.phase ==> w.store[n].status.phase != Failed
    requires n in w.history.solo ==> SoloLegal(w, n, s, intent)
    ensures LegalStatus(w, n, s, intent)
  {
  }

  /** Writes that leave the phase and the identity alone. */
  lemma PlainLegal(w: World, n: Name, evacuated: Option<bool>)
    requires Writable(w, n)
    ensures LegalStatus(w, n, w.store[n].status.(evacuated := evacuated), Plain)
  {
    assert ObjectInv(w, n);
  }

  lemma CaptureLegal(w: World, n: Name, snapshot: nat)
    requires Writable(w, n) && n == w.history.pass.subject && w.history.pass.reported && !w.history.pass.refused
    ensures LegalStatus(w, n, w.store[n].status.(lastEvacuation := Some(snapshot), evacuated := Some(true)), Capture)
  {
    assert ObjectInv(w, n);
    if n in w.history.solo {
      CaptureSoloLegal(w, n, snapshot);
    }
    LegalIfSoloLegal(w, n, w.store[n].status.(lastEvacuation := Some(snapshot), evacuated := Some(true)), Capture);
  }

  lemma CaptureSoloLegal(w: World, n: Name, snapshot: nat)
    requires n in w.store && SoloInv(w, n)
    ensures SoloLegal(w, n, w.store[n].status.(lastEvacuation := Some(snapshot), evacuated := Some(true)), Capture)
  {
  }

  lemma UseLegal(w: World, n: Name)
    requires Writable(w, n)
    ensures LegalStatus(w, n, w.store[n].status.(lastActivity := Some(Stored(w.clock))), Use)
  {
    assert ObjectInv(w, n);
    if n in w.history.solo {
      UseSoloLegal(w, n);
    }
    LegalIfSoloLegal(w, n, w.store[n].status.(lastActivity := Some(Stored(w.clock))), Use);
  }

  lemma UseSoloLegal(w: World, n: Name)
    requires n in w.store && SoloInv(w, n)
    ensures SoloLegal(w, n, w.store[n].status.(lastActivity := Some(Stored(w.clock))), Use)
  {
  }

  lemma DestroyCandidateLegal(w: World, n: Name)
    requires Writable(w, n) && w.store[n].status.phase == Suspended
    requires w.store[n].status.suspended.Some? && w.store[n].status.suspended.value.since + SUSPENDED_RETENTION <= w.clock
    ensures LegalStatus(w, n, w.store[n].status.(destroyCandidate := true), Plain)
  {
    assert ObjectInv(w, n);
  }

  lemma TerminatingLegal(w: World, n: Name)
    requires Writable(w, n) && w.store[n].deleting
    ensures LegalStatus(w, n, w.store[n].status.(phase := Terminating), Plain)
  {
    assert ObjectInv(w, n);
  }

  function SuspendedStatus(s: Status, reason: Reason, now: nat): Status {
    s.(phase := Suspended, suspended := Some(SetCondition(s.suspended, true, reason, now)))
  }

  lemma SuspendLegal(w: World, n: Name, reason: Reason)
    requires Writable(w, n) && w.store[n].status.phase == Ready
    requires w.store[n].status.id in w.sets ==> w.sets[w.store[n].status.id].replicas == 0
    requires if w.store[n].suspendWanted then reason == SuspendRequested
             else reason == IdleTimeout && w.store[n].status.lastActivity.Some?
                  && w.store[n].status.lastActivity.value + IDLE_SUSPEND_TIMEOUT <= w.clock
    ensures LegalStatus(w, n, SuspendedStatus(w.store[n].status, reason, w.clock), Plain)
  {
    assert ObjectInv(w, n);
    if n in w.history.solo {
      SuspendSoloLegal(w, n, reason);
    }
    LegalIfSoloLegal(w, n, SuspendedStatus(w.store[n].status, reason, w.clock), Plain);
  }

  lemma SuspendSoloLegal(w: World, n: Name, reason: Reason)
    requires n in w.store && SoloInv(w, n) && w.store[n].status.phase == Ready
    requires w.store[n].status.id in w.sets ==> w.sets[w.store[n].status.id].replicas == 0
    requires if w.store[n].suspendWanted then reason == SuspendRequested
             else reason == IdleTimeout && w.store[n].status.lastActivity.Some?
                  && w.store[n].status.lastActivity.value + IDLE_SUSPEND_TIMEOUT <= w.clock
    ensures SoloLegal(w, n, SuspendedStatus(w.store[n].status, reason, w.clock), Plain)
  {
  }

  function ResumedStatus(s: Status, now: nat): Status {
    s.(phase := Ready, lastActivity := Some(Stored(now)),
       suspended := Some(SetCondition(s.suspended, false, Resumed, now)),
       resumeRequested := false, destroyCandidate := false)
  }

  lemma ResumeLegal(w: World, n: Name)
    requires Writable(w, n) && w.store[n].status.phase == Suspended && w.store[n].status.resumeRequested
    requires w.history.pass.subject == n && w.history.pass.sawReplica
    requires w.store[n].status.id in w.sets && w.sets[w.store[n].status.id].replicas == 1
    ensures LegalStatus(w, n, ResumedStatus(w.store[n].status, w.clock), Use)
  {
    assert ObjectInv(w, n);
    if n in w.history.solo {
      ResumeSoloLegal(w, n);
    }
    LegalIfSoloLegal(w, n, ResumedStatus(w.store[n].status, w.clock), Use);
  }

  lemma ResumeSoloLegal(w: World, n: Name)
    requires n in w.store && SoloInv(w, n) && w.store[n].finalizer && w.store[n].status.phase == Suspended && w.store[n].status.resumeRequested
    requires w.history.pass.subject == n && w.history.pass.sawReplica
    requires w.store[n].status.id in w.sets && w.sets[w.store[n].status.id].replicas == 1
    ensures SoloLegal(w, n, ResumedStatus(w.store[n].status, w.clock), Use)
  {
  }

  function ReadyStatus(s: Status, now: nat): Status {
    s.(phase := Ready, lastActivity := Some(Stored(now)))
  }

  lemma ReadyLegal(w: World, n: Name)
    requires Writable(w, n) && w.store[n].status.phase == Provisioning && w.store[n].status.id != ""
    requires w.history.pass.subject == n && w.history.pass.sawReplica
    requires w.store[n].status.id in w.sets && w.store[n].status.id in w.claims
    ensures LegalStatus(w, n, ReadyStatus(w.store[n].status, w.clock), Use)
  {
    assert ObjectInv(w, n);
    if n in w.history.solo {
      ReadySoloLegal(w, n);
    }
    LegalIfSoloLegal(w, n, ReadyStatus(w.store[n].status, w.clock), Use);
  }

  lemma ReadySoloLegal(w: World, n: Name)
    requires n in w.store && SoloInv(w, n) && w.store[n].finalizer && w.store[n].status.phase == Provisioning && w.store[n].status.id != ""
    requires w.history.pass.subject == n && w.history.pass.sawReplica
    requires w.store[n].status.id in w.sets && w.store[n].status.id in w.claims
    ensures SoloLegal(w, n, ReadyStatus(w.store[n].status, w.clock), Use)
  {
  }

  lemma FailedLegal(w: World, n: Name)
    requires Writable(w, n) && w.store[n].status.phase == Provisioning
    ensures LegalStatus(w, n, w.store[n].status.(phase := Failed), Plain)
  {
    assert ObjectInv(w, n);
  }

  lemma AllocateLegal(w: World, n: Name, id: string)
    requires Writable(w, n) && w.store[n].status.phase == Provisioning && w.store[n].status.id == "" && id != ""
    requires RoomFor(w, n)
    requires forall m :: m in w.store && m != n ==> w.store[m].status.id != id
    ensures LegalStatus(w, n, w.store[n].status.(id := id), Plain)
  {
    assert ObjectInv(w, n);
  }

  /** A mirror takes over the phase and the id of the canonical workspace and is marked for good. */
  function MirrorStatus(s: Status, phase: Phase, id: string): Status {
    s.(phase := phase, id := id, duplicate := true)
  }

  lemma MirrorLegal(w: World, n: Name, phase: Phase, id: string)
    requires Writable(w, n) && n !in w.history.solo && phase != Terminating
    requires forall m :: m in w.store && w.store[m].status.id == id != "" ==> SameBranch(w.store[m], w.store[n])
    ensures LegalStatus(w, n, MirrorStatus(w.store[n].status, phase, id), Plain)
  {
  }
}
