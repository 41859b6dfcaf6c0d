/** What the invariant and the gates add up to over whole runs of the workspace controller. */
module Runs {
  import opened Orders
  import opened Cluster

  predicate NothingNoted(p: Pass) {
    p == NewPass(p.subject, p.target, p.rollback)
  }

  /** A run from an empty cluster. */
  ghost predicate Started(run: seq<World>) {
    Lawful(run) && run[0].store == map[] && NothingNoted(run[0].history.pass)
  }

  /** Whenever `n` exists, up to state `j`, no other object has its branch. */
  ghost predicate NeverShared(run: seq<World>, j: nat, n: Name)
    requires j < |run|
  {
    forall k :: 0 <= k <= j && n in run[k].store ==> AloneNow(run[k], n)
  }

  /** What the states say is what the history has: such a workspace is in the set of the lone ones. */
  lemma {:induction false} NeverSharedIsSolo(run: seq<World>, j: nat, n: Name)
    requires Lawful(run) && run[0].store == map[] && j < |run| && NeverShared(run, j, n)
    ensures n in run[j].store ==> n in run[j].history.solo
  {
    if j > 0 {
      NeverSharedIsSolo(run, j - 1, n);
      assert Safe(run[j - 1], run[j - 1 + 1]);
      assert n in run[j].store ==> AloneNow(run[j], n);
    }
  }

  lemma AloneThroughout(run: seq<World>, i: nat, j: nat, n: Name)
    requires Lawful(run) && run[0].store == map[] && i <= j < |run| && NeverShared(run, j, n)
    ensures AloneUntil(run, i, j, n)
  {
    forall k | i <= k < j && n in run[k].store ensures n in run[k].history.solo {
      NeverSharedIsSolo(run, k, n);
    }
  }

  /** `n` is alone on its branch from state `i` up to, not including, state `j`, as long as it exists. */
  ghost predicate AloneUntil(run: seq<World>, i: nat, j: nat, n: Name)
    requires i <= j < |run|
  {
    forall k :: i <= k < j && n in run[k].store ==> n in run[k].history.solo
  }

  /** A moment at which the workspace is deleted and its evacuation is on record. */
  ghost predicate Evacuated(w: World, n: Name) {
    n in w.store && w.store[n].deleting && w.store[n].status.lastEvacuation.Some?
  }

  lemma {:induction false} VolumeStep(run: seq<World>, i: nat, id: string, n: Name)
    requires Lawful(run) && i + 1 < |run| && Protected(run[i], n) && id in run[i].claims && run[i].claims[id] == n
    ensures Evacuated(run[i], n) || (id in run[i + 1].claims && run[i + 1].claims[id] == n)
    ensures n in run[i + 1].history.solo ==> n in run[i + 1].history.everReady
  {
    assert Inv(run[i]) && Inv(run[i + 1]) && Safe(run[i], run[i + 1]);
    assert ObjectInv(run[i], n);
    if n in run[i + 1].history.solo {
      assert n in run[i + 1].store;
    }
  }

  /** In every run, the volume of a workspace that has been Ready and never shared its branch is there
      until a moment at which the workspace is deleted and its evacuation is on record. */
  lemma VolumeOutlastsEvacuation(run: seq<World>, i: nat, j: nat, id: string, n: Name)
    requires Started(run) && i <= j < |run| && NeverShared(run, j, n)
    requires id in run[i].claims && run[i].claims[id] == n && n in run[i].history.everReady
    requires !(id in run[j].claims && run[j].claims[id] == n)
    ensures exists k :: i <= k < j && Evacuated(run[k], n)
  {
    AloneThroughout(run, i, j, n);
    VolumeStays(run, i, j, id, n);
  }

  /** The very step in which it goes starts from such a moment. */
  lemma VolumeGoesWhenEvacuated(run: seq<World>, k: nat, id: string, n: Name)
    requires Started(run) && k + 1 < |run| && NeverShared(run, k, n)
    requires id in run[k].claims && run[k].claims[id] == n && n in run[k].history.everReady
    requires !(id in run[k + 1].claims && run[k + 1].claims[id] == n)
    ensures Evacuated(run[k], n)
  {
    NeverSharedIsSolo(run, k, n);
    assert Inv(run[k]);
    VolumeStep(run, k, id, n);
  }

  lemma {:induction false} VolumeStays(run: seq<World>, i: nat, j: nat, id: string, n: Name)
    requires Lawful(run) && i <= j < |run| && AloneUntil(run, i, j, n)
    requires id in run[i].claims && run[i].claims[id] == n && n in run[i].history.everReady
    requires !(id in run[j].claims && run[j].claims[id] == n)
    ensures exists k :: i <= k < j && Evacuated(run[k], n)
    decreases j - i
  {
    assert Inv(run[i]);
    assert n in run[i].store;
    if i < j {
      VolumeStep(run, i, id, n);
      if !Evacuated(run[i], n) {
        assert Inv(run[i + 1]);
        if i + 1 < j {
          assert n in run[i + 1].store;
        }
        VolumeStays(run, i + 1, j, id, n);
      }
    }
  }

  /** A moment at which nothing of the workspace is left but the object itself. */
  ghost predicate Emptied(w: World, n: Name) {
    Evacuated(w, n) && w.store[n].status.id !in w.claims && w.store[n].status.id !in w.sets
  }

  lemma {:induction false} ObjectStep(run: seq<World>, i: nat, n: Name)
    requires Lawful(run) && i + 1 < |run| && Protected(run[i], n)
    ensures Emptied(run[i], n) || (n in run[i + 1].store && run[i + 1].store[n].finalizer)
    ensures n in run[i + 1].history.solo ==> n in run[i + 1].history.everReady
  {
    assert Inv(run[i]) && Inv(run[i + 1]) && Safe(run[i], run[i + 1]);
    assert ObjectInv(run[i], n);
    if n in run[i + 1].history.solo {
      assert n in run[i + 1].store;
    }
  }

  /** In every run, such a workspace disappears only after its compute and its volume are gone, behind
      the same evacuation. */
  lemma ObjectOutlastsVolume(run: seq<World>, i: nat, j: nat, n: Name)
    requires Started(run) && i <= j < |run| && NeverShared(run, j, n)
    requires n in run[i].store && n in run[i].history.everReady && n !in run[j].store
    ensures exists k :: i <= k < j && Emptied(run[k], n)
  {
    AloneThroughout(run, i, j, n);
    ObjectStays(run, i, j, n);
  }

  lemma {:induction false} ObjectStays(run: seq<World>, i: nat, j: nat, n: Name)
    requires Lawful(run) && i <= j < |run| && AloneUntil(run, i, j, n)
    requires n in run[i].store && n in run[i].history.everReady && n !in run[j].store
    ensures exists k :: i <= k < j && Emptied(run[k], n)
    decreases j - i
  {
    if i < j {
      ObjectStep(run, i, n);
      if !Emptied(run[i], n) {
        if i + 1 < j {
          assert n in run[i + 1].store;
        }
        ObjectStays(run, i + 1, j, n);
      }
    }
  }

  // ---- what a pass knows when it stops compute ----

  /** No pass begins between two states. */
  ghost predicate OnePass(run: seq<World>, k: nat, i: nat)
    requires k <= i < |run|
  {
    forall m :: k <= m <= i ==> run[m].history.passes == run[i].history.passes
  }

  /** The record of the pass only ever changes as it may. */
  ghost predicate PassesGo(run: seq<World>) {
    forall i :: 0 <= i < |run| - 1 ==> PassGate(run[i], run[i + 1])
  }

  lemma LawfulPasses(run: seq<World>)
    requires Lawful(run)
    ensures PassesGo(run)
  {
    forall i | 0 <= i < |run| - 1 ensures PassGate(run[i], run[i + 1]) {
      assert Safe(run[i], run[i + 1]);
    }
  }

  lemma OnePassLess(run: seq<World>, k: nat, i: nat)
    requires k < i < |run| && OnePass(run, k, i)
    ensures OnePass(run, k, i - 1) && run[i - 1].history.passes == run[i].history.passes
  {
    assert run[i - 1].history.passes == run[i].history.passes;
  }

  lemma OnePassMore(run: seq<World>, k: nat, i: nat)
    requires k < i < |run| && OnePass(run, k, i - 1) && run[i - 1].history.passes == run[i].history.passes
    ensures OnePass(run, k, i)
  {
  }

  /** What was noted by state `i` was noted in a step of the same pass. */
  lemma {:induction false} NotedEarlier(run: seq<World>, i: nat, absent: bool) returns (k: nat)
    requires PassesGo(run) && i < |run| && NothingNoted(run[0].history.pass)
    requires if absent then run[i].history.pass.sawNoReplica else run[i].history.pass.captured
    ensures k < i && OnePass(run, k, i)
    ensures run[k].history.pass.target == run[i].history.pass.target && run[k].history.pass.subject == run[i].history.pass.subject
    ensures absent ==> !ReadyReplica(run[k], run[i].history.pass.target)
    ensures !absent ==> Captures(run[k], run[k + 1], run[i].history.pass.subject)
  {
    assert i > 0;
    assert PassGate(run[i - 1], run[i - 1 + 1]);
    if if absent then run[i - 1].history.pass.sawNoReplica else run[i - 1].history.pass.captured {
      k := NotedEarlier(run, i - 1, absent);
      OnePassMore(run, k, i);
    } else {
      k := i - 1;
    }
  }

  /** The pass over `n` was told of a snapshot in this step. */
  predicate Told(w: World, w': World, n: Name) {
    w.history.pass.subject == n && w'.history.pass.subject == n && !w.history.pass.reported && w'.history.pass.reported
  }

  lemma {:induction false} ReportedEarlier(run: seq<World>, i: nat) returns (k: nat)
    requires PassesGo(run) && i < |run| && NothingNoted(run[0].history.pass) && run[i].history.pass.reported
    ensures k < i && Told(run[k], run[k + 1], run[i].history.pass.subject)
  {
    assert i > 0;
    assert PassGate(run[i - 1], run[i - 1 + 1]);
    if run[i - 1].history.pass.reported {
      k := ReportedEarlier(run, i - 1);
    } else {
      k := i - 1;
    }
  }

  lemma {:induction false} RecordedEarlier(run: seq<World>, i: nat, n: Name) returns (k: nat)
    requires Lawful(run) && run[0].store == map[] && i < |run| && n in run[i].store && run[i].store[n].status.lastEvacuation.Some?
    ensures k < i && run[k].history.pass.subject == n && run[k].history.pass.reported
  {
    assert i > 0;
    assert Safe(run[i - 1], run[i - 1 + 1]);
    if run[i - 1].store[n].status.lastEvacuation.Some? {
      k := RecordedEarlier(run, i - 1, n);
    } else {
      k := i - 1;
    }
  }

  /** Behind every evacuation on record there is an earlier step in which a pass over that workspace was
      told of a snapshot. */
  lemma RecordWasReported(run: seq<World>, i: nat, n: Name) returns (k: nat)
    requires Started(run) && i < |run| && n in run[i].store && run[i].store[n].status.lastEvacuation.Some?
    ensures k + 1 < |run| && k < i && Told(run[k], run[k + 1], n)
  {
    LawfulPasses(run);
    var j := RecordedEarlier(run, i, n);
    k := ReportedEarlier(run, j);
  }

  ghost predicate ResumesGo(run: seq<World>) {
    forall i :: 0 <= i < |run| - 1 ==> ResumeGate(run[i], run[i + 1])
  }

  ghost predicate OwnersGo(run: seq<World>) {
    forall i :: 0 <= i < |run| - 1 ==> OwnGate(run[i], run[i + 1])
  }

  lemma LawfulSteps(run: seq<World>)
    requires Lawful(run)
    ensures ResumesGo(run) && OwnersGo(run)
  {
    forall i | 0 <= i < |run| - 1 ensures ResumeGate(run[i], run[i + 1]) && OwnGate(run[i], run[i + 1]) {
      assert Safe(run[i], run[i + 1]);
    }
  }

  predicate ResumeStands(w: World, n: Name) {
    n in w.store && w.store[n].status.resumeRequested
  }

  lemma {:induction false} RequestedEarlier(run: seq<World>, i: nat, n: Name) returns (k: nat)
    requires ResumesGo(run) && i < |run| && run[0].store == map[] && ResumeStands(run[i], n)
    ensures k < i && AskedToResume(run[k], run[k + 1], n) && forall j :: k < j <= i ==> ResumeStands(run[j], n)
  {
    assert i > 0;
    assert ResumeGate(run[i - 1], run[i - 1 + 1]);
    if ResumeStands(run[i - 1], n) {
      k := RequestedEarlier(run, i - 1, n);
    } else {
      k := i - 1;
    }
  }

  /** A resume request on record was made in a step that marked activity while the workspace was
      suspended, and has stood ever since. */
  lemma ResumeWasAsked(run: seq<World>, i: nat, n: Name) returns (k: nat)
    requires Started(run) && i < |run| && ResumeStands(run[i], n)
    ensures k < i && AskedToResume(run[k], run[k + 1], n) && forall j :: k < j <= i ==> ResumeStands(run[j], n)
  {
    LawfulSteps(run);
    k := RequestedEarlier(run, i, n);
  }

  /** The statuses differ at most in the activity mark. */
  predicate SameButActivity(a: Status, b: Status) {
    b == a.(lastActivity := b.lastActivity, resumeRequested := b.resumeRequested)
  }

  predicate Holds(w: World, m: Name) {
    m in w.store && w.store[m].finalizer
  }

  lemma {:induction false} LeftAlone(run: seq<World>, i: nat, j: nat, m: Name)
    requires OwnersGo(run) && i <= j < |run| && forall k :: i <= k <= j ==> Holds(run[k], m)
    requires forall k :: i <= k < j ==> run[k].history.pass.subject != m
    ensures Holds(run[i], m) && Holds(run[j], m) && SameButActivity(run[i].store[m].status, run[j].store[m].status)
    decreases j - i
  {
    if i < j {
      LeftAlone(run, i, j - 1, m);
      assert OwnGate(run[j - 1], run[j - 1 + 1]);
      assert !NewObject(run[j - 1], run[j], m);
    }
  }

  /** As long as no pass is about a workspace that holds the finalizer, its status stays but for the
      activity mark. */
  lemma OtherPassesLeaveIt(run: seq<World>, i: nat, j: nat, m: Name)
    requires Lawful(run) && i <= j < |run| && forall k :: i <= k <= j ==> Holds(run[k], m)
    requires forall k :: i <= k < j ==> run[k].history.pass.subject != m
    ensures Holds(run[i], m) && Holds(run[j], m) && SameButActivity(run[i].store[m].status, run[j].store[m].status)
  {
    LawfulSteps(run);
    LeftAlone(run, i, j, m);
  }

  /** Compute with replicas that is scaled down or deleted while its workspace remains. In a
      provisioning rollback it is the rolled back workspace's own. In any other pass it is that of
      the id the pass is about, and at some earlier moment of the same pass no replica of it was
      ready, or the step from there put a snapshot of the workspace on record. */
  lemma ComputeStopsBehindEvacuation(run: seq<World>, i: nat, id: string) returns (k: nat)
    requires Started(run) && i + 1 < |run|
    requires id in run[i].sets && run[i].sets[id].replicas > 0 && run[i].sets[id].owner in run[i + 1].store
    requires !StillRuns(run[i], run[i + 1], id)
    ensures var p := run[i].history.pass;
      if p.rollback then p.subject in run[i].store && run[i].store[p.subject].status.id == id
      else
        && p.target == id && k < i && OnePass(run, k, i)
        && (!ReadyReplica(run[k], id) || Captures(run[k], run[k + 1], p.subject))
  {
    k := 0;
    assert Safe(run[i], run[i + 1]);
    assert MayStop(run[i], id);
    LawfulPasses(run);
    if !run[i].history.pass.rollback {
      k := NotedEarlier(run, i, run[i].history.pass.sawNoReplica);
    }
  }

  /** A pass that may roll back began over a live workspace that was still being provisioned. */
  lemma {:induction false} RollbackMeansProvisioning(run: seq<World>, i: nat) returns (k: nat)
    requires PassesGo(run) && i < |run| && run[i].history.pass.rollback && !run[0].history.pass.rollback
    ensures k < i && run[k + 1].history.passes == run[i].history.passes
    ensures var n := run[i].history.pass.subject;
      n in run[k].store && !run[k].store[n].deleting && run[k].store[n].status.phase == Provisioning
  {
    assert i > 0;
    assert PassGate(run[i - 1], run[i - 1 + 1]);
    if run[i].history.passes == run[i - 1].history.passes {
      k := RollbackMeansProvisioning(run, i - 1);
    } else {
      k := i - 1;
    }
  }

  lemma {:induction false} RefusalLasts(run: seq<World>, k: nat, j: nat)
    requires PassesGo(run) && k <= j < |run| && OnePass(run, k, j) && run[k].history.pass.refused && !run[k].history.pass.rollback
    ensures run[j].history.pass.refused && !run[j].history.pass.rollback
    decreases j - k
  {
    if k < j {
      OnePassLess(run, k, j);
      RefusalLasts(run, k, j - 1);
      assert PassGate(run[j - 1], run[j - 1 + 1]);
    }
  }

  /** `Something` is lost as soon as one of the parts is. */
  datatype Loss = Nothing | Something

  /** What of a workspace is lost from one state to another: the object with its finalizer, its
      volumes, or its compute. */
  ghost function Lost(w: World, w': World, n: Name): Loss {
    if && n in w'.store && w'.store[n].finalizer
       && (forall id :: id in w.claims && w.claims[id] == n ==> id in w'.claims && w'.claims[id] == n)
       && (forall id :: id in w.sets && w.sets[id].owner == n && w.sets[id].replicas > 0 ==> StillRuns(w, w', id))
    then Nothing
    else Something
  }

  lemma RefusalKeepsStep(run: seq<World>, i: nat, n: Name)
    requires Lawful(run) && i + 1 < |run| && Protected(run[i], n)
    requires run[i].history.pass.refused && !run[i].history.pass.rollback
    ensures Lost(run[i], run[i + 1], n) == Nothing
    ensures n in run[i + 1].history.solo ==> n in run[i + 1].history.everReady
  {
    assert Inv(run[i]) && Inv(run[i + 1]) && Safe(run[i], run[i + 1]);
    assert ObjectInv(run[i], n);
  }

  lemma KeptOn(w: World, w': World, w'': World, n: Name)
    requires Lost(w, w', n) == Nothing && Lost(w', w'', n) == Nothing
    ensures Lost(w, w'', n) == Nothing
  {
  }

  ghost predicate RefusedSteps(run: seq<World>, n: Name) {
    forall i :: 0 <= i < |run| - 1 && Protected(run[i], n) && run[i].history.pass.refused && !run[i].history.pass.rollback ==>
      Lost(run[i], run[i + 1], n) == Nothing && (n in run[i + 1].history.solo ==> n in run[i + 1].history.everReady)
  }

  lemma LawfulRefusals(run: seq<World>, n: Name)
    requires Lawful(run)
    ensures RefusedSteps(run, n)
  {
    forall i | 0 <= i < |run| - 1 && Protected(run[i], n) && run[i].history.pass.refused && !run[i].history.pass.rollback
      ensures Lost(run[i], run[i + 1], n) == Nothing && (n in run[i + 1].history.solo ==> n in run[i + 1].history.everReady)
    {
      RefusalKeepsStep(run, i, n);
    }
  }

  lemma StillThere(w: World, w': World, n: Name)
    requires Lost(w, w', n) == Nothing
    ensures n in w'.store && w'.store[n].finalizer
  {
  }

  lemma {:induction false} RefusalHolds(run: seq<World>, k: nat, j: nat, n: Name)
    requires PassesGo(run) && RefusedSteps(run, n) && k <= j < |run| && OnePass(run, k, j) && AloneUntil(run, k, j, n)
    requires run[k].history.pass.refused && !run[k].history.pass.rollback
    requires n in run[k].store && run[k].store[n].finalizer && n in run[k].history.everReady
    ensures Lost(run[k], run[j], n) == Nothing
    ensures n in run[j].history.solo ==> n in run[j].history.everReady
    decreases j - k
  {
    if k < j {
      OnePassLess(run, k, j);
      RefusalHolds(run, k, j - 1, n);
      RefusalLasts(run, k, j - 1);
      StillThere(run[k], run[j - 1], n);
      assert Protected(run[j - 1], n);
      assert Lost(run[j - 1], run[j - 1 + 1], n) == Nothing;
      KeptOn(run[k], run[j - 1], run[j], n);
    }
  }

  /** After a refused evacuation and until the next pass begins, a workspace that has been Ready and is
      alone on its branch keeps its finalizer, its volumes and its replicas. */
  lemma RefusalLeavesEverything(run: seq<World>, k: nat, j: nat, n: Name)
    requires Started(run) && k <= j < |run| && OnePass(run, k, j) && NeverShared(run, j, n)
    requires run[k].history.pass.refused && !run[k].history.pass.rollback
    requires n in run[k].store && run[k].store[n].finalizer && n in run[k].history.everReady
    ensures Lost(run[k], run[j], n) == Nothing
  {
    LawfulPasses(run);
    LawfulRefusals(run, n);
    AloneThroughout(run, k, j, n);
    RefusalHolds(run, k, j, n);
  }

  /** One and the same object, alone on its branch, over a stretch of a run. */
  ghost predicate Same(run: seq<World>, from: nat, to: nat, n: Name)
    requires from <= to < |run|
  {
    forall k :: from <= k <= to ==> n in run[k].store && n in run[k].history.solo && run[k].store[n].finalizer
  }

  /** One object over a stretch of a run, never sharing its branch. */
  ghost predicate Living(run: seq<World>, from: nat, to: nat, n: Name) {
    && from <= to < |run| && NeverShared(run, to, n)
    && forall k :: from <= k <= to ==> n in run[k].store && run[k].store[n].finalizer
  }

  lemma LivingIsSame(run: seq<World>, from: nat, to: nat, n: Name)
    requires Started(run) && Living(run, from, to, n)
    ensures Same(run, from, to, n)
  {
    forall k | from <= k <= to ensures n in run[k].history.solo {
      NeverSharedIsSolo(run, k, n);
    }
  }

  ghost predicate IsSuspended(w: World, n: Name) {
    n in w.store && w.store[n].status.phase == Suspended
  }

  ghost predicate SuspendedFrom(run: seq<World>, k: nat, i: nat, n: Name)
    requires i < |run|
  {
    forall j :: k < j <= i ==> IsSuspended(run[j], n)
  }

  /** How the record of the moment of suspension follows the phase. */
  ghost predicate EntryRecord(w: World, w': World, n: Name) {
    IsSuspended(w', n) ==>
      && n in w'.history.enteredAt
      && (IsSuspended(w, n) ==> n in w.history.enteredAt && w'.history.enteredAt[n] == w.history.enteredAt[n])
      && (!IsSuspended(w, n) ==> w'.history.enteredAt[n] == w.clock)
  }

  lemma EntryStep(w: World, w': World, n: Name)
    requires Inv(w) && Safe(w, w')
    requires n in w.store && w.store[n].finalizer && n in w.history.solo && n in w'.history.solo && n in w'.store
    ensures EntryRecord(w, w', n)
  {
    assert ObjectInv(w, n);
    assert RecordsMove(w, w', n);
  }

  lemma {:induction false} EntryOfSuspension(run: seq<World>, from: nat, i: nat, n: Name) returns (k: nat)
    requires from <= i < |run| && forall j :: from <= j < i ==> EntryRecord(run[j], run[j + 1], n)
    requires !IsSuspended(run[from], n) && IsSuspended(run[i], n)
    ensures from <= k < i && !IsSuspended(run[k], n) && SuspendedFrom(run, k, i, n)
    ensures n in run[i].history.enteredAt && run[i].history.enteredAt[n] == run[k].clock
    decreases i - from
  {
    assert EntryRecord(run[i - 1], run[i - 1 + 1], n);
    if IsSuspended(run[i - 1], n) {
      k := EntryOfSuspension(run, from, i - 1, n);
    } else {
      k := i - 1;
    }
  }

  /** In every state of a workspace that never shared its branch: Suspended carries a true Suspended
      condition, and Ready neither a resume request nor a destroy mark. */
  lemma RecordsFitPhase(run: seq<World>, i: nat, n: Name)
    requires Started(run) && i < |run| && n in run[i].store && NeverShared(run, i, n)
    ensures var s := run[i].store[n].status;
      && (s.phase == Suspended ==> s.suspended.Some? && s.suspended.value.status)
      && (s.phase == Ready ==> !s.resumeRequested && !s.destroyCandidate)
  {
    NeverSharedIsSolo(run, i, n);
    assert Inv(run[i]);
    assert ObjectInv(run[i], n);
  }

  /** The condition's time is the second of the moment the current, unbroken suspension began. */
  lemma SuspensionIsUnbroken(run: seq<World>, from: nat, i: nat, n: Name) returns (k: nat)
    requires Started(run) && Living(run, from, i, n)
    requires !IsSuspended(run[from], n) && IsSuspended(run[i], n)
    ensures from <= k < i && !IsSuspended(run[k], n) && SuspendedFrom(run, k, i, n)
    ensures var c := run[i].store[n].status.suspended; c.Some? && c.value.status && c.value.since == Stored(run[k].clock)
  {
    LivingIsSame(run, from, i, n);
    forall j | from <= j < i ensures EntryRecord(run[j], run[j + 1], n) {
      EntryStep(run[j], run[j + 1], n);
    }
    k := EntryOfSuspension(run, from, i, n);
    assert Inv(run[i]);
    assert ObjectInv(run[i], n);
  }

  /** A destroy candidate has been suspended without a break since a moment seven days ago or more,
      counted from the stored second of that moment. */
  lemma DestroyCandidateAfterSevenDays(run: seq<World>, from: nat, i: nat, n: Name) returns (k: nat)
    requires Started(run) && Living(run, from, i, n)
    requires !IsSuspended(run[from], n) && IsSuspended(run[i], n) && run[i].store[n].status.destroyCandidate
    ensures from <= k < i && !IsSuspended(run[k], n) && SuspendedFrom(run, k, i, n)
    ensures Stored(run[k].clock) + 7 * 24 * 3600 * 1_000_000_000 <= run[i].clock
  {
    k := SuspensionIsUnbroken(run, from, i, n);
    NeverSharedIsSolo(run, i, n);
    assert Inv(run[i]);
    assert ObjectInv(run[i], n);
  }

  ghost predicate PhasesGo(run: seq<World>) {
    forall i :: 0 <= i < |run| - 1 ==> PhaseGate(run[i], run[i + 1])
  }

  lemma LawfulPhases(run: seq<World>)
    requires Lawful(run)
    ensures PhasesGo(run)
  {
    forall i | 0 <= i < |run| - 1 ensures PhaseGate(run[i], run[i + 1]) {
      assert Safe(run[i], run[i + 1]);
    }
  }

  lemma {:induction false} LastUseGrows(run: seq<World>, k: nat, i: nat, n: Name)
    requires PhasesGo(run) && k <= i < |run| && Same(run, k, i, n) && n in run[k].history.lastUse
    ensures n in run[i].history.lastUse && run[k].history.lastUse[n] <= run[i].history.lastUse[n]
    decreases i - k
  {
    if k < i {
      LastUseGrows(run, k, i - 1, n);
      assert PhaseGate(run[i - 1], run[i - 1 + 1]);
      assert n in run[i - 1].store && n in run[i].store;
    }
  }

  /** An idle suspension comes thirty minutes or more after every activity on record at any time
      before it, be it of a connection, a mark or a resume. */
  lemma IdleMeansUnused(run: seq<World>, k: nat, i: nat, n: Name)
    requires Started(run) && k <= i && Living(run, k, i + 1, n)
    requires !IsSuspended(run[i], n) && IsSuspended(run[i + 1], n)
    requires run[i + 1].store[n].status.suspended.Some? && run[i + 1].store[n].status.suspended.value.reason == IdleTimeout
    requires run[k].store[n].status.lastActivity.Some?
    ensures run[k].store[n].status.lastActivity.value + 30 * 60 * 1_000_000_000 <= run[i].clock
  {
    LivingIsSame(run, k, i + 1, n);
    LastActivityIsUse(run, k, n);
    LawfulPhases(run);
    LastUseGrows(run, k, i, n);
    assert Safe(run[i], run[i + 1]);
    assert n in run[i].store && n in run[i + 1].store;
    assert SuspendStep(run[i], n, run[i + 1].store[n]);
    StoredMonotone(run[k].history.lastUse[n], run[i].history.lastUse[n]);
  }

  lemma LastActivityIsUse(run: seq<World>, k: nat, n: Name)
    requires Lawful(run) && k < |run| && n in run[k].store && n in run[k].history.solo && run[k].store[n].status.lastActivity.Some?
    ensures n in run[k].history.lastUse && run[k].store[n].status.lastActivity.value == Stored(run[k].history.lastUse[n])
  {
    assert Inv(run[k]);
    assert ObjectInv(run[k], n);
  }

  lemma StoredMonotone(a: nat, b: nat)
    requires a <= b
    ensures Stored(a) <= Stored(b)
  {
    assert a / SECOND <= b / SECOND;
    assert Stored(a) == SECOND * (a / SECOND) && Stored(b) == SECOND * (b / SECOND);
  }

  /** In every state of every run: no two workspaces without the duplicate mark share an id, and no
      node is committed beyond the budget its templates agree on. */
  lemma IdsAndBudgetsHold(run: seq<World>, i: nat, m: Name, n: Name, node: string, budget: nat)
    requires Lawful(run) && i < |run|
    requires m in run[i].store && n in run[i].store && m != n
    requires !run[i].store[m].status.duplicate && !run[i].store[n].status.duplicate
    requires CommonBudget(run[i].templates, node, budget)
    ensures run[i].store[m].status.id != "" ==> run[i].store[m].status.id != run[i].store[n].status.id
    ensures Committed(run[i], node) <= budget
  {
    assert Inv(run[i]);
  }
}
