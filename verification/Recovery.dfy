/** The volume gate and what it is for: when the controller deletes a volume behind a recorded
    evacuation, what the object store then holds, and when that still is the work. */
module Recovery {
  import opened Orders
  import Cluster
  import Runs
  import opened Paths
  import opened Disk
  import opened Evacuation

  /** One attempt to evacuate: the directory, the names read from its status, and where it was cut
      off. */
  datatype Attempt = Attempt(dir: Dir, outer: Outer, names: seq<string>, fault: Fault)

  /** How far it got: the bundle was stored, the archive was stored too, success was reported. */
  predicate StoredBundle(root: seq<string>, a: Attempt) {
    a.fault != BeforeUploads && Collectable(root, a.dir.files, a.outer, a.names)
  }

  predicate StoredArchive(root: seq<string>, a: Attempt) {
    (a.fault == NoFault || a.fault == AnswerLost) && Collectable(root, a.dir.files, a.outer, a.names)
  }

  predicate Succeeded(root: seq<string>, a: Attempt) {
    a.fault == NoFault && Collectable(root, a.dir.files, a.outer, a.names)
  }

  predicate Sound(g: Graph, d: Dir) {
    d.head in g && (d.tracking.Some? ==> d.tracking.value in g)
  }

  ghost predicate AllSound(g: Graph, life: seq<Attempt>) {
    forall i :: 0 <= i < |life| ==> Sound(g, life[i].dir)
  }

  /** The two objects after a series of attempts (`Evacuate`, one after the other). */
  function BundleAfter(g: Graph, root: seq<string>, life: seq<Attempt>): Option<Option<Bundle>>
    requires AllSound(g, life)
  {
    if life == [] then None
    else
      var a := life[|life| - 1];
      assert Sound(g, life[|life| - 1].dir);
      if StoredBundle(root, a) then Some(BundleOf(g, a.dir)) else BundleAfter(g, root, life[..|life| - 1])
  }

  function ArchiveAfter(root: seq<string>, life: seq<Attempt>): Option<seq<Entry>> {
    if life == [] then None
    else
      var a := life[|life| - 1];
      if StoredArchive(root, a) then Some(ArchiveOf(root, a.dir.files, a.outer, a.names)) else ArchiveAfter(root, life[..|life| - 1])
  }

  /** `b` is the last attempt that stored a bundle, `a` the last that stored an archive. */
  ghost predicate LastStored(root: seq<string>, life: seq<Attempt>, a: nat, b: nat) {
    && a <= b < |life| && StoredArchive(root, life[a]) && StoredBundle(root, life[b])
    && (forall i :: a < i < |life| ==> !StoredArchive(root, life[i]))
    && (forall i :: b < i < |life| ==> !StoredBundle(root, life[i]))
  }

  lemma {:induction false} LastArchive(root: seq<string>, life: seq<Attempt>, s: nat) returns (a: nat)
    requires s < |life| && StoredArchive(root, life[s])
    ensures s <= a < |life| && StoredArchive(root, life[a]) && forall i :: a < i < |life| ==> !StoredArchive(root, life[i])
    ensures ArchiveAfter(root, life) == Some(ArchiveOf(root, life[a].dir.files, life[a].outer, life[a].names))
  {
    var n := |life| - 1;
    a := n;
    if !StoredArchive(root, life[n]) {
      a := LastArchive(root, life[..n], s);
      assert forall i :: 0 <= i < n ==> life[..n][i] == life[i];
    }
  }

  lemma {:induction false} LastBundle(g: Graph, root: seq<string>, life: seq<Attempt>, s: nat) returns (b: nat)
    requires AllSound(g, life) && s < |life| && StoredBundle(root, life[s])
    ensures s <= b < |life| && StoredBundle(root, life[b]) && forall i :: b < i < |life| ==> !StoredBundle(root, life[i])
    ensures BundleAfter(g, root, life) == Some(BundleOf(g, life[b].dir))
  {
    var n := |life| - 1;
    b := n;
    if !StoredBundle(root, life[n]) {
      b := LastBundle(g, root, life[..n], s);
      assert forall i :: 0 <= i < n ==> life[..n][i] == life[i];
    }
  }

  /** The stored pair: the bundle of attempt `b`, the archive of attempt `a`. */
  ghost predicate IsPair(g: Graph, root: seq<string>, life: seq<Attempt>, a: nat, b: nat)
    requires AllSound(g, life)
  {
    && LastStored(root, life, a, b) && Sound(g, life[b].dir)
    && BundleAfter(g, root, life) == Some(BundleOf(g, life[b].dir))
    && ArchiveAfter(root, life) == Some(ArchiveOf(root, life[a].dir.files, life[a].outer, life[a].names))
  }

  /** Once an attempt has succeeded both objects are there, the archive never newer than the bundle. */
  lemma StoredPair(g: Graph, root: seq<string>, life: seq<Attempt>, s: nat) returns (a: nat, b: nat)
    requires AllSound(g, life) && s < |life| && Succeeded(root, life[s])
    ensures IsPair(g, root, life, a, b) && s <= a
  {
    a := LastArchive(root, life, s);
    b := LastBundle(g, root, life, a);
  }

  /** For instance: a success followed by an attempt cut off between its uploads leaves a torn pair. */
  lemma TornPairIsLeft(g: Graph, root: seq<string>, first: Attempt, second: Attempt)
    requires AllSound(g, [first, second]) && Succeeded(root, first)
    requires second.fault == BetweenUploads && Collectable(root, second.dir.files, second.outer, second.names)
    ensures IsPair(g, root, [first, second], 0, 1)
  {
    var life := [first, second];
    assert Sound(g, life[1].dir);
    assert life[..1] == [first];
  }

  /** What the stored pair gives back of a directory: its work exactly when the bundle's commit is
      its commit and the archive describes its files. Where both come from one attempt on that very
      directory, that is when nothing of it was beyond evacuation. */
  ghost predicate GivesBack(g: Graph, root: seq<string>, clone: Dir, old_: Attempt, new_: Attempt, d: Dir)
    requires Sound(g, new_.dir) && clone.head in g
  {
    var r := Restored(g, root, clone, BundleOf(g, new_.dir), ArchiveOf(root, old_.dir.files, old_.outer, old_.names));
    r.head == d.head && SameWork(d, r)
  }

  lemma GivesBackIff(g: Graph, root: seq<string>, clone: Dir, old_: Attempt, new_: Attempt, d: Dir)
    requires ValidGraph(g) && Clean(root) && FreshClone(g, clone) && Sound(g, new_.dir) && ValidDir(g, d)
    ensures GivesBack(g, root, clone, old_, new_, d) <==>
              && Tip(clone, BundleOf(g, new_.dir)) == d.head
              && Describes(g, root, ArchiveOf(root, old_.dir.files, old_.outer, old_.names), d)
    ensures old_ == new_ && old_.dir == d && FreshFor(g, d, clone) ==>
              (GivesBack(g, root, clone, old_, new_, d) <==> NotBehind(g, d) && Recoverable(g, root, d, old_.outer, old_.names))
  {
    PairRestoresIff(g, root, clone, BundleOf(g, new_.dir), ArchiveOf(root, old_.dir.files, old_.outer, old_.names), d);
    if old_ == new_ && old_.dir == d && FreshFor(g, d, clone) {
      HeadComesBack(g, d, clone);
      ArchiveDescribesIff(g, root, d, old_.outer, old_.names);
    }
  }

  ghost predicate SucceededBetween(root: seq<string>, life: seq<Attempt>, from: nat, to: nat) {
    exists s :: from <= s < to && s < |life| && Succeeded(root, life[s])
  }

  /** In a step in which a pass over the workspace is told of a snapshot, one of the attempts succeeded. */
  ghost predicate StepAttested(root: seq<string>, run: seq<Cluster.World>, n: Cluster.Name, life: seq<Attempt>, made: seq<nat>, k: nat)
    requires |made| == |run| && k + 1 < |run|
  {
    Runs.Told(run[k], run[k + 1], n) ==> SucceededBetween(root, life, made[k], made[k + 1])
  }

  /** How the attempts run along with the controller: `made[k]` of them had been made by state `k`. */
  ghost predicate Attested(root: seq<string>, run: seq<Cluster.World>, n: Cluster.Name, life: seq<Attempt>, made: seq<nat>) {
    && |made| == |run|
    && (forall k :: 0 <= k < |made| ==> made[k] <= |life|)
    && (forall j, k :: 0 <= j <= k < |made| ==> made[j] <= made[k])
    && (forall k :: 0 <= k < |run| - 1 ==> StepAttested(root, run, n, life, made, k))
  }

  /** Then a record is always true: some attempt has succeeded by then. */
  lemma RecordsAreTrue(root: seq<string>, run: seq<Cluster.World>, k: nat, n: Cluster.Name, life: seq<Attempt>, made: seq<nat>) returns (s: nat)
    requires Runs.Started(run) && k < |run| && Attested(root, run, n, life, made)
    requires n in run[k].store && run[k].store[n].status.lastEvacuation.Some?
    ensures s < made[k] <= |life| && Succeeded(root, life[s])
  {
    var j := Runs.RecordWasReported(run, k, n);
    assert StepAttested(root, run, n, life, made, j);
    var t :| made[j] <= t < made[j + 1] && t < |life| && Succeeded(root, life[t]);
    assert made[j + 1] <= made[k] <= |life|;
    s := t;
  }

  /** At the step in which the volume of a workspace goes that was Ready and never shared its branch,
      both objects are stored, the archive by the last attempt that got that far and the bundle by
      that or a later one; and a directory is given back exactly under the condition for that pair.
      So a later attempt cut off between its uploads can leave a pair that gives back neither. */
  lemma VolumeGoesBehindPair(g: Graph, root: seq<string>, run: seq<Cluster.World>, k: nat, id: string, n: Cluster.Name, life: seq<Attempt>, made: seq<nat>)
    returns (a: nat, b: nat)
    requires ValidGraph(g) && Clean(root) && AllSound(g, life)
    requires Runs.Started(run) && k + 1 < |run| && Runs.NeverShared(run, k, n) && Attested(root, run, n, life, made)
    requires id in run[k].claims && run[k].claims[id] == n && n in run[k].history.everReady
    requires !(id in run[k + 1].claims && run[k + 1].claims[id] == n)
    ensures Runs.Evacuated(run[k], n)
    ensures AllSound(g, life[..made[k]]) && IsPair(g, root, life[..made[k]], a, b)
    ensures forall clone, d :: FreshClone(g, clone) && ValidDir(g, d) ==>
              (GivesBack(g, root, clone, life[a], life[b], d) <==>
                 && Tip(clone, BundleOf(g, life[b].dir)) == d.head
                 && Describes(g, root, ArchiveOf(root, life[a].dir.files, life[a].outer, life[a].names), d))
  {
    Runs.VolumeGoesWhenEvacuated(run, k, id, n);
    var s := RecordsAreTrue(root, run, k, n, life, made);
    var past := life[..made[k]];
    assert past[s] == life[s] && forall i :: 0 <= i < |past| ==> past[i] == life[i];
    a, b := StoredPair(g, root, past, s);
    forall clone, d | FreshClone(g, clone) && ValidDir(g, d)
      ensures GivesBack(g, root, clone, life[a], life[b], d) <==>
                && Tip(clone, BundleOf(g, life[b].dir)) == d.head
                && Describes(g, root, ArchiveOf(root, life[a].dir.files, life[a].outer, life[a].names), d)
    {
      GivesBackIff(g, root, clone, life[a], life[b], d);
    }
  }
}
