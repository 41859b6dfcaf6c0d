/** Which of several workspaces for one repository and branch owns it: `findCanonical`. */
module Ownership {
  import opened Orders
  import opened Cluster

  /** The live workspaces of the same repository and branch, apart from `n` itself. */
  predicate Rival(store: map<Name, Workspace>, ws: Workspace, n: Name, m: Name) {
    m in store && m != n && SameBranch(store[m], ws) && !store[m].deleting
  }

  function AgeOf(o: Workspace, n: Name): Age {
    Age(o.created, n)
  }

  /** The answer the ownership rule calls for: nobody when `n` is older than every rival, otherwise
      the oldest rival. */
  ghost predicate CanonicalAnswer(store: map<Name, Workspace>, ws: Workspace, n: Name, answer: Option<Name>) {
    match answer
    case None => forall m :: Rival(store, ws, n, m) ==> Older(AgeOf(ws, n), AgeOf(store[m], m))
    case Some(c) =>
      && Rival(store, ws, n, c)
      && !Older(AgeOf(ws, n), AgeOf(store[c], c))
      && (forall m :: Rival(store, ws, n, m) && m != c ==> Older(AgeOf(store[c], c), AgeOf(store[m], m)))
  }

  ghost predicate Enumerates(names: seq<Name>, store: map<Name, Workspace>) {
    && (forall m :: m in names <==> m in store)
    && (forall i, j :: 0 <= i < j < |names| ==> names[i] != names[j])
  }

  /** `findCanonical` over one listing, in whatever order the listing comes. */
  method FindCanonical(store: map<Name, Workspace>, names: seq<Name>, n: Name, ws: Workspace) returns (answer: Option<Name>)
    requires Enumerates(names, store)
    ensures CanonicalAnswer(store, ws, n, answer)
    ensures forall m :: m in store && m != n && store[m].repository == ws.repository && store[m].branch == ws.branch && !store[m].deleting ==>
              var c, by_ := if answer.None? then n else answer.value, if answer.None? then ws.created else store[answer.value].created;
              m == c || by_ < store[m].created || (by_ == store[m].created && Before(c, m))
  {
    var candidates: seq<Age> := [];
    for k := 0 to |names|
      invariant forall a :: a in candidates <==> a.name in names[..k] && Rival(store, ws, n, a.name) && a == AgeOf(store[a.name], a.name)
    {
      var m := names[k];
      assert names[..k + 1] == names[..k] + [m];
      if m == n || !SameBranch(store[m], ws) || store[m].deleting {
        continue;
      }
      candidates := candidates + [AgeOf(store[m], m)];
    }
    assert names[..|names|] == names;
    forall m | Rival(store, ws, n, m) ensures AgeOf(store[m], m) in candidates {
    }
    if candidates == [] {
      return None;
    }
    var sorted := SortBy(candidates, AgeAtMost);
    AgeOrder();
    SortBySorted(candidates, AgeAtMost);
    var oldest := sorted[0];
    assert oldest in multiset(sorted);
    assert oldest in candidates;
    forall m | Rival(store, ws, n, m) ensures AgeAtMost(oldest, AgeOf(store[m], m)) {
      assert AgeOf(store[m], m) in multiset(candidates);
      assert AgeOf(store[m], m) in sorted;
    }
    if Older(AgeOf(ws, n), oldest) {
      forall m | Rival(store, ws, n, m) ensures Older(AgeOf(ws, n), AgeOf(store[m], m)) {
        OlderThrough(AgeOf(ws, n), oldest, AgeOf(store[m], m));
      }
      return None;
    }
    return Some(oldest.name);
  }

  ghost predicate Live(store: map<Name, Workspace>, n: Name) {
    n in store && !store[n].deleting
  }

  function OwnerBy(n: Name, answer: Option<Name>): Name {
    if answer.Some? then answer.value else n
  }

  /** All live workspaces of one branch name the same owner, whichever of them asks. */
  lemma OneOwnerPerBranch(store: map<Name, Workspace>, a: Name, b: Name, ra: Option<Name>, rb: Option<Name>)
    requires Live(store, a) && Live(store, b) && SameBranch(store[a], store[b])
    requires CanonicalAnswer(store, store[a], a, ra)
    requires CanonicalAnswer(store, store[b], b, rb)
    ensures OwnerBy(a, ra) == OwnerBy(b, rb)
    ensures ra.None? && rb.None? ==> a == b
    ensures CanonicalAnswer(store, store[OwnerBy(a, ra)], OwnerBy(a, ra), None)
  {
    AgeOrder();
    var oa, ob := OwnerBy(a, ra), OwnerBy(b, rb);
    OwnerIsOldest(store, a, ra, ob);
    OwnerIsOldest(store, b, rb, oa);
    forall m | Rival(store, store[oa], oa, m) ensures Older(AgeOf(store[oa], oa), AgeOf(store[m], m)) {
      OwnerIsOldest(store, a, ra, m);
    }
  }

  lemma OwnerIsOldest(store: map<Name, Workspace>, a: Name, ra: Option<Name>, m: Name)
    requires Live(store, a) && CanonicalAnswer(store, store[a], a, ra)
    requires Live(store, m) && SameBranch(store[m], store[a])
    ensures Live(store, OwnerBy(a, ra)) && SameBranch(store[OwnerBy(a, ra)], store[a])
    ensures m != OwnerBy(a, ra) ==> Older(AgeOf(store[OwnerBy(a, ra)], OwnerBy(a, ra)), AgeOf(store[m], m))
  {
    AgeOrder();
    if m != a {
      assert Rival(store, store[a], a, m);
    } else if ra.Some? {
      assert AgeAtMost(AgeOf(store[ra.value], ra.value), AgeOf(store[a], a));
    }
  }
}
