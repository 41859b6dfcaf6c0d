/** Admission before provisioning: the quota and disk checks, made once per workspace, and what they
    mean for the budget of a node. */
module Admission {
  import opened Orders
  import opened Cluster
  import opened Ownership

  /** One governed resource of the namespace quota; `hard` is absent when the quota is silent on it. */
  datatype QuotaLine = QuotaLine(hard: Option<int>, used: int, needed: int)

  /** `resourceQuotaHasRoom`. */
  method ResourceQuotaHasRoom(lines: seq<QuotaLine>) returns (room: bool)
    ensures room <==> forall q :: q in lines && q.hard.Some? ==> q.used + q.needed <= q.hard.value
  {
    for k := 0 to |lines|
      invariant forall q :: q in lines[..k] && q.hard.Some? ==> q.used + q.needed <= q.hard.value
    {
      assert lines[..k + 1] == lines[..k] + [lines[k]];
      if lines[k].hard.None? {
        continue;
      }
      var remaining := lines[k].hard.value - lines[k].used;
      if remaining < lines[k].needed {
        return false;
      }
    }
    assert lines[..|lines|] == lines;
    return true;
  }

  /** What the disk check counts against the node: admitted or not, unlike the committed share. */
  predicate CountsAgainst(o: Workspace) {
    !o.deleting && o.status.phase != Failed && !o.status.duplicate
  }

  ghost function CountedAmong(w: World, names: set<Name>, n: Name, node: string): map<Name, nat> {
    map m | m in names && m in w.store && m != n :: if CountsAgainst(w.store[m]) then SizeOn(w.templates, w.store[m], node) else 0
  }

  ghost function Counted(w: World, n: Name, node: string): map<Name, nat> {
    CountedAmong(w, w.store.Keys, n, node)
  }

  /** The live workspaces other than the asking one count with their declared size, unless they have
      failed or are mirrors, and only on the node their template names. */
  lemma WhatCounts(w: World, n: Name, node: string, m: Name)
    ensures m in Counted(w, n, node) <==> m in w.store && m != n
    ensures m in w.store && m != n ==>
              var o := w.store[m];
              Counted(w, n, node)[m] ==
                if !o.deleting && o.status.phase != Failed && !o.status.duplicate && o.template in w.templates && w.templates[o.template].node == node
                then w.templates[o.template].size
                else 0
  {
  }

  /** `nodeDiskBudgetHasRoom`, over one listing in whatever order it comes. */
  method NodeDiskBudgetHasRoom(w: World, names: seq<Name>, n: Name, t: Template) returns (room: bool)
    requires Enumerates(names, w.store)
    ensures room <==> (t.budget.Some? ==> t.size + SumOf(Counted(w, n, t.node)) <= t.budget.value)
  {
    if t.budget.None? {
      return true;
    }
    var total := SumSizes(w, names, n, t);
    return total <= t.budget.value;
  }

  /** The loop: the own size and the others', one by one. */
  method SumSizes(w: World, names: seq<Name>, n: Name, t: Template) returns (total: nat)
    requires Enumerates(names, w.store)
    ensures total == t.size + SumOf(Counted(w, n, t.node))
  {
    total := t.size;
    ghost var seen: set<Name> := {};
    assert CountedAmong(w, {}, n, t.node) == map[];
    for k := 0 to |names|
      invariant forall m :: m in seen <==> m in names[..k]
      invariant total == t.size + SumOf(CountedAmong(w, seen, n, t.node))
    {
      var m := names[k];
      assert names[..k + 1] == names[..k] + [m] && m !in seen;
      CountOneMore(w, seen, n, t.node, m);
      seen := seen + {m};
      var o := w.store[m];
      if m == n || o.deleting || o.status.phase == Failed || o.status.duplicate || o.template !in w.templates {
        continue;
      }
      var u := w.templates[o.template];
      if u.node != t.node {
        continue;
      }
      total := total + u.size;
    }
    assert names[..|names|] == names;
    assert seen == w.store.Keys;
  }

  lemma CountOneMore(w: World, seen: set<Name>, n: Name, node: string, m: Name)
    requires m in w.store && m !in seen
    ensures SumOf(CountedAmong(w, seen + {m}, n, node)) ==
            SumOf(CountedAmong(w, seen, n, node)) + (if m != n && CountsAgainst(w.store[m]) then SizeOn(w.templates, w.store[m], node) else 0)
  {
    var more, before := CountedAmong(w, seen + {m}, n, node), CountedAmong(w, seen, n, node);
    if m == n {
      assert more == before;
    } else {
      SumSplit(more, m);
      assert more - {m} == before;
    }
  }

  /** Passing the check leaves room for the workspace among the admitted ones. */
  lemma CheckMeansRoom(w: World, n: Name)
    requires Inv(w) && n in w.store && w.store[n].template in w.templates
    requires var t := w.templates[w.store[n].template];
             t.budget.Some? ==> t.size + SumOf(Counted(w, n, t.node)) <= t.budget.value
    ensures RoomFor(w, n)
  {
    var t := w.templates[w.store[n].template];
    forall node, budget: nat | CommonBudget(w.templates, node, budget)
      ensures SumOf(Shares(w, node) - {n}) + SizeOn(w.templates, w.store[n], node) <= budget
    {
      if node == t.node {
        SumMonotone(Shares(w, node) - {n}, Counted(w, n, node));
      } else {
        SumMonotone(Shares(w, node) - {n}, Shares(w, node));
        assert Committed(w, node) <= budget;
      }
    }
  }
}
