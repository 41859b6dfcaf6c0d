/** Quota readings and the chain of fallback models. */
module Quota {
  import opened Orders

  /** One quota window as the supervisor reports it. */
  datatype Snapshot = Snapshot(model: string, group: string, remaining: real, active: bool)

  datatype Reading = Reading(errorKind: string, snapshots: seq<Snapshot>)

  datatype Scope = ModelScope | WeeklyScope | SessionScope

  const WEEKLY: string := "weekly"

  predicate IsAuthError(kind: string) {
    kind == "authentication_error" || kind == "permission_error"
  }

  predicate Spent(s: Snapshot, min: real) {
    s.active && s.remaining <= min
  }

  function ScopeOf(s: Snapshot): Scope {
    if s.model != "" then ModelScope else if s.group == WEEKLY then WeeklyScope else SessionScope
  }

  function Width(s: Scope): nat {
    match s
    case ModelScope => 0
    case WeeklyScope => 1
    case SessionScope => 2
  }

  /** `scope` is the widest window in effect that is spent; none when no window is. */
  ghost predicate IsWidest(snaps: seq<Snapshot>, min: real, scope: Option<Scope>) {
    && (scope.None? <==> forall s :: s in snaps ==> !Spent(s, min))
    && (scope.Some? ==>
          && (exists s :: s in snaps && Spent(s, min) && ScopeOf(s) == scope.value)
          && (forall s :: s in snaps && Spent(s, min) ==> Width(ScopeOf(s)) <= Width(scope.value)))
  }

  /** Some spent window has this scope. */
  predicate SpentIn(snaps: seq<Snapshot>, min: real, scope: Scope) {
    exists s :: s in snaps && Spent(s, min) && ScopeOf(s) == scope
  }

  /** The widest spent window. */
  function Widest(snaps: seq<Snapshot>, min: real): Option<Scope> {
    if SpentIn(snaps, min, SessionScope) then Some(SessionScope)
    else if SpentIn(snaps, min, WeeklyScope) then Some(WeeklyScope)
    else if SpentIn(snaps, min, ModelScope) then Some(ModelScope)
    else None
  }

  lemma WidestIsWidest(snaps: seq<Snapshot>, min: real)
    ensures IsWidest(snaps, min, Widest(snaps, min))
  {
    assert forall s :: s in snaps && Spent(s, min) ==> SpentIn(snaps, min, ScopeOf(s));
  }

  /** Only which windows were reported counts, not their order or number. */
  lemma WidestIgnoresOrder(a: seq<Snapshot>, b: seq<Snapshot>, min: real, x: Option<Scope>, y: Option<Scope>)
    requires forall s :: s in a <==> s in b
    requires IsWidest(a, min, x) && IsWidest(b, min, y)
    ensures x == y
  {
    if x.Some? && y.Some? {
      var s :| s in a && Spent(s, min) && ScopeOf(s) == x.value;
      var t :| t in b && Spent(t, min) && ScopeOf(t) == y.value;
      assert s in b && t in a;
    }
  }

  /** No window when none in effect is down to the minimum; the session's when one that is neither a
      model's nor weekly is; the week's when all that are and are no model's are weekly. */
  lemma WidestSpelledOut(snaps: seq<Snapshot>, min: real)
    ensures var scope := Widest(snaps, min);
      && (scope.None? <==> forall s :: s in snaps ==> !(s.active && s.remaining <= min))
      && (scope == Some(SessionScope) <==>
            exists s :: s in snaps && s.active && s.remaining <= min && s.model == "" && s.group != "weekly")
      && (scope == Some(WeeklyScope) <==>
            && (exists s :: s in snaps && s.active && s.remaining <= min && s.model == "" && s.group == "weekly")
            && (forall s :: s in snaps && s.active && s.remaining <= min && s.model == "" ==> s.group == "weekly"))
  {
    forall s | s in snaps
      ensures Spent(s, min) <==> s.active && s.remaining <= min
      ensures ScopeOf(s) == SessionScope <==> s.model == "" && s.group != "weekly"
      ensures ScopeOf(s) == WeeklyScope <==> s.model == "" && s.group == "weekly"
      ensures Spent(s, min) ==> SpentIn(snaps, min, ScopeOf(s))
    {
    }
  }

  /** `exhaustedScope`: one scan that stops at the first spent session window. */
  method ExhaustedScope(snaps: seq<Snapshot>, min: real) returns (scope: Option<Scope>)
    ensures scope == Widest(snaps, min)
  {
    WidestIsWidest(snaps, min);
    scope := None;
    for i := 0 to |snaps|
      invariant scope != Some(SessionScope)
      invariant IsWidest(snaps[..i], min, scope)
    {
      var s := snaps[i];
      assert snaps[..i + 1] == snaps[..i] + [s];
      if !s.active || s.remaining > min {
        continue;
      }
      if s.model != "" {
        if scope.None? {
          scope := Some(ModelScope);
        }
        assert s in snaps[..i + 1];
      } else if s.group == WEEKLY {
        scope := Some(WeeklyScope);
        assert s in snaps[..i + 1];
      } else {
        assert s in snaps;
        WidestIgnoresOrder(snaps, snaps, min, Some(SessionScope), Widest(snaps, min));
        return Some(SessionScope);
      }
    }
    assert snaps[..|snaps|] == snaps;
    WidestIgnoresOrder(snaps, snaps, min, scope, Widest(snaps, min));
  }

  // ---- the chain of models ----

  /** The first position of a name in the chain. */
  function IndexOf(chain: seq<string>, m: string): (i: nat)
    ensures i <= |chain| && (i < |chain| ==> chain[i] == m)
    ensures forall j :: 0 <= j < i ==> chain[j] != m
  {
    if chain == [] || chain[0] == m then 0 else 1 + IndexOf(chain[1..], m)
  }

  /** Where a workspace stands in the chain; one without a model stands at the head. */
  function Place(chain: seq<string>, current: string): (i: nat) {
    if current == "" then 0 else IndexOf(chain, current)
  }

  /** The entry after the current one; "" when there is none. */
  function NextModel(chain: seq<string>, current: string): string {
    var at := Place(chain, current);
    if at + 1 < |chain| then chain[at + 1] else ""
  }

  /** The second entry for a workspace without a model, nothing for a stranger, and otherwise the entry
      behind the first one of that name. */
  lemma NextModelSpelledOut(chain: seq<string>, current: string, i: nat)
    ensures current == "" ==> NextModel(chain, current) == if |chain| > 1 then chain[1] else ""
    ensures current != "" && current !in chain ==> NextModel(chain, current) == ""
    ensures i < |chain| && current != "" && chain[i] == current && current !in chain[..i] ==>
              NextModel(chain, current) == if i + 1 < |chain| then chain[i + 1] else ""
  {
    if i < |chain| && current != "" && chain[i] == current && current !in chain[..i] {
      assert forall j :: 0 <= j < i ==> chain[j] == chain[..i][j];
    }
  }

  method FindNextModel(chain: seq<string>, current: string) returns (next: string)
    ensures next == NextModel(chain, current)
  {
    var at := 0;
    if current != "" {
      at := -1;
      for i := 0 to |chain|
        invariant at == -1 && current !in chain[..i]
      {
        if chain[i] == current {
          at := i;
          break;
        }
      }
      if at < 0 {
        return "";
      }
    }
    if at + 1 >= |chain| {
      return "";
    }
    return chain[at + 1];
  }

  /** The model after `k` switches from an unset one. */
  function Walk(chain: seq<string>, start: string, k: nat): string {
    if k == 0 then start else NextModel(chain, Walk(chain, start, k - 1))
  }

  predicate Distinct(s: seq<string>) {
    forall i, j :: 0 <= i < j < |s| ==> s[i] != s[j]
  }

  /** Where the chain stops being usable: its first blank entry after the head, or its end. */
  function Usable(chain: seq<string>, from: nat): (n: nat)
    requires 1 <= from <= |chain|
    ensures from <= n <= |chain|
    ensures forall i :: from <= i < n ==> chain[i] != ""
    ensures n < |chain| ==> chain[n] == ""
    decreases |chain| - from
  {
    if from == |chain| || chain[from] == "" then from else Usable(chain, from + 1)
  }

  /** With distinct, non-blank names every switch moves one place forward, so it comes to an end. */
  lemma SwitchMovesForward(chain: seq<string>, current: string)
    requires Distinct(chain) && "" !in chain && NextModel(chain, current) != ""
    ensures Place(chain, NextModel(chain, current)) == Place(chain, current) + 1 < |chain|
  {
  }

  lemma {:induction false} WalkFollowsChain(chain: seq<string>, k: nat)
    requires 1 <= k < |chain| && Distinct(chain[..k + 1]) && forall i :: 1 <= i <= k ==> chain[i] != ""
    ensures Walk(chain, "", k) == chain[k]
  {
    if k > 1 {
      assert chain[..k] == chain[..k + 1][..k];
      WalkFollowsChain(chain, k - 1);
      var i := IndexOf(chain, chain[k - 1]);
      assert i <= k - 1 && chain[..k + 1][i] == chain[..k + 1][k - 1];
    }
  }

  /** Once round a repeated entry, the walk goes on for ever between the two. */
  lemma {:induction false} WalkCycles(chain: seq<string>, n: nat, d: nat, e: nat, k: nat) returns (p: nat)
    requires e < d < n <= |chain| && chain[e] == chain[d] && Distinct(chain[..d])
    requires forall i :: 1 <= i < n ==> chain[i] != ""
    requires k >= 1
    ensures 1 <= p <= d && Walk(chain, "", k) == chain[p]
  {
    if k == 1 {
      p := 1;
    } else {
      p := WalkCycles(chain, n, d, e, k - 1);
      var i := IndexOf(chain, chain[p]);
      if p < d {
        assert i <= p && chain[..d][i] == chain[..d][p];
        p := p + 1;
      } else {
        assert i <= e;
        p := i + 1;
      }
    }
  }

  lemma FirstRepeat(s: seq<string>) returns (e: nat, d: nat)
    requires !Distinct(s)
    ensures e < d < |s| && s[e] == s[d] && Distinct(s[..d])
  {
    d := 1;
    while Distinct(s[..d + 1])
      invariant 1 <= d < |s| && Distinct(s[..d])
      decreases |s| - d
    {
      assert s[..|s|] == s;
      d := d + 1;
    }
    var i, j :| 0 <= i < j < d + 1 && s[..d + 1][i] == s[..d + 1][j];
    assert forall m :: 0 <= m < d ==> s[..d][m] == s[m];
    e := i;
  }

  /** Switching comes to an end exactly when the usable part of the chain repeats no name. */
  lemma SwitchingEnds(chain: seq<string>)
    requires chain != []
    ensures (exists k: nat :: NextModel(chain, Walk(chain, "", k)) == "") <==> Distinct(chain[..Usable(chain, 1)])
  {
    var n := Usable(chain, 1);
    if Distinct(chain[..n]) {
      if n > 1 {
        assert chain[..n - 1 + 1] == chain[..n];
        WalkFollowsChain(chain, n - 1);
        var i := IndexOf(chain, chain[n - 1]);
        assert i <= n - 1 && chain[..n][i] == chain[..n][n - 1];
      }
      assert NextModel(chain, Walk(chain, "", n - 1)) == "";
    } else {
      var e, d := FirstRepeat(chain[..n]);
      assert chain[..n][..d] == chain[..d];
      forall k: nat ensures NextModel(chain, Walk(chain, "", k)) != "" {
        var p := WalkCycles(chain, n, d, e, k + 1);
        assert Walk(chain, "", k + 1) == NextModel(chain, Walk(chain, "", k));
      }
    }
  }

  /** The number of changes in a history of models. */
  function Switches(history: seq<string>): nat {
    if |history| < 2 then 0
    else Switches(history[..|history| - 1]) + (if history[|history| - 1] == history[|history| - 2] then 0 else 1)
  }

  ghost predicate FollowsChain(chain: seq<string>, history: seq<string>) {
    forall i :: 0 <= i < |history| - 1 ==>
      history[i + 1] == history[i] || (history[i + 1] == NextModel(chain, history[i]) && history[i + 1] != "")
  }

  lemma {:induction false} PlaceCountsSwitches(chain: seq<string>, history: seq<string>)
    requires Distinct(chain) && "" !in chain && FollowsChain(chain, history) && history != []
    ensures Switches(history) > 0 ==> Place(chain, history[|history| - 1]) < |chain|
    ensures Place(chain, history[0]) + Switches(history) == Place(chain, history[|history| - 1])
    decreases |history|
  {
    var n := |history| - 1;
    if n > 0 {
      assert forall i :: 0 <= i < n ==> history[..n][i] == history[i];
      PlaceCountsSwitches(chain, history[..n]);
      if history[n] != history[n - 1] {
        SwitchMovesForward(chain, history[n - 1]);
      }
    }
  }

  /** The active model only moves forward, so at most `|chain| - 1` switches ever happen. */
  lemma SwitchesAreBounded(chain: seq<string>, history: seq<string>)
    requires Distinct(chain) && "" !in chain && FollowsChain(chain, history)
    ensures Switches(history) <= if chain == [] then 0 else |chain| - 1
  {
    if history != [] {
      PlaceCountsSwitches(chain, history);
    }
  }
}
