/** The task queue: what is stored, what one undisturbed pass has to achieve, and what that means
    over several passes. */
module TaskQueue {
  import opened Orders
  import opened Quota

  type Name = string

  datatype TaskPhase = Unset | Pending | Running | Verifying | HumanIntervention | Completed | Failed

  /** Why a task is held, with what its message reports. */
  datatype Reason =
    | ConcurrencyLimit(running: nat, limit: nat)
    | WorkspaceNotReady(workspace: Name)
    | AuthError(kind: string)
    | QuotaExhausted(scope: Scope)

  /** The Dispatched condition: true, or false with a reason. */
  datatype Dispatched = SlotAvailable | Held(why: Reason)

  datatype Task = Task(created: nat, deleting: bool, workspace: Name, phase: TaskPhase, dispatched: Option<Dispatched>)

  /** A workspace as the queue sees it; `model` is the active-model annotation, "" when unset. */
  datatype Workspace = Workspace(ready: bool, model: string)

  datatype World = World(tasks: map<Name, Task>, workspaces: map<Name, Workspace>)

  /** The operator's settings, and what the usage observer would answer for each workspace; a
      workspace missing from `usage` cannot be read. */
  datatype Setup = Setup(limit: nat, min: real, chain: seq<string>, usage: map<Name, Reading>)

  /** The phases that take up a session. */
  predicate Occupies(t: Task) {
    !t.deleting && (t.phase == Running || t.phase == Verifying || t.phase == HumanIntervention)
  }

  predicate Waits(t: Task) {
    !t.deleting && (t.phase == Unset || t.phase == Pending)
  }

  function Occupants(w: World): set<Name> {
    set n | n in w.tasks && Occupies(w.tasks[n])
  }

  /** The number of tasks that take up a session. */
  function Load(w: World): nat {
    |Occupants(w)|
  }

  predicate Ready(w: World, x: Name) {
    x in w.workspaces && w.workspaces[x].ready
  }

  function Max(a: nat, b: nat): nat {
    if a < b then b else a
  }

  // ---- what a pass achieves ----

  /** A task as a pass reads it. */
  datatype Item = Item(name: Name, task: Task)

  function AgeOf(x: Item): Age {
    Age(x.task.created, x.name)
  }

  ghost predicate OldestFirst(q: seq<Item>) {
    forall i, j :: 0 <= i < j < |q| ==> Older(AgeOf(q[i]), AgeOf(q[j]))
  }

  /** The waiting tasks, oldest first. */
  ghost predicate IsQueue(w: World, q: seq<Item>) {
    && OldestFirst(q)
    && (forall i :: 0 <= i < |q| ==> q[i].name in w.tasks && q[i].task == w.tasks[q[i].name] && Waits(q[i].task))
    && (forall n :: n in w.tasks && Waits(w.tasks[n]) ==> Item(n, w.tasks[n]) in q)
  }

  /** What a pass starts from: the settings, the slots in use, the workspaces, and the queue. */
  datatype Scene = Scene(setup: Setup, load: nat, workspaces: map<Name, Workspace>, queue: seq<Item>)

  function SceneOf(c: Setup, w: World, q: seq<Item>): Scene {
    Scene(c, Load(w), w.workspaces, q)
  }

  predicate ReadyAt(s: Scene, i: nat)
    requires i < |s.queue|
  {
    var x := s.queue[i].task.workspace;
    x in s.workspaces && s.workspaces[x].ready
  }

  /** How many of the first `i` tasks in the queue have a Ready workspace. */
  function ReadyBefore(s: Scene, i: nat): nat
    requires i <= |s.queue|
  {
    if i == 0 then 0 else ReadyBefore(s, i - 1) + if ReadyAt(s, i - 1) then 1 else 0
  }

  /** Position `i` gets a slot if nothing stops the queue before it. */
  predicate Eligible(s: Scene, i: nat)
    requires i < |s.queue|
  {
    s.load + ReadyBefore(s, i) < s.setup.limit && ReadyAt(s, i)
  }

  /** How many of the first `i` tasks are eligible and belong to workspace `x`. */
  function EligibleOn(s: Scene, i: nat, x: Name): nat
    requires i <= |s.queue|
  {
    if i == 0 then 0
    else EligibleOn(s, i - 1, x) + if Eligible(s, i - 1) && s.queue[i - 1].task.workspace == x then 1 else 0
  }

  /** What a reading says to a workspace on a given model: nothing, or a reason to stop the queue. */
  function Throttled(c: Setup, r: Reading, model: string): Option<Reason> {
    if IsAuthError(r.errorKind) then Some(AuthError(r.errorKind))
    else
      match Widest(r.snapshots, c.min)
      case None => None
      case Some(scope) =>
        if scope == ModelScope && NextModel(c.chain, model) != "" then None else Some(QuotaExhausted(scope))
  }

  /** The model a workspace is on after a reading let one more of its tasks pass. */
  function Switched(c: Setup, r: Reading, model: string): string {
    if !IsAuthError(r.errorKind) && Widest(r.snapshots, c.min) == Some(ModelScope) && NextModel(c.chain, model) != ""
    then NextModel(c.chain, model)
    else model
  }

  /** The model after `k` such tasks. */
  function ModelAfter(c: Setup, x: Name, model: string, k: nat): string {
    if k == 0 || x !in c.usage then model else Switched(c, c.usage[x], ModelAfter(c, x, model, k - 1))
  }

  /** The model workspace `x` is on when the pass reaches position `i`. */
  function ModelAt(s: Scene, i: nat, x: Name): string
    requires i <= |s.queue| && x in s.workspaces
  {
    ModelAfter(s.setup, x, s.workspaces[x].model, EligibleOn(s, i, x))
  }

  /** The reason for which the task at position `i` stops the queue, if it does. */
  function StopsAt(s: Scene, i: nat): Option<Reason>
    requires i < |s.queue|
  {
    var x := s.queue[i].task.workspace;
    if Eligible(s, i) && x in s.setup.usage then Throttled(s.setup, s.setup.usage[x], ModelAt(s, i, x)) else None
  }

  /** `k` is the position of the first task that stops the queue, the length if none does. */
  ghost predicate IsStop(s: Scene, k: nat) {
    && k <= |s.queue|
    && (forall i :: 0 <= i < k ==> StopsAt(s, i).None?)
    && (k < |s.queue| ==> StopsAt(s, k).Some?)
  }

  /** What happens to the task at position `i` where nothing stops the queue. */
  function Placed(s: Scene, i: nat): Dispatched
    requires i < |s.queue|
  {
    if s.load + ReadyBefore(s, i) >= s.setup.limit then Held(ConcurrencyLimit(Max(s.setup.limit, s.load), s.setup.limit))
    else if !ReadyAt(s, i) then Held(WorkspaceNotReady(s.queue[i].task.workspace))
    else SlotAvailable
  }

  /** What happens to it: it is dispatched, or held for a reason. */
  function Verdict(s: Scene, k: nat, i: nat): Dispatched
    requires i < |s.queue| && (k < |s.queue| ==> StopsAt(s, k).Some?)
  {
    if k <= i then Held(StopsAt(s, k).value) else Placed(s, i)
  }

  /** A task after its verdict; one that already carries it is left as it is. */
  function Settle(t: Task, v: Dispatched): Task {
    if v == SlotAvailable then t.(phase := Running, dispatched := Some(SlotAvailable))
    else if t.dispatched == Some(v) then t
    else t.(phase := Pending, dispatched := Some(v))
  }

  ghost predicate Queued(q: seq<Item>, n: Name) {
    exists i :: 0 <= i < |q| && q[i].name == n
  }

  /** `w'` is what an undisturbed pass makes of `w`: each waiting task has the verdict of its
      position, nothing else about any task changed, and each workspace is on the model its
      dispatched tasks led it to. */
  ghost predicate IsPass(c: Setup, w: World, q: seq<Item>, k: nat, w': World) {
    var s := SceneOf(c, w, q);
    && IsQueue(w, q) && IsStop(s, k)
    && w'.tasks.Keys == w.tasks.Keys && w'.workspaces.Keys == w.workspaces.Keys
    && (forall i :: 0 <= i < |q| ==> w'.tasks[q[i].name] == Settle(q[i].task, Verdict(s, k, i)))
    && (forall n :: n in w.tasks && !Queued(q, n) ==> w'.tasks[n] == w.tasks[n])
    && (forall x :: x in w.workspaces ==> w'.workspaces[x] == w.workspaces[x].(model := ModelAt(s, k, x)))
  }

  /** Every waiting task already carries the verdict of its position. */
  ghost predicate IsQuiet(s: Scene, k: nat) {
    && IsStop(s, k)
    && forall i :: 0 <= i < |s.queue| ==>
         Verdict(s, k, i) != SlotAvailable && s.queue[i].task.dispatched == Some(Verdict(s, k, i))
  }

  // ---- the queue is determined by what is stored ----

  lemma NotOlderThanItself(a: Age)
    ensures !Older(a, a)
  {
    BeforeIrreflexive(a.name);
  }

  lemma OldestIsFirst(p: seq<Item>, q: seq<Item>)
    requires OldestFirst(p) && OldestFirst(q) && p != [] && forall x :: x in p <==> x in q
    ensures q != [] && p[0] == q[0]
  {
    assert p[0] in q && q[0] in p;
    var i :| 0 <= i < |q| && q[i] == p[0];
    var j :| 0 <= j < |p| && p[j] == q[0];
    if i > 0 && j > 0 {
      OlderThrough(AgeOf(p[0]), AgeOf(q[0]), AgeOf(p[0]));
      NotOlderThanItself(AgeOf(p[0]));
    }
  }

  lemma OldestIsOnce(q: seq<Item>, x: Item)
    requires OldestFirst(q) && q != []
    ensures x in q[1..] <==> x in q && x != q[0]
  {
    NotOlderThanItself(AgeOf(q[0]));
  }

  lemma {:induction false} SameOrder(p: seq<Item>, q: seq<Item>)
    requires OldestFirst(p) && OldestFirst(q) && forall x :: x in p <==> x in q
    ensures p == q
  {
    if p == [] {
      if q != [] {
        OldestIsFirst(q, p);
      }
    } else {
      OldestIsFirst(p, q);
      forall x ensures x in p[1..] <==> x in q[1..] {
        OldestIsOnce(p, x);
        OldestIsOnce(q, x);
      }
      SameOrder(p[1..], q[1..]);
      assert p == [p[0]] + p[1..] && q == [q[0]] + q[1..];
    }
  }

  lemma InQueue(w: World, q: seq<Item>, x: Item)
    requires IsQueue(w, q)
    ensures x in q <==> x.name in w.tasks && x.task == w.tasks[x.name] && Waits(x.task)
  {
    if x.name in w.tasks && x.task == w.tasks[x.name] {
      assert x == Item(x.name, w.tasks[x.name]);
    }
  }

  lemma QueueIsUnique(w: World, p: seq<Item>, q: seq<Item>)
    requires IsQueue(w, p) && IsQueue(w, q)
    ensures p == q
  {
    forall x ensures x in p <==> x in q {
      InQueue(w, p, x);
      InQueue(w, q, x);
    }
    SameOrder(p, q);
  }

  /** The whole pass is determined by what is stored. */
  lemma PassIsDetermined(c: Setup, w: World, q: seq<Item>, k: nat, w': World, p: seq<Item>, l: nat, w'': World)
    requires IsPass(c, w, q, k, w') && IsPass(c, w, p, l, w'')
    ensures q == p && k == l && w' == w''
  {
    QueueIsUnique(w, p, q);
    StopIsUnique(SceneOf(c, w, q), k, l);
    forall n | n in w.tasks ensures w'.tasks[n] == w''.tasks[n] {
      TaskIsDetermined(c, w, q, k, w', w'', n);
    }
    assert w'.tasks == w''.tasks && w'.workspaces == w''.workspaces;
  }

  lemma StopIsUnique(s: Scene, k: nat, l: nat)
    requires IsStop(s, k) && IsStop(s, l)
    ensures k == l
  {
  }

  lemma TaskIsDetermined(c: Setup, w: World, q: seq<Item>, k: nat, w': World, w'': World, n: Name)
    requires IsPass(c, w, q, k, w') && IsPass(c, w, q, k, w'') && n in w.tasks
    ensures n in w'.tasks && n in w''.tasks && w'.tasks[n] == w''.tasks[n]
  {
    if Queued(q, n) {
      var i :| 0 <= i < |q| && q[i].name == n;
      assert w'.tasks[q[i].name] == Settle(q[i].task, Verdict(SceneOf(c, w, q), k, i));
    }
  }

  // ---- what a pass does, told by task ----

  lemma SettleMeans(t: Task, v: Dispatched)
    requires Waits(t)
    ensures Settle(t, v) == t.(phase := Settle(t, v).phase, dispatched := Some(v))
    ensures if v == SlotAvailable then Settle(t, v).phase == Running else Settle(t, v).phase == Pending || Settle(t, v) == t
  {
  }

  /** Every waiting task is told: it runs in a slot, or goes on waiting and carries a reason; nothing
      but its phase and the Dispatched condition changes. */
  lemma EveryoneIsTold(c: Setup, w: World, q: seq<Item>, k: nat, w': World, n: Name)
    requires IsPass(c, w, q, k, w') && n in w.tasks
    ensures n in w'.tasks && w'.tasks[n] == w.tasks[n].(phase := w'.tasks[n].phase, dispatched := w'.tasks[n].dispatched)
    ensures w.tasks[n].deleting || w.tasks[n].phase !in {Unset, Pending} ==> w'.tasks[n] == w.tasks[n]
    ensures !w.tasks[n].deleting && w.tasks[n].phase in {Unset, Pending} ==>
              || (w'.tasks[n].phase == Running && w'.tasks[n].dispatched == Some(SlotAvailable))
              || (&& w'.tasks[n].dispatched.Some? && w'.tasks[n].dispatched.value.Held?
                  && (w'.tasks[n].phase == Pending || w'.tasks[n] == w.tasks[n]))
  {
    if Waits(w.tasks[n]) {
      assert Item(n, w.tasks[n]) in q;
      var i :| 0 <= i < |q| && q[i] == Item(n, w.tasks[n]);
      var v := Verdict(SceneOf(c, w, q), k, i);
      assert w'.tasks[q[i].name] == Settle(q[i].task, v);
      SettleMeans(w.tasks[n], v);
    } else {
      assert !Queued(q, n);
    }
  }

  /** A reading stops the queue for a failed credential and for a spent window that is the account's, or
      the model's with no next model; a spent model window alone moves the workspace on by one. */
  lemma ThrottleMeans(c: Setup, r: Reading, model: string)
    ensures var spent := (s: Snapshot) => s.active && s.remaining <= c.min;
      var stop, next := Throttled(c, r, model), Switched(c, r, model);
      if r.errorKind == "authentication_error" || r.errorKind == "permission_error" then stop == Some(AuthError(r.errorKind)) && next == model
      else if forall s :: s in r.snapshots ==> !spent(s) then stop == None && next == model
      else if exists s :: s in r.snapshots && spent(s) && s.model == "" then
        stop.Some? && stop.value.QuotaExhausted? && stop.value.scope != ModelScope && next == model
      else if NextModel(c.chain, model) != "" then stop == None && next == NextModel(c.chain, model)
      else stop == Some(QuotaExhausted(ModelScope)) && next == model
  {
    WidestSpelledOut(r.snapshots, c.min);
  }

  // ---- several passes ----

  /** No further task can be dispatched: no slot is free, or no waiting task has a Ready workspace. */
  ghost predicate Saturated(c: Setup, w: World) {
    || Load(w) >= c.limit
    || forall n :: n in w.tasks && Waits(w.tasks[n]) ==> !Ready(w, w.tasks[n].workspace)
  }

  /** The tasks that get a slot among the first `i`. */
  function Chosen(s: Scene, i: nat): set<Name>
    requires i <= |s.queue|
  {
    if i == 0 then {} else Chosen(s, i - 1) + if Placed(s, i - 1) == SlotAvailable then {s.queue[i - 1].name} else {}
  }

  lemma NoRepeats(q: seq<Item>)
    requires OldestFirst(q)
    ensures forall i, j :: 0 <= i < j < |q| ==> q[i] != q[j]
  {
    forall i, j | 0 <= i < j < |q| ensures q[i] != q[j] {
      NotOlderThanItself(AgeOf(q[i]));
    }
  }

  ghost predicate NamesDiffer(q: seq<Item>) {
    forall i, j :: 0 <= i < j < |q| ==> q[i].name != q[j].name
  }

  lemma QueueNamesDiffer(w: World, q: seq<Item>)
    requires IsQueue(w, q)
    ensures NamesDiffer(q)
  {
    NoRepeats(q);
    forall i, j | 0 <= i < j < |q| ensures q[i].name != q[j].name {
      assert q[i] != q[j];
    }
  }

  lemma {:induction false} ChosenAt(s: Scene, i: nat, j: nat)
    requires NamesDiffer(s.queue) && i <= |s.queue| && j < |s.queue|
    ensures s.queue[j].name in Chosen(s, i) <==> j < i && Placed(s, j) == SlotAvailable
  {
    if i > 0 {
      ChosenAt(s, i - 1, j);
      assert j != i - 1 ==> s.queue[j].name != s.queue[i - 1].name;
    }
  }

  lemma {:induction false} ChosenAreQueued(s: Scene, i: nat, n: Name)
    requires i <= |s.queue| && n in Chosen(s, i)
    ensures Queued(s.queue, n)
  {
    if n != s.queue[i - 1].name {
      ChosenAreQueued(s, i - 1, n);
    }
  }

  /** They are as many as there are Ready tasks, up to the number of free slots. */
  lemma {:induction false} ChosenFillsSlots(s: Scene, i: nat)
    requires NamesDiffer(s.queue) && i <= |s.queue|
    ensures s.load >= s.setup.limit ==> |Chosen(s, i)| == 0
    ensures s.load < s.setup.limit ==>
              s.load + |Chosen(s, i)| == if s.load + ReadyBefore(s, i) < s.setup.limit then s.load + ReadyBefore(s, i) else s.setup.limit
  {
    if i > 0 {
      ChosenFillsSlots(s, i - 1);
      ChosenAt(s, i - 1, i - 1);
    }
  }

  lemma {:induction false} ReadyBeforeGrows(s: Scene, i: nat, j: nat)
    requires i <= j <= |s.queue|
    ensures ReadyBefore(s, i) <= ReadyBefore(s, j)
    decreases j
  {
    if i < j {
      ReadyBeforeGrows(s, i, j - 1);
    }
  }

  /** Without an observer nothing stops the queue. */
  lemma NoObserverNoStop(s: Scene, k: nat)
    requires IsStop(s, k) && s.setup.usage == map[]
    ensures k == |s.queue|
  {
  }

  lemma OccupiesAt(c: Setup, w: World, q: seq<Item>, w': World, i: nat)
    requires IsPass(c, w, q, |q|, w') && i < |q| && NamesDiffer(q)
    ensures q[i].name !in Occupants(w)
    ensures q[i].name in Occupants(w') <==> q[i].name in Chosen(SceneOf(c, w, q), |q|)
  {
    var s := SceneOf(c, w, q);
    ChosenAt(s, |q|, i);
    PassAt(c, w, q, w', i);
    SettledOccupies(q[i].task, Placed(s, i));
  }

  lemma PassAt(c: Setup, w: World, q: seq<Item>, w': World, i: nat)
    requires IsPass(c, w, q, |q|, w') && i < |q|
    ensures q[i].name in w.tasks && w.tasks[q[i].name] == q[i].task && Waits(q[i].task)
    ensures q[i].name in w'.tasks && w'.tasks[q[i].name] == Settle(q[i].task, Placed(SceneOf(c, w, q), i))
  {
  }

  lemma SettledOccupies(t: Task, v: Dispatched)
    requires Waits(t)
    ensures !Occupies(t) && (Occupies(Settle(t, v)) <==> v == SlotAvailable)
  {
  }

  lemma OccupiesAfterPass(c: Setup, w: World, q: seq<Item>, w': World, n: Name)
    requires IsPass(c, w, q, |q|, w') && NamesDiffer(q)
    ensures n in Occupants(w') <==> n in Occupants(w) + Chosen(SceneOf(c, w, q), |q|)
    ensures n in Chosen(SceneOf(c, w, q), |q|) ==> n !in Occupants(w)
  {
    if Queued(q, n) {
      var i :| 0 <= i < |q| && q[i].name == n;
      OccupiesAt(c, w, q, w', i);
    } else if n in Chosen(SceneOf(c, w, q), |q|) {
      ChosenAreQueued(SceneOf(c, w, q), |q|, n);
    }
  }

  lemma DisjointSizes(a: set<Name>, b: set<Name>, c: set<Name>)
    requires forall n :: (n in c <==> n in a + b) && (n in b ==> n !in a)
    ensures |c| == |a| + |b|
  {
    assert c == a + b && a !! b;
  }

  /** The load after a pass that nothing stops: every free slot is taken, or every Ready task has one. */
  lemma LoadAfterPass(c: Setup, w: World, q: seq<Item>, w': World)
    requires IsPass(c, w, q, |q|, w')
    ensures Load(w) >= c.limit ==> Load(w') == Load(w)
    ensures Load(w) < c.limit ==>
              Load(w') == if Load(w) + ReadyBefore(SceneOf(c, w, q), |q|) < c.limit then Load(w) + ReadyBefore(SceneOf(c, w, q), |q|) else c.limit
  {
    var s := SceneOf(c, w, q);
    QueueNamesDiffer(w, q);
    var chosen := Chosen(s, |q|);
    forall n ensures (n in Occupants(w') <==> n in Occupants(w) + chosen) && (n in chosen ==> n !in Occupants(w)) {
      OccupiesAfterPass(c, w, q, w', n);
    }
    DisjointSizes(Occupants(w), chosen, Occupants(w'));
    ChosenFillsSlots(s, |q|);
  }

  /** Who waits after a pass waited before it. */
  lemma StillWaiting(c: Setup, w: World, q: seq<Item>, k: nat, w': World, n: Name) returns (i: nat)
    requires IsPass(c, w, q, k, w') && n in w'.tasks && Waits(w'.tasks[n])
    ensures n in w.tasks && Waits(w.tasks[n]) && w'.tasks[n].workspace == w.tasks[n].workspace
    ensures i < |q| && q[i] == Item(n, w.tasks[n]) && Verdict(SceneOf(c, w, q), k, i) != SlotAvailable
    ensures w'.tasks[n].dispatched == Some(Verdict(SceneOf(c, w, q), k, i))
  {
    assert Waits(w.tasks[n]) ==> Item(n, w.tasks[n]) in q;
    i :| 0 <= i < |q| && q[i].name == n;
    assert w'.tasks[q[i].name] == Settle(q[i].task, Verdict(SceneOf(c, w, q), k, i));
  }

  /** After one pass the queue is saturated. */
  lemma PassSaturates(c: Setup, w: World, q: seq<Item>, k: nat, w': World)
    requires IsPass(c, w, q, k, w') && c.usage == map[]
    ensures Saturated(c, w')
  {
    var s := SceneOf(c, w, q);
    NoObserverNoStop(s, k);
    LoadAfterPass(c, w, q, w');
    if Load(w') < c.limit {
      forall n | n in w'.tasks && Waits(w'.tasks[n]) ensures !Ready(w', w'.tasks[n].workspace) {
        var i := StillWaiting(c, w, q, k, w', n);
        ReadyBeforeGrows(s, i, |q|);
        assert Placed(s, i) != SlotAvailable;
      }
    }
  }

  lemma {:induction false} NoneReady(c: Setup, w: World, q: seq<Item>, i: nat)
    requires IsQueue(w, q) && Saturated(c, w) && i <= |q| && Load(w) < c.limit
    ensures ReadyBefore(SceneOf(c, w, q), i) == 0
  {
    if i > 0 {
      assert q[i - 1].name in w.tasks && Waits(w.tasks[q[i - 1].name]);
      NoneReady(c, w, q, i - 1);
    }
  }

  /** The one reason to wait in a saturated queue, whatever the position. */
  function SaturatedReason(c: Setup, w: World, t: Task): Reason {
    if Load(w) >= c.limit then ConcurrencyLimit(Load(w), c.limit) else WorkspaceNotReady(t.workspace)
  }

  lemma SaturatedVerdict(c: Setup, w: World, q: seq<Item>, i: nat)
    requires IsQueue(w, q) && Saturated(c, w) && i < |q|
    ensures Placed(SceneOf(c, w, q), i) == Held(SaturatedReason(c, w, q[i].task))
  {
    assert q[i].name in w.tasks && Waits(w.tasks[q[i].name]);
    if Load(w) < c.limit {
      NoneReady(c, w, q, i);
    }
  }

  lemma SaturatedLoad(c: Setup, w: World, q: seq<Item>, k: nat, w': World)
    requires c.usage == map[] && Saturated(c, w) && IsPass(c, w, q, k, w')
    ensures Load(w') == Load(w)
  {
    NoObserverNoStop(SceneOf(c, w, q), k);
    LoadAfterPass(c, w, q, w');
    if Load(w) < c.limit {
      NoneReady(c, w, q, |q|);
    }
  }

  /** What a pass over a saturated queue tells those who wait. */
  lemma SaturatedPassTells(c: Setup, w: World, q: seq<Item>, k: nat, w': World, n: Name)
    requires c.usage == map[] && Saturated(c, w) && IsPass(c, w, q, k, w') && n in w'.tasks && Waits(w'.tasks[n])
    ensures n in w.tasks && w'.tasks[n].dispatched == Some(Held(SaturatedReason(c, w, w'.tasks[n])))
  {
    var i := StillWaiting(c, w, q, k, w', n);
    NoObserverNoStop(SceneOf(c, w, q), k);
    SaturatedVerdict(c, w, q, i);
  }

  /** The pass after a pass over a saturated queue finds nothing to write. */
  lemma SaturatedPassSettles(c: Setup, w: World, q: seq<Item>, k: nat, w': World, p: seq<Item>, l: nat)
    requires c.usage == map[] && Saturated(c, w) && IsPass(c, w, q, k, w') && IsQueue(w', p) && IsStop(SceneOf(c, w', p), l)
    ensures IsQuiet(SceneOf(c, w', p), l)
  {
    PassSaturates(c, w, q, k, w');
    SaturatedLoad(c, w, q, k, w');
    var s := SceneOf(c, w', p);
    NoObserverNoStop(s, l);
    forall i | 0 <= i < |p| ensures Placed(s, i) != SlotAvailable && p[i].task.dispatched == Some(Placed(s, i)) {
      SaturatedVerdict(c, w', p, i);
      SaturatedPassTells(c, w, q, k, w', p[i].name);
    }
  }

  /** Without an observer and with the world left alone, the third pass in a row writes nothing. */
  lemma ThirdPassIsQuiet(c: Setup, w0: World, q0: seq<Item>, k0: nat, w1: World, q1: seq<Item>, k1: nat, w2: World, q2: seq<Item>, k2: nat)
    requires c.usage == map[] && IsPass(c, w0, q0, k0, w1) && IsPass(c, w1, q1, k1, w2) && IsQueue(w2, q2) && IsStop(SceneOf(c, w2, q2), k2)
    ensures IsQuiet(SceneOf(c, w2, q2), k2)
  {
    PassSaturates(c, w0, q0, k0, w1);
    SaturatedPassSettles(c, w1, q1, k1, w2, q2, k2);
  }

  /** Where the slots run out within a pass, they are in use after it. */
  lemma FullAfterPass(c: Setup, w: World, q: seq<Item>, w': World, i: nat)
    requires IsPass(c, w, q, |q|, w') && i <= |q| && Load(w) + ReadyBefore(SceneOf(c, w, q), i) >= c.limit
    ensures Load(w') == Max(c.limit, Load(w))
  {
    LoadAfterPass(c, w, q, w');
    ReadyBeforeGrows(SceneOf(c, w, q), i, |q|);
  }

  /** What a task that still waits after a pass was told. */
  lemma HeldAfterPass(c: Setup, w: World, q: seq<Item>, k: nat, w': World, n: Name)
    requires c.usage == map[] && IsPass(c, w, q, k, w') && n in w'.tasks && Waits(w'.tasks[n])
    ensures n in w.tasks
    ensures w'.tasks[n].dispatched == Some(Held(WorkspaceNotReady(w'.tasks[n].workspace)))
            || (Load(w') >= c.limit && w'.tasks[n].dispatched == Some(Held(ConcurrencyLimit(Load(w'), c.limit))))
    ensures Load(w) >= c.limit ==> w'.tasks[n].dispatched == Some(Held(ConcurrencyLimit(Load(w'), c.limit)))
  {
    var i := StillWaiting(c, w, q, k, w', n);
    NoObserverNoStop(SceneOf(c, w, q), k);
    if Load(w) + ReadyBefore(SceneOf(c, w, q), i) >= c.limit {
      FullAfterPass(c, w, q, w', i);
    }
  }

  /** Between the first two passes a reason changes only from `WorkspaceNotReady` to
      `ConcurrencyLimit`, for tasks that were passed over before the slots ran out. */
  lemma OnlySkippedTasksChangeReason(c: Setup, w0: World, q0: seq<Item>, k0: nat, w1: World, q1: seq<Item>, k1: nat, w2: World, n: Name)
    requires c.usage == map[] && IsPass(c, w0, q0, k0, w1) && IsPass(c, w1, q1, k1, w2)
    requires n in w2.tasks && Waits(w2.tasks[n]) && w1.tasks[n].dispatched != w2.tasks[n].dispatched
    ensures w1.tasks[n].dispatched == Some(Held(WorkspaceNotReady(w1.tasks[n].workspace)))
    ensures w2.tasks[n].dispatched == Some(Held(ConcurrencyLimit(c.limit, c.limit)))
  {
    PassSaturates(c, w0, q0, k0, w1);
    var i := StillWaiting(c, w1, q1, k1, w2, n);
    HeldAfterPass(c, w0, q0, k0, w1, n);
    SaturatedPassTells(c, w1, q1, k1, w2, n);
    NoObserverNoStop(SceneOf(c, w0, q0), k0);
    LoadAfterPass(c, w0, q0, w1);
  }
}
