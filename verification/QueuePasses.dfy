/** The dispatch loop. Everything it asks of the API server may fail, before or after taking
    effect, and others change tasks and workspaces between any two requests. */
module QueuePasses {
  import opened Orders
  import opened Quota
  import opened TaskQueue
  import opened Rewriting

  const DEFAULT_MAX_CONCURRENT: nat := 2
  const MAX_RECENT_HITS: nat := 20

  function EffectiveLimit(configured: int): (limit: nat) {
    if configured > 0 then configured else DEFAULT_MAX_CONCURRENT
  }

  /** What everybody else does. Nobody but the queue moves a task into a phase that takes a slot,
      and nobody else sets the active model. */
  datatype Outside =
    | TaskCreated(n: Name, t: Task)
    | TaskMoved(n: Name, t: Task)
    | TaskGone(n: Name)
    | WorkspaceAdded(x: Name, ws: Workspace)
    | ReadinessChanged(x: Name, ready: bool)
    | WorkspaceGone(x: Name)

  predicate Allowed(w: World, a: Outside) {
    match a
    case TaskCreated(n, t) => n !in w.tasks && !Occupies(t)
    case TaskMoved(n, t) => n in w.tasks && (Occupies(t) ==> Occupies(w.tasks[n]))
    case TaskGone(n) => true
    case WorkspaceAdded(x, _) => x !in w.workspaces
    case ReadinessChanged(x, _) => x in w.workspaces
    case WorkspaceGone(x) => true
  }

  function Act(w: World, a: Outside): World
    requires Allowed(w, a)
  {
    match a
    case TaskCreated(n, t) => w.(tasks := w.tasks[n := t])
    case TaskMoved(n, t) => w.(tasks := w.tasks[n := t])
    case TaskGone(n) => w.(tasks := w.tasks - {n})
    case WorkspaceAdded(x, ws) => w.(workspaces := w.workspaces[x := ws])
    case ReadinessChanged(x, ready) => w.(workspaces := w.workspaces[x := w.workspaces[x].(ready := ready)])
    case WorkspaceGone(x) => w.(workspaces := w.workspaces - {x})
  }

  function WithModel(workspaces: map<Name, Workspace>, x: Name, model: string): map<Name, Workspace> {
    if x in workspaces then workspaces[x := workspaces[x].(model := model)] else workspaces
  }

  function ModelOf(w: World, x: Name): string {
    if x in w.workspaces then w.workspaces[x].model else ""
  }

  lemma WithSameModel(w: World, x: Name)
    ensures WithModel(w.workspaces, x, ModelOf(w, x)) == w.workspaces
  {
  }

  /** From one moment to the next a workspace keeps its model or moves to the next one. */
  ghost predicate ModelStep(chain: seq<string>, w: World, w': World) {
    forall x :: x in w.workspaces && x in w'.workspaces ==>
      || w'.workspaces[x].model == w.workspaces[x].model
      || (w'.workspaces[x].model == NextModel(chain, w.workspaces[x].model) && w'.workspaces[x].model != "")
  }

  lemma FewerOccupants(w: World, w': World)
    requires forall n :: n in w'.tasks && Occupies(w'.tasks[n]) ==> n in w.tasks && Occupies(w.tasks[n])
    ensures Load(w') <= Load(w)
  {
    Smaller(Occupants(w'), Occupants(w));
  }

  lemma {:induction false} Smaller(a: set<Name>, b: set<Name>)
    requires a <= b
    ensures |a| <= |b|
  {
    if a != {} {
      var x :| x in a;
      Smaller(a - {x}, b - {x});
    }
  }

  lemma OneMoreOccupant(w: World, n: Name, t: Task)
    ensures Load(w.(tasks := w.tasks[n := t])) <= Load(w) + 1
  {
    var w' := w.(tasks := w.tasks[n := t]);
    Smaller(Occupants(w'), Occupants(w) + {n});
  }

  lemma OutsideTakesNoSlot(w: World, a: Outside)
    requires Allowed(w, a)
    ensures Load(Act(w, a)) <= Load(w)
  {
    FewerOccupants(w, Act(w, a));
  }

  function Names(items: seq<Item>): (q: seq<Name>)
    ensures |q| == |items| && forall i :: 0 <= i < |q| ==> q[i] == items[i].name
  {
    seq(|items|, i requires 0 <= i < |items| => items[i].name)
  }

  predicate ItemAtMost(a: Item, b: Item) {
    AgeAtMost(Age(a.task.created, a.name), Age(b.task.created, b.name))
  }

  ghost predicate Reads(w: World, items: seq<Item>) {
    && (forall i :: 0 <= i < |items| ==> items[i].name in w.tasks && items[i].task == w.tasks[items[i].name])
    && (forall i, j :: 0 <= i < j < |items| ==> items[i].name != items[j].name)
  }

  ghost predicate AllWait(items: seq<Item>) {
    forall i :: 0 <= i < |items| ==> Waits(items[i].task)
  }

  lemma ItemOrder()
    ensures Total(ItemAtMost) && Transitive(ItemAtMost)
  {
    AgeOrder();
    forall x: Item, y: Item ensures ItemAtMost(x, y) || ItemAtMost(y, x) {
    }
    forall x: Item, y: Item, z: Item | ItemAtMost(x, y) && ItemAtMost(y, z) ensures ItemAtMost(x, z) {
      assert AgeAtMost(Age(x.task.created, x.name), Age(z.task.created, z.name));
    }
  }

  lemma SortKeepsReads(w: World, items: seq<Item>)
    requires Reads(w, items)
    ensures Reads(w, SortBy(items, ItemAtMost))
    ensures forall x :: x in SortBy(items, ItemAtMost) <==> x in items
  {
    var s := SortBy(items, ItemAtMost);
    forall x ensures x in s <==> x in items {
      MemberOfMultiset(x, s);
      MemberOfMultiset(x, items);
    }
    forall i, j | 0 <= i < j < |s| ensures s[i].name != s[j].name {
      assert s[i] in items && s[j] in items;
      if s[i].name == s[j].name {
        AtMostOnce(items, s[i]);
        AtLeastTwice(s, i, j);
      }
    }
    forall i | 0 <= i < |s| ensures s[i].name in w.tasks && s[i].task == w.tasks[s[i].name] {
      assert s[i] in items;
    }
  }

  /** Sorting the waiting tasks, in whatever order they were listed, gives the queue. */
  lemma SortedIsQueue(w: World, items: seq<Item>)
    requires Reads(w, items) && AllWait(items)
    requires forall n :: n in w.tasks && Waits(w.tasks[n]) ==> Item(n, w.tasks[n]) in items
    ensures IsQueue(w, SortBy(items, ItemAtMost)) && AllWait(SortBy(items, ItemAtMost))
    ensures var q := SortBy(items, ItemAtMost);
      forall i, j :: 0 <= i < j < |q| ==>
        q[i].task.created < q[j].task.created || (q[i].task.created == q[j].task.created && Before(q[i].name, q[j].name))
  {
    var s := SortBy(items, ItemAtMost);
    SortKeepsReads(w, items);
    forall i | 0 <= i < |s| ensures Waits(s[i].task) {
      assert s[i] in items;
    }
    SortedByAge(w, items);
  }

  lemma SortedByAge(w: World, items: seq<Item>)
    requires Reads(w, SortBy(items, ItemAtMost))
    ensures OldestFirst(SortBy(items, ItemAtMost))
  {
    var s := SortBy(items, ItemAtMost);
    ItemOrder();
    SortBySorted(items, ItemAtMost);
    forall i, j | 0 <= i < j < |s| ensures Older(AgeOf(s[i]), AgeOf(s[j])) {
      assert ItemAtMost(s[i], s[j]) && s[i].name != s[j].name;
    }
  }

  /** The tasks in one of the three phases with a session, unless on their way out. */
  function InUse(w: World): set<Name> {
    set n | n in w.tasks && !w.tasks[n].deleting && w.tasks[n].phase in {Running, Verifying, HumanIntervention}
  }

  lemma LoadIsInUse(w: World)
    ensures Load(w) == |InUse(w)|
  {
    assert Occupants(w) == InUse(w);
  }

  function WaitingItems(items: seq<Item>): seq<Item> {
    if items == [] then []
    else
      var x := items[|items| - 1];
      WaitingItems(items[..|items| - 1]) + if Waits(x.task) then [x] else []
  }

  function OccupyingCount(items: seq<Item>): nat {
    if items == [] then 0
    else OccupyingCount(items[..|items| - 1]) + if Occupies(items[|items| - 1].task) then 1 else 0
  }

  ghost function OccupyingNames(items: seq<Item>): set<Name> {
    if items == [] then {}
    else
      var x := items[|items| - 1];
      OccupyingNames(items[..|items| - 1]) + if Occupies(x.task) then {x.name} else {}
  }

  lemma {:induction false} OccupyingMembers(w: World, items: seq<Item>, n: Name)
    requires Reads(w, items)
    ensures n in OccupyingNames(items) <==> n in Occupants(w) && Item(n, w.tasks[n]) in items
  {
    if items != [] {
      OccupyingMembers(w, items[..|items| - 1], n);
      assert items == items[..|items| - 1] + [items[|items| - 1]];
    }
  }

  lemma {:induction false} WaitingMembers(items: seq<Item>, x: Item)
    ensures x in WaitingItems(items) <==> x in items && Waits(x.task)
  {
    if items != [] {
      WaitingMembers(items[..|items| - 1], x);
      assert items == items[..|items| - 1] + [items[|items| - 1]];
    }
  }

  lemma {:induction false} WaitingAreRead(w: World, items: seq<Item>)
    requires Reads(w, items)
    ensures Reads(w, WaitingItems(items))
    ensures forall i :: 0 <= i < |WaitingItems(items)| ==> Waits(WaitingItems(items)[i].task)
  {
    if items != [] {
      var front, x := items[..|items| - 1], items[|items| - 1];
      WaitingAreRead(w, front);
      forall i | 0 <= i < |WaitingItems(front)| ensures WaitingItems(front)[i].name != x.name {
        WaitingMembers(front, WaitingItems(front)[i]);
      }
    }
  }

  lemma {:induction false} OccupyingSize(w: World, items: seq<Item>)
    requires Reads(w, items)
    ensures OccupyingCount(items) == |OccupyingNames(items)|
  {
    if items != [] {
      var front, x := items[..|items| - 1], items[|items| - 1];
      OccupyingSize(w, front);
      OccupyingMembers(w, front, x.name);
    }
  }

  lemma OccupyingCounted(w: World, items: seq<Item>)
    requires Reads(w, items) && forall n :: n in w.tasks ==> Item(n, w.tasks[n]) in items
    ensures OccupyingCount(items) == Load(w)
  {
    OccupyingSize(w, items);
    forall n ensures n in OccupyingNames(items) <==> n in Occupants(w) {
      OccupyingMembers(w, items, n);
    }
    assert OccupyingNames(items) == Occupants(w);
  }

  lemma EveryoneListed(w: World, items: seq<Item>)
    requires forall n :: n in w.tasks ==> Item(n, w.tasks[n]) in items
    ensures forall n :: n in w.tasks && Waits(w.tasks[n]) ==> Item(n, w.tasks[n]) in WaitingItems(items)
  {
    forall n | n in w.tasks && Waits(w.tasks[n]) ensures Item(n, w.tasks[n]) in WaitingItems(items) {
      WaitingMembers(items, Item(n, w.tasks[n]));
    }
  }

  // ---- the state of a pass in progress ----

  /** The tasks in the queue once each has the verdict of its position. */
  function PlacedTasks(s: Scene): (r: seq<Task>)
    ensures |r| == |s.queue| && forall j :: 0 <= j < |s.queue| ==> r[j] == Settle(s.queue[j].task, Placed(s, j))
  {
    seq(|s.queue|, j requires 0 <= j < |s.queue| => Settle(s.queue[j].task, Placed(s, j)))
  }

  /** The same where the queue stopped at `k`. */
  function StoppedTasks(s: Scene, k: nat, why: Reason): (r: seq<Task>)
    ensures |r| == |s.queue|
    ensures forall j :: 0 <= j < |s.queue| ==> r[j] == Settle(s.queue[j].task, if j < k then Placed(s, j) else Held(why))
  {
    seq(|s.queue|, j requires 0 <= j < |s.queue| => Settle(s.queue[j].task, if j < k then Placed(s, j) else Held(why)))
  }

  /** The first `i` tasks have had their verdicts written, and the other tasks are as they were. */
  ghost predicate TasksAt(w0: World, s: Scene, values: seq<Task>, i: nat, w: World) {
    && Rewritten(w0.tasks, Names(s.queue), values, i, w.tasks)
    && forall j :: 0 <= j < |s.queue| ==> w0.tasks[s.queue[j].name] == s.queue[j].task
  }

  ghost predicate WorkspacesAt(s: Scene, i: nat, workspaces: map<Name, Workspace>)
    requires i <= |s.queue|
  {
    && workspaces.Keys == s.workspaces.Keys
    && forall x :: x in s.workspaces ==> workspaces[x] == s.workspaces[x].(model := ModelAt(s, i, x))
  }

  ghost predicate NoStopBefore(s: Scene, i: nat)
    requires i <= |s.queue|
  {
    i == 0 || (NoStopBefore(s, i - 1) && StopsAt(s, i - 1).None?)
  }

  lemma {:induction false} NoneStopped(s: Scene, i: nat)
    requires i <= |s.queue| && NoStopBefore(s, i)
    ensures forall j :: 0 <= j < i ==> StopsAt(s, j).None?
  {
    if i > 0 {
      NoneStopped(s, i - 1);
    }
  }

  /** After the first `i` tasks, none of which stopped the queue. */
  ghost predicate Progress(w0: World, s: Scene, i: nat, w: World) {
    && i <= |s.queue| && NoStopBefore(s, i)
    && TasksAt(w0, s, PlacedTasks(s), i, w) && WorkspacesAt(s, i, w.workspaces)
  }

  /** The pass's own count of slots in use. */
  function RunningAt(s: Scene, i: nat): nat
    requires i <= |s.queue|
  {
    if s.load >= s.setup.limit then s.load
    else if s.load + ReadyBefore(s, i) < s.setup.limit then s.load + ReadyBefore(s, i)
    else s.setup.limit
  }

  lemma RunningDecides(s: Scene, i: nat)
    requires i < |s.queue|
    ensures RunningAt(s, i) >= s.setup.limit <==> s.load + ReadyBefore(s, i) >= s.setup.limit
    ensures RunningAt(s, i) >= s.setup.limit ==> RunningAt(s, i) == Max(s.setup.limit, s.load)
    ensures RunningAt(s, i + 1) == RunningAt(s, i) + if Placed(s, i) == SlotAvailable then 1 else 0
  {
  }

  /** What asking for a reading makes of the workspaces. */
  function Consulted(c: Setup, w: World, x: Name): map<Name, Workspace> {
    if x in c.usage then WithModel(w.workspaces, x, Switched(c, c.usage[x], ModelOf(w, x))) else w.workspaces
  }

  function ConsultAnswer(c: Setup, w: World, x: Name): Option<Reason> {
    if x in c.usage then Throttled(c, c.usage[x], ModelOf(w, x)) else None
  }

  lemma SameWhenThrottled(c: Setup, w: World, x: Name)
    requires ConsultAnswer(c, w, x).Some?
    ensures Consulted(c, w, x) == w.workspaces
  {
    WithSameModel(w, x);
  }

  /** The switch a dispatched task's reading may cause. */
  lemma SwitchNext(s: Scene, i: nat, w: World)
    requires i < |s.queue| && WorkspacesAt(s, i, w.workspaces) && Eligible(s, i)
    ensures WorkspacesAt(s, i + 1, Consulted(s.setup, w, s.queue[i].task.workspace))
  {
  }

  lemma NoSwitchNext(s: Scene, i: nat, workspaces: map<Name, Workspace>)
    requires i < |s.queue| && WorkspacesAt(s, i, workspaces) && !Eligible(s, i)
    ensures WorkspacesAt(s, i + 1, workspaces)
  {
  }

  lemma TasksNext(w0: World, s: Scene, values: seq<Task>, i: nat, w: World, w': World)
    requires i < |s.queue| && TasksAt(w0, s, values, i, w) && w'.tasks == w.tasks[s.queue[i].name := values[i]]
    ensures TasksAt(w0, s, values, i + 1, w')
  {
    RewriteNext(w0.tasks, Names(s.queue), values, i, w.tasks);
  }

  lemma NextIsUntouched(w0: World, s: Scene, values: seq<Task>, i: nat, w: World)
    requires i < |s.queue| && TasksAt(w0, s, values, i, w)
    ensures s.queue[i].name in w.tasks && w.tasks[s.queue[i].name] == s.queue[i].task
  {
    assert Names(s.queue)[i] == s.queue[i].name;
  }

  /** A task that is held for the reason of its position. */
  lemma HoldStep(w0: World, s: Scene, i: nat, w: World, w': World)
    requires i < |s.queue| && Progress(w0, s, i, w) && !Eligible(s, i)
    requires w'.tasks == w.tasks[s.queue[i].name := Settle(s.queue[i].task, Placed(s, i))] && w'.workspaces == w.workspaces
    ensures Progress(w0, s, i + 1, w')
  {
    TasksNext(w0, s, PlacedTasks(s), i, w, w');
    NoSwitchNext(s, i, w.workspaces);
  }

  /** A task that goes ahead. */
  lemma DispatchStep(w0: World, s: Scene, i: nat, w: World, w': World)
    requires i < |s.queue| && Progress(w0, s, i, w) && Eligible(s, i) && StopsAt(s, i).None?
    requires w'.tasks == w.tasks[s.queue[i].name := Settle(s.queue[i].task, SlotAvailable)]
    requires w'.workspaces == Consulted(s.setup, w, s.queue[i].task.workspace)
    ensures Progress(w0, s, i + 1, w')
  {
    TasksNext(w0, s, PlacedTasks(s), i, w, w');
    SwitchNext(s, i, w);
  }

  /** The task, its workspace's readiness and its model, as the pass finds them. */
  lemma FoundThere(w0: World, s: Scene, i: nat, w: World)
    requires i < |s.queue| && Progress(w0, s, i, w)
    ensures var x := s.queue[i].task.workspace;
      && (Ready(w, x) <==> ReadyAt(s, i)) && (ReadyAt(s, i) ==> x in w.workspaces)
      && (Eligible(s, i) ==> StopsAt(s, i) == ConsultAnswer(s.setup, w, x))
    ensures s.queue[i].name in w.tasks && w.tasks[s.queue[i].name] == s.queue[i].task
  {
    NextIsUntouched(w0, s, PlacedTasks(s), i, w);
  }

  /** The first `i` tasks carry their verdicts already. */
  ghost predicate QuietUpTo(s: Scene, i: nat)
    requires i <= |s.queue|
  {
    i == 0 || (QuietUpTo(s, i - 1) && QuietAt(s, i - 1))
  }

  ghost predicate QuietAt(s: Scene, i: nat)
    requires i < |s.queue|
  {
    Placed(s, i) != SlotAvailable && s.queue[i].task.dispatched == Some(Placed(s, i))
  }

  lemma {:induction false} AllQuiet(s: Scene, i: nat)
    requires i <= |s.queue|
    ensures QuietUpTo(s, i) <==> forall j :: 0 <= j < i ==> QuietAt(s, j)
  {
    if i > 0 {
      AllQuiet(s, i - 1);
    }
  }

  /** The tasks from `k` up to `j` were told so before. */
  ghost predicate ToldBefore(q: seq<Item>, k: nat, why: Reason, j: nat)
    requires k <= j <= |q|
  {
    forall i :: k <= i < j ==> q[i].task.dispatched == Some(Held(why))
  }

  /** Some task among the first `i` went ahead on the strength of a reading. */
  predicate Cleared(s: Scene, i: nat)
    requires i <= |s.queue|
  {
    i > 0 && (Cleared(s, i - 1) || (Eligible(s, i - 1) && s.queue[i - 1].task.workspace in s.setup.usage))
  }

  /** The reconciler's own books: writes made, the stop in force, the announcements. */
  datatype Ledger = Ledger(writes: nat, stopped: Option<Reason>, notices: seq<Reason>)

  datatype Fate = Dispatch | Hold | StopQueue(why: Reason)

  /** A stop is announced unless it is the one in force; it is in force until a task goes ahead on
      the strength of a reading. */
  ghost predicate Announced(s: Scene, k: nat, l: Ledger, l': Ledger)
    requires k <= |s.queue| && (k < |s.queue| ==> StopsAt(s, k).Some?)
  {
    var inForce := if Cleared(s, k) then None else l.stopped;
    if k == |s.queue| then l'.stopped == inForce && l'.notices == l.notices
    else
      && l'.stopped == StopsAt(s, k)
      && l'.notices == l.notices + if inForce == l'.stopped then [] else [l'.stopped.value]
  }

  /** The most recent twenty. */
  function Latest(hits: seq<Scope>): (r: seq<Scope>)
    ensures |r| <= |hits| && r == hits[|hits| - |r|..] && (|r| == |hits| <= MAX_RECENT_HITS || |r| == MAX_RECENT_HITS)
  {
    if |hits| > MAX_RECENT_HITS then hits[|hits| - MAX_RECENT_HITS..] else hits
  }

  /** The history after a reading. */
  function HitsAfter(c: Setup, r: Reading, before: seq<Scope>): seq<Scope> {
    if IsAuthError(r.errorKind) || Widest(r.snapshots, c.min).None? then before
    else Latest(before + [Widest(r.snapshots, c.min).value])
  }

  /** A spent window, of whatever scope, is one more hit in the history, unless the credential itself
      failed; the latest twenty are kept. */
  lemma EverySpentWindowIsAHit(c: Setup, r: Reading, before: seq<Scope>)
    ensures var after := HitsAfter(c, r, before);
      if r.errorKind == "authentication_error" || r.errorKind == "permission_error"
         || forall s :: s in r.snapshots ==> !(s.active && s.remaining <= c.min)
      then after == before
      else
        && after != [] && Widest(r.snapshots, c.min) == Some(after[|after| - 1])
        && |after| == (if |before| < 20 then |before| + 1 else 20)
        && after == (before + [after[|after| - 1]])[|before| + 1 - |after|..]
  {
    WidestSpelledOut(r.snapshots, c.min);
  }

  /** What placing the task at position `i` comes to, undisturbed: in the store and in the books. */
  ghost predicate PlaceOutcome(w0: World, s: Scene, i: nat, fate: Fate, w: World, l: Ledger, l': Ledger) {
    i < |s.queue| && Progress(w0, s, if fate.StopQueue? then i else i + 1, w) && BooksAfter(s, i, fate, l, l')
  }

  ghost predicate BooksAfter(s: Scene, i: nat, fate: Fate, l: Ledger, l': Ledger)
    requires i < |s.queue|
  {
    && StopsAt(s, i) == (if fate.StopQueue? then Some(fate.why) else None)
    && (fate == Dispatch ==> Placed(s, i) == SlotAvailable)
    && (fate == Fate.Hold ==> Placed(s, i) != SlotAvailable)
    && l'.writes >= l.writes
    && (l'.writes == l.writes <==> fate.StopQueue? || QuietAt(s, i))
    && l'.notices == l.notices + (if !fate.StopQueue? || l.stopped == Some(fate.why) then [] else [fate.why])
    && l'.stopped == if fate.StopQueue? then Some(fate.why)
                     else if Eligible(s, i) && s.queue[i].task.workspace in s.setup.usage then None
                     else l.stopped
  }

  lemma HeldHere(w0: World, s: Scene, i: nat, why: Reason, w: World, w': World, l: Ledger, l': Ledger)
    requires i < |s.queue| && Progress(w0, s, i, w) && Placed(s, i) == Held(why)
    requires w'.tasks == w.tasks[s.queue[i].name := Settle(s.queue[i].task, Held(why))] && w'.workspaces == w.workspaces
    requires l' == l.(writes := l.writes + if s.queue[i].task.dispatched == Some(Held(why)) then 0 else 1)
    ensures PlaceOutcome(w0, s, i, Fate.Hold, w', l, l')
  {
    HoldStep(w0, s, i, w, w');
  }

  lemma TriedHere(w0: World, s: Scene, i: nat, stop: Option<Reason>, w': World, l: Ledger, l': Ledger)
    requires i < |s.queue| && Eligible(s, i) && StopsAt(s, i) == stop
    requires Progress(w0, s, if stop.Some? then i else i + 1, w')
    requires l'.writes >= l.writes && (l'.writes == l.writes <==> stop.Some?)
    requires l'.stopped == if s.queue[i].task.workspace in s.setup.usage then stop else l.stopped
    requires l'.notices == l.notices + if stop.None? || l.stopped == stop then [] else [stop.value]
    ensures PlaceOutcome(w0, s, i, if stop.Some? then StopQueue(stop.value) else Dispatch, w', l, l')
  {
  }

  /** An undisturbed pass before position `i`: the store, and the books. */
  ghost predicate OnTrack(w0: World, s: Scene, i: nat, running: nat, w: World, l0: Ledger, l: Ledger) {
    Progress(w0, s, i, w) && BooksAt(s, i, running, l0, l)
  }

  ghost predicate BooksAt(s: Scene, i: nat, running: nat, l0: Ledger, l: Ledger)
    requires i <= |s.queue|
  {
    && running == RunningAt(s, i)
    && l.writes >= l0.writes && (l.writes == l0.writes <==> QuietUpTo(s, i))
    && l.stopped == (if Cleared(s, i) then None else l0.stopped)
    && l.notices == l0.notices
  }

  lemma StartsOnTrack(c: Setup, w0: World, q: seq<Item>, l0: Ledger)
    requires IsQueue(w0, q)
    ensures OnTrack(w0, SceneOf(c, w0, q), 0, Load(w0), w0, l0, l0)
  {
    QueueNamesDiffer(w0, q);
  }

  lemma StaysOnTrack(w0: World, s: Scene, i: nat, running: nat, fate: Fate, w: World, w': World, l0: Ledger, l: Ledger, l': Ledger)
    requires OnTrack(w0, s, i, running, w, l0, l) && PlaceOutcome(w0, s, i, fate, w', l, l') && !fate.StopQueue?
    ensures OnTrack(w0, s, i + 1, running + if fate == Dispatch then 1 else 0, w', l0, l')
  {
    BooksStay(s, i, running, fate, l0, l, l');
  }

  lemma BooksStay(s: Scene, i: nat, running: nat, fate: Fate, l0: Ledger, l: Ledger, l': Ledger)
    requires i < |s.queue| && BooksAt(s, i, running, l0, l) && BooksAfter(s, i, fate, l, l') && !fate.StopQueue?
    ensures BooksAt(s, i + 1, running + if fate == Dispatch then 1 else 0, l0, l')
  {
    RunningDecides(s, i);
  }

  /** The queue stopped at `k` for `why`, and the tasks from there up to `j` have been told. */
  ghost predicate HoldOutcome(w0: World, s: Scene, k: nat, why: Reason, j: nat, start: World, w: World, writes0: nat, writes: nat) {
    && k <= j <= |s.queue|
    && TasksAt(w0, s, StoppedTasks(s, k, why), j, w) && w.workspaces == start.workspaces
    && writes >= writes0 && (writes == writes0 <==> ToldBefore(s.queue, k, why, j))
  }

  lemma ToldNext(w0: World, s: Scene, k: nat, why: Reason, j: nat, start: World, w: World, w': World, writes0: nat, writes: nat, writes': nat)
    requires j < |s.queue| && HoldOutcome(w0, s, k, why, j, start, w, writes0, writes)
    requires w'.tasks == w.tasks[s.queue[j].name := Settle(s.queue[j].task, Held(why))] && w'.workspaces == w.workspaces
    requires writes' == writes + if s.queue[j].task.dispatched == Some(Held(why)) then 0 else 1
    ensures HoldOutcome(w0, s, k, why, j + 1, start, w', writes0, writes')
  {
    TasksNext(w0, s, StoppedTasks(s, k, why), j, w, w');
  }

  lemma StoppedHere(w0: World, s: Scene, k: nat, why: Reason, w: World, writes: nat)
    requires k <= |s.queue| && TasksAt(w0, s, PlacedTasks(s), k, w)
    ensures HoldOutcome(w0, s, k, why, k, w, w, writes, writes)
  {
    RewriteAgrees(w0.tasks, Names(s.queue), PlacedTasks(s), StoppedTasks(s, k, why), k, w.tasks);
  }

  lemma PassTasks(w0: World, q: seq<Item>, s: Scene, values: seq<Task>, w: World)
    requires s.queue == q && TasksAt(w0, s, values, |q|, w)
    ensures w.tasks.Keys == w0.tasks.Keys
    ensures forall i :: 0 <= i < |q| ==> q[i].name in w.tasks && w.tasks[q[i].name] == values[i]
    ensures forall n :: n in w0.tasks && !Queued(q, n) ==> w.tasks[n] == w0.tasks[n]
  {
    var names := Names(q);
    forall i | 0 <= i < |q| ensures q[i].name in w.tasks && w.tasks[q[i].name] == values[i] {
      assert names[i] == q[i].name;
    }
    forall n | n in w0.tasks && !Queued(q, n) ensures w.tasks[n] == w0.tasks[n] {
      assert n !in names;
    }
  }

  /** A pass that got through the whole queue. */
  lemma CompletePass(c: Setup, w0: World, q: seq<Item>, w: World)
    requires IsQueue(w0, q) && Progress(w0, SceneOf(c, w0, q), |q|, w)
    ensures IsPass(c, w0, q, |q|, w)
  {
    var s := SceneOf(c, w0, q);
    NoneStopped(s, |q|);
    forall i | 0 <= i < |q| ensures PlacedTasks(s)[i] == Settle(q[i].task, Verdict(s, |q|, i)) {
      assert Verdict(s, |q|, i) == Placed(s, i);
    }
    PassFromValues(c, w0, q, |q|, PlacedTasks(s), w);
  }

  lemma PassFromValues(c: Setup, w0: World, q: seq<Item>, k: nat, values: seq<Task>, w: World)
    requires IsQueue(w0, q) && IsStop(SceneOf(c, w0, q), k) && |values| == |q|
    requires forall i :: 0 <= i < |q| ==> values[i] == Settle(q[i].task, Verdict(SceneOf(c, w0, q), k, i))
    requires TasksAt(w0, SceneOf(c, w0, q), values, |q|, w) && WorkspacesAt(SceneOf(c, w0, q), k, w.workspaces)
    ensures IsPass(c, w0, q, k, w)
  {
    PassTasks(w0, q, SceneOf(c, w0, q), values, w);
    WorkspacesPassed(c, w0, q, k, w);
  }

  lemma WorkspacesPassed(c: Setup, w0: World, q: seq<Item>, k: nat, w: World)
    requires k <= |q| && WorkspacesAt(SceneOf(c, w0, q), k, w.workspaces)
    ensures w.workspaces.Keys == w0.workspaces.Keys
    ensures forall x :: x in w0.workspaces ==> w.workspaces[x] == w0.workspaces[x].(model := ModelAt(SceneOf(c, w0, q), k, x))
  {
  }

  lemma CompleteQuiet(s: Scene)
    requires NoStopBefore(s, |s.queue|)
    ensures QuietUpTo(s, |s.queue|) <==> IsQuiet(s, |s.queue|)
  {
    NoneStopped(s, |s.queue|);
    AllQuiet(s, |s.queue|);
    forall i | 0 <= i < |s.queue|
      ensures QuietAt(s, i) <==> Verdict(s, |s.queue|, i) != SlotAvailable && s.queue[i].task.dispatched == Some(Verdict(s, |s.queue|, i))
    {
    }
  }

  /** An undisturbed pass over: the store is as the positions call for, nothing was written if that
      was so before, and a stop was announced unless it was in force. */
  ghost predicate PassDone(c: Setup, w0: World, q: seq<Item>, k: nat, w: World, l0: Ledger, l: Ledger) {
    && IsPass(c, w0, q, k, w)
    && (l.writes == l0.writes <==> IsQuiet(SceneOf(c, w0, q), k))
    && Announced(SceneOf(c, w0, q), k, l0, l)
  }

  /** How an undisturbed pass is doing, as one value for the contracts below; `Astray` is a pass that
      has left anything undone or done anything else. */
  datatype Standing = OnCourse | Astray

  ghost function Underway(w0: World, s: Scene, i: nat, running: nat, w: World, l0: Ledger, l: Ledger): Standing {
    if OnTrack(w0, s, i, running, w, l0, l) then OnCourse else Astray
  }

  ghost function Concluded(c: Setup, w0: World, q: seq<Item>, k: nat, w: World, l0: Ledger, l: Ledger): Standing {
    if PassDone(c, w0, q, k, w, l0, l) then OnCourse else Astray
  }

  lemma FinishesOnTrack(c: Setup, w0: World, q: seq<Item>, running: nat, w: World, l0: Ledger, l: Ledger)
    requires IsQueue(w0, q) && OnTrack(w0, SceneOf(c, w0, q), |q|, running, w, l0, l)
    ensures PassDone(c, w0, q, |q|, w, l0, l)
  {
    CompletePass(c, w0, q, w);
    CompleteQuiet(SceneOf(c, w0, q));
  }

  /** A pass that was stopped. */
  lemma StoppedPass(c: Setup, w0: World, q: seq<Item>, k: nat, why: Reason, w: World)
    requires IsQueue(w0, q) && k < |q|
    requires var s := SceneOf(c, w0, q);
      IsStop(s, k) && StopsAt(s, k) == Some(why) && TasksAt(w0, s, StoppedTasks(s, k, why), |q|, w) && WorkspacesAt(s, k, w.workspaces)
    ensures IsPass(c, w0, q, k, w)
  {
    PassFromValues(c, w0, q, k, StoppedTasks(SceneOf(c, w0, q), k, why), w);
  }

  lemma StoppedQuiet(s: Scene, k: nat, why: Reason)
    requires IsStop(s, k) && k < |s.queue| && StopsAt(s, k) == Some(why)
    ensures QuietUpTo(s, k) && ToldBefore(s.queue, k, why, |s.queue|) <==> IsQuiet(s, k)
  {
    AllQuiet(s, k);
    assert forall i :: 0 <= i < k ==>
      (QuietAt(s, i) <==> Verdict(s, k, i) != SlotAvailable && s.queue[i].task.dispatched == Some(Verdict(s, k, i)));
    assert forall i :: k <= i < |s.queue| ==> Verdict(s, k, i) == Held(why);
  }

  lemma StopsOnTrack(c: Setup, w0: World, q: seq<Item>, i: nat, running: nat, why: Reason, w: World, w': World, w'': World, l0: Ledger, l: Ledger, l': Ledger, l'': Ledger)
    requires IsQueue(w0, q)
    requires var s := SceneOf(c, w0, q);
      && OnTrack(w0, s, i, running, w, l0, l) && PlaceOutcome(w0, s, i, StopQueue(why), w', l, l')
      && HoldOutcome(w0, s, i, why, |q|, w', w'', l'.writes, l''.writes)
    requires l''.stopped == l'.stopped && l''.notices == l'.notices
    ensures PassDone(c, w0, q, i, w'', l0, l'')
  {
    var s := SceneOf(c, w0, q);
    NoneStopped(s, i);
    StoppedPass(c, w0, q, i, why, w'');
    StoppedQuiet(s, i, why);
  }

  /** The models a workspace was on, moment by moment, while it existed. */
  function ModelHistory(trace: seq<World>, x: Name): (h: seq<string>)
    requires forall i :: 0 <= i < |trace| ==> x in trace[i].workspaces
    ensures |h| == |trace| && forall i :: 0 <= i < |h| ==> h[i] == trace[i].workspaces[x].model
  {
    seq(|trace|, i requires 0 <= i < |trace| => trace[i].workspaces[x].model)
  }

  /** Over any run in which a workspace exists throughout, its model only moves down the chain, and
      at most `|chain| - 1` switches happen. */
  lemma ModelsMoveDownTheChain(chain: seq<string>, trace: seq<World>, x: Name)
    requires Distinct(chain) && "" !in chain && trace != []
    requires forall i :: 0 <= i < |trace| ==> x in trace[i].workspaces
    requires forall i :: 0 <= i < |trace| - 1 ==> ModelStep(chain, trace[i], trace[i + 1])
    ensures Switches(ModelHistory(trace, x)) <= if chain == [] then 0 else |chain| - 1
    ensures Place(chain, trace[0].workspaces[x].model) + Switches(ModelHistory(trace, x)) == Place(chain, trace[|trace| - 1].workspaces[x].model)
  {
    var h := ModelHistory(trace, x);
    forall i | 0 <= i < |h| - 1 ensures h[i + 1] == h[i] || (h[i + 1] == NextModel(chain, h[i]) && h[i + 1] != "") {
      assert ModelStep(chain, trace[i], trace[i + 1]);
    }
    SwitchesAreBounded(chain, h);
    PlaceCountsSwitches(chain, h);
  }

  lemma {:induction false} ClearedByDispatch(s: Scene, i: nat) returns (j: nat)
    requires i <= |s.queue| && Cleared(s, i)
    ensures j < i && Placed(s, j) == SlotAvailable
  {
    if Eligible(s, i - 1) {
      j := i - 1;
    } else {
      j := ClearedByDispatch(s, i - 1);
    }
  }

  /** A stop that is in force is announced again only if the same pass dispatched a task before it. */
  lemma NoRepeatedNotice(c: Setup, w0: World, q: seq<Item>, k: nat, w: World, l0: Ledger, l: Ledger) returns (j: nat)
    requires PassDone(c, w0, q, k, w, l0, l) && l.stopped == l0.stopped && l.notices != l0.notices
    ensures j < k && w.tasks[q[j].name].phase == Running
  {
    var s := SceneOf(c, w0, q);
    j := ClearedByDispatch(s, k);
    assert Verdict(s, k, j) == SlotAvailable;
  }

  class QueueReconciler {
    const setup: Setup
    /** Whether the passes are undisturbed: no request fails and nobody else acts during a pass. */
    const calm: bool
    /** Never to be exceeded: the limit, or the number of slots in use at the start. */
    ghost const cap: nat

    var w: World
    var stopped: Option<Reason>
    var notices: seq<Reason>
    var recentQuotaHits: seq<Scope>
    var writes: nat
    ghost var trace: seq<World>
    /** The trace as it was at some earlier moment; no method writes it. */
    ghost var anchor: seq<World>

    ghost function Books(): Ledger
      reads `writes, `stopped, `notices
    {
      Ledger(writes, stopped, notices)
    }

    ghost predicate Valid()
      reads `w, `trace, `anchor
    {
      && anchor <= trace
      && trace != [] && trace[|trace| - 1] == w
      && 0 < setup.limit <= cap
      && (forall i :: 0 <= i < |trace| ==> Load(trace[i]) <= cap)
      && (forall i :: 0 <= i < |trace| - 1 ==> ModelStep(setup.chain, trace[i], trace[i + 1]))
    }

    constructor (configured: int, min: real, chain: seq<string>, usage: map<Name, Reading>, calm: bool, w: World)
      ensures Valid() && this.w == w && this.calm == calm && trace == [w]
      ensures setup == Setup(if configured > 0 then configured else 2, min, chain, usage)
      ensures cap == Max(setup.limit, Load(w))
      ensures stopped == None && notices == [] && recentQuotaHits == []
    {
      this.setup := Setup(EffectiveLimit(configured), min, chain, usage);
      this.calm := calm;
      this.cap := Max(EffectiveLimit(configured), Load(w));
      this.w := w;
      stopped, notices, recentQuotaHits, writes := None, [], [], 0;
      trace, anchor := [w], [w];
    }

    method Become(w': World)
      requires Valid() && Load(w') <= cap && ModelStep(setup.chain, w, w')
      modifies `w, `trace
      ensures Valid() && w == w' && trace == old(trace) + [w']
    {
      w := w';
      trace := trace + [w'];
    }

    /** Others act, unless the pass is undisturbed. */
    method Others()
      requires Valid()
      modifies `w, `trace
      ensures Valid()
      ensures Load(w) <= Load(old(w))
      ensures calm ==> w == old(w)
    {
      if calm {
        return;
      }
      var rounds: int := *;
      while rounds > 0
        invariant Valid() && Load(w) <= Load(old(w))
      {
        var a: Outside := *;
        if Allowed(w, a) {
          OutsideTakesNoSlot(w, a);
          Become(Act(w, a));
        }
        rounds := rounds - 1;
      }
    }

    /** A request may fail, unless the pass is undisturbed. */
    method Fails() returns (fails: bool)
      ensures calm ==> !fails
    {
      fails := *;
      fails := fails && !calm;
    }

    /** `Status().Update` of a task: it takes effect only if the task is still as it was read, and
        even then its answer may be an error. */
    method UpdateTask(item: Item, t: Task) returns (ok: bool)
      requires Valid() && Waits(item.task)
      requires Occupies(t) ==> Load(w) < setup.limit
      requires calm ==> item.name in w.tasks && w.tasks[item.name] == item.task
      modifies `w, `trace, `writes
      ensures Valid()
      ensures Load(w) <= Load(old(w)) + if Occupies(t) then 1 else 0
      ensures calm ==> ok && w == old(w).(tasks := old(w).tasks[item.name := t])
      ensures writes == old(writes) + 1
    {
      Others();
      writes := writes + 1;
      var lost := Fails();
      if lost || item.name !in w.tasks || w.tasks[item.name] != item.task {
        return false;
      }
      var w' := w.(tasks := w.tasks[item.name := t]);
      OneMoreOccupant(w, item.name, t);
      if !Occupies(t) {
        FewerOccupants(w, w');
      }
      Become(w');
      var unanswered := Fails();
      ok := !unanswered;
    }

    method Hold(item: Item, why: Reason) returns (ok: bool)
      requires Valid() && Waits(item.task)
      requires calm ==> item.name in w.tasks && w.tasks[item.name] == item.task
      modifies `w, `trace, `writes
      ensures Valid()
      ensures Load(w) <= Load(old(w))
      ensures calm ==> ok && w.tasks == old(w).tasks[item.name := Settle(item.task, Held(why))] && w.workspaces == old(w).workspaces
      ensures writes == old(writes) + if item.task.dispatched == Some(Held(why)) then 0 else 1
    {
      if item.task.dispatched == Some(Held(why)) {
        return true;
      }
      ok := UpdateTask(item, item.task.(phase := Pending, dispatched := Some(Held(why))));
    }

    method DispatchTask(item: Item) returns (ok: bool)
      requires Valid() && Waits(item.task) && Load(w) < setup.limit
      requires calm ==> item.name in w.tasks && w.tasks[item.name] == item.task
      modifies `w, `trace, `writes
      ensures Valid()
      ensures Load(w) <= Load(old(w)) + 1
      ensures calm ==> ok && w.tasks == old(w).tasks[item.name := Settle(item.task, SlotAvailable)] && w.workspaces == old(w).workspaces
      ensures writes == old(writes) + 1
    {
      ok := UpdateTask(item, item.task.(phase := Running, dispatched := Some(SlotAvailable)));
    }

    method WorkspaceReady(x: Name) returns (ok: bool, ready: bool)
      requires Valid()
      modifies `w, `trace
      ensures Valid() && Load(w) <= Load(old(w))
      ensures calm ==> ok && w == old(w) && ready == Ready(w, x)
    {
      Others();
      var failed := Fails();
      ok := !failed;
      ready := x in w.workspaces && w.workspaces[x].ready;
    }

    /** What the observer says; no answer where the workspace or its supervisor cannot be read. */
    method Observe(x: Name) returns (reading: Option<Reading>)
      requires Valid()
      modifies `w, `trace
      ensures Valid() && Load(w) <= Load(old(w))
      ensures calm && x in w.workspaces ==> reading == if x in setup.usage then Some(setup.usage[x]) else None
      ensures calm ==> w == old(w)
    {
      Others();
      reading := None;
      if x in w.workspaces {
        if calm {
          reading := if x in setup.usage then Some(setup.usage[x]) else None;
        } else {
          reading := *;
        }
      }
    }

    /** `switchModel`: the model moved to, "" when there is none. */
    method SwitchModel(x: Name) returns (ok: bool, next: string)
      requires Valid()
      modifies `w, `trace, `writes
      ensures Valid() && Load(w) <= Load(old(w))
      ensures calm && x in old(w).workspaces ==>
                && ok && next == NextModel(setup.chain, ModelOf(old(w), x)) && w.tasks == old(w).tasks
                && w.workspaces == if next == "" then old(w).workspaces else WithModel(old(w).workspaces, x, next)
      ensures writes == old(writes) || (writes == old(writes) + 1 && next != "")
    {
      Others();
      var failed := Fails();
      if failed || x !in w.workspaces {
        return !failed, "";
      }
      var ws := w.workspaces[x];
      next := FindNextModel(setup.chain, ws.model);
      if next == "" {
        return true, "";
      }
      Others();
      writes := writes + 1;
      var lost := Fails();
      if lost || x !in w.workspaces || w.workspaces[x] != ws {
        return false, next;
      }
      FewerOccupants(w, w.(workspaces := w.workspaces[x := ws.(model := next)]));
      Become(w.(workspaces := w.workspaces[x := ws.(model := next)]));
      var unanswered := Fails();
      ok := !unanswered;
    }

    /** `stop`: announced only if it is not the stop already in force. */
    method Stop(why: Reason)
      modifies `stopped, `notices
      ensures stopped == Some(why)
      ensures notices == old(notices) + if old(stopped) == Some(why) then [] else [why]
    {
      if stopped == Some(why) {
        return;
      }
      stopped := Some(why);
      notices := notices + [why];
    }

    /** `recordQuotaHit`: the history holds the latest twenty. */
    method RecordQuotaHit(scope: Scope)
      modifies `recentQuotaHits
      ensures recentQuotaHits == Latest(old(recentQuotaHits) + [scope])
      ensures |recentQuotaHits| == if |old(recentQuotaHits)| < 20 then |old(recentQuotaHits)| + 1 else 20
      ensures recentQuotaHits == (old(recentQuotaHits) + [scope])[|old(recentQuotaHits)| + 1 - |recentQuotaHits|..]
    {
      recentQuotaHits := recentQuotaHits + [scope];
      if |recentQuotaHits| > MAX_RECENT_HITS {
        recentQuotaHits := recentQuotaHits[|recentQuotaHits| - MAX_RECENT_HITS..];
      }
    }

    /** A spent model window may be escaped by switching. */
    method Escape(x: Name, scope: Scope) returns (ok: bool, escaped: bool)
      requires Valid()
      modifies `w, `trace, `writes
      ensures Valid() && Load(w) <= Load(old(w))
      ensures calm && x in old(w).workspaces ==>
                && ok && escaped == (scope == ModelScope && NextModel(setup.chain, ModelOf(old(w), x)) != "")
                && w.tasks == old(w).tasks
                && w.workspaces == (if escaped then WithModel(old(w).workspaces, x, NextModel(setup.chain, ModelOf(old(w), x))) else old(w).workspaces)
                && (!escaped ==> writes == old(writes))
      ensures writes >= old(writes)
    {
      ok, escaped := true, false;
      if scope == ModelScope {
        var next;
        ok, next := SwitchModel(x);
        escaped := next != "";
      }
    }

    /** The widest spent window, recorded as a hit. */
    method ReadWindows(reading: Reading) returns (scope: Option<Scope>)
      requires !IsAuthError(reading.errorKind)
      modifies `recentQuotaHits
      ensures scope == Widest(reading.snapshots, setup.min)
      ensures recentQuotaHits == HitsAfter(setup, reading, old(recentQuotaHits))
    {
      scope := ExhaustedScope(reading.snapshots, setup.min);
      if scope.Some? {
        RecordQuotaHit(scope.value);
      }
    }

    /** Whether a reading stops the queue; it may switch the workspace's model instead. */
    method Judge(x: Name, reading: Reading) returns (ok: bool, stop: Option<Reason>)
      requires Valid()
      modifies `w, `trace, `writes, `recentQuotaHits
      ensures Valid() && Load(w) <= Load(old(w)) && writes >= old(writes)
      ensures calm && x in old(w).workspaces ==>
                && ok && stop == Throttled(setup, reading, ModelOf(old(w), x)) && w.tasks == old(w).tasks
                && w.workspaces == WithModel(old(w).workspaces, x, Switched(setup, reading, ModelOf(old(w), x)))
                && (stop.Some? ==> writes == old(writes))
      ensures recentQuotaHits == HitsAfter(setup, reading, old(recentQuotaHits))
    {
      WithSameModel(w, x);
      if IsAuthError(reading.errorKind) {
        return true, Some(AuthError(reading.errorKind));
      }
      var scope := ReadWindows(reading);
      if scope.None? {
        return true, None;
      }
      var escaped;
      ok, escaped := Escape(x, scope.value);
      stop := if escaped then None else Some(QuotaExhausted(scope.value));
    }

    /** `throttle`: apply a reading. It leaves `stopped` as the answer it gave. */
    method Throttle(x: Name, reading: Reading) returns (ok: bool, stop: Option<Reason>)
      requires Valid()
      modifies `w, `trace, `writes, `stopped, `notices, `recentQuotaHits
      ensures Valid() && Load(w) <= Load(old(w)) && writes >= old(writes)
      ensures ok ==> stopped == stop
      ensures ok ==> notices == old(notices) + if stop.None? || old(stopped) == stop then [] else [stop.value]
      ensures calm && x in old(w).workspaces ==>
                && ok && stop == Throttled(setup, reading, ModelOf(old(w), x)) && w.tasks == old(w).tasks
                && w.workspaces == WithModel(old(w).workspaces, x, Switched(setup, reading, ModelOf(old(w), x)))
                && (stop.Some? ==> writes == old(writes))
      ensures recentQuotaHits == HitsAfter(setup, reading, old(recentQuotaHits))
    {
      ok, stop := Judge(x, reading);
      if !ok {
        return;
      }
      if stop.Some? {
        Stop(stop.value);
      } else {
        stopped := None;
      }
    }

    /** Where the pass is, for an undisturbed pass. */
    ghost predicate AtPosition(w0: World, s: Scene, i: nat, item: Item)
      reads `w
    {
      i < |s.queue| && s.setup == setup && Progress(w0, s, i, w) && item == s.queue[i]
    }

    /** Ask for a reading and apply it. */
    method Consult(x: Name) returns (ok: bool, stop: Option<Reason>)
      requires Valid()
      modifies `w, `trace, `writes, `stopped, `notices, `recentQuotaHits
      ensures Valid() && Load(w) <= Load(old(w))
      ensures ok ==> notices == old(notices) + if stop.None? || old(stopped) == stop then [] else [stop.value]
      ensures calm && x in old(w).workspaces ==>
                && ok && stop == ConsultAnswer(setup, old(w), x)
                && w.tasks == old(w).tasks && w.workspaces == Consulted(setup, old(w), x)
                && stopped == (if x in setup.usage then stop else old(stopped))
                && (stop.Some? ==> writes == old(writes))
      ensures writes >= old(writes)
    {
      var reading := Observe(x);
      ok, stop := true, None;
      if reading.Some? {
        ok, stop := Throttle(x, reading.value);
      }
    }

    /** The task has a slot and a Ready workspace: ask for a reading, then dispatch it. */
    method TryDispatch(item: Item, running: nat, ghost w0: World, ghost s: Scene, ghost i: nat) returns (ok: bool, stop: Option<Reason>)
      requires Valid() && Waits(item.task) && Load(w) <= running < setup.limit
      requires calm ==> AtPosition(w0, s, i, item) && Eligible(s, i)
      modifies `w, `trace, `writes, `stopped, `notices, `recentQuotaHits
      ensures Valid()
      ensures ok ==> Load(w) <= running + if stop.None? then 1 else 0
      ensures calm ==> ok && PlaceOutcome(w0, s, i, if stop.Some? then StopQueue(stop.value) else Dispatch, w, old(Books()), Books())
    {
      ghost var before, books := w, Books();
      if calm {
        FoundThere(w0, s, i, w);
      }
      ok, stop := Consult(item.task.workspace);
      if !ok || stop.Some? {
        if calm {
          SameWhenThrottled(setup, before, item.task.workspace);
          assert w == before;
          TriedHere(w0, s, i, stop, w, books, Books());
        }
        return;
      }
      ok := DispatchTask(item);
      if calm {
        DispatchStep(w0, s, i, before, w);
        TriedHere(w0, s, i, stop, w, books, Books());
      }
    }

    method HoldInPlace(item: Item, why: Reason, ghost w0: World, ghost s: Scene, ghost i: nat) returns (ok: bool)
      requires Valid() && Waits(item.task)
      requires calm ==> AtPosition(w0, s, i, item) && Placed(s, i) == Held(why)
      modifies `w, `trace, `writes
      ensures Valid() && Load(w) <= Load(old(w))
      ensures calm ==> ok && PlaceOutcome(w0, s, i, Fate.Hold, w, old(Books()), Books())
    {
      ghost var before, books := w, Books();
      if calm {
        FoundThere(w0, s, i, w);
      }
      ok := Hold(item, why);
      if calm {
        HeldHere(w0, s, i, why, before, w, books, Books());
      }
    }

    /** One position of the queue. */
    method PlaceTask(item: Item, running: nat, ghost w0: World, ghost s: Scene, ghost i: nat) returns (ok: bool, fate: Fate)
      requires Valid() && Waits(item.task) && Load(w) <= running
      requires calm ==> AtPosition(w0, s, i, item) && running == RunningAt(s, i)
      modifies `w, `trace, `writes, `stopped, `notices, `recentQuotaHits
      ensures Valid()
      ensures ok ==> Load(w) <= running + if fate == Dispatch then 1 else 0
      ensures calm ==> ok && PlaceOutcome(w0, s, i, fate, w, old(Books()), Books())
    {
      var x := item.task.workspace;
      if calm {
        FoundThere(w0, s, i, w);
        RunningDecides(s, i);
      }
      fate := Fate.Hold;
      if running >= setup.limit {
        ok := HoldInPlace(item, ConcurrencyLimit(running, setup.limit), w0, s, i);
        return;
      }
      var ready;
      ok, ready := WorkspaceReady(x);
      if !ok {
        return;
      }
      if !ready {
        ok := HoldInPlace(item, WorkspaceNotReady(x), w0, s, i);
        return;
      }
      var stop;
      ok, stop := TryDispatch(item, running, w0, s, i);
      fate := if stop.Some? then StopQueue(stop.value) else Dispatch;
    }

    /** `holdAll` on the tasks from position `k` on. */
    method HoldAll(pending: seq<Item>, k: nat, why: Reason, ghost w0: World, ghost s: Scene) returns (ok: bool)
      requires Valid() && k <= |pending| && AllWait(pending)
      requires calm ==> s.queue == pending && HoldOutcome(w0, s, k, why, k, w, w, writes, writes)
      modifies `w, `trace, `writes
      ensures Valid()
      ensures calm ==> ok && HoldOutcome(w0, s, k, why, |pending|, old(w), w, old(writes), writes)
    {
      for j := k to |pending|
        invariant Valid()
        invariant calm ==> HoldOutcome(w0, s, k, why, j, old(w), w, old(writes), writes)
      {
        ghost var before, written := w, writes;
        if calm {
          NextIsUntouched(w0, s, StoppedTasks(s, k, why), j, w);
        }
        ok := Hold(pending[j], why);
        if !ok {
          return;
        }
        if calm {
          ToldNext(w0, s, k, why, j, old(w), before, w, old(writes), written, writes);
        }
      }
      ok := true;
    }

    /** The stored tasks, in any order. */
    method ListTasks() returns (items: seq<Item>)
      ensures Reads(w, items) && forall n :: n in w.tasks ==> Item(n, w.tasks[n]) in items
    {
      items := [];
      var rest := w.tasks.Keys;
      while rest != {}
        invariant rest <= w.tasks.Keys && Reads(w, items)
        invariant forall i :: 0 <= i < |items| ==> items[i].name !in rest
        invariant forall n :: n in w.tasks && n !in rest ==> Item(n, w.tasks[n]) in items
      {
        var n :| n in rest;
        items := items + [Item(n, w.tasks[n])];
        rest := rest - {n};
      }
    }

    /** The first loop of a pass: how many slots are in use, and who waits. */
    method Collect(items: seq<Item>) returns (running: nat, pending: seq<Item>)
      requires Reads(w, items) && forall n :: n in w.tasks ==> Item(n, w.tasks[n]) in items
      ensures running == Load(w)
      ensures running == |InUse(w)|
      ensures Reads(w, pending) && forall i :: 0 <= i < |pending| ==> Waits(pending[i].task)
      ensures forall n :: n in w.tasks && Waits(w.tasks[n]) ==> Item(n, w.tasks[n]) in pending
      ensures forall n :: n in w.tasks && !w.tasks[n].deleting && (w.tasks[n].phase == Unset || w.tasks[n].phase == Pending) ==>
                Item(n, w.tasks[n]) in pending
    {
      running, pending := 0, [];
      for k := 0 to |items|
        invariant running == OccupyingCount(items[..k]) && pending == WaitingItems(items[..k])
      {
        assert items[..k + 1][..k] == items[..k];
        var task := items[k].task;
        if !task.deleting {
          match task.phase
          case Running | Verifying | HumanIntervention => running := running + 1;
          case Unset | Pending => pending := pending + [items[k]];
          case Completed | Failed =>
        }
      }
      assert items[..|items|] == items;
      WaitingAreRead(w, items);
      OccupyingCounted(w, items);
      LoadIsInUse(w);
      EveryoneListed(w, items);
    }

    method ReadQueue() returns (ok: bool, running: nat, pending: seq<Item>)
      requires Valid()
      modifies `w, `trace
      ensures Valid()
      ensures calm ==> ok && w == old(w)
      ensures ok ==> running == Load(w) && IsQueue(w, pending)
      ensures AllWait(pending)
    {
      running, pending := 0, [];
      Others();
      var failed := Fails();
      if failed {
        return false, 0, [];
      }
      var items := ListTasks();
      running, pending := Collect(items);
      SortedIsQueue(w, pending);
      pending := SortBy(pending, ItemAtMost);
      ok := true;
    }

    /** One pass over the whole queue. Whatever happens, the number of slots in use stays within
        `cap` at every moment. Undisturbed, it does to every task what its position calls for, and
        writes nothing if they all have been told already. */
    method Reconcile() returns (ok: bool, ghost q: seq<Item>, ghost k: nat)
      requires Valid()
      modifies `w, `trace, `writes, `stopped, `notices, `recentQuotaHits
      ensures Valid()
      ensures calm ==> ok && PassDone(setup, old(w), q, k, w, old(Books()), Books())
    {
      var running, pending;
      ok, running, pending := ReadQueue();
      q, k := pending, 0;
      if ok {
        StartsOnTrack(setup, w, q, Books());
        ok, k := RunQueue(pending, running, w, Books());
      }
    }

    /** The pass's main loop. */
    method RunQueue(pending: seq<Item>, inUse: nat, ghost w0: World, ghost l0: Ledger) returns (ok: bool, ghost k: nat)
      requires Valid() && Load(w) <= inUse && AllWait(pending) && IsQueue(w0, pending)
      requires calm ==> Underway(w0, SceneOf(setup, w0, pending), 0, inUse, w, l0, Books()) == OnCourse
      modifies `w, `trace, `writes, `stopped, `notices, `recentQuotaHits
      ensures Valid()
      ensures calm ==> ok && Concluded(setup, w0, pending, k, w, l0, Books()) == OnCourse
    {
      var running := inUse;
      for i := 0 to |pending|
        invariant Valid() && Load(w) <= running
        invariant calm ==> Underway(w0, SceneOf(setup, w0, pending), i, running, w, l0, Books()) == OnCourse
      {
        var fate;
        ok, fate := Step(pending, i, running, w0, l0);
        if !ok || fate.StopQueue? {
          k := i;
          return;
        }
        if fate == Dispatch {
          running := running + 1;
        }
      }
      ok, k := true, |pending|;
      if calm {
        FinishesOnTrack(setup, w0, pending, running, w, l0, Books());
      }
    }

    /** One round of the pass's loop. */
    method Step(pending: seq<Item>, i: nat, running: nat, ghost w0: World, ghost l0: Ledger) returns (ok: bool, fate: Fate)
      requires Valid() && Load(w) <= running && i < |pending| && AllWait(pending) && IsQueue(w0, pending)
      requires calm ==> Underway(w0, SceneOf(setup, w0, pending), i, running, w, l0, Books()) == OnCourse
      modifies `w, `trace, `writes, `stopped, `notices, `recentQuotaHits
      ensures Valid()
      ensures ok ==> fate.StopQueue? || Load(w) <= running + if fate == Dispatch then 1 else 0
      ensures calm ==> ok
      ensures calm && fate == Dispatch ==> Underway(w0, SceneOf(setup, w0, pending), i + 1, running + 1, w, l0, Books()) == OnCourse
      ensures calm && fate == Fate.Hold ==> Underway(w0, SceneOf(setup, w0, pending), i + 1, running, w, l0, Books()) == OnCourse
      ensures calm && fate.StopQueue? ==> Concluded(setup, w0, pending, i, w, l0, Books()) == OnCourse
    {
      ghost var before, books, s := w, Books(), SceneOf(setup, w0, pending);
      ok, fate := PlaceTask(pending[i], running, w0, s, i);
      if calm && !fate.StopQueue? {
        StaysOnTrack(w0, s, i, running, fate, before, w, l0, books, Books());
      }
      if ok && fate.StopQueue? {
        ok := StopHere(pending, i, fate.why, running, w0, before, l0, books);
      }
    }

    /** The queue stops: everybody from here on is told. */
    method StopHere(pending: seq<Item>, i: nat, why: Reason, ghost running: nat, ghost w0: World, ghost before: World, ghost l0: Ledger, ghost books: Ledger)
      returns (ok: bool)
      requires Valid() && i < |pending| && AllWait(pending)
      requires calm ==> IsQueue(w0, pending) && Underway(w0, SceneOf(setup, w0, pending), i, running, before, l0, books) == OnCourse
      requires calm ==> PlaceOutcome(w0, SceneOf(setup, w0, pending), i, StopQueue(why), w, books, Books())
      modifies `w, `trace, `writes
      ensures Valid()
      ensures calm ==> ok && Concluded(setup, w0, pending, i, w, l0, Books()) == OnCourse
    {
      ghost var at, books', s := w, Books(), SceneOf(setup, w0, pending);
      if calm {
        StoppedHere(w0, s, i, why, w, writes);
      }
      ok := HoldAll(pending, i, why, w0, s);
      if calm {
        StopsOnTrack(setup, w0, pending, i, running, why, before, at, w, l0, books, books', Books());
      }
    }

    /** Any number of passes, with others acting in between and, unless undisturbed, during them: at
        no moment are more slots in use than the limit allows or were in use at the start. */
    method Run(passes: nat)
      requires Valid()
      modifies `w, `trace, `writes, `stopped, `notices, `recentQuotaHits
      ensures Valid()
      ensures forall i :: 0 <= i < |trace| ==> |InUse(trace[i])| <= cap
      ensures forall i :: 0 <= i < |trace| - 1 ==> ModelStep(setup.chain, trace[i], trace[i + 1])
    {
      for i := 0 to passes
        invariant Valid()
      {
        Others();
        var _, _, _ := Reconcile();
      }
      forall i | 0 <= i < |trace| ensures |InUse(trace[i])| <= cap {
        LoadIsInUse(trace[i]);
      }
    }

    /** With no usage observer and nobody interfering, the third pass writes nothing. */
    method ThreePasses() returns (written: nat)
      requires Valid() && calm && setup.usage == map[]
      modifies `w, `trace, `writes, `stopped, `notices, `recentQuotaHits
      ensures Valid() && Saturated(setup, w) && written == 0
    {
      ghost var w0 := w;
      var _, q0, k0 := Reconcile();
      ghost var w1 := w;
      var _, q1, k1 := Reconcile();
      ghost var w2 := w;
      var before := writes;
      var _, q2, k2 := Reconcile();
      ThirdPassIsQuiet(setup, w0, q0, k0, w1, q1, k1, w2, q2, k2);
      written := writes - before;
      PassSaturates(setup, w2, q2, k2, w);
    }
  }
}
