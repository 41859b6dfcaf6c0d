/** Taking a session over, as a protocol: any number of browsers, handover requests and senders, each
    advancing one step at a time. Requests between gateway and supervisor may arrive late or never,
    and their answers may be lost. Session ids are not reused, and the supervisor keeps running. */
module HandoverProtocol {
  import opened Orders
  import opened Handover

  type Link = (Workspace, SessionId)

  /** Where one `/handover` request is: the client list was clear, the connection is promoted, the
      declaration is on its way, or it failed and the promotion has still to be undone. */
  datatype Stage = Checked | Promoting | Declaring | Undoing

  datatype Takeover = Takeover(link: Link, stage: Stage)

  /** A connection: open; closing, with the answer to "was it writable"; about to detach; gone. */
  datatype Connection = Open | Closing(release: bool) | Leaving | Gone

  /** An input that passed the supervisor's check, with the writable clients it saw; `typed` when it
      came through a browser connection. */
  datatype Input = Input(workspace: Workspace, from: SessionId, seen: set<SessionId>, typed: bool)

  datatype State = State(
    sessions: Sessions,
    connections: map<Link, Connection>,
    takeovers: map<nat, Takeover>,
    declared: map<nat, Link>,
    arrived: set<nat>,
    releases: set<Link>,
    held: map<Workspace, set<SessionId>>,
    attached: map<Workspace, set<SessionId>>,
    typing: map<nat, Link>,
    inputs: map<nat, Input>,
    promoted: set<Link>,
    granted: set<Link>,
    delivered: seq<Input>)

  const START: State := State(map[], map[], map[], map[], {}, {}, map[], map[], map[], map[], {}, {}, [])

  function Lookup(m: map<Workspace, set<SessionId>>, ws: Workspace): set<SessionId> {
    if ws in m then m[ws] else {}
  }

  function Held(s: State, ws: Workspace): set<SessionId> {
    Lookup(s.held, ws)
  }

  /** The writable clients the supervisor would list. */
  function Writers(s: State, ws: Workspace): set<SessionId> {
    Held(s, ws) + Lookup(s.attached, ws)
  }

  /** What a browser connection does (`serveSessionSocket`). */
  datatype Browser = Connect(link: Link) | Close(link: Link) | SendRelease(link: Link) | Leave(link: Link)

  /** What a handover request does (`handover`). */
  datatype Request = Ask(link: Link) | Promote | Declare | Grant | GiveUp | Undo

  /** What happens at the session: declarations and releases arrive, clients attach, inputs are
      checked and delivered. */
  datatype Session =
    | DeclarationArrives(k: nat)
    | ReleaseArrives(link: Link)
    | AttachClients(ws: Workspace, ids: set<SessionId>)
    | Type(k: nat, link: Link)
    | Check(k: nat, ws: Workspace, from: SessionId)
    | CheckTyped(k: nat)
    | Deliver(k: nat)

  datatype Action = ByBrowser(b: Browser) | ByRequest(k: nat, r: Request) | AtSession(x: Session)

  predicate At(s: State, k: nat, stage: Stage) {
    k in s.takeovers && s.takeovers[k].stage == stage
  }

  predicate Is(s: State, l: Link, c: Connection) {
    l in s.connections && s.connections[l] == c
  }

  predicate BrowserEnabled(s: State, b: Browser) {
    match b
    case Connect(l) => l !in s.connections
    case Close(l) => Is(s, l, Open)
    case SendRelease(l) => l in s.connections && s.connections[l].Closing?
    case Leave(l) => Is(s, l, Leaving)
  }

  function ApplyBrowser(s: State, b: Browser): (t: State)
    requires BrowserEnabled(s, b)
    ensures t == s.(sessions := t.sessions, connections := t.connections, releases := t.releases)
  {
    match b
    case Connect(l) => s.(sessions := Attached(s.sessions, l.0, l.1), connections := s.connections[l := Open])
    case Close(l) => s.(connections := s.connections[l := Closing(Writable(s.sessions, l.0, l.1))])
    case SendRelease(l) =>
      s.(connections := s.connections[l := Leaving], releases := if s.connections[l].release then s.releases + {l} else s.releases)
    case Leave(l) => s.(sessions := Detached(s.sessions, l.0, l.1), connections := s.connections[l := Gone])
  }

  predicate RequestEnabled(s: State, k: nat, r: Request) {
    match r
    case Ask(l) => k !in s.takeovers && k !in s.declared && Writers(s, l.0) == {}
    case Promote => At(s, k, Checked)
    case Declare => At(s, k, Promoting)
    case Grant => At(s, k, Declaring) && k in s.arrived
    case GiveUp => At(s, k, Declaring) || At(s, k, Promoting)
    case Undo => At(s, k, Undoing)
  }

  function ApplyRequest(s: State, k: nat, r: Request): (t: State)
    requires RequestEnabled(s, k, r)
    ensures s.granted <= t.granted
    ensures t == s.(sessions := t.sessions, takeovers := t.takeovers, declared := t.declared, promoted := t.promoted, granted := t.granted)
  {
    match r
    case Ask(l) => s.(takeovers := s.takeovers[k := Takeover(l, Checked)])
    case Promote =>
      var l := s.takeovers[k].link;
      if Known(s.sessions, l.0, l.1) && !HeldByOther(s.sessions, l.0, l.1) then
        s.(sessions := Promoted(s.sessions, l.0, l.1), takeovers := s.takeovers[k := Takeover(l, Promoting)], promoted := s.promoted + {l})
      else s.(takeovers := s.takeovers - {k})
    case Declare =>
      var l := s.takeovers[k].link;
      s.(takeovers := s.takeovers[k := Takeover(l, Declaring)], declared := s.declared[k := l])
    case Grant => s.(granted := s.granted + {s.takeovers[k].link}, takeovers := s.takeovers - {k})
    case GiveUp => s.(takeovers := s.takeovers[k := Takeover(s.takeovers[k].link, Undoing)])
    case Undo =>
      var l := s.takeovers[k].link;
      s.(sessions := Released(s.sessions, l.0, l.1), takeovers := s.takeovers - {k})
  }

  predicate SessionEnabled(s: State, x: Session) {
    match x
    case DeclarationArrives(k) => k in s.declared && k !in s.arrived
    case ReleaseArrives(l) => l in s.releases
    case AttachClients(_, _) => true
    case Type(k, l) => k !in s.typing && k !in s.inputs && Is(s, l, Open) && Writable(s.sessions, l.0, l.1)
    case Check(k, ws, from) => k !in s.typing && k !in s.inputs && Writers(s, ws) - {from} == {}
    case CheckTyped(k) => k in s.typing && Writers(s, s.typing[k].0) - {s.typing[k].1} == {}
    case Deliver(k) => k in s.inputs
  }

  function ApplySession(s: State, x: Session): (t: State)
    requires SessionEnabled(s, x)
    ensures t == s.(held := t.held, arrived := t.arrived, releases := t.releases, attached := t.attached,
                    typing := t.typing, inputs := t.inputs, delivered := t.delivered)
  {
    match x
    case DeclarationArrives(k) =>
      var l := s.declared[k];
      s.(held := s.held[l.0 := Held(s, l.0) + {l.1}], arrived := s.arrived + {k})
    case ReleaseArrives(l) => s.(held := s.held[l.0 := Held(s, l.0) - {l.1}], releases := s.releases - {l})
    case AttachClients(ws, ids) => s.(attached := s.attached[ws := ids])
    case Type(k, l) => s.(typing := s.typing[k := l])
    case Check(k, ws, from) => s.(inputs := s.inputs[k := Input(ws, from, Writers(s, ws), false)])
    case CheckTyped(k) =>
      var l := s.typing[k];
      s.(typing := s.typing - {k}, inputs := s.inputs[k := Input(l.0, l.1, Writers(s, l.0), true)])
    case Deliver(k) => s.(inputs := s.inputs - {k}, delivered := s.delivered + [s.inputs[k]])
  }

  predicate Enabled(s: State, a: Action) {
    match a
    case ByBrowser(b) => BrowserEnabled(s, b)
    case ByRequest(k, r) => RequestEnabled(s, k, r)
    case AtSession(x) => SessionEnabled(s, x)
  }

  function Apply(s: State, a: Action): State
    requires Enabled(s, a)
  {
    match a
    case ByBrowser(b) => ApplyBrowser(s, b)
    case ByRequest(k, r) => ApplyRequest(s, k, r)
    case AtSession(x) => ApplySession(s, x)
  }

  // ---- invariant ----

  ghost predicate ConnectionsInv(s: State) {
    && SingleWriter(s.sessions)
    && (forall ws, id :: Known(s.sessions, ws, id) ==> (ws, id) in s.connections && s.connections[(ws, id)] != Gone)
    && (forall ws, id :: Writable(s.sessions, ws, id) ==> (ws, id) in s.promoted)
    && s.promoted <= s.connections.Keys
    && (forall l :: l in s.releases ==> l in s.connections && (s.connections[l] == Leaving || s.connections[l] == Gone))
  }

  ghost predicate TakeoversInv(s: State) {
    && (forall k :: k in s.takeovers && s.takeovers[k].stage != Checked ==> s.takeovers[k].link in s.promoted)
    && (forall k :: k in s.takeovers && s.takeovers[k].stage == Declaring ==> k in s.declared && s.declared[k] == s.takeovers[k].link)
    && (forall k :: k in s.takeovers && k in s.declared ==> s.declared[k] == s.takeovers[k].link)
    && (forall k :: k in s.declared ==> s.declared[k] in s.promoted)
    && (forall k :: k in s.arrived ==> k in s.declared && (Is(s, s.declared[k], Open) ==> s.declared[k].1 in Held(s, s.declared[k].0)))
  }

  /** What was granted is held for as long as the connection is open. */
  ghost predicate GrantsInv(s: State) {
    forall l :: l in s.granted ==> l in s.promoted && (Is(s, l, Open) ==> l.1 in Held(s, l.0))
  }

  /** Some request for the connection has been promoted and has neither succeeded nor been undone. */
  ghost predicate InProgress(s: State, l: Link) {
    exists k :: k in s.takeovers && s.takeovers[k].link == l && s.takeovers[k].stage != Checked
  }

  /** Who may write was granted the session or is being handed it. */
  ghost predicate WritersInv(s: State) {
    forall ws, id :: Writable(s.sessions, ws, id) ==> (ws, id) in s.granted || InProgress(s, (ws, id))
  }

  ghost predicate Clear(i: Input, promoted: set<Link>) {
    i.seen <= {i.from} && (i.typed ==> (i.workspace, i.from) in promoted)
  }

  ghost predicate InputsInv(s: State) {
    && (forall k :: k in s.typing ==> s.typing[k] in s.promoted)
    && (forall k :: k in s.inputs ==> Clear(s.inputs[k], s.promoted))
    && (forall i :: i in s.delivered ==> Clear(i, s.promoted))
  }

  ghost predicate Inv(s: State) {
    ConnectionsInv(s) && TakeoversInv(s) && GrantsInv(s) && InputsInv(s) && WritersInv(s)
  }

  /** A writer stays covered when every request but `k` goes on as it is, and `k` does so as well if it
      is about that connection and past the check, or it has been granted. */
  lemma CoveredStill(s: State, t: State, k: nat, l: Link)
    requires s.granted <= t.granted && (l in s.granted || InProgress(s, l))
    requires forall j :: j in s.takeovers && j != k ==> j in t.takeovers && t.takeovers[j] == s.takeovers[j]
    requires k in s.takeovers && s.takeovers[k].link == l && s.takeovers[k].stage != Checked ==>
               l in t.granted || (k in t.takeovers && t.takeovers[k].link == l && t.takeovers[k].stage != Checked)
    ensures l in t.granted || InProgress(t, l)
  {
    if l !in t.granted {
      var j :| j in s.takeovers && s.takeovers[j].link == l && s.takeovers[j].stage != Checked;
      assert j in t.takeovers && t.takeovers[j].link == l && t.takeovers[j].stage != Checked;
    }
  }

  lemma PromoteWriters(s: State, k: nat)
    requires SingleWriter(s.sessions) && WritersInv(s) && RequestEnabled(s, k, Promote)
    ensures WritersInv(ApplyRequest(s, k, Promote))
  {
    var t, l := ApplyRequest(s, k, Promote), s.takeovers[k].link;
    PromotedKeeps(s.sessions, l.0, l.1);
    forall ws, id | Writable(t.sessions, ws, id) ensures (ws, id) in t.granted || InProgress(t, (ws, id)) {
      if Writable(s.sessions, ws, id) {
        CoveredStill(s, t, k, (ws, id));
      } else {
        assert (ws, id) == l && t.takeovers[k] == Takeover(l, Promoting);
      }
    }
  }

  lemma UndoWriters(s: State, k: nat)
    requires SingleWriter(s.sessions) && WritersInv(s) && RequestEnabled(s, k, Undo)
    ensures WritersInv(ApplyRequest(s, k, Undo))
  {
    var t, l := ApplyRequest(s, k, Undo), s.takeovers[k].link;
    ReleasedKeeps(s.sessions, l.0, l.1);
    forall ws, id | Writable(t.sessions, ws, id) ensures (ws, id) in t.granted || InProgress(t, (ws, id)) {
      assert l == (l.0, l.1) != (ws, id);
      CoveredStill(s, t, k, (ws, id));
    }
  }

  lemma OtherRequestWriters(s: State, k: nat, r: Request)
    requires WritersInv(s) && RequestEnabled(s, k, r) && !r.Promote? && !r.Undo?
    ensures WritersInv(ApplyRequest(s, k, r))
  {
    var t := ApplyRequest(s, k, r);
    forall ws, id | Writable(t.sessions, ws, id) ensures (ws, id) in t.granted || InProgress(t, (ws, id)) {
      assert Writable(s.sessions, ws, id);
      CoveredStill(s, t, k, (ws, id));
    }
  }

  lemma BrowserConnections(s: State, b: Browser)
    requires ConnectionsInv(s) && BrowserEnabled(s, b)
    ensures ConnectionsInv(ApplyBrowser(s, b))
  {
    match b
    case Connect(l) => AttachedKeeps(s.sessions, l.0, l.1);
    case Close(l) =>
    case SendRelease(l) =>
    case Leave(l) => DetachedKeeps(s.sessions, l.0, l.1);
  }

  lemma BrowserWriters(s: State, b: Browser)
    requires SingleWriter(s.sessions) && WritersInv(s) && BrowserEnabled(s, b)
    ensures WritersInv(ApplyBrowser(s, b))
  {
    match b
    case Connect(l) => AttachedKeeps(s.sessions, l.0, l.1);
    case Close(l) =>
    case SendRelease(l) =>
    case Leave(l) => DetachedKeeps(s.sessions, l.0, l.1);
    var t := ApplyBrowser(s, b);
    forall ws, id | Writable(t.sessions, ws, id) ensures (ws, id) in t.granted || InProgress(t, (ws, id)) {
      assert Writable(s.sessions, ws, id);
      if (ws, id) !in s.granted {
        var k :| k in s.takeovers && s.takeovers[k].link == (ws, id) && s.takeovers[k].stage != Checked;
        assert k in t.takeovers && t.takeovers[k] == s.takeovers[k];
      }
    }
  }

  lemma SessionWriters(s: State, x: Session)
    requires WritersInv(s) && SessionEnabled(s, x)
    ensures WritersInv(ApplySession(s, x))
  {
    var t := ApplySession(s, x);
    forall ws, id | Writable(t.sessions, ws, id) ensures (ws, id) in t.granted || InProgress(t, (ws, id)) {
      assert Writable(s.sessions, ws, id);
      if (ws, id) !in s.granted {
        var k :| k in s.takeovers && s.takeovers[k].link == (ws, id) && s.takeovers[k].stage != Checked;
        assert k in t.takeovers && t.takeovers[k] == s.takeovers[k];
      }
    }
  }

  lemma BrowserKeeps(s: State, b: Browser)
    requires Inv(s) && BrowserEnabled(s, b)
    ensures Inv(ApplyBrowser(s, b))
  {
    BrowserConnections(s, b);
    BrowserWriters(s, b);
    var t := ApplyBrowser(s, b);
    assert forall l :: Is(t, l, Open) ==> Is(s, l, Open) || l !in s.promoted;
  }

  lemma AskKeeps(s: State, k: nat, l: Link)
    requires Inv(s) && RequestEnabled(s, k, Ask(l))
    ensures Inv(ApplyRequest(s, k, Ask(l)))
  {
    OtherRequestWriters(s, k, Ask(l));
  }

  lemma PromotionKeeps(s: State, k: nat, l: Link, sessions: Sessions)
    requires Inv(s) && k in s.takeovers && s.takeovers[k] == Takeover(l, Checked)
    requires Known(s.sessions, l.0, l.1)
    requires SingleWriter(sessions)
    requires forall v, a :: Known(sessions, v, a) <==> Known(s.sessions, v, a)
    requires forall v, a :: Writable(sessions, v, a) ==> Writable(s.sessions, v, a) || (v, a) == l
    requires WritersInv(s.(sessions := sessions, takeovers := s.takeovers[k := Takeover(l, Promoting)], promoted := s.promoted + {l}))
    ensures Inv(s.(sessions := sessions, takeovers := s.takeovers[k := Takeover(l, Promoting)], promoted := s.promoted + {l}))
  {
    assert l == (l.0, l.1) && l in s.connections;
  }

  lemma RefusalKeeps(s: State, k: nat)
    requires Inv(s) && WritersInv(s.(takeovers := s.takeovers - {k}))
    ensures Inv(s.(takeovers := s.takeovers - {k}))
  {
  }

  lemma PromoteKeeps(s: State, k: nat)
    requires Inv(s) && RequestEnabled(s, k, Promote)
    ensures Inv(ApplyRequest(s, k, Promote))
  {
    var l := s.takeovers[k].link;
    PromoteWriters(s, k);
    if Known(s.sessions, l.0, l.1) && !HeldByOther(s.sessions, l.0, l.1) {
      PromotedKeeps(s.sessions, l.0, l.1);
      PromotionKeeps(s, k, l, Promoted(s.sessions, l.0, l.1));
    } else {
      RefusalKeeps(s, k);
    }
  }

  lemma DeclareKeeps(s: State, k: nat)
    requires Inv(s) && RequestEnabled(s, k, Declare)
    ensures Inv(ApplyRequest(s, k, Declare))
  {
    OtherRequestWriters(s, k, Declare);
  }

  lemma GrantKeeps(s: State, k: nat)
    requires Inv(s) && RequestEnabled(s, k, Grant)
    ensures Inv(ApplyRequest(s, k, Grant))
  {
    OtherRequestWriters(s, k, Grant);
  }

  lemma GiveUpKeeps(s: State, k: nat)
    requires Inv(s) && RequestEnabled(s, k, GiveUp)
    ensures Inv(ApplyRequest(s, k, GiveUp))
  {
    OtherRequestWriters(s, k, GiveUp);
  }

  lemma UndoKeeps(s: State, k: nat)
    requires Inv(s) && RequestEnabled(s, k, Undo)
    ensures Inv(ApplyRequest(s, k, Undo))
  {
    var l := s.takeovers[k].link;
    UndoWriters(s, k);
    ReleasedKeeps(s.sessions, l.0, l.1);
  }

  lemma RequestKeeps(s: State, k: nat, r: Request)
    requires Inv(s) && RequestEnabled(s, k, r)
    ensures Inv(ApplyRequest(s, k, r))
  {
    match r
    case Ask(l) => AskKeeps(s, k, l);
    case Promote => PromoteKeeps(s, k);
    case Declare => DeclareKeeps(s, k);
    case Grant => GrantKeeps(s, k);
    case GiveUp => GiveUpKeeps(s, k);
    case Undo => UndoKeeps(s, k);
  }

  lemma SessionConnections(s: State, x: Session)
    requires ConnectionsInv(s) && SessionEnabled(s, x)
    ensures ConnectionsInv(ApplySession(s, x))
  {
  }

  /** What an open connection holds, it keeps. */
  lemma SessionKeepsHolds(s: State, x: Session, l: Link)
    requires ConnectionsInv(s) && SessionEnabled(s, x) && Is(s, l, Open) && l.1 in Held(s, l.0)
    ensures l.1 in Held(ApplySession(s, x), l.0)
  {
    if x.ReleaseArrives? {
      assert x.link != l;
    }
  }

  lemma SessionTakeovers(s: State, x: Session)
    requires ConnectionsInv(s) && TakeoversInv(s) && SessionEnabled(s, x)
    ensures TakeoversInv(ApplySession(s, x))
  {
    var t := ApplySession(s, x);
    forall k | k in t.arrived ensures k in t.declared && (Is(t, t.declared[k], Open) ==> t.declared[k].1 in Held(t, t.declared[k].0)) {
      if k in s.arrived && Is(s, s.declared[k], Open) {
        SessionKeepsHolds(s, x, s.declared[k]);
      }
    }
  }

  lemma SessionGrants(s: State, x: Session)
    requires ConnectionsInv(s) && GrantsInv(s) && SessionEnabled(s, x)
    ensures GrantsInv(ApplySession(s, x))
  {
    var t := ApplySession(s, x);
    forall l | l in t.granted ensures l in t.promoted && (Is(t, l, Open) ==> l.1 in Held(t, l.0)) {
      if Is(s, l, Open) {
        SessionKeepsHolds(s, x, l);
      }
    }
  }

  lemma SessionInputs(s: State, x: Session)
    requires Inv(s) && SessionEnabled(s, x)
    ensures InputsInv(ApplySession(s, x))
  {
    if x.Check? {
      assert forall id :: id in Writers(s, x.ws) && id != x.from ==> id in Writers(s, x.ws) - {x.from};
    } else if x.CheckTyped? {
      var l := s.typing[x.k];
      assert forall id :: id in Writers(s, l.0) && id != l.1 ==> id in Writers(s, l.0) - {l.1};
    }
  }

  lemma StepKeeps(s: State, a: Action)
    requires Inv(s) && Enabled(s, a)
    ensures Inv(Apply(s, a))
  {
    match a
    case ByBrowser(b) => BrowserKeeps(s, b);
    case ByRequest(k, r) => RequestKeeps(s, k, r);
    case AtSession(x) =>
      SessionConnections(s, x);
      SessionTakeovers(s, x);
      SessionGrants(s, x);
      SessionInputs(s, x);
      SessionWriters(s, x);
  }

  // ---- what a single step may do ----

  predicate Closed(s: State, l: Link) {
    l in s.connections && (s.connections[l] == Closing(true) || s.connections[l] == Leaving || s.connections[l] == Gone)
  }

  lemma ConnectionStep(s: State, a: Action, l: Link)
    requires Enabled(s, a)
    ensures Closed(s, l) ==> Closed(Apply(s, a), l)
    ensures a == ByBrowser(Close(l)) && Writable(s.sessions, l.0, l.1) ==> Closed(Apply(s, a), l)
  {
    match a
    case ByBrowser(b) => BrowserConnection(s, b, l);
    case ByRequest(_, _) =>
    case AtSession(_) =>
  }

  lemma BrowserConnection(s: State, b: Browser, l: Link)
    requires BrowserEnabled(s, b)
    ensures Closed(s, l) ==> Closed(ApplyBrowser(s, b), l)
    ensures b == Close(l) && Writable(s.sessions, l.0, l.1) ==> Closed(ApplyBrowser(s, b), l)
  {
  }

  lemma TypingStep(s: State, a: Action, k: nat)
    requires Enabled(s, a) && k in Apply(s, a).typing
    ensures var l := Apply(s, a).typing[k];
      if k in s.typing then s.typing[k] == l
      else a == AtSession(Type(k, l)) && Is(s, l, Open) && Writable(s.sessions, l.0, l.1)
  {
    match a
    case ByBrowser(_) =>
    case ByRequest(_, _) =>
    case AtSession(x) => SessionTyping(s, x, k);
  }

  lemma SessionTyping(s: State, x: Session, k: nat)
    requires SessionEnabled(s, x) && k in ApplySession(s, x).typing
    ensures var l := ApplySession(s, x).typing[k];
      if k in s.typing then s.typing[k] == l
      else x == Type(k, l) && Is(s, l, Open) && Writable(s.sessions, l.0, l.1)
  {
  }

  lemma TakeoverStep(s: State, a: Action, k: nat)
    requires Enabled(s, a) && k in Apply(s, a).takeovers
    ensures var l := Apply(s, a).takeovers[k].link;
      if k in s.takeovers then s.takeovers[k].link == l else a == ByRequest(k, Ask(l)) && Writers(s, l.0) == {}
  {
    match a
    case ByBrowser(_) =>
    case ByRequest(j, r) => RequestTakeover(s, j, r, k);
    case AtSession(_) =>
  }

  lemma RequestTakeover(s: State, j: nat, r: Request, k: nat)
    requires RequestEnabled(s, j, r) && k in ApplyRequest(s, j, r).takeovers
    ensures var l := ApplyRequest(s, j, r).takeovers[k].link;
      if k in s.takeovers then s.takeovers[k].link == l else j == k && r == Ask(l) && Writers(s, l.0) == {}
  {
  }

  lemma GrantStep(s: State, a: Action, l: Link)
    requires Enabled(s, a) && l in Apply(s, a).granted && l !in s.granted
    ensures a.ByRequest? && a.r.Grant? && At(s, a.k, Declaring) && s.takeovers[a.k].link == l && a.k in s.arrived
  {
    match a
    case ByBrowser(_) =>
    case ByRequest(j, r) => RequestGrant(s, j, r, l);
    case AtSession(_) =>
  }

  lemma RequestGrant(s: State, j: nat, r: Request, l: Link)
    requires RequestEnabled(s, j, r) && l in ApplyRequest(s, j, r).granted && l !in s.granted
    ensures r.Grant? && At(s, j, Declaring) && s.takeovers[j].link == l && j in s.arrived
  {
  }

  lemma HoldStep(s: State, a: Action, l: Link)
    requires Enabled(s, a) && l.1 in Held(Apply(s, a), l.0) && l.1 !in Held(s, l.0)
    ensures a.AtSession? && a.x.DeclarationArrives? && a.x.k in s.declared && s.declared[a.x.k] == l
  {
    match a
    case ByBrowser(_) =>
    case ByRequest(_, _) =>
    case AtSession(x) => SessionHold(s, x, l);
  }

  lemma SessionHold(s: State, x: Session, l: Link)
    requires SessionEnabled(s, x) && l.1 in Held(ApplySession(s, x), l.0) && l.1 !in Held(s, l.0)
    ensures x.DeclarationArrives? && x.k in s.declared && s.declared[x.k] == l
  {
    assert l == (l.0, l.1);
  }

  // ---- runs ----

  /** A run from the start: `states[i]` becomes `states[i + 1]` by `actions[i]`. */
  ghost predicate IsRun(states: seq<State>, actions: seq<Action>) {
    && |states| == |actions| + 1 && states[0] == START
    && forall i :: 0 <= i < |actions| ==> Enabled(states[i], actions[i]) && states[i + 1] == Apply(states[i], actions[i])
  }

  lemma StepTaken(states: seq<State>, actions: seq<Action>, i: nat)
    requires IsRun(states, actions) && i < |actions|
    ensures Enabled(states[i], actions[i]) && states[i + 1] == Apply(states[i], actions[i])
  {
  }

  lemma {:induction false} RunKeeps(states: seq<State>, actions: seq<Action>, i: nat)
    requires IsRun(states, actions) && i < |states|
    ensures Inv(states[i])
  {
    if i > 0 {
      RunKeeps(states, actions, i - 1);
      StepKeeps(states[i - 1], actions[i - 1]);
    }
  }

  lemma {:induction false} GrantsAreKept(states: seq<State>, actions: seq<Action>, i: nat, j: nat, l: Link)
    requires IsRun(states, actions) && i <= j < |states| && l in states[i].granted
    ensures l in states[j].granted
    decreases j - i
  {
    if i < j {
      GrantsAreKept(states, actions, i, j - 1, l);
      assert states[j] == Apply(states[j - 1], actions[j - 1]);
    }
  }

  /** In no state of any run does the gateway let two connections of one workspace write. */
  lemma AtMostOneWriter(states: seq<State>, actions: seq<Action>, i: nat, ws: Workspace, a: SessionId, b: SessionId)
    requires IsRun(states, actions) && i < |states|
    requires Writable(states[i].sessions, ws, a) && Writable(states[i].sessions, ws, b)
    ensures a == b
  {
    RunKeeps(states, actions, i);
  }

  /** Only a connection that was granted the session, or is being handed it, may write or type: once
      its last request has failed and been undone, one that was never granted may not. */
  lemma OnlyGrantedWrite(states: seq<State>, actions: seq<Action>, i: nat, l: Link)
    requires IsRun(states, actions) && i < |states|
    requires l !in states[i].granted && !InProgress(states[i], l)
    ensures !Writable(states[i].sessions, l.0, l.1)
    ensures forall k :: !Enabled(states[i], AtSession(Type(k, l)))
  {
    RunKeeps(states, actions, i);
    assert l == (l.0, l.1);
  }

  /** Undoing takes the write access back at once. */
  lemma UndoneMayNotWrite(states: seq<State>, actions: seq<Action>, i: nat, k: nat)
    requires IsRun(states, actions) && i < |actions| && actions[i] == ByRequest(k, Undo)
    ensures k in states[i].takeovers && k !in states[i + 1].takeovers
    ensures var l := states[i].takeovers[k].link; !Writable(states[i + 1].sessions, l.0, l.1)
  {
    RunKeeps(states, actions, i);
    assert Enabled(states[i], actions[i]) && states[i + 1] == Apply(states[i], actions[i]);
    var l := states[i].takeovers[k].link;
    ReleasedKeeps(states[i].sessions, l.0, l.1);
  }

  /** A declaration for the connection arrives in step `m`. */
  predicate Declares(states: seq<State>, actions: seq<Action>, m: nat, l: Link) {
    && m < |actions| && m < |states| && actions[m].AtSession? && actions[m].x.DeclarationArrives?
    && actions[m].x.k in states[m].declared && states[m].declared[actions[m].x.k] == l
  }

  /** What is held and was not before was declared in between. */
  lemma {:induction false} HoldWasDeclared(states: seq<State>, actions: seq<Action>, i: nat, j: nat, l: Link) returns (m: nat)
    requires IsRun(states, actions) && i <= j < |states|
    requires l.1 !in Held(states[i], l.0) && l.1 in Held(states[j], l.0)
    ensures i <= m < j && Declares(states, actions, m, l)
    decreases j - i
  {
    StepTaken(states, actions, j - 1);
    if l.1 in Held(states[j - 1], l.0) {
      m := HoldWasDeclared(states, actions, i, j - 1, l);
    } else {
      m := j - 1;
      HoldStep(states[m], actions[m], l);
    }
  }

  /** After a release has arrived the id is held only if a declaration for it arrives later. */
  lemma ReleaseLetsGo(states: seq<State>, actions: seq<Action>, i: nat, j: nat, l: Link) returns (m: nat)
    requires IsRun(states, actions) && i < j < |states| && actions[i] == AtSession(ReleaseArrives(l))
    requires l.1 in Held(states[j], l.0)
    ensures i < m < j && Declares(states, actions, m, l)
  {
    assert states[i + 1] == Apply(states[i], actions[i]);
    m := HoldWasDeclared(states, actions, i + 1, j, l);
  }

  predicate ClosedAt(states: seq<State>, i: nat, l: Link)
    requires i + 1 < |states|
  {
    Closed(states[i], l) ==> Closed(states[i + 1], l)
  }

  ghost predicate ClosedGoes(states: seq<State>, l: Link) {
    forall i :: 0 <= i < |states| - 1 ==> ClosedAt(states, i, l)
  }

  lemma RunClosed(states: seq<State>, actions: seq<Action>, l: Link)
    requires IsRun(states, actions)
    ensures ClosedGoes(states, l)
  {
    forall i | 0 <= i < |states| - 1 ensures ClosedAt(states, i, l) {
      StepTaken(states, actions, i);
      ConnectionStep(states[i], actions[i], l);
    }
  }

  lemma {:induction false} ClosedStays(states: seq<State>, i: nat, j: nat, l: Link)
    requires ClosedGoes(states, l) && i <= j < |states| && Closed(states[i], l)
    ensures Closed(states[j], l)
    decreases j - i
  {
    if i < j {
      ClosedStays(states, i, j - 1, l);
      assert ClosedAt(states, j - 1, l);
    }
  }

  /** Closing a connection that may write sends the release of its hold. */
  lemma CloseSendsRelease(states: seq<State>, actions: seq<Action>, i: nat, j: nat, l: Link)
    requires IsRun(states, actions) && i < j < |actions|
    requires actions[i] == ByBrowser(Close(l)) && Writable(states[i].sessions, l.0, l.1) && actions[j] == ByBrowser(SendRelease(l))
    ensures l in states[j + 1].releases
  {
    StepTaken(states, actions, i);
    ConnectionStep(states[i], actions[i], l);
    RunClosed(states, actions, l);
    ClosedStays(states, i + 1, j, l);
    StepTaken(states, actions, j);
  }

  predicate TypedAt(s: State, a: Action, k: nat, l: Link) {
    a == AtSession(Type(k, l)) && Is(s, l, Open) && Writable(s.sessions, l.0, l.1)
  }

  predicate TypingAt(states: seq<State>, actions: seq<Action>, i: nat, k: nat)
    requires i < |actions| && |states| == |actions| + 1
  {
    k in states[i + 1].typing ==>
      if k in states[i].typing then states[i].typing[k] == states[i + 1].typing[k]
      else TypedAt(states[i], actions[i], k, states[i + 1].typing[k])
  }

  ghost predicate TypingGoes(states: seq<State>, actions: seq<Action>, k: nat) {
    && |states| == |actions| + 1 && k !in states[0].typing
    && forall i :: 0 <= i < |actions| ==> TypingAt(states, actions, i, k)
  }

  lemma RunTyping(states: seq<State>, actions: seq<Action>, k: nat)
    requires IsRun(states, actions)
    ensures TypingGoes(states, actions, k)
  {
    forall i | 0 <= i < |actions| ensures TypingAt(states, actions, i, k) {
      StepTaken(states, actions, i);
      if k in states[i + 1].typing {
        TypingStep(states[i], actions[i], k);
      }
    }
  }

  lemma {:induction false} TypedBefore(states: seq<State>, actions: seq<Action>, i: nat, k: nat) returns (m: nat)
    requires TypingGoes(states, actions, k) && i < |states| && k in states[i].typing
    ensures m < i && TypedAt(states[m], actions[m], k, states[i].typing[k])
  {
    assert i > 0;
    assert TypingAt(states, actions, i - 1, k);
    if k in states[i - 1].typing {
      m := TypedBefore(states, actions, i - 1, k);
    } else {
      m := i - 1;
    }
  }

  /** An input on its way from a browser was typed at a moment at which that connection could write. */
  lemma TypedWhileWritable(states: seq<State>, actions: seq<Action>, i: nat, k: nat) returns (m: nat)
    requires IsRun(states, actions) && i < |states| && k in states[i].typing
    ensures m < i && TypedAt(states[m], actions[m], k, states[i].typing[k])
  {
    RunTyping(states, actions, k);
    m := TypedBefore(states, actions, i, k);
  }

  /** A request under way began when the supervisor listed no writable client, attached or held. */
  lemma {:induction false} AskedWhenClear(states: seq<State>, actions: seq<Action>, i: nat, k: nat) returns (m: nat)
    requires IsRun(states, actions) && i < |states| && k in states[i].takeovers
    ensures m < i && actions[m] == ByRequest(k, Ask(states[i].takeovers[k].link))
    ensures var ws := states[i].takeovers[k].link.0; Lookup(states[m].held, ws) == {} && Lookup(states[m].attached, ws) == {}
  {
    assert i > 0;
    StepTaken(states, actions, i - 1);
    TakeoverStep(states[i - 1], actions[i - 1], k);
    if k in states[i - 1].takeovers {
      m := AskedWhenClear(states, actions, i - 1, k);
    } else {
      m := i - 1;
      var ws := states[i].takeovers[k].link.0;
      NoneOfEither(Lookup(states[m].held, ws), Lookup(states[m].attached, ws));
    }
  }

  lemma NoneOfEither(a: set<SessionId>, b: set<SessionId>)
    ensures a + b == {} ==> a == {} && b == {}
  {
    assert a <= a + b && b <= a + b;
  }

  /** A success stands for a request that asked when nobody could write and whose declaration arrived. */
  lemma {:induction false} GrantWasEarned(states: seq<State>, actions: seq<Action>, i: nat, l: Link) returns (k: nat, m: nat, g: nat)
    requires IsRun(states, actions) && i < |states| && l in states[i].granted
    ensures m < g < i && actions[m] == ByRequest(k, Ask(l)) && actions[g] == ByRequest(k, Grant)
    ensures Lookup(states[m].held, l.0) == {} && Lookup(states[m].attached, l.0) == {}
    ensures k in states[g].arrived && k in states[g].declared && states[g].declared[k] == l
  {
    assert i > 0;
    StepTaken(states, actions, i - 1);
    if l in states[i - 1].granted {
      k, m, g := GrantWasEarned(states, actions, i - 1, l);
    } else {
      g := i - 1;
      GrantStep(states[g], actions[g], l);
      k := actions[g].k;
      m := AskedWhenClear(states, actions, g, k);
      RunKeeps(states, actions, g);
    }
  }

  /** Once a handover has succeeded, the supervisor holds the session for that connection until the
      connection itself closes, and the check of any other sender in that window fails. */
  lemma HolderIsProtected(states: seq<State>, actions: seq<Action>, i: nat, j: nat, l: Link)
    requires IsRun(states, actions) && i <= j < |states|
    requires l in states[i].granted && Is(states[j], l, Open)
    ensures l.1 in Held(states[j], l.0)
    ensures forall k, from :: from != l.1 ==> !Enabled(states[j], AtSession(Check(k, l.0, from)))
    ensures forall k :: k in states[j].typing && states[j].typing[k].0 == l.0 && states[j].typing[k].1 != l.1 ==> !Enabled(states[j], AtSession(CheckTyped(k)))
  {
    GrantsAreKept(states, actions, i, j, l);
    RunKeeps(states, actions, j);
    assert l.1 in Writers(states[j], l.0);
    forall from | from != l.1 ensures Writers(states[j], l.0) - {from} != {} {
      assert l.1 in Writers(states[j], l.0) - {from};
    }
  }

  /** Every input that reaches the session saw no hold but its sender's own when it was checked, and
      one that came through a browser comes from a connection that had been promoted. */
  lemma DeliveredInputsWereChecked(states: seq<State>, actions: seq<Action>, i: nat, input: Input)
    requires IsRun(states, actions) && i < |states| && input in states[i].delivered
    ensures input.seen <= {input.from}
    ensures input.typed ==> (input.workspace, input.from) in states[i].promoted
  {
    RunKeeps(states, actions, i);
  }

  /** Checking and delivering are two steps, so an input may still land after a handover; it is then
      one whose check came before the hold. */
  lemma LateInputWasCheckedEarly(states: seq<State>, actions: seq<Action>, i: nat, k: nat, l: Link)
    requires IsRun(states, actions) && i < |states|
    requires l in states[i].granted && Is(states[i], l, Open)
    requires k in states[i].inputs && states[i].inputs[k].workspace == l.0 && states[i].inputs[k].from != l.1
    ensures l.1 in Held(states[i], l.0) && l.1 !in states[i].inputs[k].seen
  {
    RunKeeps(states, actions, i);
  }

  lemma Extend(states: seq<State>, actions: seq<Action>, a: Action) returns (states': seq<State>, actions': seq<Action>)
    requires IsRun(states, actions) && Enabled(states[|actions|], a)
    ensures actions' == actions + [a] && states' == states + [Apply(states[|actions|], a)] && IsRun(states', actions')
    ensures states'[|actions'|] == Apply(states[|actions|], a)
  {
    states', actions' := states + [Apply(states[|actions|], a)], actions + [a];
    forall i | 0 <= i < |actions'| ensures Enabled(states'[i], actions'[i]) && states'[i + 1] == Apply(states'[i], actions'[i]) {
      if i < |actions| {
        assert states'[i] == states[i] && actions'[i] == actions[i] && states'[i + 1] == states[i + 1];
      }
    }
  }

  /** The agent's input is checked, then a browser connects and is promoted. */
  lemma AgentThenBrowser(ws: Workspace, id: SessionId) returns (states: seq<State>, actions: seq<Action>)
    ensures IsRun(states, actions)
    ensures states[|actions|] == START.(
      inputs := map[0 := Input(ws, "", {}, false)], sessions := map[ws := map[id := true]], connections := map[(ws, id) := Open],
      takeovers := map[1 := Takeover((ws, id), Promoting)], promoted := {(ws, id)})
  {
    states, actions := [START], [];
    assert Writers(START, ws) == {};
    states, actions := Extend(states, actions, AtSession(Check(0, ws, "")));
    var s4 := TakingOver(states[|actions|], ws, id);
    states, actions := Extend(states, actions, ByBrowser(Connect((ws, id))));
    states, actions := Extend(states, actions, ByRequest(1, Ask((ws, id))));
    states, actions := Extend(states, actions, ByRequest(1, Promote));
  }

  /** That this happens: the agent's input is checked, a browser takes the session over, and then the
      input lands. */
  lemma LateInputHappens(ws: Workspace, id: SessionId) returns (states: seq<State>, actions: seq<Action>, i: nat)
    requires id != ""
    ensures IsRun(states, actions) && i + 1 < |states| && actions[i] == AtSession(Deliver(0))
    ensures (ws, id) in states[i].granted && Is(states[i], (ws, id), Open)
    ensures states[i].delivered == [] && states[i + 1].delivered == [Input(ws, "", {}, false)]
  {
    states, actions := AgentThenBrowser(ws, id);
    var s7 := TakenOver(states[|actions|], ws, id);
    states, actions := Extend(states, actions, ByRequest(1, Declare));
    states, actions := Extend(states, actions, AtSession(DeclarationArrives(1)));
    states, actions := Extend(states, actions, ByRequest(1, Grant));
    i := |actions|;
    states, actions := Extend(states, actions, AtSession(Deliver(0)));
  }

  lemma TakingOver(s1: State, ws: Workspace, id: SessionId) returns (s4: State)
    requires s1 == START.(inputs := map[0 := Input(ws, "", {}, false)])
    ensures BrowserEnabled(s1, Connect((ws, id)))
    ensures var s2 := ApplyBrowser(s1, Connect((ws, id)));
            && RequestEnabled(s2, 1, Ask((ws, id)))
            && var s3 := ApplyRequest(s2, 1, Ask((ws, id)));
               RequestEnabled(s3, 1, Promote) && s4 == ApplyRequest(s3, 1, Promote)
    ensures s4 == s1.(sessions := map[ws := map[id := true]], connections := map[(ws, id) := Open],
                      takeovers := map[1 := Takeover((ws, id), Promoting)], promoted := {(ws, id)})
  {
    var s3 := ApplyRequest(ApplyBrowser(s1, Connect((ws, id))), 1, Ask((ws, id)));
    assert s3.sessions == map[ws := map[id := false]];
    assert Known(s3.sessions, ws, id) && !HeldByOther(s3.sessions, ws, id);
    s4 := ApplyRequest(s3, 1, Promote);
    assert Of(s3.sessions, ws)[id := true] == map[id := true];
    assert s4.sessions == map[ws := map[id := true]];
    assert s4.takeovers == map[1 := Takeover((ws, id), Promoting)] && s4.connections == map[(ws, id) := Open];
  }

  lemma TakenOver(s4: State, ws: Workspace, id: SessionId) returns (s7: State)
    requires s4.takeovers == map[1 := Takeover((ws, id), Promoting)] && s4.declared == map[] && s4.arrived == {}
    ensures RequestEnabled(s4, 1, Declare)
    ensures var s5 := ApplyRequest(s4, 1, Declare);
            && SessionEnabled(s5, DeclarationArrives(1))
            && var s6 := ApplySession(s5, DeclarationArrives(1));
               RequestEnabled(s6, 1, Grant) && s7 == ApplyRequest(s6, 1, Grant)
    ensures s7.granted == s4.granted + {(ws, id)} && s7.connections == s4.connections
    ensures s7.inputs == s4.inputs && s7.delivered == s4.delivered
  {
    var s5 := ApplyRequest(s4, 1, Declare);
    s7 := ApplyRequest(ApplySession(s5, DeclarationArrives(1)), 1, Grant);
  }
}
