/** Gateway replicas editing the user Secret: any number of calls of `mutate`, each a loop of
    read, edit and conditional write, interleaved call by call with one another, with logins and
    with the clock. A write may take effect although its answer is lost. */
module UserProtocol {
  import opened Orders
  import opened UserStore

  datatype Blob = Blob(users: Users, version: nat)

  /** How a call of `mutate` ended. The caller sees `Broken` and `Lost` as the same error. */
  datatype Outcome = Wrote | Existed | NoSuchUser | Conflicted | Broken | Lost

  datatype Stage =
    | Reading
    | Read(base: Option<nat>, users: Users)
    | Staged(base: Option<nat>, users: Users, stamp: nat)
    | Ended(outcome: Outcome)

  /** One call; `began` is the clock when it was made, `attempt` the conflicts so far. */
  datatype Call = Call(op: Op, began: nat, attempt: nat, stage: Stage)

  /** The Secret with its version, the versions given out so far, the clock, the calls made, the
      sessions issued, and the edits that took effect. */
  datatype State = State(
    secret: Option<Blob>, versions: nat, clock: nat,
    calls: map<nat, Call>, sessions: set<Session>, log: seq<Commit>)

  const START: State := State(None, 0, 0, map[], {}, [])

  function Stored(s: State): Users {
    if s.secret.Some? then s.secret.value.users else map[]
  }

  function VersionOf(s: State): Option<nat> {
    if s.secret.Some? then Some(s.secret.value.version) else None
  }

  /** What one call can do next. */
  datatype Move = Begin(op: Op) | Get | Decide | Put(answered: bool) | Break

  datatype Action = ByCall(id: nat, move: Move) | Login(subject: string, ttl: nat) | Tick

  predicate MoveEnabled(s: State, id: nat, move: Move) {
    match move
    case Begin(_) => id !in s.calls
    case Get => id in s.calls && s.calls[id].stage.Reading?
    case Decide => id in s.calls && s.calls[id].stage.Read?
    case Put(_) => id in s.calls && s.calls[id].stage.Staged?
    case Break => id in s.calls && !s.calls[id].stage.Ended?
  }

  function To(s: State, id: nat, stage: Stage): State
    requires id in s.calls
  {
    s.(calls := s.calls[id := s.calls[id].(stage := stage)])
  }

  /** The closure, on the map that was read; a change is stamped with the clock. */
  function Decided(s: State, id: nat): State
    requires MoveEnabled(s, id, Decide)
  {
    var c := s.calls[id];
    match Edit(c.op, c.stage.users, s.clock)
    case AlreadyThere => To(s, id, Ended(Existed))
    case UserNotFound => To(s, id, Ended(NoSuchUser))
    case Change(_) => To(s, id, Staged(c.stage.base, c.stage.users, s.clock)).(clock := s.clock + 1)
  }

  /** The write takes effect. */
  function Committed(s: State, id: nat, answered: bool): State
    requires MoveEnabled(s, id, Put(answered))
  {
    var c := s.calls[id];
    To(s, id, Ended(if answered then Wrote else Lost)).(
      secret := Some(Blob(c.stage.users[c.op.user := Record(c.op.hash, c.stage.stamp)], s.versions)),
      versions := s.versions + 1,
      log := s.log + [Commit(id, c.op, c.stage.stamp)])
  }

  /** The call after a conflict: another attempt from a fresh read, at most five in all. */
  function Retried(c: Call): Call {
    Call(c.op, c.began, c.attempt + 1, if c.attempt + 1 < MAX_RETRIES then Reading else Ended(Conflicted))
  }

  /** Create succeeds where there is no Secret, Update where the version is the one that was read. */
  function Written(s: State, id: nat, answered: bool): State
    requires MoveEnabled(s, id, Put(answered))
  {
    if s.calls[id].stage.base == VersionOf(s) then Committed(s, id, answered)
    else s.(calls := s.calls[id := Retried(s.calls[id])])
  }

  function Moved(s: State, id: nat, move: Move): State
    requires MoveEnabled(s, id, move)
  {
    match move
    case Begin(op) => s.(calls := s.calls[id := Call(op, s.clock, 0, Reading)])
    case Get => To(s, id, Read(VersionOf(s), Stored(s)))
    case Decide => Decided(s, id)
    case Put(answered) => Written(s, id, answered)
    case Break => To(s, id, Ended(Broken))
  }

  predicate Enabled(s: State, a: Action) {
    match a
    case ByCall(id, move) => MoveEnabled(s, id, move)
    case Login(subject, _) => subject != ""
    case Tick => true
  }

  function Apply(s: State, a: Action): State
    requires Enabled(s, a)
  {
    match a
    case ByCall(id, move) => Moved(s, id, move)
    case Login(subject, ttl) =>
      s.(sessions := s.sessions + {Issue(true, subject, ttl, s.clock).session}, clock := s.clock + 1)
    case Tick => s.(clock := s.clock + 1)
  }

  // ---- the invariant ----

  /** The stored map is what the effective edits lead to, one after the other. */
  ghost predicate StoreInv(s: State) {
    && Stored(s) == Replay(s.log)
    && Serial(s.log)
    && (s.secret.Some? ==> s.secret.value.version < s.versions)
    && (forall u :: u in Stored(s) ==> Stored(s)[u].updatedAt < s.clock)
    && (forall x :: x in s.sessions ==> x.issuedAt < s.clock)
  }

  /** What a call in flight knows stays true while the version it read is current. */
  ghost predicate CallInv(s: State, c: Call) {
    && c.began <= s.clock
    && (if c.stage.Ended? then c.attempt <= 5 else c.attempt < 5)
    && (c.stage == Ended(Conflicted) <==> c.attempt == 5)
    && (c.stage.Read? ==> Snapshot(s, c.stage.base, c.stage.users))
    && (c.stage.Staged? ==>
          && Snapshot(s, c.stage.base, c.stage.users)
          && Follows(Commit(0, c.op, c.stage.stamp), c.stage.users)
          && c.began <= c.stage.stamp < s.clock)
  }

  ghost predicate Snapshot(s: State, base: Option<nat>, users: Users) {
    && (base.Some? ==> base.value < s.versions)
    && (forall u :: u in users ==> users[u].updatedAt < s.clock)
    && (base == VersionOf(s) ==> users == Stored(s))
  }

  ghost predicate CallsInv(s: State) {
    forall id :: id in s.calls ==> CallInv(s, s.calls[id])
  }

  /** Calls and effective edits match: a call that ended `Wrote` or `Lost` made exactly one edit,
      with its own operation and a stamp from after it began; every other call made none. */
  predicate Effective(stage: Stage) {
    stage == Ended(Wrote) || stage == Ended(Lost)
  }

  ghost predicate LogInv(s: State) {
    && (forall i :: 0 <= i < |s.log| ==>
          && s.log[i].by_ in s.calls && Effective(s.calls[s.log[i].by_].stage)
          && s.log[i].op == s.calls[s.log[i].by_].op
          && s.calls[s.log[i].by_].began <= s.log[i].stamp)
    && (forall i, j :: 0 <= i < j < |s.log| ==> s.log[i].by_ != s.log[j].by_)
    && (forall id :: id in s.calls && Effective(s.calls[id].stage) ==> Recorded(s, id))
  }

  ghost predicate Recorded(s: State, id: nat) {
    exists i :: 0 <= i < |s.log| && s.log[i].by_ == id
  }

  /** What a call says of the user is true, and stays so: users are never removed. */
  ghost predicate Reports(s: State, c: Call) {
    && (c.stage == Ended(Existed) ==> c.op.EnsureUser? && c.op.user in Stored(s))
    && (c.stage == Ended(NoSuchUser) ==> c.op.SetPassword?)
    && (c.stage.Read? ==> forall u :: u in c.stage.users ==> u in Stored(s))
  }

  ghost predicate ReportInv(s: State) {
    forall id :: id in s.calls ==> Reports(s, s.calls[id])
  }

  ghost predicate Inv(s: State) {
    StoreInv(s) && CallsInv(s) && LogInv(s) && ReportInv(s)
  }

  // ---- every step keeps it ----

  lemma CallKept(s: State, t: State, c: Call)
    requires CallInv(s, c)
    requires t.secret == s.secret && t.versions == s.versions && t.clock >= s.clock
    ensures CallInv(t, c)
  {
  }

  /** A step that leaves the Secret alone and ends no call with an effect. */
  ghost predicate Quiet(s: State, t: State, id: nat, c: Call) {
    && t == s.(calls := s.calls[id := c], clock := t.clock) && t.clock >= s.clock
    && (id in s.calls ==> !Effective(s.calls[id].stage) && c.began == s.calls[id].began && c.op == s.calls[id].op)
    && !Effective(c.stage)
  }

  lemma QuietKeepsLog(s: State, t: State, id: nat, c: Call)
    requires LogInv(s) && Quiet(s, t, id, c)
    ensures LogInv(t)
  {
    forall k | k in t.calls && Effective(t.calls[k].stage) ensures Recorded(t, k) {
      assert k != id && Recorded(s, k);
    }
  }

  lemma QuietKeepsCalls(s: State, t: State, id: nat, c: Call)
    requires StoreInv(s) && CallsInv(s) && Quiet(s, t, id, c) && CallInv(t, c)
    ensures StoreInv(t) && CallsInv(t)
  {
    forall k | k in t.calls ensures CallInv(t, t.calls[k]) {
      if k != id {
        CallKept(s, t, s.calls[k]);
      }
    }
  }

  lemma QuietKeeps(s: State, t: State, id: nat, c: Call)
    requires Inv(s) && Quiet(s, t, id, c) && CallInv(t, c) && Reports(s, c)
    ensures Inv(t)
  {
    QuietKeepsLog(s, t, id, c);
    QuietKeepsCalls(s, t, id, c);
    assert ReportInv(t);
  }

  lemma BeginKeeps(s: State, id: nat, op: Op)
    requires Inv(s) && id !in s.calls
    ensures Inv(Moved(s, id, Begin(op)))
  {
    QuietKeeps(s, Moved(s, id, Begin(op)), id, Call(op, s.clock, 0, Reading));
  }

  lemma BreakKeeps(s: State, id: nat)
    requires Inv(s) && MoveEnabled(s, id, Break)
    ensures Inv(Moved(s, id, Break))
  {
    var c := s.calls[id];
    assert CallInv(s, c);
    QuietKeeps(s, Moved(s, id, Break), id, c.(stage := Ended(Broken)));
  }

  lemma GetKeeps(s: State, id: nat)
    requires Inv(s) && MoveEnabled(s, id, Get)
    ensures Inv(Moved(s, id, Get))
  {
    var c := s.calls[id];
    assert CallInv(s, c);
    QuietKeeps(s, Moved(s, id, Get), id, c.(stage := Read(VersionOf(s), Stored(s))));
  }

  lemma DecideKeeps(s: State, id: nat)
    requires Inv(s) && MoveEnabled(s, id, Decide)
    ensures Inv(Decided(s, id))
  {
    var t := Decided(s, id);
    var c := s.calls[id];
    assert CallInv(s, c) && Reports(s, c);
    if Edit(c.op, c.stage.users, s.clock).Change? {
      var c' := c.(stage := Staged(c.stage.base, c.stage.users, s.clock));
      assert Follows(Commit(0, c.op, s.clock), c.stage.users);
      QuietKeeps(s, t, id, c');
    } else {
      QuietKeeps(s, t, id, t.calls[id]);
    }
  }

  lemma ConflictKeeps(s: State, id: nat)
    requires Inv(s) && MoveEnabled(s, id, Put(true))
    ensures Inv(s.(calls := s.calls[id := Retried(s.calls[id])]))
  {
    assert CallInv(s, s.calls[id]);
    QuietKeeps(s, s.(calls := s.calls[id := Retried(s.calls[id])]), id, Retried(s.calls[id]));
  }

  /** The write that takes effect finds the map it was computed from. */
  lemma CommitStore(s: State, id: nat, answered: bool)
    requires StoreInv(s) && MoveEnabled(s, id, Put(answered)) && s.calls[id].stage.base == VersionOf(s)
    requires CallInv(s, s.calls[id])
    ensures StoreInv(Committed(s, id, answered))
  {
    var c := s.calls[id];
    assert c.stage.users == Stored(s);
    CommitExtends(s.log, c.stage.users, Commit(id, c.op, c.stage.stamp), s.clock);
  }

  /** Afterwards no other call in flight holds the current version. */
  lemma CommitCalls(s: State, id: nat, answered: bool)
    requires StoreInv(s) && CallsInv(s) && MoveEnabled(s, id, Put(answered)) && s.calls[id].stage.base == VersionOf(s)
    ensures CallsInv(Committed(s, id, answered))
  {
    var t := Committed(s, id, answered);
    forall k | k in t.calls ensures CallInv(t, t.calls[k]) {
      assert CallInv(s, s.calls[k]);
      if k != id && s.calls[k].stage.Read? {
        StaleAfterCommit(s, t, s.calls[k].stage.base, s.calls[k].stage.users);
      } else if k != id && s.calls[k].stage.Staged? {
        StaleAfterCommit(s, t, s.calls[k].stage.base, s.calls[k].stage.users);
      }
    }
  }

  lemma StaleAfterCommit(s: State, t: State, base: Option<nat>, users: Users)
    requires Snapshot(s, base, users) && VersionOf(t) == Some(s.versions) && t.versions == s.versions + 1 && t.clock == s.clock
    ensures Snapshot(t, base, users)
  {
  }

  lemma CommitLog(s: State, id: nat, answered: bool)
    requires CallsInv(s) && LogInv(s) && MoveEnabled(s, id, Put(answered)) && s.calls[id].stage.base == VersionOf(s)
    ensures LogInv(Committed(s, id, answered))
  {
    var t := Committed(s, id, answered);
    assert CallInv(s, s.calls[id]);
    var n := |s.log|;
    assert t.log[n].by_ == id && forall i :: 0 <= i < n ==> t.log[i] == s.log[i];
    forall k | k in t.calls && Effective(t.calls[k].stage) ensures Recorded(t, k) {
      if k != id {
        assert Recorded(s, k);
        var i :| 0 <= i < n && s.log[i].by_ == k;
        assert t.log[i].by_ == k;
      }
    }
  }

  lemma CommitKeeps(s: State, id: nat, answered: bool)
    requires Inv(s) && MoveEnabled(s, id, Put(answered)) && s.calls[id].stage.base == VersionOf(s)
    ensures Inv(Committed(s, id, answered))
  {
    assert CallInv(s, s.calls[id]);
    CommitStore(s, id, answered);
    CommitCalls(s, id, answered);
    CommitLog(s, id, answered);
  }

  lemma ClockKeeps(s: State, a: Action)
    requires Inv(s) && Enabled(s, a) && !a.ByCall?
    ensures Inv(Apply(s, a))
  {
    var t := Apply(s, a);
    forall k | k in t.calls ensures CallInv(t, t.calls[k]) {
      CallKept(s, t, s.calls[k]);
    }
    forall k | k in t.calls && Effective(t.calls[k].stage) ensures Recorded(t, k) {
      assert Recorded(s, k);
    }
  }

  lemma StepKeeps(s: State, a: Action)
    requires Inv(s) && Enabled(s, a)
    ensures Inv(Apply(s, a))
  {
    match a
    case ByCall(id, Put(answered)) =>
      if s.calls[id].stage.base == VersionOf(s) {
        CommitKeeps(s, id, answered);
      } else {
        ConflictKeeps(s, id);
      }
    case ByCall(id, Begin(op)) => BeginKeeps(s, id, op);
    case ByCall(id, Get) => GetKeeps(s, id);
    case ByCall(id, Decide) => DecideKeeps(s, id);
    case ByCall(id, Break) => BreakKeeps(s, id);
    case _ => ClockKeeps(s, a);
  }

  // ---- runs ----

  ghost predicate IsRun(states: seq<State>, actions: seq<Action>) {
    && |states| == |actions| + 1 && states[0] == START
    && forall i :: 0 <= i < |actions| ==> Enabled(states[i], actions[i]) && states[i + 1] == Apply(states[i], actions[i])
  }

  lemma {:induction false} RunKeeps(states: seq<State>, actions: seq<Action>, i: nat)
    requires IsRun(states, actions) && i < |states|
    ensures Inv(states[i])
  {
    if i > 0 {
      RunKeeps(states, actions, i - 1);
      StepKeeps(states[i - 1], actions[i - 1]);
    }
  }

  /** What no step undoes: calls keep their identity and their end, edits and sessions stay. */
  ghost predicate Onward(s: State, t: State) {
    && s.log <= t.log && s.sessions <= t.sessions && s.clock <= t.clock
    && forall id :: id in s.calls ==>
         && id in t.calls && t.calls[id].op == s.calls[id].op && t.calls[id].began == s.calls[id].began
         && (s.calls[id].stage.Ended? ==> t.calls[id] == s.calls[id])
  }

  lemma OnwardComposes(s: State, t: State, u: State)
    requires Onward(s, t) && Onward(t, u)
    ensures Onward(s, u)
  {
  }

  lemma MovesGoOn(s: State, id: nat, move: Move)
    requires MoveEnabled(s, id, move)
    ensures Onward(s, Moved(s, id, move))
  {
  }

  lemma {:induction false} RunsGoOn(states: seq<State>, actions: seq<Action>, i: nat, j: nat)
    requires IsRun(states, actions) && i <= j < |states|
    ensures Onward(states[i], states[j])
    decreases j
  {
    if i < j {
      RunsGoOn(states, actions, i, j - 1);
      if actions[j - 1].ByCall? {
        MovesGoOn(states[j - 1], actions[j - 1].id, actions[j - 1].move);
      }
      OnwardComposes(states[i], states[j - 1], states[j]);
    }
  }

  /** No lost update: at every moment of every run the stored users are the effective edits applied
      one after another in commit order, each a legal edit of the map before it; edits are only
      ever added, and the calls that took effect are exactly the ones in the log, once each. */
  lemma NoLostUpdate(states: seq<State>, actions: seq<Action>, i: nat, j: nat)
    requires IsRun(states, actions) && i <= j < |states|
    ensures Stored(states[j]) == Replay(states[j].log) && Serial(states[j].log)
    ensures states[i].log <= states[j].log
    ensures forall id :: id in states[j].calls ==>
              (Effective(states[j].calls[id].stage) <==> Recorded(states[j], id))
    ensures forall m, n :: 0 <= m < n < |states[j].log| ==> states[j].log[m].by_ != states[j].log[n].by_
  {
    RunKeeps(states, actions, j);
    RunsGoOn(states, actions, i, j);
  }

  lemma EntryOf(s: State, id: nat) returns (i: nat)
    requires Inv(s) && id in s.calls && Effective(s.calls[id].stage)
    ensures i < |s.log| && s.log[i].by_ == id && s.log[i].op == s.calls[id].op && s.calls[id].began <= s.log[i].stamp
  {
    assert Recorded(s, id);
    i :| 0 <= i < |s.log| && s.log[i].by_ == id;
  }

  /** Among all `EnsureUser` calls for one user, at most one takes effect; so at most one reports
      that the user did not exist before. Whoever reports that it did exist is right. */
  lemma OneCreator(states: seq<State>, actions: seq<Action>, n: nat, a: nat, b: nat)
    requires IsRun(states, actions) && n < |states|
    requires a in states[n].calls && b in states[n].calls
    requires states[n].calls[a].op.EnsureUser? && states[n].calls[b].op.EnsureUser?
    requires states[n].calls[a].op.user == states[n].calls[b].op.user
    ensures Effective(states[n].calls[a].stage) && Effective(states[n].calls[b].stage) ==> a == b
    ensures states[n].calls[a].stage == Ended(Existed) || states[n].calls[a].stage == Ended(Wrote) ==>
              states[n].calls[a].op.user in Stored(states[n])
  {
    RunKeeps(states, actions, n);
    var s := states[n];
    if Effective(s.calls[a].stage) {
      var i := EntryOf(s, a);
      RecordsOnlyGetNewer(s.log, i);
      if Effective(s.calls[b].stage) {
        var j := EntryOf(s, b);
        if i < j {
          LaterEditIsNoCreation(s.log, i, j);
        } else if j < i {
          LaterEditIsNoCreation(s.log, j, i);
        }
      }
    }
  }

  lemma MoveAndRecord(s: State, id: nat, move: Move, user: string)
    requires MoveEnabled(s, id, move) && user in Stored(s)
    requires move.Put? ==> CallInv(s, s.calls[id])
    ensures var t := Moved(s, id, move);
      && user in Stored(t)
      && (Stored(t)[user] != Stored(s)[user] ==>
            && move.Put? && s.calls[id].op.SetPassword? && s.calls[id].op.user == user
            && Stored(s)[user].updatedAt < Stored(t)[user].updatedAt)
  {
  }

  /** A step changes a record only by committing an edit of that very user; an `EnsureUser` never
      changes a record that is there. */
  lemma OnlyCommitsChangeRecords(states: seq<State>, actions: seq<Action>, i: nat, user: string)
    requires IsRun(states, actions) && i < |actions| && user in Stored(states[i])
    ensures user in Stored(states[i + 1])
    ensures Stored(states[i + 1])[user] != Stored(states[i])[user] ==>
              && actions[i].ByCall? && actions[i].move.Put?
              && states[i].calls[actions[i].id].op.SetPassword?
              && states[i].calls[actions[i].id].op.user == user
              && Stored(states[i])[user].updatedAt < Stored(states[i + 1])[user].updatedAt
  {
    RunKeeps(states, actions, i);
    var s, a := states[i], actions[i];
    if a.ByCall? {
      assert a.move.Put? ==> CallInv(s, s.calls[a.id]);
      MoveAndRecord(s, a.id, a.move, user);
    }
  }

  /** A session issued before a `SetPassword` for its user began is rejected from the moment that
      call has returned, whatever else happens in between and afterwards. */
  lemma PasswordChangeEndsSessions(states: seq<State>, actions: seq<Action>, i: nat, j: nat, id: nat, x: Session, now: nat)
    requires IsRun(states, actions) && i < j < |states|
    requires x in states[i].sessions
    requires actions[i].ByCall? && actions[i].id == id && actions[i].move.Begin?
    requires actions[i].move.op.SetPassword? && actions[i].move.op.user == x.subject
    requires id in states[j].calls && states[j].calls[id].stage == Ended(Wrote)
    ensures !Accepts(true, Some(x), Stored(states[j]), now)
  {
    RunKeeps(states, actions, i);
    RunKeeps(states, actions, j);
    RunsGoOn(states, actions, i + 1, j);
    var k := EntryOf(states[j], id);
    RecordsOnlyGetNewer(states[j].log, k);
  }

  /** The promise does not reach logins during the change: one that falls between the moment the new
      record is stamped and the moment it is written yields a session that outlives the change. */
  lemma LoginDuringChangeSurvives(s: State, id: nat, ttl: nat, now: nat)
    requires Inv(s) && MoveEnabled(s, id, Put(true)) && s.calls[id].stage.base == VersionOf(s)
    requires s.calls[id].op.user != "" && now < s.clock + ttl
    ensures var x := Session(s.calls[id].op.user, s.clock, s.clock + ttl);
      var t := Written(Apply(s, Login(x.subject, ttl)), id, true);
      x in t.sessions && t.calls[id].stage == Ended(Wrote) && Accepts(true, Some(x), Stored(t), now)
  {
    assert CallInv(s, s.calls[id]);
  }

  /** Such a moment is reached. */
  lemma PasswordChangeInProgress(user: string, first: string, second: string) returns (states: seq<State>, actions: seq<Action>)
    ensures IsRun(states, actions)
    ensures var s := states[|actions|];
      MoveEnabled(s, 1, Put(true)) && s.calls[1].stage.base == VersionOf(s) && s.calls[1].op == SetPassword(user, second)
  {
    states, actions := [START], [];
    states, actions := Extend(states, actions, ByCall(0, Begin(EnsureUser(user, first))));
    states, actions := Extend(states, actions, ByCall(0, Get));
    states, actions := Extend(states, actions, ByCall(0, Decide));
    states, actions := Extend(states, actions, ByCall(0, Put(true)));
    states, actions := Extend(states, actions, ByCall(1, Begin(SetPassword(user, second))));
    states, actions := Extend(states, actions, ByCall(1, Get));
    states, actions := Extend(states, actions, ByCall(1, Decide));
  }

  lemma Extend(states: seq<State>, actions: seq<Action>, a: Action) returns (states': seq<State>, actions': seq<Action>)
    requires IsRun(states, actions) && Enabled(states[|actions|], a)
    ensures IsRun(states', actions') && actions' == actions + [a]
    ensures states' == states + [Apply(states[|actions|], a)]
  {
    states' := states + [Apply(states[|actions|], a)];
    actions' := actions + [a];
    forall i | 0 <= i < |actions'|
      ensures Enabled(states'[i], actions'[i]) && states'[i + 1] == Apply(states'[i], actions'[i])
    {
      if i < |actions| {
        assert states'[i] == states[i] && states'[i + 1] == states[i + 1];
      }
    }
  }
}
