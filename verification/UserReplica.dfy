/** The calls of one gateway replica, each of whose requests to the store is one action of the
    protocol, with arbitrary actions of everybody else in between. */
module UserReplica {
  import opened Orders
  import opened UserStore
  import opened UserProtocol

  class Replica {
    var s: State
    ghost var states: seq<State>
    ghost var actions: seq<Action>

    ghost predicate Valid()
      reads this
    {
      IsRun(states, actions) && states[|actions|] == s
    }

    constructor ()
      ensures Valid() && s == START
    {
      s, states, actions := START, [START], [];
    }

    /** One action takes place. */
    method Do(a: Action)
      requires Valid() && Enabled(s, a)
      modifies this
      ensures Valid() && s == Apply(old(s), a)
      ensures old(states) <= states
    {
      ghost var states', actions' := Extend(states, actions, a);
      s, states, actions := Apply(s, a), states', actions';
    }

    /** Anything the others do; `id` is a call of this replica. */
    method Others(id: nat)
      requires Valid()
      modifies this
      ensures Valid() && old(states) <= states
      ensures id in s.calls <==> id in old(s.calls)
      ensures id in s.calls ==> s.calls[id] == old(s.calls[id])
    {
      var rounds: int := *;
      while rounds > 0
        invariant Valid() && old(states) <= states
        invariant id in s.calls <==> id in old(s.calls)
        invariant id in s.calls ==> s.calls[id] == old(s.calls[id])
      {
        var a: Action := *;
        if Enabled(s, a) && !(a.ByCall? && a.id == id) {
          Do(a);
        }
        rounds := rounds - 1;
      }
    }

    ghost predicate Mine(id: nat, op: Op, began: nat, attempt: nat, stage: Stage)
      reads this
    {
      Valid() && id in s.calls && s.calls[id] == Call(op, began, attempt, stage)
    }

    /** `read`: the users and the version they were read at, or an error. */
    method ReadUsers(id: nat, op: Op, ghost began: nat, attempt: nat) returns (ok: bool, users: Users, base: Option<nat>)
      requires Mine(id, op, began, attempt, Reading)
      modifies this
      ensures old(states) <= states
      ensures Mine(id, op, began, attempt, if ok then Read(base, users) else Ended(Broken))
    {
      Others(id);
      users, base := Stored(s), VersionOf(s);
      ok := *;
      if ok {
        Do(ByCall(id, Get));
      } else {
        Do(ByCall(id, Break));
      }
    }

    /** The closure: whether it changes the map, and if not how the call ends. */
    method RunEdit(id: nat, op: Op, ghost began: nat, attempt: nat, users: Users, base: Option<nat>)
      returns (changed: bool, stamp: nat, outcome: Outcome)
      requires Mine(id, op, began, attempt, Read(base, users))
      modifies this
      ensures old(states) <= states
      ensures changed == Edit(op, users, stamp).Change?
      ensures changed <==> (if op.EnsureUser? then op.user !in users else op.user in users)
      ensures !changed ==> outcome == if op.EnsureUser? then Existed else NoSuchUser
      ensures Mine(id, op, began, attempt, if changed then Staged(base, users, stamp) else Ended(outcome))
    {
      Others(id);
      stamp := s.clock;
      changed := (op.user in users) == op.SetPassword?;
      outcome := if op.EnsureUser? then Existed else NoSuchUser;
      Do(ByCall(id, Decide));
    }

    /** Create or Update: `None` asks for another attempt. */
    method WriteUsers(id: nat, op: Op, ghost began: nat, attempt: nat, users: Users, base: Option<nat>, stamp: nat)
      returns (outcome: Option<Outcome>)
      requires Mine(id, op, began, attempt, Staged(base, users, stamp)) && attempt < MAX_RETRIES
      modifies this
      ensures old(states) <= states
      ensures outcome.Some? ==> outcome.value in {Wrote, Lost, Broken} && Mine(id, op, began, attempt, Ended(outcome.value))
      ensures outcome.None? ==>
                Mine(id, op, began, attempt + 1, if attempt + 1 < MAX_RETRIES then Reading else Ended(Conflicted))
    {
      Others(id);
      var reached: bool, answered: bool := *, *;
      if !reached {
        Do(ByCall(id, Break));
        return Some(Broken);
      }
      var applies := base == VersionOf(s);
      Do(ByCall(id, Put(answered)));
      outcome := if applies then Some(if answered then Wrote else Lost) else None;
    }

    /** `mutate`: at most five attempts, each from a fresh read. */
    method Mutate(id: nat, op: Op) returns (outcome: Outcome)
      requires Valid() && id !in s.calls
      modifies this
      ensures Valid() && old(states) <= states
      ensures id in s.calls && s.calls[id].op == op && s.calls[id].began == old(s.clock) && s.calls[id].stage == Ended(outcome)
      ensures outcome == Existed ==> op.EnsureUser?
      ensures outcome == NoSuchUser ==> op.SetPassword?
    {
      ghost var began := s.clock;
      Do(ByCall(id, Begin(op)));
      var attempt := 0;
      while attempt < MAX_RETRIES
        invariant attempt <= MAX_RETRIES && old(states) <= states
        invariant Mine(id, op, began, attempt, if attempt < MAX_RETRIES then Reading else Ended(Conflicted))
      {
        var ok, users, base := ReadUsers(id, op, began, attempt);
        if !ok {
          return Broken;
        }
        var changed, stamp, ended := RunEdit(id, op, began, attempt, users, base);
        if !changed {
          return ended;
        }
        var written := WriteUsers(id, op, began, attempt, users, base, stamp);
        if written.Some? {
          return written.value;
        }
        attempt := attempt + 1;
      }
      return Conflicted;
    }

    /** The one edit a call made, if it made any. */
    ghost predicate MadeEdit(id: nat, op: Op, since: nat)
      reads this
    {
      exists i :: 0 <= i < |s.log| && s.log[i].by_ == id && s.log[i].op == op && since <= s.log[i].stamp
    }

    /** Creates the user unless there is one. An answer `existed == false` without error means this
        very call created it; `existed == true` means it changed nothing. */
    method CreateUser(id: nat, user: string, hash: string) returns (existed: bool, failed: bool)
      requires Valid() && id !in s.calls
      modifies this
      ensures Valid() && old(states) <= states
      ensures id in s.calls && s.calls[id].op == EnsureUser(user, hash) && s.calls[id].stage.Ended?
      ensures existed <==> s.calls[id].stage.outcome == Existed
      ensures failed <==> s.calls[id].stage.outcome in {Conflicted, Broken, Lost}
      ensures !failed && !existed <==> s.calls[id].stage.outcome == Wrote
      ensures Recorded(s, id) <==> s.calls[id].stage.outcome in {Wrote, Lost}
      ensures !failed ==> user in Stored(s)
      ensures !failed && !existed ==> MadeEdit(id, EnsureUser(user, hash), old(s.clock))
      ensures existed ==> !Recorded(s, id)
    {
      var op := EnsureUser(user, hash);
      var outcome := Mutate(id, op);
      existed := outcome == Existed;
      failed := outcome != Existed && outcome != Wrote;
      RunKeeps(states, actions, |actions|);
      if outcome == Wrote {
        ghost var i := EntryOf(s, id);
        RecordsOnlyGetNewer(s.log, i);
      }
      assert Reports(s, s.calls[id]);
    }

    /** Replaces the password; once it has returned, no session issued before the call is accepted. */
    method ChangePassword(id: nat, user: string, hash: string) returns (found: bool, failed: bool)
      requires Valid() && id !in s.calls
      modifies this
      ensures Valid() && old(states) <= states
      ensures id in s.calls && s.calls[id].op == SetPassword(user, hash) && s.calls[id].stage.Ended?
      ensures !found <==> s.calls[id].stage.outcome == NoSuchUser
      ensures !failed <==> s.calls[id].stage.outcome == Wrote
      ensures Recorded(s, id) <==> s.calls[id].stage.outcome in {Wrote, Lost}
      ensures !found ==> failed && !Recorded(s, id)
      ensures !failed ==> MadeEdit(id, SetPassword(user, hash), old(s.clock))
      ensures !failed ==> forall x, now :: x in old(s.sessions) && x.subject == user ==> !Accepts(true, Some(x), Stored(s), now)
    {
      ghost var before := s;
      RunKeeps(states, actions, |actions|);
      var op := SetPassword(user, hash);
      var outcome := Mutate(id, op);
      found := outcome != NoSuchUser;
      failed := outcome != Wrote;
      RunKeeps(states, actions, |actions|);
      if outcome == Wrote {
        ghost var i := EntryOf(s, id);
        RecordsOnlyGetNewer(s.log, i);
      }
    }
  }
}
