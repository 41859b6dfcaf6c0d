/** The gateway's users in one Secret: the edits, the sequence of edits that took effect, and the
    sessions that depend on them. */
module UserStore {
  import opened Orders

  const MAX_RETRIES: nat := 5

  datatype Record = Record(hash: string, updatedAt: nat)

  type Users = map<string, Record>

  datatype Op = EnsureUser(user: string, hash: string) | SetPassword(user: string, hash: string)

  datatype Edited = Change(users: Users) | AlreadyThere | UserNotFound

  /** The closures passed to `mutate`, at one reading of the clock. */
  function Edit(op: Op, users: Users, now: nat): Edited {
    match op
    case EnsureUser(u, h) => if u in users then AlreadyThere else Change(users[u := Record(h, now)])
    case SetPassword(u, h) => if u in users then Change(users[u := Record(h, now)]) else UserNotFound
  }

  /** One edit that took effect: who made it, what it was, and the time stamped on the record. */
  datatype Commit = Commit(by_: nat, op: Op, stamp: nat)

  /** The user map a sequence of edits leads to, one after the other. */
  function Replay(log: seq<Commit>): Users {
    if log == [] then map[]
    else
      var c := log[|log| - 1];
      Replay(log[..|log| - 1])[c.op.user := Record(c.op.hash, c.stamp)]
  }

  /** Every edit applied to the map its predecessors left: none creates a user twice, none changes
      one that is not there, and every stamp is later than all stamps it finds. */
  ghost predicate Serial(log: seq<Commit>) {
    forall i :: 0 <= i < |log| ==> Follows(log[i], Replay(log[..i]))
  }

  ghost predicate Follows(c: Commit, users: Users) {
    && Edit(c.op, users, c.stamp).Change?
    && forall u :: u in users ==> users[u].updatedAt < c.stamp
  }

  lemma SerialExtends(log: seq<Commit>, c: Commit)
    requires Serial(log) && Follows(c, Replay(log))
    ensures Serial(log + [c])
    ensures Replay(log + [c]) == Replay(log)[c.op.user := Record(c.op.hash, c.stamp)]
  {
    var more := log + [c];
    assert more[..|more| - 1] == log;
    forall i | 0 <= i < |more| ensures Follows(more[i], Replay(more[..i])) {
      if i < |log| {
        assert more[..i] == log[..i] && more[i] == log[i];
      } else {
        assert more[..i] == log;
      }
    }
  }

  lemma CommitExtends(log: seq<Commit>, users: Users, c: Commit, clock: nat)
    requires users == Replay(log) && Serial(log) && Follows(c, users) && c.stamp < clock
    ensures var users' := users[c.op.user := Record(c.op.hash, c.stamp)];
      && users' == Replay(log + [c]) && Serial(log + [c])
      && ((forall u :: u in users ==> users[u].updatedAt < clock) ==> forall u :: u in users' ==> users'[u].updatedAt < clock)
  {
    SerialExtends(log, c);
  }

  /** Replaying is running the closures: each edit turns the map before it into the map after it. */
  lemma ReplayRunsEdits(log: seq<Commit>, i: nat)
    requires Serial(log) && i < |log|
    ensures Edit(log[i].op, Replay(log[..i]), log[i].stamp) == Change(Replay(log[..i + 1]))
  {
    assert log[..i + 1][..i] == log[..i];
    assert Follows(log[i], Replay(log[..i]));
  }

  lemma SerialPrefix(log: seq<Commit>, n: nat)
    requires Serial(log) && n <= |log|
    ensures Serial(log[..n])
  {
    forall i | 0 <= i < n ensures Follows(log[..n][i], Replay(log[..n][..i])) {
      assert log[..n][i] == log[i] && log[..n][..i] == log[..i];
    }
  }

  /** The record a commit leaves is at least as new in every later map. */
  lemma {:induction false} RecordsOnlyGetNewer(log: seq<Commit>, i: nat)
    requires Serial(log) && i < |log|
    ensures log[i].op.user in Replay(log)
    ensures log[i].stamp <= Replay(log)[log[i].op.user].updatedAt
    decreases |log|
  {
    var last := |log| - 1;
    assert Replay(log) == Replay(log[..last])[log[last].op.user := Record(log[last].op.hash, log[last].stamp)];
    if i < last {
      assert Follows(log[last], Replay(log[..last]));
      SerialPrefix(log, last);
      assert log[..last][i] == log[i];
      RecordsOnlyGetNewer(log[..last], i);
    }
  }

  /** `UpdatedAt` strictly increases from one effective edit of a user to the next. */
  lemma UpdatedAtIncreases(log: seq<Commit>, i: nat, j: nat)
    requires Serial(log) && i < j < |log| && log[i].op.user == log[j].op.user
    ensures log[i].stamp < log[j].stamp
  {
    SerialPrefix(log, j);
    assert log[..j][i] == log[i];
    RecordsOnlyGetNewer(log[..j], i);
    assert Follows(log[j], Replay(log[..j]));
  }

  /** The later of two edits of one user does not create it: at most one `EnsureUser` per user ever
      takes effect, and it is the first edit of that user. */
  lemma LaterEditIsNoCreation(log: seq<Commit>, i: nat, j: nat)
    requires Serial(log) && i < j < |log| && log[j].op.user == log[i].op.user
    ensures log[j].op.SetPassword?
  {
    SerialPrefix(log, j);
    assert log[..j][i] == log[i];
    RecordsOnlyGetNewer(log[..j], i);
    assert Follows(log[j], Replay(log[..j]));
  }

  /** The last edit of a user. */
  ghost predicate Latest(log: seq<Commit>, user: string, i: nat) {
    && i < |log| && log[i].op.user == user
    && forall j :: i < j < |log| ==> log[j].op.user != user
  }

  /** The record on file is the one of the latest edit of that user; a user nobody edited has none. */
  lemma {:induction false} RecordIsLatest(log: seq<Commit>, user: string) returns (i: nat)
    ensures user in Replay(log) ==> Latest(log, user, i) && Replay(log)[user] == Record(log[i].op.hash, log[i].stamp)
    ensures user !in Replay(log) ==> forall j :: 0 <= j < |log| ==> log[j].op.user != user
    decreases |log|
  {
    i := 0;
    if log != [] {
      var last := |log| - 1;
      i := RecordIsLatest(log[..last], user);
      assert forall j :: 0 <= j < last ==> log[..last][j] == log[j];
      if log[last].op.user == user {
        i := last;
      }
    }
  }

  // ---- sessions ----

  /** The claims of a session whose signature checks out; a forged or altered token has none. */
  datatype Session = Session(subject: string, issuedAt: nat, expiresAt: nat)

  datatype Issued = Refused | Token(session: Session)

  /** `Issue`; `keyed` says whether the issuer has a signing key. */
  function Issue(keyed: bool, subject: string, ttl: nat, now: nat): Issued {
    if !keyed || subject == "" then Refused else Token(Session(subject, now, now + ttl))
  }

  /** `Verify` against the users on file at that moment. */
  predicate Accepts(keyed: bool, token: Option<Session>, users: Users, now: nat) {
    && keyed && token.Some?
    && now < token.value.expiresAt
    && token.value.subject != ""
    && token.value.subject in users
    && users[token.value.subject].updatedAt <= token.value.issuedAt
  }

  /** A session of a known user whose record is no newer lasts for its time to live; nothing is
      accepted without a key or for nobody. */
  lemma SessionLastsItsTime(keyed: bool, subject: string, ttl: nat, issued: nat, users: Users, now: nat)
    ensures Issue(keyed, subject, ttl, issued).Token? <==> keyed && subject != ""
    ensures keyed && subject in users && subject != "" && users[subject].updatedAt <= issued ==>
              (Accepts(true, Some(Issue(true, subject, ttl, issued).session), users, now) <==> now < issued + ttl)
    ensures forall t :: Accepts(keyed, t, users, now) ==> keyed && t.Some? && t.value.subject != "" && t.value.subject in users
  {
  }

  /** A session is accepted exactly while it is unexpired, its user exists, and no edit of that user
      carries a stamp later than the moment the session was issued. */
  lemma AcceptedUnlessEditedSince(log: seq<Commit>, s: Session, now: nat)
    requires Serial(log) && s.subject != ""
    ensures Accepts(true, Some(s), Replay(log), now) <==>
              && now < s.expiresAt
              && (exists i :: 0 <= i < |log| && log[i].op.user == s.subject)
              && (forall i :: 0 <= i < |log| && log[i].op.user == s.subject ==> log[i].stamp <= s.issuedAt)
  {
    var i := RecordIsLatest(log, s.subject);
    if s.subject in Replay(log) {
      forall j | 0 <= j < |log| && log[j].op.user == s.subject ensures log[j].stamp <= log[i].stamp {
        if j < i {
          UpdatedAtIncreases(log, j, i);
        }
      }
    }
  }
}
