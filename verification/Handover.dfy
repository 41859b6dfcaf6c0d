/** The gateway's book of browser connections and the supervisor's book of holds: the two halves of
    the single-writer rule, as they are kept in memory. */
module Handover {
  import opened Orders

  type Workspace = string
  type SessionId = string

  /** Workspace name to session id to writable. */
  type Sessions = map<Workspace, map<SessionId, bool>>

  function Of(s: Sessions, ws: Workspace): map<SessionId, bool> {
    if ws in s then s[ws] else map[]
  }

  predicate Known(s: Sessions, ws: Workspace, id: SessionId) {
    id in Of(s, ws)
  }

  predicate Writable(s: Sessions, ws: Workspace, id: SessionId) {
    Known(s, ws, id) && Of(s, ws)[id]
  }

  predicate HeldByOther(s: Sessions, ws: Workspace, id: SessionId) {
    exists other :: other in Of(s, ws) && other != id && Of(s, ws)[other]
  }

  function Attached(s: Sessions, ws: Workspace, id: SessionId): Sessions {
    s[ws := Of(s, ws)[id := false]]
  }

  function Detached(s: Sessions, ws: Workspace, id: SessionId): Sessions {
    var rest := Of(s, ws) - {id};
    if rest == map[] then s - {ws} else s[ws := rest]
  }

  function Promoted(s: Sessions, ws: Workspace, id: SessionId): Sessions {
    if Known(s, ws, id) && !HeldByOther(s, ws, id) then s[ws := Of(s, ws)[id := true]] else s
  }

  function Released(s: Sessions, ws: Workspace, id: SessionId): Sessions {
    if Known(s, ws, id) then s[ws := Of(s, ws)[id := false]] else s
  }

  /** At most one connection per workspace may write. */
  ghost predicate SingleWriter(s: Sessions) {
    forall ws, a, b :: Writable(s, ws, a) && Writable(s, ws, b) ==> a == b
  }

  /** `browserSessions`. */
  class BrowserSessions {
    var byWorkspace: Sessions

    constructor ()
      ensures byWorkspace == map[] && SingleWriter(byWorkspace)
    {
      byWorkspace := map[];
    }

    method Attach(ws: Workspace, id: SessionId) returns (count: nat)
      requires SingleWriter(byWorkspace)
      modifies this
      ensures byWorkspace == Attached(old(byWorkspace), ws, id) && SingleWriter(byWorkspace)
      ensures count == |Of(byWorkspace, ws)|
    {
      if ws !in byWorkspace {
        byWorkspace := byWorkspace[ws := map[]];
      }
      byWorkspace := byWorkspace[ws := byWorkspace[ws][id := false]];
      AttachedKeeps(old(byWorkspace), ws, id);
      count := |byWorkspace[ws]|;
    }

    method Detach(ws: Workspace, id: SessionId) returns (remaining: nat)
      requires SingleWriter(byWorkspace)
      modifies this
      ensures byWorkspace == Detached(old(byWorkspace), ws, id) && SingleWriter(byWorkspace)
      ensures remaining == |Of(byWorkspace, ws)|
    {
      var rest := map[];
      if ws in byWorkspace {
        rest := byWorkspace[ws] - {id};
        byWorkspace := byWorkspace[ws := rest];
      }
      remaining := |rest|;
      if remaining == 0 {
        byWorkspace := byWorkspace - {ws};
      }
      DetachedKeeps(old(byWorkspace), ws, id);
    }

    /** `promote`: a scan for another writable connection, then the flag. */
    method Promote(ws: Workspace, id: SessionId) returns (ok: bool, known: bool)
      requires SingleWriter(byWorkspace)
      modifies this
      ensures byWorkspace == Promoted(old(byWorkspace), ws, id) && SingleWriter(byWorkspace)
      ensures known == Known(old(byWorkspace), ws, id)
      ensures ok <==> known && !HeldByOther(old(byWorkspace), ws, id)
      ensures ok ==> Writable(byWorkspace, ws, id)
    {
      if ws !in byWorkspace || id !in byWorkspace[ws] {
        return false, false;
      }
      var sessions := byWorkspace[ws];
      var rest := sessions.Keys;
      while rest != {}
        invariant rest <= sessions.Keys
        invariant forall other :: other in sessions && other !in rest && other != id ==> !sessions[other]
        decreases rest
      {
        var other :| other in rest;
        if sessions[other] && other != id {
          return false, true;
        }
        rest := rest - {other};
      }
      byWorkspace := byWorkspace[ws := sessions[id := true]];
      PromotedKeeps(old(byWorkspace), ws, id);
      return true, true;
    }

    method Release(ws: Workspace, id: SessionId)
      requires SingleWriter(byWorkspace)
      modifies this
      ensures byWorkspace == Released(old(byWorkspace), ws, id) && SingleWriter(byWorkspace)
      ensures !Writable(byWorkspace, ws, id)
    {
      if ws in byWorkspace && id in byWorkspace[ws] {
        byWorkspace := byWorkspace[ws := byWorkspace[ws][id := false]];
      }
      ReleasedKeeps(old(byWorkspace), ws, id);
    }
  }

  lemma AttachedKeeps(s: Sessions, ws: Workspace, id: SessionId)
    requires SingleWriter(s)
    ensures SingleWriter(Attached(s, ws, id))
    ensures forall v, a :: Known(Attached(s, ws, id), v, a) <==> Known(s, v, a) || (v == ws && a == id)
    ensures forall v, a :: Writable(Attached(s, ws, id), v, a) <==> Writable(s, v, a) && !(v == ws && a == id)
  {
    assert forall v, a :: Writable(Attached(s, ws, id), v, a) ==> Writable(s, v, a);
  }

  lemma DetachedKeeps(s: Sessions, ws: Workspace, id: SessionId)
    requires SingleWriter(s)
    ensures SingleWriter(Detached(s, ws, id))
    ensures forall v, a :: Known(Detached(s, ws, id), v, a) <==> Known(s, v, a) && !(v == ws && a == id)
    ensures forall v, a :: Writable(Detached(s, ws, id), v, a) <==> Writable(s, v, a) && !(v == ws && a == id)
  {
    var rest := Of(s, ws) - {id};
    assert forall a :: a in rest <==> a in Of(s, ws) && a != id;
    if rest == map[] {
      assert forall a :: a !in rest;
    }
    assert forall v, a :: Writable(Detached(s, ws, id), v, a) ==> Writable(s, v, a);
  }

  lemma PromotedKeeps(s: Sessions, ws: Workspace, id: SessionId)
    requires SingleWriter(s)
    ensures SingleWriter(Promoted(s, ws, id))
    ensures forall v, a :: Known(Promoted(s, ws, id), v, a) <==> Known(s, v, a)
    ensures forall v, a :: Writable(Promoted(s, ws, id), v, a) <==>
                             Writable(s, v, a) || (v == ws && a == id && Known(s, ws, id) && !HeldByOther(s, ws, id))
  {
    var t := Promoted(s, ws, id);
    assert forall v, a :: Writable(t, v, a) ==> Writable(s, v, a) || (t != s && v == ws && a == id);
  }

  lemma ReleasedKeeps(s: Sessions, ws: Workspace, id: SessionId)
    requires SingleWriter(s)
    ensures SingleWriter(Released(s, ws, id))
    ensures forall v, a :: Known(Released(s, ws, id), v, a) <==> Known(s, v, a)
    ensures forall v, a :: Writable(Released(s, ws, id), v, a) <==> Writable(s, v, a) && !(v == ws && a == id)
  {
    assert forall v, a :: Writable(Released(s, ws, id), v, a) ==> Writable(s, v, a);
  }

  // ---- the supervisor ----

  datatype Client = Client(id: SessionId, writable: bool)

  /** `firstWritableOther`. */
  method FirstWritableOther(clients: seq<Client>, exclude: SessionId) returns (found: Option<Client>)
    ensures found.None? <==> forall c :: c in clients && c.writable ==> c.id == exclude
    ensures found.Some? ==> exists i :: 0 <= i < |clients| && clients[i] == found.value && found.value.writable && found.value.id != exclude
                                        && forall j :: 0 <= j < i ==> !clients[j].writable || clients[j].id == exclude
  {
    for i := 0 to |clients|
      invariant forall j :: 0 <= j < i ==> !clients[j].writable || clients[j].id == exclude
    {
      if clients[i].writable && clients[i].id != exclude {
        assert clients[i] in clients;
        return Some(clients[i]);
      }
    }
    return None;
  }

  datatype SendOutcome = Delivered | WritableClientPresent(clientId: SessionId) | SessionNotRunning | InputRejected

  /** `Supervisor`, as far as the single-writer rule goes. */
  class Supervisor {
    var held: map<SessionId, nat>
    var attached: seq<Client>
    var running: bool
    var log: seq<(SessionId, string)>

    constructor ()
      ensures held == map[] && log == []
    {
      held, attached, running, log := map[], [], true, [];
    }

    /** Nobody but `from` could be typing: the condition under which its input is let through. */
    ghost predicate MaySend(from: SessionId)
      reads `held, `attached
    {
      (forall c :: c in attached && c.writable ==> c.id == from) && held.Keys <= {from}
    }

    /** From now on until the release, input of anybody else is refused, and that of the holder as
        well as before. */
    method HoldWritable(id: SessionId, now: nat)
      modifies `held
      ensures forall from :: MaySend(from) <==> old(MaySend(from)) && from == id
      ensures held == old(held)[id := now]
    {
      held := held[id := now];
      assert held.Keys == old(held.Keys) + {id};
      assert forall from :: held.Keys <= {from} <==> old(held.Keys) <= {from} && from == id;
    }

    /** Whoever was kept out by this hold alone may send again; releasing what is not held changes
        nothing for anybody. */
    method ReleaseWritable(id: SessionId)
      modifies `held
      ensures forall from :: old(MaySend(from)) ==> MaySend(from)
      ensures forall from :: MaySend(from) && !old(MaySend(from)) ==> id in old(held) && from != id
      ensures old(held.Keys) <= {id} ==> forall from :: MaySend(from) <==> forall c :: c in attached && c.writable ==> c.id == from
      ensures held == old(held) - {id}
    {
      held := held - {id};
      assert held.Keys == old(held.Keys) - {id};
      assert forall from :: held.Keys <= {from} && !(old(held.Keys) <= {from}) ==> id in old(held) && from != id;
    }

    /** `ListClients`: the multiplexer's clients, then the held ones sorted by id. */
    method ListClients(readable: bool) returns (ok: bool, clients: seq<Client>)
      ensures ok == readable
      ensures ok ==> forall c :: c in clients <==> c in attached || (c.writable && c.id in held)
    {
      if !readable {
        return false, [];
      }
      var ids: seq<SessionId> := [];
      var rest := held.Keys;
      while rest != {}
        invariant forall id :: id in held <==> id in rest || id in ids
        invariant rest <= held.Keys
        decreases rest
      {
        var id :| id in rest;
        ids := ids + [id];
        rest := rest - {id};
      }
      var sorted := SortBy(ids, AtMost);
      forall id ensures id in sorted <==> id in ids {
        MemberOfMultiset(id, sorted);
        MemberOfMultiset(id, ids);
      }
      var heldClients := seq(|sorted|, i requires 0 <= i < |sorted| => Client(sorted[i], true));
      forall c ensures c in heldClients <==> c.writable && c.id in held {
        if c.writable && c.id in sorted {
          var i :| 0 <= i < |sorted| && sorted[i] == c.id;
          assert heldClients[i] == c;
        }
      }
      return true, attached + heldClients;
    }

    /** `SendInputFrom`: refused while any other client that may write is listed. */
    method SendInputFrom(from: SessionId, text: string, readable: bool, accepted: bool) returns (r: SendOutcome)
      modifies `log
      ensures r.Delivered? <==> running && readable && accepted && MaySend(from)
      ensures r.SessionNotRunning? <==> !running
      ensures r.WritableClientPresent? <==> running && readable && !MaySend(from)
      ensures r.InputRejected? <==> running && (!readable || (MaySend(from) && !accepted))
      ensures r.WritableClientPresent? ==> r.clientId != from && (r.clientId in held || Client(r.clientId, true) in attached)
      ensures log == if r.Delivered? then old(log) + [(from, text)] else old(log)
    {
      if !running {
        return SessionNotRunning;
      }
      var ok, clients := ListClients(readable);
      if !ok {
        return InputRejected;
      }
      var other := FirstWritableOther(clients, from);
      if other.Some? {
        assert other.value in clients;
        assert other.value == Client(other.value.id, true);
        return WritableClientPresent(other.value.id);
      }
      assert forall id :: id in held ==> Client(id, true) in clients;
      if !accepted {
        return InputRejected;
      }
      log := log + [(from, text)];
      return Delivered;
    }

    /** A session taken over: the holder gets through exactly as it did before, every other sender is
        refused, and after the release everybody is where they were if the id was not held already. */
    method HoldSendRelease(id: SessionId, now: nat, other: SessionId, text: string) returns (mine: SendOutcome, theirs: SendOutcome)
      requires other != id
      modifies `held, `log
      ensures !theirs.Delivered?
      ensures mine.Delivered? <==> running && old(MaySend(id))
      ensures log == if mine.Delivered? then old(log) + [(id, text)] else old(log)
      ensures id !in old(held) ==> forall from :: MaySend(from) <==> old(MaySend(from))
    {
      HoldWritable(id, now);
      theirs := SendInputFrom(other, text, true, true);
      mine := SendInputFrom(id, text, true, true);
      ReleaseWritable(id);
      assert id !in old(held) ==> held.Keys == old(held.Keys);
    }
  }
}
