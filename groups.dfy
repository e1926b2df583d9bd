/** The bridge's notion of a group, read straight off the configured room
    lists: a server's list decides which rooms are tracked (main.go:153-162),
    the rooms of every server that share a name are the group (main.go:180-188,
    227-233), and a departure filters one id out of one list (main.go:288-294).
    `cfg[s]` below is the `Rooms` list of server number `s`. */
module Groups {
  import opened Types

  /** The source's lookup of the event's room: the first entry with that id,
      or the zero room when there is none. */
  function FirstWithId(rooms: seq<NamedRoom>, id: RoomId): NamedRoom
  {
    if rooms == [] then NoRoom
    else if rooms[0].room == id then rooms[0]
    else FirstWithId(rooms[1..], id)
  }

  /** An event's room is tracked on a server when some configured entry has
      its id; an empty id never counts, since the zero room has it too. */
  predicate Tracked(rooms: seq<NamedRoom>, id: RoomId) {
    id != "" && exists j :: 0 <= j < |rooms| && rooms[j].room == id
  }

  /** The lookup finds the first entry with the id when there is one, and
      the zero room otherwise; so its id is empty exactly when the room is
      not tracked. */
  lemma {:induction false} FirstWithIdFinds(rooms: seq<NamedRoom>, id: RoomId)
    ensures (exists j :: 0 <= j < |rooms| && rooms[j].room == id) ==>
              exists j :: 0 <= j < |rooms| && rooms[j] == FirstWithId(rooms, id)
                          && rooms[j].room == id
                          && forall k :: 0 <= k < j ==> rooms[k].room != id
    ensures (forall j :: 0 <= j < |rooms| ==> rooms[j].room != id) ==> FirstWithId(rooms, id) == NoRoom
    ensures FirstWithId(rooms, id).room == "" <==> !Tracked(rooms, id)
  {
    if rooms != [] && rooms[0].room != id {
      FirstWithIdFinds(rooms[1..], id);
      if exists j :: 0 <= j < |rooms| && rooms[j].room == id {
        var j :| 0 <= j < |rooms| && rooms[j].room == id;
        assert rooms[1..][j - 1].room == id;
        var j' :| 0 <= j' < |rooms[1..]| && rooms[1..][j'] == FirstWithId(rooms[1..], id)
                  && rooms[1..][j'].room == id
                  && forall k :: 0 <= k < j' ==> rooms[1..][k].room != id;
        assert rooms[j' + 1] == FirstWithId(rooms, id);
        forall k | 0 <= k < j' + 1 ensures rooms[k].room != id {
          if k > 0 { assert rooms[k] == rooms[1..][k - 1]; }
        }
      }
      if Tracked(rooms[1..], id) {
        var j :| 0 <= j < |rooms[1..]| && rooms[1..][j].room == id;
        assert rooms[j + 1].room == id;
      }
      if Tracked(rooms, id) {
        var j :| 0 <= j < |rooms| && rooms[j].room == id;
        assert rooms[1..][j - 1].room == id;
      }
    }
  }

  /** A room is in the same group as the source room and is not that room
      itself (compared by name, then by id). */
  predicate IsPeer(r: NamedRoom, source: NamedRoom) {
    r.name == source.name && r.room != source.room
  }

  /** A destination: the entry at position `index` of server `server`'s list. */
  datatype Dest = Dest(server: nat, index: nat, room: NamedRoom)

  /** The peers of `source` in one server's list, in list order. */
  function PeersOn(s: nat, rooms: seq<NamedRoom>, source: NamedRoom): seq<Dest>
  {
    if rooms == [] then []
    else
      var j := |rooms| - 1;
      PeersOn(s, rooms[..j], source) + (if IsPeer(rooms[j], source) then [Dest(s, j, rooms[j])] else [])
  }

  /** The peers of `source` over all servers: server order, then list order. */
  function Peers(cfg: seq<seq<NamedRoom>>, source: NamedRoom): seq<Dest>
  {
    if cfg == [] then []
    else Peers(cfg[..|cfg| - 1], source) + PeersOn(|cfg| - 1, cfg[|cfg| - 1], source)
  }

  /** Scanning one more entry of a list adds that entry if it is a peer. */
  lemma PeersOnStep(s: nat, rooms: seq<NamedRoom>, source: NamedRoom, j: nat)
    requires j < |rooms|
    ensures PeersOn(s, rooms[..j + 1], source) ==
              PeersOn(s, rooms[..j], source) + (if IsPeer(rooms[j], source) then [Dest(s, j, rooms[j])] else [])
  {
    assert rooms[..j + 1][..j] == rooms[..j];
  }

  /** Scanning one more server adds that server's peers. */
  lemma PeersStep(cfg: seq<seq<NamedRoom>>, source: NamedRoom, i: nat)
    requires i < |cfg|
    ensures Peers(cfg[..i + 1], source) == Peers(cfg[..i], source) + PeersOn(i, cfg[i], source)
  {
    assert cfg[..i + 1][..i] == cfg[..i];
  }

  /** Destination `d` is the configured entry it names. */
  predicate Names(cfg: seq<seq<NamedRoom>>, d: Dest) {
    d.server < |cfg| && d.index < |cfg[d.server]| && cfg[d.server][d.index] == d.room
  }

  /** `d` comes strictly before `e` in server order, then list order. */
  predicate Before(d: Dest, e: Dest) {
    d.server < e.server || (d.server == e.server && d.index < e.index)
  }

  lemma {:induction false} PeersOnShape(s: nat, rooms: seq<NamedRoom>, source: NamedRoom)
    ensures forall k :: 0 <= k < |PeersOn(s, rooms, source)| ==>
              var d := PeersOn(s, rooms, source)[k];
              d.server == s && d.index < |rooms| && rooms[d.index] == d.room && IsPeer(d.room, source)
    ensures forall j :: 0 <= j < |rooms| && IsPeer(rooms[j], source) ==>
              exists k :: 0 <= k < |PeersOn(s, rooms, source)| && PeersOn(s, rooms, source)[k].index == j
    ensures forall k1, k2 :: 0 <= k1 < k2 < |PeersOn(s, rooms, source)| ==>
              PeersOn(s, rooms, source)[k1].index < PeersOn(s, rooms, source)[k2].index
  {
    if rooms != [] {
      var j := |rooms| - 1;
      var init := rooms[..j];
      PeersOnShape(s, init, source);
      var p := PeersOn(s, init, source);
      var q := PeersOn(s, rooms, source);
      assert q == p + (if IsPeer(rooms[j], source) then [Dest(s, j, rooms[j])] else []);
      forall k | 0 <= k < |p| ensures q[k] == p[k] && rooms[q[k].index] == q[k].room {
        assert init[p[k].index] == rooms[p[k].index];
      }
      forall i | 0 <= i < |rooms| && IsPeer(rooms[i], source)
        ensures exists k :: 0 <= k < |q| && q[k].index == i
      {
        if i < j {
          assert init[i] == rooms[i];
          var k :| 0 <= k < |p| && p[k].index == i;
          assert q[k].index == i;
        } else {
          assert q[|q| - 1].index == i;
        }
      }
    }
  }

  /** Every peer names a configured entry of the same group other than the
      source room. */
  lemma {:induction false} PeersNamed(cfg: seq<seq<NamedRoom>>, source: NamedRoom)
    ensures forall k :: 0 <= k < |Peers(cfg, source)| ==>
              Names(cfg, Peers(cfg, source)[k]) && IsPeer(Peers(cfg, source)[k].room, source)
  {
    if cfg != [] {
      var n := |cfg| - 1;
      var init := cfg[..n];
      PeersNamed(init, source);
      PeersOnShape(n, cfg[n], source);
      var p := Peers(init, source);
      var q := Peers(cfg, source);
      assert q == p + PeersOn(n, cfg[n], source);
      forall k | 0 <= k < |p| ensures Names(cfg, q[k]) {
        assert q[k] == p[k] && cfg[p[k].server] == init[p[k].server];
      }
    }
  }

  /** Entry `j` of server `s` is among the destinations `ps`. */
  predicate Listed(ps: seq<Dest>, s: nat, j: nat) {
    exists k :: 0 <= k < |ps| && ps[k].server == s && ps[k].index == j
  }

  /** Every configured entry of the same group other than the source room
      is a peer. */
  lemma {:induction false} PeersCover(cfg: seq<seq<NamedRoom>>, source: NamedRoom)
    ensures forall s, j :: 0 <= s < |cfg| && 0 <= j < |cfg[s]| && IsPeer(cfg[s][j], source) ==>
              Listed(Peers(cfg, source), s, j)
  {
    if cfg != [] {
      var n := |cfg| - 1;
      var init := cfg[..n];
      PeersCover(init, source);
      PeersOnShape(n, cfg[n], source);
      var p := Peers(init, source);
      var o := PeersOn(n, cfg[n], source);
      var q := Peers(cfg, source);
      assert q == p + o;
      forall s, j | 0 <= s < |cfg| && 0 <= j < |cfg[s]| && IsPeer(cfg[s][j], source)
        ensures Listed(q, s, j)
      {
        if s < n {
          assert init[s] == cfg[s];
          assert Listed(p, s, j);
          var k :| 0 <= k < |p| && p[k].server == s && p[k].index == j;
          assert q[k] == p[k];
        } else {
          var k :| 0 <= k < |o| && o[k].index == j;
          assert q[|p| + k] == o[k] && o[k].server == n;
        }
      }
    }
  }

  /** The peers are listed in strictly increasing server-then-list order. */
  lemma {:induction false} PeersOrdered(cfg: seq<seq<NamedRoom>>, source: NamedRoom)
    ensures forall k1, k2 :: 0 <= k1 < k2 < |Peers(cfg, source)| ==>
              Before(Peers(cfg, source)[k1], Peers(cfg, source)[k2])
  {
    if cfg != [] {
      var n := |cfg| - 1;
      var init := cfg[..n];
      PeersOrdered(init, source);
      PeersNamed(init, source);
      PeersOnShape(n, cfg[n], source);
      var p := Peers(init, source);
      var o := PeersOn(n, cfg[n], source);
      var q := Peers(cfg, source);
      assert q == p + o;
      forall k1, k2 | 0 <= k1 < k2 < |q| ensures Before(q[k1], q[k2]) {
        if k2 < |p| {
          assert q[k1] == p[k1] && q[k2] == p[k2];
        } else if k1 < |p| {
          assert q[k1] == p[k1] && q[k2] == o[k2 - |p|];
          assert Names(init, p[k1]);
          assert p[k1].server < n && o[k2 - |p|].server == n;
        } else {
          assert q[k1] == o[k1 - |p|] && q[k2] == o[k2 - |p|];
        }
      }
    }
  }

  /** Every peer names a configured entry of the same group other than the
      source room; every such entry is a peer; and the peers are listed in
      strictly increasing server-then-list order, so each entry appears
      exactly once and no entry with the source room's id appears at all. */
  lemma PeersExact(cfg: seq<seq<NamedRoom>>, source: NamedRoom)
    ensures forall k :: 0 <= k < |Peers(cfg, source)| ==>
              Names(cfg, Peers(cfg, source)[k]) && IsPeer(Peers(cfg, source)[k].room, source)
    ensures forall s, j :: 0 <= s < |cfg| && 0 <= j < |cfg[s]| && IsPeer(cfg[s][j], source) ==>
              exists k :: 0 <= k < |Peers(cfg, source)| && Peers(cfg, source)[k].server == s
                          && Peers(cfg, source)[k].index == j
    ensures forall k1, k2 :: 0 <= k1 < k2 < |Peers(cfg, source)| ==>
              Before(Peers(cfg, source)[k1], Peers(cfg, source)[k2])
  {
    PeersNamed(cfg, source);
    PeersCover(cfg, source);
    PeersOrdered(cfg, source);
    forall s, j | 0 <= s < |cfg| && 0 <= j < |cfg[s]| && IsPeer(cfg[s][j], source)
      ensures exists k :: 0 <= k < |Peers(cfg, source)| && Peers(cfg, source)[k].server == s
                          && Peers(cfg, source)[k].index == j
    {
      assert Listed(Peers(cfg, source), s, j);
    }
  }

  /** The membership filter: the list without the entries carrying `id`. */
  function Without(rooms: seq<NamedRoom>, id: RoomId): seq<NamedRoom>
  {
    if rooms == [] then []
    else
      var j := |rooms| - 1;
      Without(rooms[..j], id) + (if rooms[j].room == id then [] else [rooms[j]])
  }

  /** The filter works piece by piece, so it keeps the order of what it keeps. */
  lemma {:induction false} WithoutAppend(a: seq<NamedRoom>, b: seq<NamedRoom>, id: RoomId)
    ensures Without(a + b, id) == Without(a, id) + Without(b, id)
    decreases |b|
  {
    if b == [] {
      assert a + b == a;
    } else {
      var j := |b| - 1;
      assert (a + b)[..|a + b| - 1] == a + b[..j];
      WithoutAppend(a, b[..j], id);
    }
  }

  /** It keeps exactly the entries whose id differs. */
  lemma {:induction false} WithoutContents(rooms: seq<NamedRoom>, id: RoomId)
    ensures forall r :: r in Without(rooms, id) <==> r in rooms && r.room != id
  {
    if rooms != [] {
      var j := |rooms| - 1;
      WithoutContents(rooms[..j], id);
      assert rooms == rooms[..j] + [rooms[j]];
    }
  }

  /** A single entry is kept or dropped on its id alone. */
  lemma WithoutSingle(r: NamedRoom, id: RoomId)
    ensures Without([r], id) == if r.room == id then [] else [r]
  {
  }

  /** Filtering a list with no such entry leaves it as it is. */
  lemma {:induction false} WithoutAbsent(rooms: seq<NamedRoom>, id: RoomId)
    requires forall j :: 0 <= j < |rooms| ==> rooms[j].room != id
    ensures Without(rooms, id) == rooms
  {
    if rooms != [] {
      var j := |rooms| - 1;
      WithoutAbsent(rooms[..j], id);
      assert rooms[..j] + [rooms[j]] == rooms;
    }
  }

  /** Filtering twice is filtering once. */
  lemma WithoutIdempotent(rooms: seq<NamedRoom>, id: RoomId)
    ensures Without(Without(rooms, id), id) == Without(rooms, id)
  {
    var w := Without(rooms, id);
    WithoutContents(rooms, id);
    forall j | 0 <= j < |w| ensures w[j].room != id {
      assert w[j] in w;
    }
    WithoutAbsent(w, id);
  }

  /** The room lists after the bridge left room `id` on server `s`. */
  function Pruned(cfg: seq<seq<NamedRoom>>, s: nat, id: RoomId): seq<seq<NamedRoom>>
    requires s < |cfg|
  {
    cfg[s := Without(cfg[s], id)]
  }

  /** After the bridge leaves room `id` on server `s`, that room is no longer
      tracked there (its events are dropped) and it is nobody's peer (no
      event anywhere is relayed to it on `s`); every other server's list is
      what it was. */
  lemma PrunedRoomUnreachable(cfg: seq<seq<NamedRoom>>, s: nat, id: RoomId, source: NamedRoom)
    requires s < |cfg|
    ensures |Pruned(cfg, s, id)| == |cfg|
    ensures !Tracked(Pruned(cfg, s, id)[s], id)
    ensures forall k :: 0 <= k < |Peers(Pruned(cfg, s, id), source)| && Peers(Pruned(cfg, s, id), source)[k].server == s ==>
              Peers(Pruned(cfg, s, id), source)[k].room.room != id
    ensures forall t :: 0 <= t < |cfg| && t != s ==> Pruned(cfg, s, id)[t] == cfg[t]
  {
    var cfg' := Pruned(cfg, s, id);
    WithoutContents(cfg[s], id);
    PeersExact(cfg', source);
    forall k | 0 <= k < |Peers(cfg', source)| && Peers(cfg', source)[k].server == s
      ensures Peers(cfg', source)[k].room.room != id
    {
      var d := Peers(cfg', source)[k];
      assert cfg'[s][d.index] in Without(cfg[s], id);
    }
  }
}
