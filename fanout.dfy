/** Text fan-out (main.go:175-188): a text, notice or location message goes
    to every peer of its source room, on every server including its own. */
module Fanout {
  import opened Types
  import opened Groups

  /** One `SendMessageEvent` per destination, in destination order. */
  function Sends(ds: seq<Dest>, msg: Content): (r: seq<Action>)
    ensures |r| == |ds|
    ensures forall k :: 0 <= k < |ds| ==> r[k] == SendMessage(ds[k].server, ds[k].room.room, msg)
  {
    if ds == [] then [] else Sends(ds[..|ds| - 1], msg) + [SendMessage(ds[|ds| - 1].server, ds[|ds| - 1].room.room, msg)]
  }

  /** Sending to two lists of destinations is sending to one, then the other. */
  lemma SendsAppend(a: seq<Dest>, b: seq<Dest>, msg: Content)
    ensures Sends(a + b, msg) == Sends(a, msg) + Sends(b, msg)
  {
  }

  /** Every send of a fan-out carries the message unchanged and goes to a
      configured room of the source room's group whose id is not the source
      room's: nothing is echoed back. */
  lemma TextFanOutTargets(cfg: seq<seq<NamedRoom>>, source: NamedRoom, msg: Content, k: nat)
    requires k < |Sends(Peers(cfg, source), msg)|
    ensures var a := Sends(Peers(cfg, source), msg)[k];
            && a.SendMessage? && a.content == msg && a.room != source.room && a.server < |cfg|
            && exists j :: 0 <= j < |cfg[a.server]| && cfg[a.server][j].room == a.room
                           && cfg[a.server][j].name == source.name
  {
    var p := Peers(cfg, source);
    PeersExact(cfg, source);
    assert Names(cfg, p[k]) && IsPeer(p[k].room, source);
    var j := p[k].index;
    assert cfg[p[k].server][j] == p[k].room;
  }

  /** Every configured entry of the group with another id (on any server,
      the source server included) receives the message, and the sends
      follow the servers' order, each entry receiving exactly one
      (destinations are strictly ordered by server, then list position). */
  lemma TextFanOutReaches(cfg: seq<seq<NamedRoom>>, source: NamedRoom, msg: Content, s: nat, j: nat)
    requires s < |cfg| && j < |cfg[s]| && IsPeer(cfg[s][j], source)
    ensures exists k :: 0 <= k < |Peers(cfg, source)|
                        && Peers(cfg, source)[k] == Dest(s, j, cfg[s][j])
                        && Sends(Peers(cfg, source), msg)[k] == SendMessage(s, cfg[s][j].room, msg)
                        && (forall k' :: 0 <= k' < |Peers(cfg, source)| && k' != k ==>
                              Peers(cfg, source)[k'] != Dest(s, j, cfg[s][j]))
  {
    var p := Peers(cfg, source);
    PeersExact(cfg, source);
    var k :| 0 <= k < |p| && p[k].server == s && p[k].index == j;
    assert Names(cfg, p[k]);
    forall k' | 0 <= k' < |p| && k' != k ensures p[k'] != Dest(s, j, cfg[s][j]) {
      if k' < k { assert Before(p[k'], p[k]); } else { assert Before(p[k], p[k']); }
    }
  }
}
