/** Media relay (main.go:190-278): once both assets are downloaded, each
    inbound-enabled peer gets a plain announcement line and then the media
    event. Peers on the source server get the original content; on every
    other server the assets are uploaded again, at most once per server
    while the uploads succeed, and the event is sent with the new
    references. The functions below follow the source's two nested loops:
    `Relay` over the servers, `ServerRelay` over one server's rooms with
    the memo (`localFile`, `localThumbnail`) starting empty, and `RoomStep`
    for one room. Upload replies come from `upload`, indexed by the number
    of upload calls made so far during the event. */
module Media {
  import opened Types
  import opened Messages
  import opened Groups

  /** What one relay works from, fixed for the event: the source server's
      number, the resolved source room, the sender, the normalised content
      and the downloaded main file and thumbnail (empty when none is
      declared). */
  datatype Job = Job(src: nat, source: NamedRoom, sender: UserId, content: Content, file: Bytes, thumb: Bytes)

  /** The per-server memo of uploaded references. */
  datatype Memo = Memo(file: Option<Uri>, thumb: Option<Uri>)

  const EmptyMemo := Memo(None, None)

  /** The calls made so far, the memo, and how many uploads were made. */
  datatype Progress = Progress(actions: seq<Action>, memo: Memo, calls: nat)

  /** The calls made over all servers and how many uploads were made. */
  datatype Relayed = Relayed(actions: seq<Action>, calls: nat)

  function Line(job: Job): string {
    Announcement(job.sender, job.content.body)
  }

  /** The announcement line, then the media event. */
  function Deliver(s: nat, room: RoomId, job: Job, msg: Content): seq<Action> {
    [SendText(s, room, Line(job)), SendMessage(s, room, msg)]
  }

  /** Upload the main file unless the memo already holds its reference
      (main.go:245-253); a failed upload leaves the memo empty. */
  function MainStep(s: nat, job: Job, upload: nat -> Option<Uri>, p: Progress): Progress
  {
    if p.memo.file.Some? then p
    else
      var reply := upload(p.calls);
      Progress(p.actions + [Upload(s, MainFile, job.file, MainMime(job.content), reply)],
               p.memo.(file := reply), p.calls + 1)
  }

  /** Upload the declared thumbnail unless the memo already holds its
      reference (main.go:254-262); a failed upload leaves it empty. */
  function ThumbStep(s: nat, job: Job, upload: nat -> Option<Uri>, p: Progress): Progress
  {
    if !HasThumbnail(job.content) || p.memo.thumb.Some? then p
    else
      var reply := upload(p.calls);
      Progress(p.actions + [Upload(s, Thumbnail, job.thumb, ThumbMime(job.content), reply)],
               p.memo.(thumb := reply), p.calls + 1)
  }

  /** One inbound-enabled peer on a server other than the source's
      (main.go:245-274): the main file, then the thumbnail, each uploaded
      only while the memo lacks it; a failed upload ends this room's turn
      (the source's `continue`), keeping what the memo already holds; else
      the event goes out with the memo's references. */
  function ForeignRoom(s: nat, room: RoomId, job: Job, upload: nat -> Option<Uri>, p: Progress): Progress
  {
    var p1 := MainStep(s, job, upload, p);
    if p1.memo.file.None? then p1
    else
      var p2 := ThumbStep(s, job, upload, p1);
      if HasThumbnail(job.content) && p2.memo.thumb.None? then p2
      else
        Progress(p2.actions + Deliver(s, room, job, Outgoing(job.content, p2.memo)), p2.memo, p2.calls)
  }

  /** The content sent with the memo's references (main.go:264-271). */
  function Outgoing(c: Content, m: Memo): Content
    requires m.file.Some?
  {
    WithRefs(c, m.file.value, if HasThumbnail(c) then m.thumb else None)
  }

  /** One configured room of server `s` (main.go:232-275). */
  function RoomStep(s: nat, r: NamedRoom, job: Job, upload: nat -> Option<Uri>, p: Progress): Progress
  {
    if !IsPeer(r, job.source) || !r.mediaInbound then p
    else if s == job.src then Progress(p.actions + Deliver(s, r.room, job, job.content), p.memo, p.calls)
    else ForeignRoom(s, r.room, job, upload, p)
  }

  /** The calls made for the rooms of server `s`, starting with an empty
      memo after `calls` uploads. */
  function ServerRelay(s: nat, rooms: seq<NamedRoom>, job: Job, upload: nat -> Option<Uri>, calls: nat): Progress
  {
    if rooms == [] then Progress([], EmptyMemo, calls)
    else RoomStep(s, rooms[|rooms| - 1], job, upload, ServerRelay(s, rooms[..|rooms| - 1], job, upload, calls))
  }

  /** The calls made for all servers, in server order. */
  function Relay(cfg: seq<seq<NamedRoom>>, job: Job, upload: nat -> Option<Uri>): Relayed
  {
    if cfg == [] then Relayed([], 0)
    else
      var prev := Relay(cfg[..|cfg| - 1], job, upload);
      var seg := ServerRelay(|cfg| - 1, cfg[|cfg| - 1], job, upload, prev.calls);
      Relayed(prev.actions + seg.actions, seg.calls)
  }

  // ---------------------------------------------------------------------
  // Counting and describing traces

  predicate IsUpload(a: Action, s: nat, asset: Asset, ok: bool) {
    a.Upload? && a.server == s && a.asset == asset && a.reply.Some? == ok
  }

  /** The uploads of `asset` to server `s` that succeeded (`ok`) or failed. */
  function Uploads(t: seq<Action>, s: nat, asset: Asset, ok: bool): nat {
    if t == [] then 0
    else Uploads(t[..|t| - 1], s, asset, ok) + (if IsUpload(t[|t| - 1], s, asset, ok) then 1 else 0)
  }

  /** The media events sent to rooms of server `s`. */
  function Deliveries(t: seq<Action>, s: nat): nat {
    if t == [] then 0
    else Deliveries(t[..|t| - 1], s) + (if t[|t| - 1].SendMessage? && t[|t| - 1].server == s then 1 else 0)
  }

  function Failures(t: seq<Action>, s: nat): nat {
    Uploads(t, s, MainFile, false) + Uploads(t, s, Thumbnail, false)
  }

  /** The number of inbound-enabled peers of the source room in a list. */
  function InboundPeers(rooms: seq<NamedRoom>, source: NamedRoom): nat {
    if rooms == [] then 0
    else
      var r := rooms[|rooms| - 1];
      InboundPeers(rooms[..|rooms| - 1], source) + (if IsPeer(r, source) && r.mediaInbound then 1 else 0)
  }

  /** `id` is the id of an inbound-enabled peer in the list. */
  predicate Inbound(rooms: seq<NamedRoom>, id: RoomId, source: NamedRoom) {
    exists j :: 0 <= j < |rooms| && rooms[j].room == id && IsPeer(rooms[j], source) && rooms[j].mediaInbound
  }

  /** A relayed event on another server is the original with its references
      replaced by ones that uploads to that server returned earlier. */
  predicate FromUploads(prefix: seq<Action>, s: nat, job: Job, out: Content) {
    var c := job.content;
    && Upload(s, MainFile, job.file, MainMime(c), Some(out.url)) in prefix
    && (HasThumbnail(c) ==>
          out.info.Some? && Upload(s, Thumbnail, job.thumb, ThumbMime(c), Some(out.info.value.thumbnailUrl)) in prefix)
    && out == WithRefs(c, out.url, if HasThumbnail(c) then Some(out.info.value.thumbnailUrl) else None)
  }

  /** The media event at position `k` follows its announcement line, and
      carries the original content on the source server, rewritten
      references elsewhere. */
  predicate ShapedAt(t: seq<Action>, k: nat, job: Job)
    requires k < |t|
  {
    t[k].SendMessage? ==>
      && 1 <= k
      && t[k - 1] == SendText(t[k].server, t[k].room, Line(job))
      && (t[k].server == job.src ==> t[k].content == job.content)
      && (t[k].server != job.src ==> FromUploads(t[..k], t[k].server, job, t[k].content))
  }

  predicate Shaped(t: seq<Action>, job: Job) {
    forall k :: 0 <= k < |t| ==> ShapedAt(t, k, job)
  }

  /** The memo holds exactly the references of this server's successful
      uploads (one at most of each asset). */
  predicate MemoHeld(t: seq<Action>, s: nat, job: Job, m: Memo)
  {
    && Uploads(t, s, MainFile, true) == (if m.file.Some? then 1 else 0)
    && Uploads(t, s, Thumbnail, true) == (if m.thumb.Some? then 1 else 0)
    && (m.file.Some? ==> Upload(s, MainFile, job.file, MainMime(job.content), m.file) in t)
    && (m.thumb.Some? ==> m.file.Some? && HasThumbnail(job.content)
                          && Upload(s, Thumbnail, job.thumb, ThumbMime(job.content), m.thumb) in t)
  }

  predicate AllOn(t: seq<Action>, s: nat) {
    forall k :: 0 <= k < |t| ==> t[k].server == s
  }

  predicate SendsInbound(t: seq<Action>, rooms: seq<NamedRoom>, source: NamedRoom) {
    forall k :: 0 <= k < |t| && t[k].IsSend() ==> Inbound(rooms, t[k].room, source)
  }

  /** What holds of the calls made for one server's rooms, as far as they go. */
  predicate SegmentInv(s: nat, rooms: seq<NamedRoom>, job: Job, p: Progress)
  {
    && AllOn(p.actions, s)
    && Shaped(p.actions, job)
    && SendsInbound(p.actions, rooms, job.source)
    && (s == job.src ==>
          && p.memo == EmptyMemo
          && (forall k :: 0 <= k < |p.actions| ==> !p.actions[k].Upload?)
          && Deliveries(p.actions, s) == InboundPeers(rooms, job.source))
    && (s != job.src ==>
          && MemoHeld(p.actions, s, job, p.memo)
          && Failures(p.actions, s) + Deliveries(p.actions, s) == InboundPeers(rooms, job.source))
  }

  // ---------------------------------------------------------------------
  // Helper facts about traces

  lemma {:induction false} CountsAppend(t1: seq<Action>, t2: seq<Action>, s: nat)
    ensures forall asset, ok :: Uploads(t1 + t2, s, asset, ok) == Uploads(t1, s, asset, ok) + Uploads(t2, s, asset, ok)
    ensures Deliveries(t1 + t2, s) == Deliveries(t1, s) + Deliveries(t2, s)
    decreases |t2|
  {
    if t2 == [] {
      assert t1 + t2 == t1;
    } else {
      var n := |t2| - 1;
      assert (t1 + t2)[..|t1 + t2| - 1] == t1 + t2[..n];
      CountsAppend(t1, t2[..n], s);
    }
  }

  lemma {:induction false} CountsElsewhere(t: seq<Action>, s: nat)
    requires forall k :: 0 <= k < |t| ==> t[k].server != s
    ensures forall asset, ok :: Uploads(t, s, asset, ok) == 0
    ensures Deliveries(t, s) == 0
  {
    if t != [] {
      CountsElsewhere(t[..|t| - 1], s);
    }
  }

  lemma {:induction false} CountsNoUploads(t: seq<Action>, s: nat)
    requires forall k :: 0 <= k < |t| && t[k].Upload? ==> t[k].server != s
    ensures forall asset, ok :: Uploads(t, s, asset, ok) == 0
  {
    if t != [] {
      CountsNoUploads(t[..|t| - 1], s);
    }
  }

  lemma CountsOne(a: Action, s: nat)
    ensures forall asset, ok :: Uploads([a], s, asset, ok) == if IsUpload(a, s, asset, ok) then 1 else 0
    ensures Deliveries([a], s) == if a.SendMessage? && a.server == s then 1 else 0
  {
  }

  lemma CountsDeliver(s: nat, room: RoomId, job: Job, msg: Content)
    ensures forall asset, ok :: Uploads(Deliver(s, room, job, msg), s, asset, ok) == 0
    ensures Deliveries(Deliver(s, room, job, msg), s) == 1
  {
    var d := Deliver(s, room, job, msg);
    assert d == [d[0]] + [d[1]];
    CountsOne(d[0], s);
    CountsOne(d[1], s);
    CountsAppend([d[0]], [d[1]], s);
  }

  /** Extending a shaped trace keeps it shaped when the new positions are. */
  lemma ShapedExtend(t: seq<Action>, ext: seq<Action>, job: Job)
    requires Shaped(t, job)
    requires forall k :: |t| <= k < |t + ext| ==> ShapedAt(t + ext, k, job)
    ensures Shaped(t + ext, job)
  {
    var u := t + ext;
    forall k | 0 <= k < |t| ensures ShapedAt(u, k, job) {
      assert ShapedAt(t, k, job);
      assert u[k] == t[k];
      if k >= 1 { assert u[k - 1] == t[k - 1]; }
      assert u[..k] == t[..k];
    }
  }

  lemma ShapedAppend(t1: seq<Action>, t2: seq<Action>, job: Job)
    requires Shaped(t1, job) && Shaped(t2, job)
    ensures Shaped(t1 + t2, job)
  {
    var u := t1 + t2;
    forall k | |t1| <= k < |u| ensures ShapedAt(u, k, job) {
      var i := k - |t1|;
      assert ShapedAt(t2, i, job);
      assert u[k] == t2[i];
      if i >= 1 { assert u[k - 1] == t2[i - 1]; }
      assert u[..k] == t1 + t2[..i];
    }
    ShapedExtend(t1, t2, job);
  }

  lemma InboundGrows(rooms: seq<NamedRoom>, r: NamedRoom, t: seq<Action>, source: NamedRoom)
    requires SendsInbound(t, rooms, source)
    ensures SendsInbound(t, rooms + [r], source)
  {
    forall k | 0 <= k < |t| && t[k].IsSend() ensures Inbound(rooms + [r], t[k].room, source) {
      var j :| 0 <= j < |rooms| && rooms[j].room == t[k].room && IsPeer(rooms[j], source) && rooms[j].mediaInbound;
      assert (rooms + [r])[j] == rooms[j];
    }
  }

  /** A delivery to room `room` of server `s` after trace `a` is shaped. */
  lemma DeliverShaped(a: seq<Action>, s: nat, room: RoomId, job: Job, out: Content)
    requires Shaped(a, job)
    requires s == job.src ==> out == job.content
    requires s != job.src ==> FromUploads(a, s, job, out)
    ensures Shaped(a + Deliver(s, room, job, out), job)
  {
    var u := a + Deliver(s, room, job, out);
    assert u[|a|] == SendText(s, room, Line(job));
    assert u[|a| + 1] == SendMessage(s, room, out);
    assert u[..|a| + 1] == a + [u[|a|]];
    if s != job.src {
      var c := job.content;
      assert Upload(s, MainFile, job.file, MainMime(c), Some(out.url)) in u[..|a| + 1];
      if HasThumbnail(c) {
        assert Upload(s, Thumbnail, job.thumb, ThumbMime(c), Some(out.info.value.thumbnailUrl)) in u[..|a| + 1];
      }
    }
    assert ShapedAt(u, |a| + 1, job);
    ShapedExtend(a, Deliver(s, room, job, out), job);
  }

  /** Appending one upload keeps a trace shaped and its sends where they were. */
  lemma UploadAppended(a: seq<Action>, x: Action, rooms: seq<NamedRoom>, job: Job)
    requires x.Upload?
    requires Shaped(a, job) && SendsInbound(a, rooms, job.source)
    ensures Shaped(a + [x], job) && SendsInbound(a + [x], rooms, job.source)
  {
    assert ShapedAt(a + [x], |a|, job);
    ShapedExtend(a, [x], job);
    forall k | 0 <= k < |a + [x]| && (a + [x])[k].IsSend() ensures Inbound(rooms, (a + [x])[k].room, job.source) {
      assert k < |a| && (a + [x])[k] == a[k];
    }
  }

  // ---------------------------------------------------------------------
  // One server's rooms

  /** What an upload step keeps: the calls stay on the server, shaped and
      sent to inbound peers, and the memo matches the successful uploads. */
  predicate UploadPhase(s: nat, rooms: seq<NamedRoom>, job: Job, p: Progress)
  {
    AllOn(p.actions, s) && Shaped(p.actions, job) && SendsInbound(p.actions, rooms, job.source)
    && MemoHeld(p.actions, s, job, p.memo)
  }

  lemma MainStepKeeps(s: nat, rooms: seq<NamedRoom>, job: Job, upload: nat -> Option<Uri>, p: Progress)
    requires UploadPhase(s, rooms, job, p)
    ensures var q := MainStep(s, job, upload, p);
            && UploadPhase(s, rooms, job, q)
            && q.memo.thumb == p.memo.thumb
            && Deliveries(q.actions, s) == Deliveries(p.actions, s)
            && Failures(q.actions, s) == Failures(p.actions, s) + (if q.memo.file.None? then 1 else 0)
  {
    if p.memo.file.None? {
      var x := Upload(s, MainFile, job.file, MainMime(job.content), upload(p.calls));
      UploadAppended(p.actions, x, rooms, job);
      CountsOne(x, s);
      CountsAppend(p.actions, [x], s);
    }
  }

  lemma ThumbStepKeeps(s: nat, rooms: seq<NamedRoom>, job: Job, upload: nat -> Option<Uri>, p: Progress)
    requires UploadPhase(s, rooms, job, p) && p.memo.file.Some?
    ensures var q := ThumbStep(s, job, upload, p);
            && UploadPhase(s, rooms, job, q)
            && q.memo.file == p.memo.file
            && (!HasThumbnail(job.content) ==> q.memo.thumb == p.memo.thumb)
            && Deliveries(q.actions, s) == Deliveries(p.actions, s)
            && Failures(q.actions, s) == Failures(p.actions, s)
                 + (if HasThumbnail(job.content) && q.memo.thumb.None? then 1 else 0)
  {
    if HasThumbnail(job.content) && p.memo.thumb.None? {
      var x := Upload(s, Thumbnail, job.thumb, ThumbMime(job.content), upload(p.calls));
      UploadAppended(p.actions, x, rooms, job);
      CountsOne(x, s);
      CountsAppend(p.actions, [x], s);
    }
  }

  /** Delivering to a peer on another server once both references are held. */
  lemma ForeignDeliverKeeps(s: nat, rooms: seq<NamedRoom>, r: NamedRoom, job: Job, p: Progress)
    requires s != job.src && IsPeer(r, job.source) && r.mediaInbound
    requires UploadPhase(s, rooms, job, p)
    requires p.memo.file.Some? && (HasThumbnail(job.content) ==> p.memo.thumb.Some?)
    ensures var q := Progress(p.actions + Deliver(s, r.room, job, Outgoing(job.content, p.memo)), p.memo, p.calls);
            && UploadPhase(s, rooms + [r], job, q)
            && Failures(q.actions, s) == Failures(p.actions, s)
            && Deliveries(q.actions, s) == Deliveries(p.actions, s) + 1
  {
    var rooms' := rooms + [r];
    var out := Outgoing(job.content, p.memo);
    var d := Deliver(s, r.room, job, out);
    assert FromUploads(p.actions, s, job, out);
    DeliverShaped(p.actions, s, r.room, job, out);
    CountsDeliver(s, r.room, job, out);
    CountsAppend(p.actions, d, s);
    InboundGrows(rooms, r, p.actions, job.source);
    var t := p.actions + d;
    forall k | 0 <= k < |t| ensures t[k].server == s && (t[k].IsSend() ==> Inbound(rooms', t[k].room, job.source)) {
      if k >= |p.actions| {
        assert t[k].room == r.room && rooms'[|rooms|] == r;
      } else {
        assert t[k] == p.actions[k];
      }
    }
  }

  /** A peer on another server accounts for exactly one failed upload or one
      delivered event, and the upload-phase facts carry over to the list
      with that peer added. */
  lemma ForeignRoomKeeps(s: nat, rooms: seq<NamedRoom>, r: NamedRoom, job: Job, upload: nat -> Option<Uri>, p: Progress)
    requires s != job.src && IsPeer(r, job.source) && r.mediaInbound
    requires UploadPhase(s, rooms, job, p)
    ensures var q := ForeignRoom(s, r.room, job, upload, p);
            && UploadPhase(s, rooms + [r], job, q)
            && Failures(q.actions, s) + Deliveries(q.actions, s) == Failures(p.actions, s) + Deliveries(p.actions, s) + 1
  {
    var q := ForeignRoom(s, r.room, job, upload, p);
    MainStepKeeps(s, rooms, job, upload, p);
    var p1 := MainStep(s, job, upload, p);
    if p1.memo.file.None? {
      assert q == p1;
      InboundGrows(rooms, r, p1.actions, job.source);
    } else {
      ThumbStepKeeps(s, rooms, job, upload, p1);
      var p2 := ThumbStep(s, job, upload, p1);
      if HasThumbnail(job.content) && p2.memo.thumb.None? {
        assert q == p2;
        InboundGrows(rooms, r, p2.actions, job.source);
      } else {
        assert q == Progress(p2.actions + Deliver(s, r.room, job, Outgoing(job.content, p2.memo)), p2.memo, p2.calls);
        ForeignDeliverKeeps(s, rooms, r, job, p2);
      }
    }
  }

  /** The source server's peers: announcement and original event, no upload. */
  lemma SourceRoomKeeps(s: nat, rooms: seq<NamedRoom>, r: NamedRoom, job: Job, p: Progress)
    requires s == job.src && IsPeer(r, job.source) && r.mediaInbound
    requires SegmentInv(s, rooms, job, p)
    ensures SegmentInv(s, rooms + [r], job, Progress(p.actions + Deliver(s, r.room, job, job.content), p.memo, p.calls))
  {
    var rooms' := rooms + [r];
    assert rooms'[..|rooms'| - 1] == rooms;
    var d := Deliver(s, r.room, job, job.content);
    var t := p.actions + d;
    DeliverShaped(p.actions, s, r.room, job, job.content);
    CountsDeliver(s, r.room, job, job.content);
    CountsAppend(p.actions, d, s);
    InboundGrows(rooms, r, p.actions, job.source);
    forall k | 0 <= k < |t| && t[k].IsSend() ensures Inbound(rooms', t[k].room, job.source) {
      if k >= |p.actions| {
        assert t[k].room == r.room && rooms'[|rooms|] == r;
      } else {
        assert t[k] == p.actions[k];
      }
    }
    forall k | 0 <= k < |t| ensures !t[k].Upload? && t[k].server == s {
      if k < |p.actions| { assert t[k] == p.actions[k]; }
    }
  }

  /** One room keeps the segment invariant. */
  lemma RoomStepKeeps(s: nat, rooms: seq<NamedRoom>, r: NamedRoom, job: Job, upload: nat -> Option<Uri>, p: Progress)
    requires SegmentInv(s, rooms, job, p)
    ensures SegmentInv(s, rooms + [r], job, RoomStep(s, r, job, upload, p))
  {
    var rooms' := rooms + [r];
    assert rooms'[..|rooms'| - 1] == rooms;
    if !IsPeer(r, job.source) || !r.mediaInbound {
      InboundGrows(rooms, r, p.actions, job.source);
    } else if s == job.src {
      SourceRoomKeeps(s, rooms, r, job, p);
    } else {
      ForeignRoomKeeps(s, rooms, r, job, upload, p);
    }
  }

  lemma {:induction false} ServerRelayInv(s: nat, rooms: seq<NamedRoom>, job: Job, upload: nat -> Option<Uri>, calls: nat)
    ensures SegmentInv(s, rooms, job, ServerRelay(s, rooms, job, upload, calls))
  {
    if rooms == [] {
      CountsNoUploads([], s);
    } else {
      var init := rooms[..|rooms| - 1];
      ServerRelayInv(s, init, job, upload, calls);
      RoomStepKeeps(s, init, rooms[|rooms| - 1], job, upload, ServerRelay(s, init, job, upload, calls));
      assert init + [rooms[|rooms| - 1]] == rooms;
    }
  }

  // ---------------------------------------------------------------------
  // All servers

  /** Where the calls of a relay go and what they look like. */
  lemma {:induction false} RelayPlaces(cfg: seq<seq<NamedRoom>>, job: Job, upload: nat -> Option<Uri>)
    ensures var t := Relay(cfg, job, upload).actions;
            && (forall k :: 0 <= k < |t| ==> t[k].server < |cfg|)
            && (forall k :: 0 <= k < |t| && t[k].Upload? ==> t[k].server != job.src)
            && (forall k :: 0 <= k < |t| && t[k].IsSend() ==> Inbound(cfg[t[k].server], t[k].room, job.source))
            && Shaped(t, job)
  {
    if cfg != [] {
      var n := |cfg| - 1;
      var init := cfg[..n];
      var prev := Relay(init, job, upload);
      var seg := ServerRelay(n, cfg[n], job, upload, prev.calls);
      var t := prev.actions + seg.actions;
      assert Relay(cfg, job, upload).actions == t;
      RelayPlaces(init, job, upload);
      ServerRelayInv(n, cfg[n], job, upload, prev.calls);
      ShapedAppend(prev.actions, seg.actions, job);
      forall k | 0 <= k < |t|
        ensures t[k].server < |cfg|
        ensures t[k].Upload? ==> t[k].server != job.src
        ensures t[k].IsSend() ==> Inbound(cfg[t[k].server], t[k].room, job.source)
      {
        if k < |prev.actions| {
          assert t[k] == prev.actions[k];
          assert cfg[t[k].server] == init[t[k].server];
        } else {
          assert t[k] == seg.actions[k - |prev.actions|];
        }
      }
    }
  }

  /** What the relay does to server `s`, counted. */
  lemma {:induction false} RelayCounts(cfg: seq<seq<NamedRoom>>, job: Job, upload: nat -> Option<Uri>, s: nat)
    ensures var t := Relay(cfg, job, upload).actions;
            && Uploads(t, s, MainFile, true) <= 1
            && Uploads(t, s, Thumbnail, true) <= 1
            && (s < |cfg| && s == job.src ==> Deliveries(t, s) == InboundPeers(cfg[s], job.source))
            && (s < |cfg| && s != job.src ==> Failures(t, s) + Deliveries(t, s) == InboundPeers(cfg[s], job.source))
  {
    if cfg != [] {
      var n := |cfg| - 1;
      var init := cfg[..n];
      var prev := Relay(init, job, upload);
      var seg := ServerRelay(n, cfg[n], job, upload, prev.calls);
      assert Relay(cfg, job, upload).actions == prev.actions + seg.actions;
      RelayCounts(init, job, upload, s);
      ServerRelayInv(n, cfg[n], job, upload, prev.calls);
      CountsAppend(prev.actions, seg.actions, s);
      if s == n {
        RelayPlaces(init, job, upload);
        CountsElsewhere(prev.actions, s);
        if s == job.src {
          CountsNoUploads(seg.actions, s);
        }
      } else {
        CountsElsewhere(seg.actions, s);
        if s < n { assert init[s] == cfg[s]; }
      }
    }
  }

  // ---------------------------------------------------------------------
  // The properties of a media relay

  /** Single-flight upload: over one relay, each destination server sees at
      most one successful upload of the main file and at most one of the
      thumbnail; the source server sees no upload at all. */
  lemma UploadedOncePerServer(cfg: seq<seq<NamedRoom>>, job: Job, upload: nat -> Option<Uri>, s: nat, asset: Asset)
    ensures Uploads(Relay(cfg, job, upload).actions, s, asset, true) <= 1
    ensures s == job.src ==> Uploads(Relay(cfg, job, upload).actions, s, asset, true) == 0
                             && Uploads(Relay(cfg, job, upload).actions, s, asset, false) == 0
  {
    RelayCounts(cfg, job, upload, s);
    if s == job.src {
      RelayPlaces(cfg, job, upload);
      CountsNoUploads(Relay(cfg, job, upload).actions, s);
    }
  }

  /** Every announcement and media event goes to an inbound-enabled peer of
      the source room (never to the source room itself), and every media
      event directly follows its announcement line. On the source server
      it carries the original content; on another server it is the
      original with its main reference, and its thumbnail reference when
      one is declared, taken from earlier successful uploads to that same
      server. */
  lemma RelayedEventShape(cfg: seq<seq<NamedRoom>>, job: Job, upload: nat -> Option<Uri>, k: nat)
    requires k < |Relay(cfg, job, upload).actions|
    ensures var t := Relay(cfg, job, upload).actions;
            && (t[k].IsSend() ==> t[k].server < |cfg| && Inbound(cfg[t[k].server], t[k].room, job.source)
                                  && t[k].room != job.source.room)
            && (t[k].SendMessage? ==>
                  && 1 <= k && t[k - 1] == SendText(t[k].server, t[k].room, Announcement(job.sender, job.content.body))
                  && (t[k].server == job.src ==> t[k].content == job.content)
                  && (t[k].server != job.src ==> FromUploads(t[..k], t[k].server, job, t[k].content)))
  {
    RelayPlaces(cfg, job, upload);
    var t := Relay(cfg, job, upload).actions;
    assert ShapedAt(t, k, job);
  }

  /** An upload failure costs only its own room, counted per server: on
      every server other than the source's, the failed uploads and the
      delivered events together number the inbound-enabled peers; on the
      source server every inbound-enabled peer gets the event. Which room
      gets what is stated room by room in `RelayTurns`. */
  lemma FailuresPlusDeliveriesPerServer(cfg: seq<seq<NamedRoom>>, job: Job, upload: nat -> Option<Uri>, s: nat)
    requires s < |cfg|
    ensures s != job.src ==>
              Failures(Relay(cfg, job, upload).actions, s) + Deliveries(Relay(cfg, job, upload).actions, s)
              == InboundPeers(cfg[s], job.source)
    ensures s == job.src ==> Deliveries(Relay(cfg, job, upload).actions, s) == InboundPeers(cfg[s], job.source)
  {
    RelayCounts(cfg, job, upload, s);
  }

  // ---------------------------------------------------------------------
  // The relay, room by room

  /** Uploads to server `s` that all succeeded. */
  predicate UploadsOk(u: seq<Action>, s: nat) {
    forall k :: 0 <= k < |u| ==> u[k].Upload? && u[k].server == s && u[k].reply.Some?
  }

  /** The calls made for one inbound-enabled peer `room` of server `s`. On
      the source server: the announcement, then the original event. On
      another server: some successful uploads to `s`, then the announcement
      and the event; or such successful uploads and then one failed upload,
      which ends the room's turn with nothing sent to it. Which assets are
      uploaded, only those the server's memo still lacks, is stated over
      the whole relay by `UploadsOnlyWhileMissing`. */
  predicate Turn(seg: seq<Action>, s: nat, room: RoomId, job: Job) {
    if s == job.src then seg == Deliver(s, room, job, job.content)
    else
      || (&& |seg| >= 2
          && seg[|seg| - 2] == SendText(s, room, Line(job))
          && seg[|seg| - 1].SendMessage? && seg[|seg| - 1].server == s && seg[|seg| - 1].room == room
          && UploadsOk(seg[..|seg| - 2], s))
      || (&& |seg| >= 1
          && seg[|seg| - 1].Upload? && seg[|seg| - 1].server == s && seg[|seg| - 1].reply.None?
          && UploadsOk(seg[..|seg| - 1], s))
  }

  /** Successful uploads followed by a failed one make a turn. */
  lemma TurnFails(u: seq<Action>, x: Action, s: nat, room: RoomId, job: Job)
    requires s != job.src && UploadsOk(u, s)
    requires x.Upload? && x.server == s && x.reply.None?
    ensures Turn(u + [x], s, room, job)
  {

  }

  /** Successful uploads followed by the announcement and the event make a
      turn. */
  lemma TurnDelivers(u: seq<Action>, s: nat, room: RoomId, job: Job, msg: Content)
    requires s != job.src && UploadsOk(u, s)
    ensures Turn(u + Deliver(s, room, job, msg), s, room, job)
  {

  }

  /** A peer on another server only appends a whole turn. */
  lemma ForeignTurn(s: nat, room: RoomId, job: Job, upload: nat -> Option<Uri>, p: Progress)
    requires s != job.src
    ensures var q := ForeignRoom(s, room, job, upload, p);
            p.actions <= q.actions && Turn(q.actions[|p.actions|..], s, room, job)
  {
    var a := p.actions;
    var q := ForeignRoom(s, room, job, upload, p);
    var p1 := MainStep(s, job, upload, p);
    var u1: seq<Action> := if p.memo.file.Some? then [] else [Upload(s, MainFile, job.file, MainMime(job.content), upload(p.calls))];
    assert p1.actions == a + u1;
    if p1.memo.file.None? {
      assert q.actions[|a|..] == [] + u1;
      TurnFails([], u1[0], s, room, job);
    } else {
      assert UploadsOk(u1, s);
      var p2 := ThumbStep(s, job, upload, p1);
      var u2: seq<Action> :=
        if !HasThumbnail(job.content) || p1.memo.thumb.Some? then []
        else [Upload(s, Thumbnail, job.thumb, ThumbMime(job.content), upload(p1.calls))];
      assert p2.actions == a + (u1 + u2);
      if HasThumbnail(job.content) && p2.memo.thumb.None? {
        assert q.actions[|a|..] == u1 + u2;
        TurnFails(u1, u2[0], s, room, job);
      } else {
        assert UploadsOk(u1 + u2, s);
        var d := Deliver(s, room, job, Outgoing(job.content, p2.memo));
        assert q.actions == a + (u1 + u2 + d);
        assert q.actions[|a|..] == u1 + u2 + d;
        TurnDelivers(u1 + u2, s, room, job, Outgoing(job.content, p2.memo));
      }
    }
  }

  /** One room only appends to the calls made so far: a whole turn for an
      inbound-enabled peer, nothing for any other room. */
  lemma RoomStepTurn(s: nat, r: NamedRoom, job: Job, upload: nat -> Option<Uri>, p: Progress)
    ensures var q := RoomStep(s, r, job, upload, p);
            && p.actions <= q.actions
            && (if IsPeer(r, job.source) && r.mediaInbound then Turn(q.actions[|p.actions|..], s, r.room, job)
                else q.actions == p.actions)
  {
    if IsPeer(r, job.source) && r.mediaInbound {
      if s == job.src {
        var q := RoomStep(s, r, job, upload, p);
        assert q.actions[|p.actions|..] == Deliver(s, r.room, job, job.content);
      } else {
        ForeignTurn(s, r.room, job, upload, p);
      }
    }
  }

  /** The calls for the first `j` rooms of a server begin the calls for
      all of its rooms. */
  lemma {:induction false} ServerRelayPrefix(s: nat, rooms: seq<NamedRoom>, j: nat, job: Job, upload: nat -> Option<Uri>, calls: nat)
    requires j <= |rooms|
    ensures ServerRelay(s, rooms[..j], job, upload, calls).actions <= ServerRelay(s, rooms, job, upload, calls).actions
    decreases |rooms|
  {
    if j == |rooms| {
      assert rooms[..j] == rooms;
    } else {
      var n := |rooms| - 1;
      var init := rooms[..n];
      assert init[..j] == rooms[..j];
      ServerRelayPrefix(s, init, j, job, upload, calls);
      RoomStepTurn(s, rooms[n], job, upload, ServerRelay(s, init, job, upload, calls));
      var a := ServerRelay(s, rooms[..j], job, upload, calls).actions;
      var b := ServerRelay(s, init, job, upload, calls).actions;
      var c := ServerRelay(s, rooms, job, upload, calls).actions;
      assert c[..|b|][..|a|] == c[..|a|];
    }
  }

  /** The calls for the first `s` servers begin the calls for all of them. */
  lemma {:induction false} RelayPrefix(cfg: seq<seq<NamedRoom>>, job: Job, upload: nat -> Option<Uri>, s: nat)
    requires s <= |cfg|
    ensures Relay(cfg[..s], job, upload).actions <= Relay(cfg, job, upload).actions
    decreases |cfg|
  {
    if s == |cfg| {
      assert cfg[..s] == cfg;
    } else {
      var n := |cfg| - 1;
      assert cfg[..n][..s] == cfg[..s];
      RelayPrefix(cfg[..n], job, upload, s);
      var a := Relay(cfg[..s], job, upload).actions;
      var b := Relay(cfg[..n], job, upload).actions;
      var c := Relay(cfg, job, upload).actions;
      assert c[..|b|] == b;
      assert c[..|b|][..|a|] == c[..|a|];
    }
  }

  /** Where the turn of room `j` of server `s` begins in the relay's calls:
      after the calls for the servers before `s` and for the rooms of `s`
      before `j`. */
  function TurnStart(cfg: seq<seq<NamedRoom>>, job: Job, upload: nat -> Option<Uri>, s: nat, j: nat): nat
    requires s < |cfg| && j <= |cfg[s]|
  {
    var before := Relay(cfg[..s], job, upload);
    |before.actions| + |ServerRelay(s, cfg[s][..j], job, upload, before.calls).actions|
  }

  /** Within one server, the calls of room `j` are a whole turn of that
      room when it is an inbound-enabled peer, and nothing otherwise. */
  lemma ServerTurn(s: nat, rs: seq<NamedRoom>, j: nat, job: Job, upload: nat -> Option<Uri>, calls: nat)
    requires j < |rs|
    ensures var lo := |ServerRelay(s, rs[..j], job, upload, calls).actions|;
            var hi := |ServerRelay(s, rs[..j + 1], job, upload, calls).actions|;
            var whole := ServerRelay(s, rs, job, upload, calls).actions;
            && lo <= hi <= |whole|
            && if IsPeer(rs[j], job.source) && rs[j].mediaInbound then Turn(whole[lo..hi], s, rs[j].room, job)
               else whole[lo..hi] == []
  {
    var pj := ServerRelay(s, rs[..j], job, upload, calls);
    var pj1 := ServerRelay(s, rs[..j + 1], job, upload, calls);
    assert rs[..j + 1][..j] == rs[..j];
    assert pj1 == RoomStep(s, rs[j], job, upload, pj);
    RoomStepTurn(s, rs[j], job, upload, pj);
    ServerRelayPrefix(s, rs, j + 1, job, upload, calls);
    var whole := ServerRelay(s, rs, job, upload, calls).actions;
    assert whole[|pj.actions|..|pj1.actions|] == pj1.actions[|pj.actions|..];
  }

  /** A slice of a part of `t` is a slice of `t`. */
  lemma SliceOfSlice(t: seq<Action>, w: seq<Action>, b: nat, lo: nat, hi: nat)
    requires b + |w| <= |t| && t[b..b + |w|] == w && lo <= hi <= |w|
    ensures t[b + lo..b + hi] == w[lo..hi]
  {
    forall k | 0 <= k < hi - lo ensures t[b + lo..b + hi][k] == w[lo..hi][k] {
      assert t[b..b + |w|][lo + k] == w[lo + k];
    }
  }

  /** A turn found within part `w` of `t`, at `w[lo..hi]`, is found in `t`
      at the same place shifted by where `w` begins. */
  lemma TurnWithin(t: seq<Action>, w: seq<Action>, b: nat, lo: nat, hi: nat, a0: nat, a1: nat,
                   peer: bool, s: nat, room: RoomId, job: Job)
    requires b + |w| <= |t| && t[b..b + |w|] == w && lo <= hi <= |w|
    requires a0 == b + lo && a1 == b + hi
    requires if peer then Turn(w[lo..hi], s, room, job) else w[lo..hi] == []
    ensures a0 <= a1 <= |t|
    ensures if peer then Turn(t[a0..a1], s, room, job) else t[a0..a1] == []
  {
    SliceOfSlice(t, w, b, lo, hi);
  }

  /** The calls of server `s` sit in the whole relay right after those of
      the servers before it. */
  lemma ServerSlice(cfg: seq<seq<NamedRoom>>, job: Job, upload: nat -> Option<Uri>, s: nat)
    requires s < |cfg|
    ensures var before := Relay(cfg[..s], job, upload);
            var whole := ServerRelay(s, cfg[s], job, upload, before.calls).actions;
            && |before.actions| + |whole| <= |Relay(cfg, job, upload).actions|
            && Relay(cfg, job, upload).actions[|before.actions|..|before.actions| + |whole|] == whole
  {
    var before := Relay(cfg[..s], job, upload);
    var whole := ServerRelay(s, cfg[s], job, upload, before.calls).actions;
    assert cfg[..s + 1][..s] == cfg[..s];
    var upto := Relay(cfg[..s + 1], job, upload).actions;
    assert upto == before.actions + whole;
    RelayPrefix(cfg, job, upload, s + 1);
    assert upto[|before.actions|..] == whole;
  }

  /** Room by room: the calls between the start of room `j`'s turn and the
      start of the next room's are a whole turn of that room when it is an
      inbound-enabled peer, and nothing otherwise. So on the source server
      every such peer gets the announcement and the original event, and
      elsewhere every such peer gets the announcement and the event unless
      its own turn ends in a failed upload; no room's turn touches another
      room. */
  lemma RelayTurns(cfg: seq<seq<NamedRoom>>, job: Job, upload: nat -> Option<Uri>, s: nat, j: nat)
    requires s < |cfg| && j < |cfg[s]|
    ensures TurnStart(cfg, job, upload, s, j) <= TurnStart(cfg, job, upload, s, j + 1) <= |Relay(cfg, job, upload).actions|
    ensures var seg := Relay(cfg, job, upload).actions[TurnStart(cfg, job, upload, s, j)..TurnStart(cfg, job, upload, s, j + 1)];
            if IsPeer(cfg[s][j], job.source) && cfg[s][j].mediaInbound then Turn(seg, s, cfg[s][j].room, job)
            else seg == []
  {
    var t := Relay(cfg, job, upload).actions;
    var before := Relay(cfg[..s], job, upload);
    var whole := ServerRelay(s, cfg[s], job, upload, before.calls).actions;
    var lo := |ServerRelay(s, cfg[s][..j], job, upload, before.calls).actions|;
    var hi := |ServerRelay(s, cfg[s][..j + 1], job, upload, before.calls).actions|;
    ServerTurn(s, cfg[s], j, job, upload, before.calls);
    ServerSlice(cfg, job, upload, s);
    TurnWithin(t, whole, |before.actions|, lo, hi, TurnStart(cfg, job, upload, s, j), TurnStart(cfg, job, upload, s, j + 1),
               IsPeer(cfg[s][j], job.source) && cfg[s][j].mediaInbound, s, cfg[s][j].room, job);
  }

  /** The turns cover the calls without gap or overlap, in server order and
      then list order: the first room's turn begins where the previous
      server's last turn ended (at 0 for the first server), and the last
      server's last turn ends with the last call. */
  lemma RelayTurnsCover(cfg: seq<seq<NamedRoom>>, job: Job, upload: nat -> Option<Uri>, s: nat)
    requires s < |cfg|
    ensures TurnStart(cfg, job, upload, s, 0) == if s == 0 then 0 else TurnStart(cfg, job, upload, s - 1, |cfg[s - 1]|)
    ensures s == |cfg| - 1 ==> TurnStart(cfg, job, upload, s, |cfg[s]|) == |Relay(cfg, job, upload).actions|
  {
    assert cfg[s][..0] == [];
    if s > 0 {
      var p := s - 1;
      assert cfg[..p + 1] == cfg[..s];
      assert cfg[..p + 1][..p] == cfg[..p];
      assert cfg[p][..|cfg[p]|] == cfg[p];
    }
    if s == |cfg| - 1 {
      assert cfg[..s + 1] == cfg;
      assert cfg[..s + 1][..s] == cfg[..s];
      assert cfg[s][..|cfg[s]|] == cfg[s];
    }
  }

  /** An upload carries the job's main file with the MIME type looked up for
      it, or the job's declared thumbnail with the thumbnail's. */
  predicate Declared(a: Action, job: Job) {
    a.Upload? ==>
      || (a.asset == MainFile && a.data == job.file && a.mime == MainMime(job.content))
      || (a.asset == Thumbnail && HasThumbnail(job.content) && a.data == job.thumb && a.mime == ThumbMime(job.content))
  }

  predicate AllDeclared(t: seq<Action>, job: Job) {
    forall k :: 0 <= k < |t| ==> Declared(t[k], job)
  }

  lemma AllDeclaredAppend(a: seq<Action>, b: seq<Action>, job: Job)
    requires AllDeclared(a, job) && AllDeclared(b, job)
    ensures AllDeclared(a + b, job)
  {

  }

  lemma RoomStepDeclared(s: nat, r: NamedRoom, job: Job, upload: nat -> Option<Uri>, p: Progress)
    requires AllDeclared(p.actions, job)
    ensures AllDeclared(RoomStep(s, r, job, upload, p).actions, job)
  {
    var a := p.actions;
    var q := RoomStep(s, r, job, upload, p);
    if IsPeer(r, job.source) && r.mediaInbound {
      if s == job.src {
        var d := Deliver(s, r.room, job, job.content);
        assert AllDeclared(d, job);
        AllDeclaredAppend(a, d, job);
      } else {
        var p1 := MainStep(s, job, upload, p);
        var u1: seq<Action> := if p.memo.file.Some? then [] else [Upload(s, MainFile, job.file, MainMime(job.content), upload(p.calls))];
        assert p1.actions == a + u1;
        assert AllDeclared(u1, job);
        AllDeclaredAppend(a, u1, job);
        if p1.memo.file.Some? {
          var p2 := ThumbStep(s, job, upload, p1);
          var u2: seq<Action> :=
            if !HasThumbnail(job.content) || p1.memo.thumb.Some? then []
            else [Upload(s, Thumbnail, job.thumb, ThumbMime(job.content), upload(p1.calls))];
          assert p2.actions == (a + u1) + u2;
          assert AllDeclared(u2, job);
          AllDeclaredAppend(a + u1, u2, job);
          if !(HasThumbnail(job.content) && p2.memo.thumb.None?) {
            var d := Deliver(s, r.room, job, Outgoing(job.content, p2.memo));
            assert AllDeclared(d, job);
            AllDeclaredAppend(p2.actions, d, job);
          }
        }
      }
    }
  }

  lemma {:induction false} ServerRelayDeclared(s: nat, rooms: seq<NamedRoom>, job: Job, upload: nat -> Option<Uri>, calls: nat)
    ensures AllDeclared(ServerRelay(s, rooms, job, upload, calls).actions, job)
  {
    if rooms != [] {
      var n := |rooms| - 1;
      ServerRelayDeclared(s, rooms[..n], job, upload, calls);
      RoomStepDeclared(s, rooms[n], job, upload, ServerRelay(s, rooms[..n], job, upload, calls));
    }
  }

  /** Every upload of a relay carries the main file, or the thumbnail when
      one is declared, with the MIME type looked up for that asset. */
  lemma {:induction false} RelayUploadsDeclared(cfg: seq<seq<NamedRoom>>, job: Job, upload: nat -> Option<Uri>)
    ensures AllDeclared(Relay(cfg, job, upload).actions, job)
  {
    if cfg != [] {
      var n := |cfg| - 1;
      var prev := Relay(cfg[..n], job, upload);
      RelayUploadsDeclared(cfg[..n], job, upload);
      ServerRelayDeclared(n, cfg[n], job, upload, prev.calls);
      AllDeclaredAppend(prev.actions, ServerRelay(n, cfg[n], job, upload, prev.calls).actions, job);
    }
  }

  /** An upload whose MIME type comes from an info block that is not
      there: the source dereferences nil at this call. */
  predicate ReadsMissingInfo(a: Action) {
    a.Upload? && a.mime.None?
  }

  /** No call of the trace reads a missing info block. */
  predicate NoMissingInfo(t: seq<Action>) {
    forall k :: 0 <= k < |t| ==> !ReadsMissingInfo(t[k])
  }

  /** A media event with its info block, and with a thumbnail info block
      when it declares a thumbnail, never reaches a missing MIME type. */
  lemma WellFormedReadsInfo(cfg: seq<seq<NamedRoom>>, job: Job, upload: nat -> Option<Uri>)
    requires MediaWellFormed(job.content)
    ensures NoMissingInfo(Relay(cfg, job, upload).actions)
  {
    RelayUploadsDeclared(cfg, job, upload);
  }

  /** A room step that is part of a trace without missing MIME types only
      uploads what the event's info blocks describe: before the main file
      upload the info block is there, and before the thumbnail upload the
      thumbnail info block is. */
  lemma MimeReadable(s: nat, r: NamedRoom, job: Job, upload: nat -> Option<Uri>, p: Progress, t: seq<Action>)
    requires IsPeer(r, job.source) && r.mediaInbound && s != job.src
    requires RoomStep(s, r, job, upload, p).actions <= t && NoMissingInfo(t)
    ensures p.memo.file.None? ==> job.content.info.Some?
    ensures var p1 := MainStep(s, job, upload, p);
            p1.memo.file.Some? && HasThumbnail(job.content) && p1.memo.thumb.None? ==>
              job.content.info.Some? && job.content.info.value.thumbnailInfo.Some?
  {
    var q := RoomStep(s, r, job, upload, p);
    var p1 := MainStep(s, job, upload, p);
    assert p1.actions <= q.actions by {
      if p1.memo.file.Some? {
        var p2 := ThumbStep(s, job, upload, p1);
        assert p1.actions <= p2.actions;
      }
    }
    if p.memo.file.None? {
      assert t[|p.actions|] == p1.actions[|p.actions|];
    }
    if p1.memo.file.Some? && HasThumbnail(job.content) && p1.memo.thumb.None? {
      var p2 := ThumbStep(s, job, upload, p1);
      assert t[|p1.actions|] == p2.actions[|p1.actions|];
    }
  }

  /** A part of a trace without missing MIME types has none either. */
  lemma NoMissingInfoPart(t: seq<Action>, w: seq<Action>, b: nat)
    requires b + |w| <= |t| && t[b..b + |w|] == w && NoMissingInfo(t)
    ensures NoMissingInfo(w)
  {

  }

  /** When the whole relay reaches no missing MIME type, neither does the
      relay over any one server. */
  lemma ServerReadsInfo(cfg: seq<seq<NamedRoom>>, job: Job, upload: nat -> Option<Uri>, s: nat)
    requires s < |cfg| && NoMissingInfo(Relay(cfg, job, upload).actions)
    ensures NoMissingInfo(ServerRelay(s, cfg[s], job, upload, Relay(cfg[..s], job, upload).calls).actions)
  {
    var before := Relay(cfg[..s], job, upload);
    ServerSlice(cfg, job, upload, s);
    NoMissingInfoPart(Relay(cfg, job, upload).actions, ServerRelay(s, cfg[s], job, upload, before.calls).actions, |before.actions|);
  }

  // ---------------------------------------------------------------------
  // The memo: each asset is uploaded to a server only until it succeeds

  /** The upload at position `k`, if it is one, is made while no upload of
      its asset to its server has succeeded before it, and a thumbnail only
      once the main file has (main.go:245, main.go:254). */
  predicate MemoGuardAt(t: seq<Action>, k: nat)
    requires k < |t|
  {
    t[k].Upload? ==>
      && Uploads(t[..k], t[k].server, t[k].asset, true) == 0
      && (t[k].asset == Thumbnail ==> Uploads(t[..k], t[k].server, MainFile, true) >= 1)
  }

  predicate MemoGuarded(t: seq<Action>) {
    forall k :: 0 <= k < |t| ==> MemoGuardAt(t, k)
  }

  lemma GuardedAppendOne(t: seq<Action>, x: Action)
    requires MemoGuarded(t)
    requires x.Upload? ==> Uploads(t, x.server, x.asset, true) == 0
                           && (x.asset == Thumbnail ==> Uploads(t, x.server, MainFile, true) >= 1)
    ensures MemoGuarded(t + [x])
  {
    var u := t + [x];
    forall k | 0 <= k < |u| ensures MemoGuardAt(u, k) {
      if k < |t| {
        assert u[..k] == t[..k] && u[k] == t[k];
        assert MemoGuardAt(t, k);
      } else {
        assert u[..k] == t;
      }
    }
  }

  lemma GuardedAppendSends(t: seq<Action>, e: seq<Action>)
    requires MemoGuarded(t)
    requires forall k :: 0 <= k < |e| ==> !e[k].Upload?
    ensures MemoGuarded(t + e)
  {
    var u := t + e;
    forall k | 0 <= k < |u| ensures MemoGuardAt(u, k) {
      if k < |t| {
        assert u[..k] == t[..k] && u[k] == t[k];
        assert MemoGuardAt(t, k);
      } else {
        assert u[k] == e[k - |t|];
      }
    }
  }

  /** A peer on another server uploads only what the memo lacks. */
  lemma ForeignGuarded(s: nat, rooms: seq<NamedRoom>, r: NamedRoom, job: Job, upload: nat -> Option<Uri>, p: Progress)
    requires s != job.src && UploadPhase(s, rooms, job, p) && MemoGuarded(p.actions)
    ensures MemoGuarded(ForeignRoom(s, r.room, job, upload, p).actions)
  {
    var p1 := MainStep(s, job, upload, p);
    if p.memo.file.None? {
      GuardedAppendOne(p.actions, Upload(s, MainFile, job.file, MainMime(job.content), upload(p.calls)));
    }
    if p1.memo.file.Some? {
      MainStepKeeps(s, rooms, job, upload, p);
      var p2 := ThumbStep(s, job, upload, p1);
      if HasThumbnail(job.content) && p1.memo.thumb.None? {
        GuardedAppendOne(p1.actions, Upload(s, Thumbnail, job.thumb, ThumbMime(job.content), upload(p1.calls)));
      }
      if !(HasThumbnail(job.content) && p2.memo.thumb.None?) {
        GuardedAppendSends(p2.actions, Deliver(s, r.room, job, Outgoing(job.content, p2.memo)));
      }
    }
  }

  lemma {:induction false} ServerGuarded(s: nat, rooms: seq<NamedRoom>, job: Job, upload: nat -> Option<Uri>, calls: nat)
    ensures MemoGuarded(ServerRelay(s, rooms, job, upload, calls).actions)
  {
    if rooms != [] {
      var n := |rooms| - 1;
      var init := rooms[..n];
      var p := ServerRelay(s, init, job, upload, calls);
      var r := rooms[n];
      ServerGuarded(s, init, job, upload, calls);
      if IsPeer(r, job.source) && r.mediaInbound {
        if s == job.src {
          GuardedAppendSends(p.actions, Deliver(s, r.room, job, job.content));
        } else {
          ServerRelayInv(s, init, job, upload, calls);
          ForeignGuarded(s, init, r, job, upload, p);
        }
      }
    }
  }

  /** Guarded traces on different servers stay guarded one after the other. */
  lemma GuardedConcat(t1: seq<Action>, t2: seq<Action>, s: nat)
    requires MemoGuarded(t1) && MemoGuarded(t2)
    requires forall k :: 0 <= k < |t1| ==> t1[k].server != s
    requires AllOn(t2, s)
    ensures MemoGuarded(t1 + t2)
  {
    var u := t1 + t2;
    CountsElsewhere(t1, s);
    forall k | 0 <= k < |u| ensures MemoGuardAt(u, k) {
      if k < |t1| {
        assert u[..k] == t1[..k] && u[k] == t1[k];
        assert MemoGuardAt(t1, k);
      } else {
        var i := k - |t1|;
        assert u[..k] == t1 + t2[..i] && u[k] == t2[i];
        assert MemoGuardAt(t2, i);
        CountsAppend(t1, t2[..i], s);
      }
    }
  }

  lemma {:induction false} RelayGuarded(cfg: seq<seq<NamedRoom>>, job: Job, upload: nat -> Option<Uri>)
    ensures MemoGuarded(Relay(cfg, job, upload).actions)
  {
    if cfg != [] {
      var n := |cfg| - 1;
      var init := cfg[..n];
      var prev := Relay(init, job, upload);
      var seg := ServerRelay(n, cfg[n], job, upload, prev.calls);
      RelayGuarded(init, job, upload);
      RelayPlaces(init, job, upload);
      ServerGuarded(n, cfg[n], job, upload, prev.calls);
      ServerRelayInv(n, cfg[n], job, upload, prev.calls);
      GuardedConcat(prev.actions, seg.actions, n);
    }
  }

  /** Some upload of `asset` to `s` before position `k` succeeded. */
  predicate SucceededBefore(t: seq<Action>, k: nat, s: nat, asset: Asset) {
    exists i :: 0 <= i < k && i < |t| && IsUpload(t[i], s, asset, true)
  }

  lemma {:induction false} UploadsWitness(t: seq<Action>, s: nat, asset: Asset)
    ensures Uploads(t, s, asset, true) >= 1 <==> SucceededBefore(t, |t|, s, asset)
  {
    if t != [] {
      var n := |t| - 1;
      UploadsWitness(t[..n], s, asset);
      if SucceededBefore(t[..n], n, s, asset) {
        var i :| 0 <= i < n && IsUpload(t[..n][i], s, asset, true);
        assert t[i] == t[..n][i];
      }
      if SucceededBefore(t, |t|, s, asset) && !IsUpload(t[n], s, asset, true) {
        var i :| 0 <= i < |t| && IsUpload(t[i], s, asset, true);
        assert t[..n][i] == t[i];
      }
    }
  }

  /** Whether an upload succeeded before `k` depends on the first `k` calls
      only. */
  lemma SucceededPrefix(t: seq<Action>, k: nat, s: nat, asset: Asset)
    requires k <= |t|
    ensures SucceededBefore(t, k, s, asset) <==> Uploads(t[..k], s, asset, true) >= 1
  {
    UploadsWitness(t[..k], s, asset);
    assert forall i :: 0 <= i < k ==> t[..k][i] == t[i];
  }

  /** The memo of each destination server in action: over the whole relay,
      an asset is uploaded to a server only while no earlier upload of it
      to that server has succeeded, and the thumbnail only after the main
      file's upload succeeded there. */
  lemma UploadsOnlyWhileMissing(cfg: seq<seq<NamedRoom>>, job: Job, upload: nat -> Option<Uri>, k: nat)
    requires k < |Relay(cfg, job, upload).actions|
    ensures var t := Relay(cfg, job, upload).actions;
            t[k].Upload? ==>
              && !SucceededBefore(t, k, t[k].server, t[k].asset)
              && (t[k].asset == Thumbnail ==> SucceededBefore(t, k, t[k].server, MainFile))
  {
    var t := Relay(cfg, job, upload).actions;
    RelayGuarded(cfg, job, upload);
    assert MemoGuardAt(t, k);
    if t[k].Upload? {
      SucceededPrefix(t, k, t[k].server, t[k].asset);
      SucceededPrefix(t, k, t[k].server, MainFile);
    }
  }

  /** Once an upload of an asset to a server succeeded, that asset is never
      uploaded to that server again during the relay. */
  lemma NoUploadAfterSuccess(cfg: seq<seq<NamedRoom>>, job: Job, upload: nat -> Option<Uri>, k1: nat, k2: nat, s: nat, asset: Asset)
    requires k1 < k2 < |Relay(cfg, job, upload).actions|
    requires IsUpload(Relay(cfg, job, upload).actions[k1], s, asset, true)
    ensures var a := Relay(cfg, job, upload).actions[k2];
            !(a.Upload? && a.server == s && a.asset == asset)
  {
    UploadsOnlyWhileMissing(cfg, job, upload, k2);
  }

  /** A turn on another server that makes no upload is the announcement
      and the event. */
  lemma TurnWithoutUploads(seg: seq<Action>, s: nat, room: RoomId, job: Job)
    requires s != job.src && Turn(seg, s, room, job)
    requires forall i :: 0 <= i < |seg| ==> !(seg[i].Upload? && seg[i].server == s)
    ensures |seg| == 2 && seg[0] == SendText(s, room, Line(job))
    ensures seg[1].SendMessage? && seg[1].server == s && seg[1].room == room
  {
  }

  /** A later inbound-enabled peer on a server where the main file, and the
      declared thumbnail if any, were already uploaded gets its announcement
      and its event with no upload in between: the memo is reused. */
  lemma MemoReused(cfg: seq<seq<NamedRoom>>, job: Job, upload: nat -> Option<Uri>, s: nat, j: nat)
    requires s < |cfg| && j < |cfg[s]| && s != job.src
    requires IsPeer(cfg[s][j], job.source) && cfg[s][j].mediaInbound
    requires SucceededBefore(Relay(cfg, job, upload).actions, TurnStart(cfg, job, upload, s, j), s, MainFile)
    requires HasThumbnail(job.content) ==>
               SucceededBefore(Relay(cfg, job, upload).actions, TurnStart(cfg, job, upload, s, j), s, Thumbnail)
    ensures var t := Relay(cfg, job, upload).actions;
            var lo := TurnStart(cfg, job, upload, s, j);
            && TurnStart(cfg, job, upload, s, j + 1) == lo + 2 <= |t|
            && t[lo] == SendText(s, cfg[s][j].room, Line(job))
            && t[lo + 1].SendMessage? && t[lo + 1].server == s && t[lo + 1].room == cfg[s][j].room
  {
    var t := Relay(cfg, job, upload).actions;
    var lo := TurnStart(cfg, job, upload, s, j);
    var hi := TurnStart(cfg, job, upload, s, j + 1);
    RelayTurns(cfg, job, upload, s, j);
    var seg := t[lo..hi];
    forall i | 0 <= i < |seg| ensures !(seg[i].Upload? && seg[i].server == s) {
      SegmentUploadBlocked(cfg, job, upload, s, lo, lo + i);
      assert seg[i] == t[lo + i];
    }
    TurnWithoutUploads(seg, s, cfg[s][j].room, job);
  }

  /** After every asset the job has was uploaded to `s` before position
      `lo`, no call from `lo` on is an upload to `s`. */
  lemma SegmentUploadBlocked(cfg: seq<seq<NamedRoom>>, job: Job, upload: nat -> Option<Uri>, s: nat, lo: nat, k: nat)
    requires lo <= k < |Relay(cfg, job, upload).actions|
    requires SucceededBefore(Relay(cfg, job, upload).actions, lo, s, MainFile)
    requires HasThumbnail(job.content) ==> SucceededBefore(Relay(cfg, job, upload).actions, lo, s, Thumbnail)
    ensures var a := Relay(cfg, job, upload).actions[k];
            !(a.Upload? && a.server == s)
  {
    var t := Relay(cfg, job, upload).actions;
    RelayUploadsDeclared(cfg, job, upload);
    assert Declared(t[k], job);
    UploadsOnlyWhileMissing(cfg, job, upload, k);
    assert SucceededBefore(t, lo, s, MainFile) ==> SucceededBefore(t, k, s, MainFile);
    assert SucceededBefore(t, lo, s, Thumbnail) ==> SucceededBefore(t, k, s, Thumbnail);
  }
}
