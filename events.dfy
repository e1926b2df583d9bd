/** What the message callback (main.go:144-284) does with one event, as the
    sequence of client calls it makes, and what the membership callback
    (main.go:286-297) decides. `cfg` holds the servers' room lists, `src` is
    the number of the server the event arrived on and `self` that server's
    client user id. Downloads from the source server are answered by
    `download`, indexed by their number during the event, and uploads by
    `upload` (see Media). */
module Events {
  import opened Types
  import opened Messages
  import opened Groups
  import opened Fanout
  import opened Media

  /** The download oracle: `download(n, uri)` is what the `n`-th download
      of the event (0 the file, 1 its thumbnail) returns. */
  type Downloads = (nat, Uri) -> Option<Bytes>

  /** The relay job a media message becomes, if it passes every gate of
      the media path: not an echo, a tracked room with outbound media on,
      and the file and any declared thumbnail downloaded. */
  function Handover(cfg: seq<seq<NamedRoom>>, self: UserId, src: nat, evt: MessageEvent, download: Downloads): Option<Job>
    requires src < |cfg|
  {
    var source := FirstWithId(cfg[src], evt.room);
    var msg := Normalize(evt.content);
    if evt.sender == self || source.room == "" || Classify(msg.msgType) != MediaLike || !source.mediaOutbound then None
    else if download(0, msg.url).None? then None
    else if !HasThumbnail(msg) then Some(Job(src, source, evt.sender, msg, download(0, msg.url).value, []))
    else if download(1, msg.info.value.thumbnailUrl).None? then None
    else Some(Job(src, source, evt.sender, msg, download(0, msg.url).value, download(1, msg.info.value.thumbnailUrl).value))
  }

  /** The events the callback handles without dereferencing a missing
      info block: those whose relay makes no upload that needs a MIME type
      the event lacks (main.go:246, main.go:255). */
  predicate Dereferenceable(cfg: seq<seq<NamedRoom>>, self: UserId, src: nat, evt: MessageEvent,
                            download: Downloads, upload: nat -> Option<Uri>)
    requires src < |cfg|
  {
    var h := Handover(cfg, self, src, evt, download);
    h.Some? ==> NoMissingInfo(Relay(cfg, h.value, upload).actions)
  }

  /** The calls made for one message event. An echo of the bridge's own
      account, an event from an untracked room and a message of an
      unhandled type lead to no call; so does a media message from a room
      whose outbound media is off, or whose file, or declared thumbnail,
      cannot be downloaded: media goes out whole or not at all. An upload
      without a MIME type marks the call at which the source would crash. */
  function Outcome(cfg: seq<seq<NamedRoom>>, self: UserId, src: nat, evt: MessageEvent,
                   download: Downloads, upload: nat -> Option<Uri>): (t: seq<Action>)
    requires src < |cfg|
    ensures evt.sender == self ==> t == []
    ensures !Tracked(cfg[src], evt.room) ==> t == []
    ensures Classify(evt.content.msgType) == Unhandled ==> t == []
    ensures Classify(evt.content.msgType) == MediaLike ==>
              && (!FirstWithId(cfg[src], evt.room).mediaOutbound ==> t == [])
              && (download(0, evt.content.url).None? ==> t == [])
              && (HasThumbnail(evt.content) && download(1, evt.content.info.value.thumbnailUrl).None? ==> t == [])
  {
    FirstWithIdFinds(cfg[src], evt.room);
    if evt.sender == self then []
    else
      var source := FirstWithId(cfg[src], evt.room);
      if source.room == "" then []
      else
        var msg := Normalize(evt.content);
        match Classify(msg.msgType)
        case TextLike => Sends(Peers(cfg, source), Prefixed(evt.sender, msg))
        case MediaLike =>
          var h := Handover(cfg, self, src, evt, download);
          if h.None? then [] else Relay(cfg, h.value, upload).actions
        case Unhandled => []
  }

  /** Every event whose media content carries its info block, and a
      thumbnail info block when it declares a thumbnail, is handled without
      a crash; so is every event that is not media. */
  lemma WellFormedDereferenceable(cfg: seq<seq<NamedRoom>>, self: UserId, src: nat, evt: MessageEvent,
                                  download: Downloads, upload: nat -> Option<Uri>)
    requires src < |cfg|
    requires Classify(evt.content.msgType) == MediaLike ==> MediaWellFormed(evt.content)
    ensures Dereferenceable(cfg, self, src, evt, download, upload)
  {
    var h := Handover(cfg, self, src, evt, download);
    if h.Some? {
      WellFormedReadsInfo(cfg, h.value, upload);
    }
  }

  /** A text, notice or location message reaches every peer of its room
      exactly once, in server order then list order, carrying the
      normalised content with the sender header in front of its body and,
      when it still has one, of its formatted body. */
  lemma TextEventRelayed(cfg: seq<seq<NamedRoom>>, self: UserId, src: nat, evt: MessageEvent,
                         download: Downloads, upload: nat -> Option<Uri>)
    requires src < |cfg|
    requires evt.sender != self && Tracked(cfg[src], evt.room)
    requires Classify(evt.content.msgType) == TextLike
    ensures var t := Outcome(cfg, self, src, evt, download, upload);
            var p := Peers(cfg, FirstWithId(cfg[src], evt.room));
            var m := Prefixed(evt.sender, Normalize(evt.content));
            && |t| == |p|
            && (forall k :: 0 <= k < |t| ==> t[k] == SendMessage(p[k].server, p[k].room.room, m))
            && m.body == BodyHeader(evt.sender) + evt.content.body
            && m.relatesTo.None? && m.newContent.None?
            && (evt.content.relatesTo.Some? ==> m.formattedBody == "" && m.format == "")
  {
    FirstWithIdFinds(cfg[src], evt.room);
    var m := Prefixed(evt.sender, Normalize(evt.content));
    assert m.body == m.body[..|BodyHeader(evt.sender)|] + m.body[|BodyHeader(evt.sender)|..];
  }

  /** A media message whose assets were downloaded is handed to the relay
      with the room it came from, its normalised content and both assets. */
  lemma MediaEventRelayed(cfg: seq<seq<NamedRoom>>, self: UserId, src: nat, evt: MessageEvent,
                          download: Downloads, upload: nat -> Option<Uri>)
    requires src < |cfg|
    requires evt.sender != self && Tracked(cfg[src], evt.room)
    requires Classify(evt.content.msgType) == MediaLike
    requires FirstWithId(cfg[src], evt.room).mediaOutbound
    requires download(0, evt.content.url).Some?
    requires HasThumbnail(evt.content) ==> download(1, evt.content.info.value.thumbnailUrl).Some?
    ensures var thumb := if HasThumbnail(evt.content) then download(1, evt.content.info.value.thumbnailUrl).value else [];
            var job := Job(src, FirstWithId(cfg[src], evt.room), evt.sender, Normalize(evt.content),
                           download(0, evt.content.url).value, thumb);
            && Handover(cfg, self, src, evt, download) == Some(job)
            && job.source.room == evt.room
            && Outcome(cfg, self, src, evt, download, upload) == Relay(cfg, job, upload).actions
  {
    FirstWithIdFinds(cfg[src], evt.room);
  }

  /** No event is ever relayed back into the room it came from. */
  lemma NoEchoToSource(cfg: seq<seq<NamedRoom>>, self: UserId, src: nat, evt: MessageEvent,
                       download: Downloads, upload: nat -> Option<Uri>, k: nat)
    requires src < |cfg|
    requires k < |Outcome(cfg, self, src, evt, download, upload)|
    ensures Outcome(cfg, self, src, evt, download, upload)[k].IsSend() ==>
              Outcome(cfg, self, src, evt, download, upload)[k].room != evt.room
  {
    FirstWithIdFinds(cfg[src], evt.room);
    var source := FirstWithId(cfg[src], evt.room);
    var msg := Normalize(evt.content);
    if Classify(msg.msgType) == TextLike {
      TextFanOutTargets(cfg, source, Prefixed(evt.sender, msg), k);
    } else {
      var thumb := if HasThumbnail(msg) then download(1, msg.info.value.thumbnailUrl).value else [];
      var job := Job(src, source, evt.sender, msg, download(0, msg.url).value, thumb);
      RelayedEventShape(cfg, job, upload, k);
    }
  }

  /** Whatever the event, no destination server gets more than one
      successful upload of each asset, and the source server gets none. */
  lemma EventUploadsOnce(cfg: seq<seq<NamedRoom>>, self: UserId, src: nat, evt: MessageEvent,
                         download: Downloads, upload: nat -> Option<Uri>, s: nat, asset: Asset)
    requires src < |cfg|
    ensures Uploads(Outcome(cfg, self, src, evt, download, upload), s, asset, true) <= 1
    ensures Uploads(Outcome(cfg, self, src, evt, download, upload), src, asset, true) == 0
  {
    var t := Outcome(cfg, self, src, evt, download, upload);
    var h := Handover(cfg, self, src, evt, download);
    if h.Some? {
      assert t == Relay(cfg, h.value, upload).actions;
      UploadedOncePerServer(cfg, h.value, upload, s, asset);
      UploadedOncePerServer(cfg, h.value, upload, src, asset);
    } else {
      forall k | 0 <= k < |t| ensures !t[k].Upload? {
        var source := FirstWithId(cfg[src], evt.room);
        var msg := Normalize(evt.content);
        if evt.sender != self && source.room != "" && Classify(msg.msgType) == TextLike {
          assert t == Sends(Peers(cfg, source), Prefixed(evt.sender, msg));
        }
      }
      CountsNoUploads(t, s);
      CountsNoUploads(t, src);
    }
  }

  /** The membership states that mean the bridge is out of the room. */
  predicate IsLeaveOrBan(membership: string) {
    membership == "leave" || membership == "ban"
  }

  /** A membership event removes the room from the receiving server's list
      exactly when it is about the bridge's own account and says it left or
      was banned. */
  predicate Departs(whoami: UserId, evt: MemberEvent) {
    evt.stateKey == whoami && IsLeaveOrBan(evt.membership)
  }

  /** Once the bridge has left room `id` on server `s`, that server's
      events from the room are ignored, and no event, whichever server it
      arrives on, is relayed into the room on `s`. */
  lemma DepartedRoomSilent(cfg: seq<seq<NamedRoom>>, s: nat, id: RoomId, self: UserId, src: nat, evt: MessageEvent,
                           download: Downloads, upload: nat -> Option<Uri>, k: nat)
    requires s < |cfg| && src < |cfg|
    ensures src == s && evt.room == id ==> Outcome(Pruned(cfg, s, id), self, src, evt, download, upload) == []
    ensures k < |Outcome(Pruned(cfg, s, id), self, src, evt, download, upload)| ==>
              var a := Outcome(Pruned(cfg, s, id), self, src, evt, download, upload)[k];
              a.IsSend() && a.server == s ==> a.room != id
  {
    var cfg' := Pruned(cfg, s, id);
    PrunedRoomUnreachable(cfg, s, id, NoRoom);
    var t := Outcome(cfg', self, src, evt, download, upload);
    if k < |t| && t[k].IsSend() && t[k].server == s {
      WithoutContents(cfg[s], id);
      FirstWithIdFinds(cfg'[src], evt.room);
      var source := FirstWithId(cfg'[src], evt.room);
      var msg := Normalize(evt.content);
      if Classify(msg.msgType) == TextLike {
        TextFanOutTargets(cfg', source, Prefixed(evt.sender, msg), k);
        var j :| 0 <= j < |cfg'[s]| && cfg'[s][j].room == t[k].room && cfg'[s][j].name == source.name;
        assert cfg'[s][j] in Without(cfg[s], id);
      } else {
        var thumb := if HasThumbnail(msg) then download(1, msg.info.value.thumbnailUrl).value else [];
        var job := Job(src, source, evt.sender, msg, download(0, msg.url).value, thumb);
        RelayedEventShape(cfg', job, upload, k);
        var j :| 0 <= j < |cfg'[s]| && cfg'[s][j].room == t[k].room && IsPeer(cfg'[s][j], source) && cfg'[s][j].mediaInbound;
        assert cfg'[s][j] in Without(cfg[s], id);
      }
    }
  }
}
