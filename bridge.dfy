/** The running bridge: one `Server` object per configured homeserver, each
    owning the room list its callbacks read and its membership callback
    rewrites (main.go:31-39, 286-297), and the two callbacks as methods. The
    client calls a callback makes are returned in order; downloads from the
    event's server and the replies to uploads come from `download` and
    `upload`, both indexed by the number of such calls made before. Each method is proved equal to the function in Groups, Fanout,
    Media or Events that specifies it. */
module Bridge {
  import opened Types
  import opened Messages
  import opened Groups
  import opened Fanout
  import opened Media
  import opened Events

  /** A logged-in homeserver: the client's user id (used to drop echoes),
      the id `Whoami` returned at login (used by the membership callback)
      and the configured rooms, which a departure shrinks. */
  class Server {
    const homeserver: string
    const clientId: UserId
    const whoami: UserId
    var rooms: seq<NamedRoom>

    constructor (homeserver: string, clientId: UserId, whoami: UserId, rooms: seq<NamedRoom>)
      ensures this.homeserver == homeserver && this.clientId == clientId && this.whoami == whoami
      ensures this.rooms == rooms
    {
      this.homeserver := homeserver;
      this.clientId := clientId;
      this.whoami := whoami;
      this.rooms := rooms;
    }
  }

  /** The servers' room lists, in server order. */
  ghost function RoomsOf(ss: seq<Server>): (cfg: seq<seq<NamedRoom>>)
    reads ss
    ensures |cfg| == |ss|
    ensures forall i :: 0 <= i < |ss| ==> cfg[i] == ss[i].rooms
  {
    if ss == [] then [] else RoomsOf(ss[..|ss| - 1]) + [ss[|ss| - 1].rooms]
  }

  class Bot {
    const servers: seq<Server>

    /** Every server has its own object, as each configured entry does. */
    ghost predicate Valid() {
      forall i, j :: 0 <= i < j < |servers| ==> servers[i] != servers[j]
    }

    ghost function Rooms(): seq<seq<NamedRoom>>
      reads servers
    {
      RoomsOf(servers)
    }

    constructor (servers: seq<Server>)
      requires forall i, j :: 0 <= i < j < |servers| ==> servers[i] != servers[j]
      ensures this.servers == servers && Valid()
    {
      this.servers := servers;
    }

    /** The lookup of the event's room in the receiving server's list
        (main.go:152-158): the first entry with that id, or the zero room. */
    method Resolve(src: nat, id: RoomId) returns (target: NamedRoom)
      requires src < |servers|
      ensures target == FirstWithId(servers[src].rooms, id)
    {
      var rooms := servers[src].rooms;
      target := NoRoom;
      var j := 0;
      while j < |rooms|
        invariant 0 <= j <= |rooms|
        invariant FirstWithId(rooms[j..], id) == FirstWithId(rooms, id)
      {
        if rooms[j].room == id {
          target := rooms[j];
          break;
        }
        assert rooms[j..][1..] == rooms[j + 1..];
        j := j + 1;
      }
    }

    /** The text fan-out (main.go:180-188): one send per peer of `source`,
        over the servers in order and each server's rooms in order. */
    method FanOutText(source: NamedRoom, msg: Content) returns (actions: seq<Action>)
      ensures actions == Sends(Peers(Rooms(), source), msg)
    {
      ghost var cfg := Rooms();
      actions := [];
      for i := 0 to |servers|
        invariant actions == Sends(Peers(cfg[..i], source), msg)
      {
        var sent := FanOutOn(i, source, msg);
        PeersStep(cfg, source, i);
        SendsAppend(Peers(cfg[..i], source), PeersOn(i, cfg[i], source), msg);
        actions := actions + sent;
      }
      assert cfg[..|servers|] == cfg;
    }

    /** The inner loop of the text fan-out, over the rooms of server `i`. */
    method FanOutOn(i: nat, source: NamedRoom, msg: Content) returns (sent: seq<Action>)
      requires i < |servers|
      ensures sent == Sends(PeersOn(i, servers[i].rooms, source), msg)
    {
      var rooms := servers[i].rooms;
      sent := [];
      for j := 0 to |rooms|
        invariant sent == Sends(PeersOn(i, rooms[..j], source), msg)
      {
        PeersOnStep(i, rooms, source, j);
        SendsAppend(PeersOn(i, rooms[..j], source), if IsPeer(rooms[j], source) then [Dest(i, j, rooms[j])] else [], msg);
        if rooms[j].name == source.name {
          if rooms[j].room != source.room {
            sent := sent + [SendMessage(i, rooms[j].room, msg)];
          }
        }
      }
      assert rooms[..|rooms|] == rooms;
    }

    /** The media relay (main.go:227-278) once both assets are downloaded:
        the servers in order, each with its own memo of uploaded
        references. `calls` counts the uploads made so far. The relay must
        not reach an upload whose MIME type the event lacks. */
    method RelayMedia(job: Job, upload: nat -> Option<Uri>) returns (actions: seq<Action>)
      requires Valid() && job.src < |servers|
      requires NoMissingInfo(Relay(Rooms(), job, upload).actions)
      ensures actions == Relay(Rooms(), job, upload).actions
    {
      ghost var cfg := Rooms();
      actions := [];
      var calls := 0;
      for i := 0 to |servers|
        invariant actions == Relay(cfg[..i], job, upload).actions
        invariant calls == Relay(cfg[..i], job, upload).calls
      {
        assert cfg[..i + 1][..i] == cfg[..i];
        ServerReadsInfo(cfg, job, upload, i);
        var sent, calls' := RelayOn(i, job, upload, calls);
        actions, calls := actions + sent, calls';
      }
      assert cfg[..|servers|] == cfg;
    }

    /** The inner loop of the media relay, over the rooms of server `i`
        (main.go:228-277): per peer with inbound media the announcement and
        the event, uploading first, unless the memo already holds the
        reference, on a server other than the event's own. The MIME types
        are read from the event's info blocks, which the precondition
        guarantees are there whenever an upload needs them. */
    method RelayOn(i: nat, job: Job, upload: nat -> Option<Uri>, calls0: nat) returns (sent: seq<Action>, calls: nat)
      requires Valid() && i < |servers| && job.src < |servers|
      requires NoMissingInfo(ServerRelay(i, servers[i].rooms, job, upload, calls0).actions)
      ensures sent == ServerRelay(i, servers[i].rooms, job, upload, calls0).actions
      ensures calls == ServerRelay(i, servers[i].rooms, job, upload, calls0).calls
    {
      var localFile: Option<Uri> := None;
      var localThumb: Option<Uri> := None;
      var rooms := servers[i].rooms;
      sent, calls := [], calls0;
      ghost var p := Progress([], EmptyMemo, calls0);
      for j := 0 to |rooms|
        invariant p == ServerRelay(i, rooms[..j], job, upload, calls0)
        invariant sent == p.actions && localFile == p.memo.file && localThumb == p.memo.thumb && calls == p.calls
      {
        assert rooms[..j + 1][..j] == rooms[..j];
        ServerRelayPrefix(i, rooms, j + 1, job, upload, calls0);
        var room := rooms[j];
        if IsPeer(room, job.source) && room.mediaInbound && i != job.src {
          MimeReadable(i, room, job, upload, p, ServerRelay(i, rooms, job, upload, calls0).actions);
        }
        p := RoomStep(i, room, job, upload, p);
        if room.name == job.source.name {
          if room.room != job.source.room {
            if !room.mediaInbound {
              continue;
            }
            if servers[i] == servers[job.src] {
              sent := sent + [SendText(i, room.room, Line(job)), SendMessage(i, room.room, job.content)];
              continue;
            }
            if localFile == None {
              var reply := upload(calls);
              var mime := job.content.info.value.mimeType;
              sent := sent + [Upload(i, MainFile, job.file, Some(mime), reply)];
              calls := calls + 1;
              if reply == None {
                continue;
              }
              localFile := reply;
            }
            if HasThumbnail(job.content) && localThumb == None {
              var reply := upload(calls);
              var mime := job.content.info.value.thumbnailInfo.value.mimeType;
              sent := sent + [Upload(i, Thumbnail, job.thumb, Some(mime), reply)];
              calls := calls + 1;
              if reply == None {
                continue;
              }
              localThumb := reply;
            }
            var out := WithRefs(job.content, localFile.value, if HasThumbnail(job.content) then localThumb else None);
            sent := sent + [SendText(i, room.room, Line(job)), SendMessage(i, room.room, out)];
          }
        }
      }
      assert rooms[..|rooms|] == rooms;
    }

    /** The message callback of server `src` (main.go:144-284), for the
        events it handles without dereferencing a missing info block. */
    method OnMessage(src: nat, evt: MessageEvent, download: Downloads, upload: nat -> Option<Uri>)
      returns (actions: seq<Action>)
      requires Valid() && src < |servers|
      requires Dereferenceable(Rooms(), servers[src].clientId, src, evt, download, upload)
      ensures actions == Outcome(Rooms(), servers[src].clientId, src, evt, download, upload)
    {
      var server := servers[src];
      if evt.sender == server.clientId {
        return [];
      }
      var target := Resolve(src, evt.room);
      if target.room == "" {
        return [];
      }
      var msg := Normalize(evt.content);
      match Classify(msg.msgType)
      case TextLike =>
        actions := FanOutText(target, Prefixed(evt.sender, msg));
      case MediaLike =>
        if !target.mediaOutbound {
          return [];
        }
        var file := download(0, msg.url);
        if file == None {
          return [];
        }
        var thumb: Bytes := [];
        if HasThumbnail(msg) {
          var t := download(1, msg.info.value.thumbnailUrl);
          if t == None {
            return [];
          }
          thumb := t.value;
        }
        actions := RelayMedia(Job(src, target, evt.sender, msg, file.value, thumb), upload);
      case Unhandled =>
        actions := [];
    }

    /** The membership callback of server `src` (main.go:286-297): when the
        bridge's own account left or was banned, the room is filtered out of
        that server's list; nothing else changes. */
    method OnMember(src: nat, evt: MemberEvent)
      requires Valid() && src < |servers|
      modifies servers[src]
      ensures Rooms() == if Departs(servers[src].whoami, evt) then Pruned(old(Rooms()), src, evt.room) else old(Rooms())
    {
      var server := servers[src];
      if evt.stateKey == server.whoami && IsLeaveOrBan(evt.membership) {
        var rooms := server.rooms;
        var kept: seq<NamedRoom> := [];
        for j := 0 to |rooms|
          invariant kept == Without(rooms[..j], evt.room)
        {
          assert rooms[..j + 1][..j] == rooms[..j];
          if rooms[j].room != evt.room {
            kept := kept + [rooms[j]];
          }
        }
        assert rooms[..|rooms|] == rooms;
        server.rooms := kept;
      }
    }
  }
}
