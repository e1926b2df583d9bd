/** Values the relay engine works on: configured rooms, Matrix message
    content, the two kinds of inbound event it reacts to, and the calls it
    makes on the per-server clients (recorded as a trace of actions). */
module Types {

  datatype Option<+T> = None | Some(value: T)

  type RoomId = string
  type UserId = string
  /** A content reference (an `mxc://` URI string). */
  type Uri = string
  type Bytes = seq<bv8>

  /** One configured room of one server. Rooms on any server that carry the
      same `name` are bridged together. */
  datatype NamedRoom = NamedRoom(
    name: string,
    room: RoomId,
    mediaInbound: bool,   // media may be bridged into this room
    mediaOutbound: bool)  // media may be bridged out of this room

  /** What the source's zero-valued NamedRoom looks like. */
  const NoRoom := NamedRoom("", "", false, false)

  /** The file metadata of a media message (the fields the relay reads or
      rewrites, plus `size` standing for the fields it copies untouched). */
  datatype FileInfo = FileInfo(
    mimeType: string,
    size: nat,
    thumbnailUrl: Uri,
    thumbnailInfo: Option<FileInfo>)

  /** An `m.relates_to` block (reply, edit, thread ...). */
  datatype Relation = Relation(relType: string, eventId: string)

  /** The content of an `m.room.message` event. */
  datatype Content = Content(
    msgType: string,
    body: string,
    format: string,
    formattedBody: string,
    url: Uri,
    info: Option<FileInfo>,
    newContent: Option<Content>,
    relatesTo: Option<Relation>)

  /** An `m.room.message` event as the syncer hands it over. */
  datatype MessageEvent = MessageEvent(sender: UserId, room: RoomId, content: Content)

  /** An `m.room.member` state event. */
  datatype MemberEvent = MemberEvent(room: RoomId, stateKey: UserId, membership: string)

  /** Which of the two downloaded assets an upload carries. */
  datatype Asset = MainFile | Thumbnail

  /** One call the engine makes on the client of server number `server`
      (its position in the configured server list). An upload records the
      reply it received: the new content reference, or None on failure. Its
      `mime` is None when the info block the MIME type is read from is
      missing: the source dereferences nil there. */
  datatype Action =
    | SendMessage(server: nat, room: RoomId, content: Content)
    | SendText(server: nat, room: RoomId, text: string)
    | Upload(server: nat, asset: Asset, data: Bytes, mime: Option<string>, reply: Option<Uri>)
  {
    predicate IsSend() { SendMessage? || SendText? }
  }
}
