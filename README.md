# go-matrix2matrix-noobbridge relay core, in Dafny

The bridge logs into several Matrix homeservers. Each server has a list of
configured rooms (`NamedRoom`: a group name, a room id, and inbound and
outbound media flags). Rooms with the same name form a group. A message in
one room of a group is relayed to every other room of the group, on every
server. This project models the two callbacks that do the relaying, plus the
start-up checks on the configuration:

- **The message callback.** It drops echoes of the bridge's own account and
  events from rooms it does not track. It then normalises the content:
  relations are dropped, and the formatted body is cleared when there was a
  relation.
  - Text, notices and locations get a sender header and fan out to every
    peer room.
  - Emotes, images, video, audio and files are downloaded once, with their
    thumbnail when one is declared. They are then re-sent to every
    inbound-enabled peer, each preceded by a plain announcement line.
  - On other servers the assets are uploaded first. The uploads are memoised
    per destination server, and a failed upload skips only its room.
- **The membership callback.** When the bridge's own account leaves a room
  or is banned from it, the room is removed from that server's list.
- **The configuration check.** Every server needs a homeserver URL,
  credentials, at least one room and a known login type.

The client is abstracted away.
- A callback returns the calls it makes, in order, as `Action`s:
  `SendMessage`, `SendText`, and `Upload` together with the reply it got.
- Downloads from the event's server are a function `download` from the
  download's number during the event (0 for the file, 1 for the thumbnail)
  and the URI to optional bytes. So the thumbnail download may fail even
  when its URI is the file's.
- Upload replies are a function `upload` from the number of uploads made so
  far during the event to an optional content URI. Every sequence of
  successes and failures can be expressed this way.

Modules:
- `Types`: the records.
- `Html`: `html.EscapeString` and its inverse.
- `Messages`: normalisation, the headers, and the reference rewrite.
- `Groups`: room lookup, peers, and the departure filter.
- `Fanout`: text fan-out.
- `Media`: the media relay, specified as functions that mirror its loops,
  with its invariants.
- `Events`: the whole message callback, as a function `Outcome`.
- `Config`: the start-up checks.
- `Bridge`: the `Server` and `Bot` classes. Their methods carry the loops
  of the source and are proved equal to the functions above.

## Model

| member | source | states |
|---|---|---|
| Html.Entity | main.go:178 | a character is replaced by an entity starting with `&` exactly when it is one of the five characters `html.EscapeString` rewrites |
| Html.Escape | main.go:178 | the escaped sender is never shorter than the sender and contains no `<`, `>`, `"` or `'` |
| Html.EscapeRoundTrip | main.go:178 | unescaping the escaped text gives back the original text, so the escaping loses nothing |
| Messages.Classify | main.go:174-175 | a message type is text-like exactly when it is m.text, m.notice or m.location, and media-like exactly when it is m.emote, m.image, m.video, m.audio or m.file; every other type is unhandled |
| Messages.Normalize | main.go:166-172 | the new content and the relation are always gone; format and formatted body are cleared exactly when a relation was present and kept otherwise; type, body, URL and info are untouched |
| Messages.NormalizeIdempotent | main.go:166-172 | normalising twice is normalising once |
| Messages.Prefixed | main.go:176-179 | the body is exactly the sender header followed by the old body; an empty formatted body stays empty; a non-empty one is the escaped-sender header followed by the old one; no other field changes |
| Messages.HtmlHeaderNamesSender | main.go:178 | the escaped part of the HTML header decodes back to the sender id |
| Messages.WithRefs | main.go:264-271 | the outgoing media event differs from the original only in its URL and, when a thumbnail reference is given, its info's thumbnail URL |
| Groups.FirstWithIdFinds | main.go:153-162 | the lookup returns the first entry with the event's room id, and the zero room when there is none; the resolved id is empty exactly when the room is not tracked |
| Groups.PeersExact | main.go:180-188 | the peers of a room are exactly the configured entries, on every server, with its name and another id; each appears once, ordered by server and then by list position |
| Groups.WithoutContents | main.go:288-294 | the filtered list holds exactly the entries whose id differs from the departed room's |
| Groups.WithoutAppend | main.go:288-294 | the filter works entry by entry, so the kept entries stay in their order |
| Groups.WithoutIdempotent | main.go:286-297 | a second departure from the same room changes nothing |
| Groups.PrunedRoomUnreachable | main.go:286-297 | after a departure the room is untracked on that server, no peer on that server has its id, and every other server's list is unchanged |
| Fanout.Sends | main.go:184 | one message-event send per destination, in destination order, each carrying the same content |
| Fanout.SendsAppend | main.go:180-188 | sending to two destination lists is sending to the first, then the second |
| Fanout.TextFanOutTargets | main.go:180-188 | every send of a text fan-out carries the message unchanged, to a configured room of the same name whose id is not the source room's |
| Fanout.TextFanOutReaches | main.go:180-188 | every configured room with the source's name and another id, on any server including the source's, gets exactly one send |
| Media.UploadedOncePerServer | main.go:227-262 | during one relay each server gets at most one successful upload of the main file and at most one of the thumbnail; the source server gets no upload at all |
| Media.RelayedEventShape | main.go:231-274 | every send goes to an inbound-enabled peer and never to the source room; every media event directly follows its announcement line; on the source server it is the original content, elsewhere the original with references taken from earlier successful uploads to that same server |
| Media.FailuresPlusDeliveriesPerServer | main.go:245-262 | counted per server: on a server other than the source's, the failed uploads plus the delivered events equal the number of inbound-enabled peers there; on the source server every such peer gets the event |
| Media.RelayTurns | main.go:227-275 | the calls of the relay split into one turn per configured room, in server order and then list order. A room that is not an inbound-enabled peer gets no call. On the source server, an inbound-enabled peer gets its announcement and then the original event. On another server, its turn is some successful uploads to that server followed by either its announcement and its event, or one failed upload and nothing sent to it |
| Media.UploadsOnlyWhileMissing | main.go:244-262 | each upload of an asset to a server is made only while no earlier upload of that asset to that server has succeeded during the relay, and a thumbnail upload only after the main file's upload to that server succeeded |
| Media.NoUploadAfterSuccess | main.go:244-253 | once an upload of an asset to a server has succeeded, that asset is never uploaded to that server again during the relay |
| Media.MemoReused | main.go:244-274 | an inbound-enabled peer on another server, reached after the file and any declared thumbnail were uploaded there, gets exactly its announcement and its event, with no upload in between |
| Media.RelayTurnsCover | main.go:227-229 | the turns follow each other without gap or overlap, starting at the first call and ending at the last |
| Media.RelayUploadsDeclared | main.go:245-262 | every upload carries the downloaded file with the MIME type of the event's info block, or the downloaded thumbnail, when one is declared, with the MIME type of the thumbnail info block |
| Media.WellFormedReadsInfo | main.go:245-256 | an event with its info block, and with a thumbnail info block when it declares a thumbnail, never reaches an upload whose MIME type is missing |
| Events.Outcome | main.go:144-284 | no call at all for an echo of the bridge's account, an untracked room or an unhandled type; for media, none when outbound media is off, when the file cannot be downloaded (first download), or when a declared thumbnail cannot be downloaded (second download) |
| Events.WellFormedDereferenceable | main.go:190-262 | every event that is not media, and every media event with its info block and, when it declares a thumbnail, a thumbnail info block, is handled without reading a missing info block |
| Events.TextEventRelayed | main.go:174-188 | a text-like event yields exactly one send per peer, in peer order, carrying the normalised content with the sender header in front of the body |
| Events.MediaEventRelayed | main.go:190-278 | a media event that passes the gates is handed to the relay with its source room, its normalised content, the file from the first download and the thumbnail from the second |
| Events.NoEchoToSource | main.go:180-188 | no announcement and no message event from one callback ever goes to the room the event came from |
| Events.EventUploadsOnce | main.go:227-262 | whatever the event, each server gets at most one successful upload of each asset, and the event's own server gets none |
| Events.DepartedRoomSilent | main.go:286-297 | after a departure, that server's events from the room produce nothing, and no event arriving on any server is relayed into the room on that server |
| Config.Check | main.go:83-122 | the first failing check is the one reported: empty homeserver, then missing credentials, then no rooms, then an unknown login type; a server passes exactly when all four hold |
| Config.FirstRejected | main.go:81-122 | the servers are accepted exactly when every one passes; otherwise the first failing server is reported, with its error |
| Config.CheckServers | main.go:81-122 | the start-up loop's verdict is the first rejection, if any, over the servers in order |
| Bridge.Server.constructor | main.go:31-39 | a server starts with its configured rooms and its two user ids |
| Bridge.Bot.constructor | main.go:42-43 | the bot holds one distinct server object per configured entry |
| Bridge.Bot.Resolve | main.go:153-159 | the loop finds the same room as the first-match lookup, or the zero room |
| Bridge.Bot.FanOutText | main.go:180-188 | the nested loops send to exactly the peers, in order |
| Bridge.Bot.FanOutOn | main.go:181-187 | the inner loop sends to exactly the peers on one server, in list order |
| Bridge.Bot.RelayMedia | main.go:227-278 | the loop over the servers makes exactly the calls of the relay specification, with the upload count carried from server to server |
| Bridge.Bot.RelayOn | main.go:228-277 | the loop over one server's rooms, with its memo starting empty and its `continue`s, reading the MIME types from the info blocks, makes exactly the calls of the one-server relay specification and as many uploads |
| Bridge.Bot.OnMessage | main.go:144-284 | for every event that does not make the source dereference a missing info block, the callback makes exactly the calls `Outcome` describes |
| Bridge.Bot.OnMember | main.go:286-297 | the receiving server's list becomes the filtered list when the bridge's own account left or was banned, and is unchanged otherwise; no other server's list changes |

## Left out

- YAML parsing, command-line flags, reading the configuration file, logging, the sync goroutines, signal handling and shutdown are left out: they are I/O and process lifecycle.
- Login, `Whoami`, joining the rooms and the old-event ignorer are left out. They are network calls. `Whoami`'s answer is a constant of `Bridge.Server`, and so is the client's user id.
- `parseAndDownload` is not part of this model. Its outcome is the `download` parameter: bytes or failure.
- The contents of client calls are recorded, not performed. A failed send is not observed by the source either.
- Callbacks of different servers run concurrently in the source and read and write `Rooms` without synchronisation. The model processes events one at a time.
- Bridge.Bot.OnMessage: requires that the event not lead to an upload whose MIME type sits in a missing info block (main.go:246, main.go:255). The source crashes there with a nil dereference, and the crash is not modelled. `Events.Outcome` covers these events too: it marks the crashing call as an `Upload` without a MIME type. The calls it lists after that marker are not made by the source, which has crashed by then.
- Bridge.Bot.RelayMedia: requires the same of the relay it runs, for the same reason.
- Bridge.Bot.RelayOn: requires the same of the one-server relay it runs, for the same reason.
- Config.CheckServers: the source logs into each server before checking the next one, so an earlier server may already be connected when a later one is rejected. The model keeps only the verdict.
- The `serveri == server` object comparison (main.go:239) is modelled as a comparison of the `Bridge.Server` objects. `Bot.Valid` makes these objects distinct, so the comparison coincides with comparing server numbers, which the specification functions use.
- The `asset` field of `Upload` is a label the model adds (main file or thumbnail). The source passes only the bytes and the MIME type.
