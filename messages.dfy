/** The pure transforms the relay applies to a message's content before
    sending it on (main.go:164-179, 240, 264-274). */
module Messages {
  import opened Types
  import Html

  // The `msgtype` values the relay distinguishes.
  const MsgText := "m.text"
  const MsgNotice := "m.notice"
  const MsgLocation := "m.location"
  const MsgEmote := "m.emote"
  const MsgImage := "m.image"
  const MsgVideo := "m.video"
  const MsgAudio := "m.audio"
  const MsgFile := "m.file"

  /** The three branches of the `switch` on the message type. */
  datatype Kind = TextLike | MediaLike | Unhandled

  function Classify(msgType: string): (k: Kind)
    ensures k == TextLike <==> msgType in [MsgText, MsgNotice, MsgLocation]
    ensures k == MediaLike <==> msgType in [MsgEmote, MsgImage, MsgVideo, MsgAudio, MsgFile]
  {
    if msgType == MsgText || msgType == MsgNotice || msgType == MsgLocation then TextLike
    else if msgType == MsgEmote || msgType == MsgImage || msgType == MsgVideo
         || msgType == MsgAudio || msgType == MsgFile then MediaLike
    else Unhandled
  }

  /** Content normalisation: a message that relates to another one (a reply,
      an edit) falls back to its plain body, since the related event does not
      exist in the destination rooms; the replacement content and the
      relation itself are always dropped. Nothing else is touched. */
  function Normalize(c: Content): (r: Content)
    ensures r.newContent == None && r.relatesTo == None
    ensures c.relatesTo.Some? ==> r.format == "" && r.formattedBody == ""
    ensures c.relatesTo.None? ==> r.format == c.format && r.formattedBody == c.formattedBody
    ensures r.msgType == c.msgType && r.body == c.body && r.url == c.url && r.info == c.info
  {
    var plain := if c.relatesTo.Some? then c.(format := "", formattedBody := "") else c;
    plain.(newContent := None, relatesTo := None)
  }

  /** Normalising twice changes nothing more. */
  lemma NormalizeIdempotent(c: Content)
    ensures Normalize(Normalize(c)) == Normalize(c)
  {
  }

  /** The header put in front of a relayed plain body. */
  function BodyHeader(sender: UserId): string {
    sender + " (from Bridge):\n"
  }

  /** The header put in front of a relayed formatted body. */
  function HtmlHeader(sender: UserId): string {
    Html.Escape(sender) + " (from Bridge):<br>"
  }

  /** The sender prefix of text, notice and location messages: the plain body
      is the header followed by the original body; a formatted body, when
      there is one, gets the HTML-escaped header, and an empty one stays
      empty. Every other field is passed on. */
  function Prefixed(sender: UserId, c: Content): (r: Content)
    ensures |r.body| == |BodyHeader(sender)| + |c.body|
    ensures r.body[..|BodyHeader(sender)|] == BodyHeader(sender)
    ensures r.body[|BodyHeader(sender)|..] == c.body
    ensures c.formattedBody == "" ==> r.formattedBody == ""
    ensures c.formattedBody != "" ==>
              && |r.formattedBody| == |HtmlHeader(sender)| + |c.formattedBody|
              && r.formattedBody[..|HtmlHeader(sender)|] == HtmlHeader(sender)
              && r.formattedBody[|HtmlHeader(sender)|..] == c.formattedBody
    ensures r.(body := c.body, formattedBody := c.formattedBody) == c
  {
    var withBody := c.(body := BodyHeader(sender) + c.body);
    if c.formattedBody != "" then withBody.(formattedBody := HtmlHeader(sender) + c.formattedBody)
    else withBody
  }

  /** The sender written into the formatted header reads back unchanged. */
  lemma HtmlHeaderNamesSender(sender: UserId)
    ensures Html.Unescape(HtmlHeader(sender)[..|Html.Escape(sender)|]) == sender
  {
    assert HtmlHeader(sender)[..|Html.Escape(sender)|] == Html.Escape(sender);
    Html.EscapeRoundTrip(sender);
  }

  /** The plain line sent ahead of every relayed media event. */
  function Announcement(sender: UserId, body: string): string {
    sender + " (from Bridge): " + body
  }

  /** A thumbnail is declared: there is file info and its thumbnail
      reference is not empty. */
  predicate HasThumbnail(c: Content) {
    c.info.Some? && c.info.value.thumbnailUrl != ""
  }

  /** Both info blocks an upload can read are there: the file info, and the
      thumbnail's own info when a thumbnail is declared. */
  predicate MediaWellFormed(c: Content) {
    c.info.Some? && (HasThumbnail(c) ==> c.info.value.thumbnailInfo.Some?)
  }

  /** The MIME type the main-file upload reads from the info block
      (main.go:246); None when there is no info block to read it from. */
  function MainMime(c: Content): (m: Option<string>)
    ensures m.Some? <==> c.info.Some?
  {
    if c.info.None? then None else Some(c.info.value.mimeType)
  }

  /** The MIME type the thumbnail upload reads from the thumbnail's info
      (main.go:255); None when either block is missing. */
  function ThumbMime(c: Content): (m: Option<string>)
    ensures m.Some? <==> c.info.Some? && c.info.value.thumbnailInfo.Some?
  {
    if c.info.None? || c.info.value.thumbnailInfo.None? then None
    else Some(c.info.value.thumbnailInfo.value.mimeType)
  }

  /** The content sent to a room on another server: the original with the
      main reference replaced and, when a new thumbnail reference is given,
      the thumbnail reference in the file info replaced. */
  function WithRefs(c: Content, file: Uri, thumb: Option<Uri>): (r: Content)
    requires thumb.Some? ==> c.info.Some?
    ensures r.url == file
    ensures r.(url := c.url, info := c.info) == c
    ensures thumb.None? ==> r.info == c.info
    ensures thumb.Some? ==> r.info.Some? && r.info.value.thumbnailUrl == thumb.value
    ensures thumb.Some? ==> r.info.value.(thumbnailUrl := c.info.value.thumbnailUrl) == c.info.value
  {
    var info := if thumb.Some? then Some(c.info.value.(thumbnailUrl := thumb.value)) else c.info;
    c.(url := file, info := info)
  }
}
