/**
 * `handle_messages` in bot.py: which channel posts are relayed, the single
 * send request each one turns into, and the captions built for audio and
 * documents. The send itself is left to the caller; only the request it
 * would make, and whether it failed, are modelled.
 */
module Relay {
  import opened Wrappers
  import opened Python
  import opened Commands

  /** A chat as the bot sees it: its id and its type (`'channel'`, `'private'`, ...). */
  datatype Chat = Chat(id: int, chatType: string)

  /** One size of a photo; Telegram lists the sizes smallest first. */
  datatype PhotoSize = PhotoSize(fileId: string)

  /** A video, sticker, voice note or video note: only its file id is used. */
  datatype Media = Media(fileId: string)

  datatype AudioFile = AudioFile(fileId: string, performer: Option<string>, title: Option<string>)

  datatype DocumentFile = DocumentFile(fileId: string, fileName: Option<string>)

  /**
   * An incoming message. `contentType` is the library's classification;
   * every content field may be absent (`None`).
   */
  datatype Message = Message(
    contentType: string,
    chat: Chat,
    senderChat: Option<Chat>,
    text: Option<string>,
    caption: Option<string>,
    photo: Option<seq<PhotoSize>>,
    video: Option<Media>,
    audio: Option<AudioFile>,
    document: Option<DocumentFile>,
    sticker: Option<Media>,
    voice: Option<Media>,
    videoNote: Option<Media>)

  /** The content kinds the relay handler is registered for, in its dispatch order. */
  datatype Kind = Text | Photo | Video | Audio | Document | Sticker | Voice | VideoNote

  /** The outbound request of one `bot.send_*` call; `chatId` is the destination as stored. */
  datatype OutboundRequest =
    | SendMessage(chatId: Option<int>, text: string)
    | SendPhoto(chatId: Option<int>, photo: string, caption: Option<string>)
    | SendVideo(chatId: Option<int>, video: string, caption: Option<string>)
    | SendAudio(chatId: Option<int>, audio: string, caption: Option<string>)
    | SendDocument(chatId: Option<int>, document: string, caption: Option<string>)
    | SendSticker(chatId: Option<int>, sticker: string)
    | SendVoice(chatId: Option<int>, voice: string, caption: Option<string>)
    | SendVideoNote(chatId: Option<int>, videoNote: string)

  /** What handling one message amounts to. */
  datatype Delivery =
    | Dropped                          // not handled, or the relay check failed
    | NothingToSend                    // relayed, but no content field was truthy
    | Posted(request: OutboundRequest) // the send succeeded
    | SendFailed(request: OutboundRequest) // the send raised; the error is only logged

  /** The content types in the handler's registration. */
  const HandledContentTypes: seq<string> :=
    ["text", "photo", "video", "audio", "document", "sticker", "voice", "video_note"]

  /** The library's name of each content kind the handler is registered for. */
  function TypeName(k: Kind): (name: string) {
    match k
    case Text => "text"
    case Photo => "photo"
    case Video => "video"
    case Audio => "audio"
    case Document => "document"
    case Sticker => "sticker"
    case Voice => "voice"
    case VideoNote => "video_note"
  }

  /** The handler's content-type filter: it sees exactly the kinds it can dispatch. */
  predicate Handled(m: Message)
    ensures Handled(m) <==> exists k :: TypeName(k) == m.contentType
  {
    assert forall i :: 0 <= i < |HandledContentTypes| ==> HandledContentTypes[i] == TypeName(KindAt(i));
    m.contentType in HandledContentTypes
  }

  /** The kind of rank `i`. */
  function KindAt(i: nat): (k: Kind)
    requires i < 8
    ensures Rank(k) == i
  {
    [Text, Photo, Video, Audio, Document, Sticker, Voice, VideoNote][i]
  }

  /**
   * The relay check: copying on, a channel post, a sender chat among the
   * sources (so the list is non-empty). The destination is not looked at.
   */
  predicate ShouldRelay(c: Config, m: Message)
    ensures ShouldRelay(c, m) ==> c.enabled && m.chat.chatType == "channel"
    ensures ShouldRelay(c, m) ==> m.senderChat.Some? && m.senderChat.value.id in c.sources && c.sources != []
    // and every post meeting the four conditions is relayed
    ensures c.enabled && m.chat.chatType == "channel" && m.senderChat.Some? && m.senderChat.value.id in c.sources
      ==> ShouldRelay(c, m)
  {
    c.enabled && m.chat.chatType == "channel" && m.senderChat.Some? && m.senderChat.value.id in c.sources
  }

  /** Position of a kind in the dispatch order. */
  function Rank(k: Kind): (n: nat)
    ensures n < 8
  {
    match k
    case Text => 0
    case Photo => 1
    case Video => 2
    case Audio => 3
    case Document => 4
    case Sticker => 5
    case Voice => 6
    case VideoNote => 7
  }

  /** Whether the message's field for kind `k` is truthy. */
  predicate Present(m: Message, k: Kind) {
    match k
    case Text => StrTruthy(m.text)
    case Photo => m.photo.Some? && m.photo.value != []
    case Video => m.video.Some?
    case Audio => m.audio.Some?
    case Document => m.document.Some?
    case Sticker => m.sticker.Some?
    case Voice => m.voice.Some?
    case VideoNote => m.videoNote.Some?
  }

  function KindOf(r: OutboundRequest): (k: Kind) {
    match r
    case SendMessage(_, _) => Text
    case SendPhoto(_, _, _) => Photo
    case SendVideo(_, _, _) => Video
    case SendAudio(_, _, _) => Audio
    case SendDocument(_, _, _) => Document
    case SendSticker(_, _) => Sticker
    case SendVoice(_, _, _) => Voice
    case SendVideoNote(_, _) => VideoNote
  }

  /**
   * The audio caption: `None` unless performer, title or caption is truthy,
   * otherwise always the bold `performer - title` line, a blank line and the
   * caption, with falsy parts printed as empty strings.
   */
  function AudioCaption(performer: Option<string>, title: Option<string>, caption: Option<string>): (r: Option<string>)
    ensures r.None? <==> !StrTruthy(performer) && !StrTruthy(title) && !StrTruthy(caption)
    ensures r.Some? ==> |r.value| == 9 + |OrEmpty(performer)| + |OrEmpty(title)| + |OrEmpty(caption)|
  {
    if StrTruthy(performer) || StrTruthy(title) || StrTruthy(caption) then
      Some("**" + OrEmpty(performer) + " - " + OrEmpty(title) + "**\n\n" + OrEmpty(caption))
    else
      None
  }

  /**
   * The document caption: `None` unless the file name or caption is truthy,
   * otherwise the bold file name (`None` printed literally when absent), a
   * blank line and the caption.
   */
  function DocumentCaption(fileName: Option<string>, caption: Option<string>): (r: Option<string>)
    ensures r.None? <==> !StrTruthy(fileName) && !StrTruthy(caption)
    ensures r.Some? ==> |r.value| == 6 + |Str(fileName)| + |OrEmpty(caption)|
  {
    if StrTruthy(fileName) || StrTruthy(caption) then
      Some("**" + Str(fileName) + "**\n\n" + OrEmpty(caption))
    else
      None
  }

  /** The payload a request for message `m` must carry, kind by kind. */
  predicate Carries(m: Message, r: OutboundRequest) {
    match r
    case SendMessage(_, t) => m.text == Some(t)
    case SendPhoto(_, f, cap) => m.photo.Some? && m.photo.value != [] &&
      f == m.photo.value[|m.photo.value| - 1].fileId && cap == m.caption
    case SendVideo(_, f, cap) => m.video == Some(Media(f)) && cap == m.caption
    case SendAudio(_, f, cap) => m.audio.Some? && f == m.audio.value.fileId &&
      cap == AudioCaption(m.audio.value.performer, m.audio.value.title, m.caption)
    case SendDocument(_, f, cap) => m.document.Some? && f == m.document.value.fileId &&
      cap == DocumentCaption(m.document.value.fileName, m.caption)
    case SendSticker(_, f) => m.sticker == Some(Media(f))
    case SendVoice(_, f, cap) => m.voice == Some(Media(f)) && cap == m.caption
    case SendVideoNote(_, f) => m.videoNote == Some(Media(f))
  }

  /**
   * The `if/elif` chain: the first truthy field in the order text, photo,
   * video, audio, document, sticker, voice, video note decides the one
   * request, addressed to `dest`; no truthy field, no request.
   */
  function MapContent(dest: Option<int>, m: Message): (r: Option<OutboundRequest>)
    ensures r.None? <==> forall k :: !Present(m, k)
    ensures r.Some? ==> r.value.chatId == dest && Carries(m, r.value)
    ensures r.Some? ==> Present(m, KindOf(r.value))
    ensures r.Some? ==> forall k :: Rank(k) < Rank(KindOf(r.value)) ==> !Present(m, k)
  {
    if StrTruthy(m.text) then
      assert Present(m, Text);
      Some(SendMessage(dest, m.text.value))
    else if m.photo.Some? && m.photo.value != [] then
      assert Present(m, Photo);
      Some(SendPhoto(dest, m.photo.value[|m.photo.value| - 1].fileId, m.caption))
    else if m.video.Some? then
      assert Present(m, Video);
      Some(SendVideo(dest, m.video.value.fileId, m.caption))
    else if m.audio.Some? then
      assert Present(m, Audio);
      var a := m.audio.value;
      Some(SendAudio(dest, a.fileId, AudioCaption(a.performer, a.title, m.caption)))
    else if m.document.Some? then
      assert Present(m, Document);
      var d := m.document.value;
      Some(SendDocument(dest, d.fileId, DocumentCaption(d.fileName, m.caption)))
    else if m.sticker.Some? then
      assert Present(m, Sticker);
      Some(SendSticker(dest, m.sticker.value.fileId))
    else if m.voice.Some? then
      assert Present(m, Voice);
      Some(SendVoice(dest, m.voice.value.fileId, m.caption))
    else if m.videoNote.Some? then
      assert Present(m, VideoNote);
      Some(SendVideoNote(dest, m.videoNote.value.fileId))
    else
      None
  }

  /**
   * One call of `handle_messages` under configuration `c`; `sendFails` says
   * whether the library's send call raises.
   */
  function Handle(c: Config, m: Message, sendFails: bool): (d: Delivery)
    ensures d != Dropped <==> Handled(m) && ShouldRelay(c, m)
    ensures d.NothingToSend? <==> Handled(m) && ShouldRelay(c, m) && forall k :: !Present(m, k)
    ensures d.Posted? || d.SendFailed? ==> MapContent(c.destination, m) == Some(d.request)
    ensures d.Posted? || d.SendFailed? ==> d.request.chatId == c.destination && Carries(m, d.request)
    ensures d.Posted? || d.SendFailed? ==> (d.SendFailed? <==> sendFails)
  {
    if !Handled(m) || !ShouldRelay(c, m) then Dropped
    else
      var req := MapContent(c.destination, m);
      if req.None? then NothingToSend
      else if sendFails then SendFailed(req.value)
      else Posted(req.value)
  }

  // ------------------------------------------------------------ relay check

  /**
   * A post of a handled type in a channel, from a listed sender chat, while
   * copying is on, is acted on: it is never dropped.
   */
  lemma SourcePostActedOn(c: Config, m: Message, sendFails: bool)
    requires Handled(m) && c.enabled && m.chat.chatType == "channel"
    requires m.senderChat.Some? && m.senderChat.value.id in c.sources
    ensures Handle(c, m, sendFails) != Dropped
  {
  }

  /**
   * A text post from a listed channel while copying is on is sent as that
   * text to the stored destination; the outcome depends only on the send.
   */
  lemma SourcePostRelayed(c: Config, m: Message, sendFails: bool)
    requires Handled(m) && c.enabled && m.chat.chatType == "channel"
    requires m.senderChat.Some? && m.senderChat.value.id in c.sources
    requires StrTruthy(m.text)
    ensures var req := SendMessage(c.destination, m.text.value);
      Handle(c, m, sendFails) == if sendFails then SendFailed(req) else Posted(req)
  {
  }

  /** Copying disabled: nothing is ever sent. */
  lemma DisabledSendsNothing(c: Config, m: Message, sendFails: bool)
    requires !c.enabled
    ensures Handle(c, m, sendFails) == Dropped
  {
  }

  /** A post whose sender chat is absent or not in the source list is never sent. */
  lemma OtherSendersDropped(c: Config, m: Message, sendFails: bool)
    requires m.senderChat.None? || m.senderChat.value.id !in c.sources
    ensures Handle(c, m, sendFails) == Dropped
  {
  }

  /** Only posts in chats of type `'channel'` are relayed. */
  lemma OnlyChannelPosts(c: Config, m: Message, sendFails: bool)
    requires m.chat.chatType != "channel"
    ensures Handle(c, m, sendFails) == Dropped
  {
  }

  /** The relay decision does not depend on the destination, even an unset one. */
  lemma RelayIgnoresDestination(c: Config, m: Message, dest: Option<int>)
    ensures ShouldRelay(c.(destination := dest), m) == ShouldRelay(c, m)
  {
  }

  /**
   * After `/removedestination` while copying, a post that would have been
   * sent is still handed to the send call, addressed to `chat_id=None`,
   * whether or not that call then fails.
   */
  lemma SendsWithoutDestination(c: Config, m: Message, sendFails: bool)
    requires Handled(m) && ShouldRelay(c, m) && exists k :: Present(m, k)
    ensures var d := Handle(Apply(c, RemoveDestination).config, m, sendFails);
      (d.Posted? || d.SendFailed?) && d.request.chatId.None?
  {
  }

  // ---------------------------------------------------------- content mapping

  /** A message with truthy text is sent as that text, verbatim, whatever else it holds. */
  lemma TextVerbatim(dest: Option<int>, m: Message)
    requires StrTruthy(m.text)
    ensures MapContent(dest, m) == Some(SendMessage(dest, m.text.value))
  {
  }

  /** A photo is sent as its last (largest) size, with the caption unchanged. */
  lemma PhotoLargestSize(dest: Option<int>, m: Message)
    requires !StrTruthy(m.text) && m.photo.Some? && m.photo.value != []
    ensures MapContent(dest, m) == Some(SendPhoto(dest, m.photo.value[|m.photo.value| - 1].fileId, m.caption))
  {
  }

  /**
   * When a sticker or a video note is sent, the message's caption plays no
   * part: any other caption gives the same request.
   */
  lemma NoCaptionKinds(dest: Option<int>, m: Message, cap: Option<string>)
    requires MapContent(dest, m).Some?
    requires KindOf(MapContent(dest, m).value) == Sticker || KindOf(MapContent(dest, m).value) == VideoNote
    ensures MapContent(dest, m.(caption := cap)) == MapContent(dest, m)
  {
  }

  /** Two truthy fields: the one earlier in the dispatch order wins. */
  lemma FirstMatchWins(dest: Option<int>, m: Message, k1: Kind, k2: Kind)
    requires Present(m, k1) && Present(m, k2) && Rank(k1) < Rank(k2)
    ensures MapContent(dest, m).Some? && KindOf(MapContent(dest, m).value) != k2
  {
  }

  // ----------------------------------------------------------------- captions

  /**
   * A present audio caption always has the bold markers and the `" - "`
   * separator around the performer and title, empty when missing, and ends
   * with the caption.
   */
  lemma AudioCaptionLayout(performer: Option<string>, title: Option<string>, caption: Option<string>)
    requires AudioCaption(performer, title, caption).Some?
    ensures var s := AudioCaption(performer, title, caption).value;
      var p, t, c := OrEmpty(performer), OrEmpty(title), OrEmpty(caption);
      && s[..2] == "**"
      && s[2..2 + |p|] == p
      && s[2 + |p|..5 + |p|] == " - "
      && s[5 + |p|..5 + |p| + |t|] == t
      && s[5 + |p| + |t|..9 + |p| + |t|] == "**\n\n"
      && s[9 + |p| + |t|..] == c
  {
  }

  /** Only a title: the separator still comes first, `"** - title**\n\n"`. */
  lemma AudioCaptionTitleOnly(title: string)
    requires title != ""
    ensures AudioCaption(None, Some(title), None) == Some("** - " + title + "**\n\n")
  {
    assert "**" + "" + " - " + title + "**\n\n" + "" == "** - " + title + "**\n\n";
  }

  /** Performer and title without caption: the caption line is left empty after the blank line. */
  lemma AudioCaptionNoCaption(performer: string, title: string)
    requires performer != "" && title != ""
    ensures AudioCaption(Some(performer), Some(title), None) == Some("**" + performer + " - " + title + "**\n\n")
  {
    var s := "**" + performer + " - " + title + "**\n\n";
    assert s + "" == s;
  }

  /** A present document caption is the bold file name, a blank line and the caption. */
  lemma DocumentCaptionLayout(fileName: Option<string>, caption: Option<string>)
    requires DocumentCaption(fileName, caption).Some?
    ensures var s := DocumentCaption(fileName, caption).value;
      var f, c := Str(fileName), OrEmpty(caption);
      && s[..2] == "**"
      && s[2..2 + |f|] == f
      && s[2 + |f|..6 + |f|] == "**\n\n"
      && s[6 + |f|..] == c
  {
  }

  /** A document without a file name but with a caption is captioned with the literal name `None`. */
  lemma DocumentCaptionMissingName(caption: string)
    requires caption != ""
    ensures DocumentCaption(None, Some(caption)) == Some("**None**\n\n" + caption)
  {
    assert "**" + "None" + "**\n\n" + caption == "**None**\n\n" + caption;
  }
}
