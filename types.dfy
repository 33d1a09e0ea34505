/** Value types of the Telegram session engine (src/tg/types.rs) and the
    values the messaging client hands to it.

    The client library's own entities (users, groups, channels, messages,
    dialogs, packed chat handles) are modelled only as far as the engine
    reads them; their wire format is not part of this model. Integer widths
    (i32 message ids, i64 chat ids) are modelled as unbounded `int`. */
module Types {

  datatype Option<T> = None | Some(value: T)

  /** Why an operation failed. `Panicked` stands for a Rust panic (an
      `unwrap` on `None`, an explicit `panic!`): the task ends at that point
      with whatever state changes it had already made. */
  datatype Error =
    | ClientError(reason: string)
    | NotFound(reason: string)
    | PasswordNotRequired
    | AlreadyRunning
    | NoSender
    | NoProfilePhoto
    | FsError
    | DownloadReturnedFalse
    | Panicked(reason: string)

  datatype Result<T> = Ok(value: T) | Err(error: Error)

  // ---------------------------------------------------------------------
  // Login state

  datatype LoginState =
    | WrongPhoneNumber
    | CodeRequired
    | WrongCode
    | PasswordRequired
    | WrongPassword
    | LoggedIn
    | LoginFailure

  // ---------------------------------------------------------------------
  // Media kinds

  /** The client's media variants; `Unlisted` stands for every variant the
      engine does not name in its conversion. */
  datatype RawMedia =
    | MediaPhoto | MediaDocument | MediaSticker | MediaContact | MediaPoll
    | MediaGeo | MediaDice | MediaVenue | MediaGeoLive | MediaWebPage
    | Unlisted

  /** `MediaType`; its `None` variant is called `NoMedia` here so that it does
      not clash with `Option.None`. */
  datatype MediaType =
    | NoMedia | Photo | Document | Sticker | Contact | Poll
    | Geo | Dice | Venue | GeoLive | WebPage

  /** `MediaType::from`: absent media and every unlisted variant become
      `NoMedia`; each listed variant becomes the variant of the same name. */
  function MediaTypeFrom(value: Option<RawMedia>): (r: MediaType)
    ensures r == NoMedia <==> (value.None? || value.value == Unlisted)
  {
    match value
    case None => NoMedia
    case Some(m) =>
      match m
      case MediaPhoto => Photo
      case MediaDocument => Document
      case MediaSticker => Sticker
      case MediaContact => Contact
      case MediaPoll => Poll
      case MediaGeo => Geo
      case MediaDice => Dice
      case MediaVenue => Venue
      case MediaGeoLive => GeoLive
      case MediaWebPage => WebPage
      case Unlisted => NoMedia
  }

  /** Distinct listed media variants never collapse onto one `MediaType`. */
  lemma MediaTypeFromInjectiveOnListed(a: RawMedia, b: RawMedia)
    requires a != Unlisted && b != Unlisted && a != b
    ensures MediaTypeFrom(Some(a)) != MediaTypeFrom(Some(b))
  {
  }

  // ---------------------------------------------------------------------
  // The client's chats and handles

  datatype ChatType = User | Group | Channel

  type Bytes = seq<bv8>

  /** A profile photo as the client reports it. */
  datatype ChatPhoto = ChatPhoto(strippedThumb: Option<Bytes>)

  datatype UserInfo = UserInfo(
    id: int, accessHash: Option<int>,
    firstName: string, lastName: Option<string>, fullName: string,
    username: Option<string>, phone: Option<string>,
    contact: bool, mutualContact: bool,
    photo: Option<ChatPhoto>)

  /** A group; `channelForum` is `Some(f)` when the underlying record is a
      (mega)group channel carrying the forum flag `f`, `None` for a small group. */
  datatype GroupInfo = GroupInfo(
    id: int, accessHash: Option<int>, title: string,
    megagroup: bool, channelForum: Option<bool>,
    photo: Option<ChatPhoto>)

  datatype ChannelInfo = ChannelInfo(
    id: int, accessHash: Option<int>, title: string,
    username: Option<string>, forum: bool,
    photo: Option<ChatPhoto>)

  datatype RawChat =
    | UserChat(user: UserInfo)
    | GroupChat(group: GroupInfo)
    | ChannelChat(channel: ChannelInfo)

  function ChatId(c: RawChat): int {
    match c
    case UserChat(u) => u.id
    case GroupChat(g) => g.id
    case ChannelChat(ch) => ch.id
  }

  /** The chat's display name: a user's first name, a group's or channel's title. */
  function ChatName(c: RawChat): string {
    match c
    case UserChat(u) => u.firstName
    case GroupChat(g) => g.title
    case ChannelChat(ch) => ch.title
  }

  function ChatPhotoOf(c: RawChat): Option<ChatPhoto> {
    match c
    case UserChat(u) => u.photo
    case GroupChat(g) => g.photo
    case ChannelChat(ch) => ch.photo
  }

  function ChatTypeOf(c: RawChat): ChatType {
    match c
    case UserChat(_) => User
    case GroupChat(_) => Group
    case ChannelChat(_) => Channel
  }

  /** The downloadable form of a chat's profile photo, in the small or the
      big size. */
  datatype Downloadable = ProfilePhotoOf(chatId: int, big: bool)

  /** A chat has a downloadable profile photo exactly when it has a photo. */
  function PhotoDownloadable(c: RawChat, big: bool): (r: Option<Downloadable>)
    ensures r.Some? <==> ChatPhotoOf(c).Some?
    ensures r.Some? ==> r.value == ProfilePhotoOf(ChatId(c), big)
  {
    if ChatPhotoOf(c).Some? then Some(ProfilePhotoOf(ChatId(c), big)) else None
  }

  /** An opaque, serialisable handle that re-addresses a chat. */
  datatype PackedChat = PackedChat(id: int, kind: ChatType, accessHash: Option<int>)

  function Pack(c: RawChat): (p: PackedChat)
    ensures p.id == ChatId(c) && p.kind == ChatTypeOf(c)
  {
    match c
    case UserChat(u) => PackedChat(u.id, User, u.accessHash)
    case GroupChat(g) => PackedChat(g.id, Group, g.accessHash)
    case ChannelChat(ch) => PackedChat(ch.id, Channel, ch.accessHash)
  }

  /** A handle as the host application stores it: the chat id and the handle's
      hexadecimal text. */
  datatype NativePackedChat = NativePackedChat(chat_id: int, packed_chat: string)

  // ---------------------------------------------------------------------
  // Messages

  datatype RawMessage = RawMessage(
    id: int, chat: RawChat, outgoing: bool, pinned: bool,
    sender: Option<RawChat>, date: int, text: string,
    media: Option<RawMedia>, editDate: Option<int>,
    groupedId: Option<int>, replyTo: Option<int>)

  datatype NativeMessage = NativeMessage(
    message_id: int, chat_id: int, outgoing: bool, pinned: bool,
    sender_id: int, sender_name: string, timestamp: int, text: string,
    media_type: MediaType, edit_timestamp: Option<int>,
    grouped_id: Option<int>, reply_to_message_id: Option<int>)

  /** `NativeMessage::from_raw`: without a sender the id is -1 and the name empty. */
  function MessageFromRaw(raw: RawMessage): (r: NativeMessage)
    ensures r.message_id == raw.id && r.chat_id == ChatId(raw.chat)
    ensures raw.sender.None? ==> r.sender_id == -1 && r.sender_name == ""
    ensures raw.sender.Some? ==>
      r.sender_id == ChatId(raw.sender.value) && r.sender_name == ChatName(raw.sender.value)
    ensures r.media_type == MediaTypeFrom(raw.media)
  {
    var senderId := if raw.sender.Some? then ChatId(raw.sender.value) else -1;
    var senderName := if raw.sender.Some? then ChatName(raw.sender.value) else "";
    NativeMessage(
      raw.id, ChatId(raw.chat), raw.outgoing, raw.pinned,
      senderId, senderName, raw.date, raw.text,
      MediaTypeFrom(raw.media), raw.editDate, raw.groupedId, raw.replyTo)
  }

  /** What the hand-written `Hash` feeds to the hasher, in order. */
  datatype HashInput = HashInput(
    message_id: int, chat_id: int, outgoing: bool, sender_id: int,
    sender_name: string, timestamp: int, text: string)

  function HashInputOf(m: NativeMessage): HashInput {
    HashInput(m.message_id, m.chat_id, m.outgoing, m.sender_id,
              m.sender_name, m.timestamp, m.text)
  }

  /** The hash ignores the pinned flag, the media kind, the edit time, the
      album id and the reply target: messages differing only there hash alike. */
  lemma HashIgnoresUnhashedFields(m: NativeMessage, pinned: bool, media: MediaType,
                                  edit: Option<int>, grouped: Option<int>, reply: Option<int>)
    ensures HashInputOf(m) == HashInputOf(m.(pinned := pinned, media_type := media,
      edit_timestamp := edit, grouped_id := grouped, reply_to_message_id := reply))
  {
  }

  datatype Ordering = Less | Equal | Greater

  function Reverse(o: Ordering): Ordering {
    match o
    case Less => Greater
    case Equal => Equal
    case Greater => Less
  }

  /** The hand-written `Ord`: compares only `chat_id`, larger ids first. */
  function Cmp(a: NativeMessage, b: NativeMessage): (r: Ordering)
    ensures r == Equal <==> a.chat_id == b.chat_id
    ensures r == Less <==> a.chat_id > b.chat_id
    ensures r == Greater <==> a.chat_id < b.chat_id
  {
    if a.chat_id != b.chat_id then
      if a.chat_id > b.chat_id then Less else Greater
    else
      Equal
  }

  /** `partial_cmp` always answers, with the total comparison. */
  function PartialCmp(a: NativeMessage, b: NativeMessage): (r: Option<Ordering>)
    ensures r.Some? && r.value == Cmp(a, b)
  {
    Some(Cmp(a, b))
  }

  /** `Cmp` is a total preorder: reflexive, antisymmetric up to `Reverse`,
      transitive for both `Less`-or-`Equal` and `Equal`. */
  lemma CmpIsTotalPreorder(a: NativeMessage, b: NativeMessage, c: NativeMessage)
    ensures Cmp(a, a) == Equal
    ensures Cmp(a, b) == Reverse(Cmp(b, a))
    ensures Cmp(a, b) != Greater && Cmp(b, c) != Greater ==> Cmp(a, c) != Greater
    ensures Cmp(a, b) == Equal && Cmp(b, c) == Equal ==> Cmp(a, c) == Equal
  {
  }

  /** Equal hash input for equal messages, yet `Cmp` calls two different
      messages of one chat `Equal`: the ordering disagrees with `==`. */
  lemma CmpEqualDoesNotImplyEquality()
    ensures var a := NativeMessage(1, 7, false, false, -1, "", 0, "a", NoMedia, None, None, None);
            var b := a.(message_id := 2);
            Cmp(a, b) == Equal && a != b && HashInputOf(a) != HashInputOf(b)
  {
  }

  // ---------------------------------------------------------------------
  // Chat summaries

  datatype NativeChat = NativeChat(
    chat_id: int, chat_type: ChatType, name: string, pinned: bool,
    last_message_id: int, last_message_sender_name: string,
    last_message_text: string, last_message_timestamp: int,
    megagroup: bool, forum: bool)

  function IsMegagroup(c: RawChat): bool {
    c.GroupChat? && c.group.megagroup
  }

  function ChannelForumFlag(c: RawChat): bool {
    c.GroupChat? && c.group.channelForum.Some? && c.group.channelForum.value
  }

  /** `NativeChat::from_raw`: a summary with no last message. Only a megagroup
      can be a forum, and only when its record is a channel with the flag set. */
  function ChatFromRaw(raw: RawChat): (r: NativeChat)
    ensures r.chat_id == ChatId(raw) && r.chat_type == ChatTypeOf(raw) && r.name == ChatName(raw)
    ensures !r.pinned && r.last_message_id == 0 && r.last_message_timestamp == 0
    ensures r.last_message_sender_name == "" && r.last_message_text == ""
    ensures r.megagroup <==> IsMegagroup(raw)
    ensures r.forum <==> r.megagroup && ChannelForumFlag(raw)
  {
    var megagroup := IsMegagroup(raw);
    var forum := megagroup && ChannelForumFlag(raw);
    NativeChat(ChatId(raw), ChatTypeOf(raw), ChatName(raw), false, 0, "", "", 0, megagroup, forum)
  }

  /** A dialog of the account's chat list: the chat, its pin flag, its last
      message, and the chat's history as the client would page through it
      (newest first; see `MessageFeed`). */
  datatype Dialog = Dialog(chat: RawChat, pinned: bool, lastMessage: Option<RawMessage>, history: MessageFeed)

  /** How a lazily paged listing ends after its items: cleanly, or with the
      error the next page fetch reports. */
  datatype FeedEnd = Exhausted | Failed(error: Error)

  datatype MessageFeed = MessageFeed(items: seq<RawMessage>, end: FeedEnd)

  /** `NativeChat::from_dialog`: pinned flag from the dialog, last-message
      fields from the dialog's last message or defaults when there is none. */
  function ChatFromDialog(d: Dialog): (r: NativeChat)
    ensures r.chat_id == ChatId(d.chat) && r.chat_type == ChatTypeOf(d.chat)
    ensures r.pinned == d.pinned
    ensures r.megagroup <==> IsMegagroup(d.chat)
    ensures r.forum ==> r.megagroup
    ensures d.lastMessage.None? ==>
      r.last_message_id == 0 && r.last_message_sender_name == "" &&
      r.last_message_text == "" && r.last_message_timestamp == 0
    ensures d.lastMessage.Some? ==>
      r.last_message_id == d.lastMessage.value.id &&
      r.last_message_text == d.lastMessage.value.text &&
      r.last_message_timestamp == d.lastMessage.value.date &&
      r.last_message_sender_name ==
        (if d.lastMessage.value.sender.Some? then ChatName(d.lastMessage.value.sender.value) else "")
  {
    var megagroup := IsMegagroup(d.chat);
    var forum := megagroup && ChannelForumFlag(d.chat);
    var m := d.lastMessage;
    NativeChat(
      ChatId(d.chat), ChatTypeOf(d.chat), ChatName(d.chat), d.pinned,
      if m.Some? then m.value.id else 0,
      if m.Some? && m.value.sender.Some? then ChatName(m.value.sender.value) else "",
      if m.Some? then m.value.text else "",
      if m.Some? then m.value.date else 0,
      megagroup, forum)
  }

  /** With or without a last message, `from_raw` and `from_dialog` agree on
      every field except the pin flag and the last-message fields. */
  lemma ChatFromDialogAgreesWithFromRaw(d: Dialog)
    ensures var a := ChatFromDialog(d); var b := ChatFromRaw(d.chat);
            a.chat_id == b.chat_id && a.chat_type == b.chat_type && a.name == b.name &&
            a.megagroup == b.megagroup && a.forum == b.forum
  {
  }

  // ---------------------------------------------------------------------
  // Seen-chat records handed to the host

  datatype NativeSeenChat = NativeSeenChat(
    chat_id: int, chat_type: ChatType, packed_chat: PackedChat,
    is_contact: bool, is_mutual_contact: bool,
    phone: Option<string>, username: Option<string>, photo_thumb: Option<Bytes>,
    full_name: string, first_name: string, last_name: Option<string>,
    bio: Option<string>, date_of_birth: Option<int>, forum: bool)

  function ThumbOf(photo: Option<ChatPhoto>): Option<Bytes> {
    if photo.Some? then photo.value.strippedThumb else None
  }

  function SeenFromUser(u: UserInfo): (r: NativeSeenChat)
    ensures r.chat_type == User && r.chat_id == u.id && !r.forum
    ensures r.bio.None? && r.date_of_birth.None?
  {
    NativeSeenChat(u.id, User, Pack(UserChat(u)), u.contact, u.mutualContact,
      u.phone, u.username, ThumbOf(u.photo), u.fullName, u.firstName, u.lastName,
      None, None, false)
  }

  function SeenFromGroup(g: GroupInfo): (r: NativeSeenChat)
    ensures r.chat_type == Group && r.chat_id == g.id && !r.forum
    ensures !r.is_contact && !r.is_mutual_contact && r.phone.None? && r.username.None?
    ensures r.last_name.None? && r.full_name == r.first_name == g.title
  {
    NativeSeenChat(g.id, Group, Pack(GroupChat(g)), false, false,
      None, None, ThumbOf(g.photo), g.title, g.title, None, None, None, false)
  }

  function SeenFromChannel(ch: ChannelInfo): (r: NativeSeenChat)
    ensures r.chat_type == Channel && r.chat_id == ch.id && r.forum == ch.forum
    ensures !r.is_contact && !r.is_mutual_contact && r.phone.None?
    ensures r.last_name.None? && r.full_name == r.first_name == ch.title
  {
    NativeSeenChat(ch.id, Channel, Pack(ChannelChat(ch)), false, false,
      None, ch.username, ThumbOf(ch.photo), ch.title, ch.title, None, None, None, ch.forum)
  }

  /** `NativeSeenChat::from_raw`: dispatches on the chat's kind. */
  function SeenFromRaw(c: RawChat): (r: NativeSeenChat)
    ensures r.chat_id == ChatId(c) && r.chat_type == ChatTypeOf(c)
    ensures r.packed_chat == Pack(c)
    ensures r.photo_thumb == ThumbOf(ChatPhotoOf(c))
    ensures r.forum ==> c.ChannelChat?
    ensures !c.UserChat? ==> !r.is_contact && r.phone.None? && r.last_name.None? && r.full_name == r.first_name
  {
    match c
    case UserChat(u) => SeenFromUser(u)
    case GroupChat(g) => SeenFromGroup(g)
    case ChannelChat(ch) => SeenFromChannel(ch)
  }
}
