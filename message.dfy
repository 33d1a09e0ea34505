/** Message loading and live message updates (src/tg/message.rs).

    A message listing is a `MessageFeed`: the messages the client's iterator
    would yield, newest first, and how the listing ends after them. The
    `BTreeMap<i32, NativeMessage>` that `load_messages_from_iter` fills is a
    sequence strictly ascending by message id (`Ascending`); inserting under an
    id already present replaces that entry (`InsertByKey`). */
module Message {
  import opened Types
  import opened Utils
  import opened Tg

  /** `MessageIter::limit(100)`: at most this many messages are taken. */
  const MESSAGE_LIMIT: nat := 100

  /** `get_sorted_messages` takes at most this many messages. */
  const SORTED_LIMIT: nat := 5

  // ---------------------------------------------------------------------
  // The ordered message map

  predicate Ascending(s: seq<NativeMessage>) {
    forall i, j :: 0 <= i < j < |s| ==> s[i].message_id < s[j].message_id
  }

  function Keys(s: seq<NativeMessage>): set<int> {
    set x | x in s :: x.message_id
  }

  function IdsOf(ms: seq<RawMessage>): set<int> {
    set m | m in ms :: m.id
  }

  /** `BTreeMap::insert` keyed by message id: the entry goes in its place in
      id order and replaces an entry with the same id; no other entry is
      touched. */
  function InsertByKey(s: seq<NativeMessage>, m: NativeMessage): (r: seq<NativeMessage>)
    requires Ascending(s)
    ensures Ascending(r)
    ensures m in r
    ensures forall x :: x in s && x.message_id != m.message_id ==> x in r
    ensures forall x :: x in r ==> x == m || x in s
    ensures |r| <= |s| + 1
  {
    if s == [] then [m]
    else if m.message_id < s[0].message_id then [m] + s
    else if m.message_id == s[0].message_id then [m] + s[1..]
    else
      var rest := InsertByKey(s[1..], m);
      assert forall x :: x in rest ==> s[0].message_id < x.message_id;
      [s[0]] + rest
  }

  /** Inserting adds exactly the new message's id to the keys. */
  lemma InsertByKeyKeys(s: seq<NativeMessage>, m: NativeMessage)
    requires Ascending(s)
    ensures Keys(InsertByKey(s, m)) == Keys(s) + {m.message_id}
  {
    var r := InsertByKey(s, m);
    forall k | k in Keys(s) + {m.message_id}
      ensures k in Keys(r)
    {
      if k != m.message_id {
        var x :| x in s && x.message_id == k;
        assert x in r;
      }
    }
  }

  /** The map filled by inserting each message in turn. */
  function SortAll(ms: seq<RawMessage>): (r: seq<NativeMessage>)
    ensures Ascending(r)
    ensures |r| <= |ms|
  {
    if ms == [] then [] else InsertByKey(SortAll(ms[..|ms| - 1]), MessageFromRaw(ms[|ms| - 1]))
  }

  /** The map holds exactly one entry per id inserted. */
  lemma {:induction false} SortAllKeys(ms: seq<RawMessage>)
    ensures Keys(SortAll(ms)) == IdsOf(ms)
    decreases |ms|
  {
    if ms != [] {
      var front := ms[..|ms| - 1];
      var last := ms[|ms| - 1];
      assert ms == front + [last];
      assert IdsOf(ms) == IdsOf(front) + {last.id};
      SortAllKeys(front);
      InsertByKeyKeys(SortAll(front), MessageFromRaw(last));
    }
  }

  /** Every entry of the map is the conversion of a message inserted. */
  lemma {:induction false} SortAllFromInserted(ms: seq<RawMessage>, x: NativeMessage)
    requires x in SortAll(ms)
    ensures exists i :: 0 <= i < |ms| && x == MessageFromRaw(ms[i])
    decreases |ms|
  {
    var front := ms[..|ms| - 1];
    var last := ms[|ms| - 1];
    if x == MessageFromRaw(last) {
      assert x == MessageFromRaw(ms[|ms| - 1]);
    } else {
      SortAllFromInserted(front, x);
      var i :| 0 <= i < |front| && x == MessageFromRaw(front[i]);
      assert ms[i] == front[i];
    }
  }

  /** Where the same id comes twice, the later message wins: the last message
      with each id is exactly the one the map holds. */
  lemma {:induction false} SortAllKeepsLastOfEachId(ms: seq<RawMessage>, i: nat)
    requires i < |ms|
    requires forall j :: i < j < |ms| ==> ms[j].id != ms[i].id
    ensures MessageFromRaw(ms[i]) in SortAll(ms)
    decreases |ms|
  {
    var front := ms[..|ms| - 1];
    if i < |ms| - 1 {
      assert front[i] == ms[i];
      forall j | i < j < |front|
        ensures front[j].id != front[i].id
      {
        assert front[j] == ms[j];
      }
      SortAllKeepsLastOfEachId(front, i);
      assert ms[|ms| - 1].id != ms[i].id;
    }
  }

  /** In an ascending map the last entry has the highest id. */
  lemma LastIsNewest(s: seq<NativeMessage>)
    requires Ascending(s) && s != []
    ensures forall x :: x in s ==> x.message_id <= s[|s| - 1].message_id
  {
  }

  // ---------------------------------------------------------------------
  // load_messages_from_iter

  /** The iterator stops (it does not skip) at the first message whose id is
      not above the resume bound. */
  predicate Stops(m: RawMessage, offset: Option<int>) {
    offset.Some? && m.id <= offset.value
  }

  function Window(items: seq<RawMessage>): (w: seq<RawMessage>)
    ensures |w| <= MESSAGE_LIMIT && w <= items
    ensures |items| <= MESSAGE_LIMIT ==> w == items
  {
    if |items| <= MESSAGE_LIMIT then items else items[..MESSAGE_LIMIT]
  }

  /** The messages kept: those before the first that stops the iteration. */
  function TakeNewer(items: seq<RawMessage>, offset: Option<int>): (kept: seq<RawMessage>)
    ensures |kept| <= |items|
  {
    if items == [] || Stops(items[0], offset) then []
    else [items[0]] + TakeNewer(items[1..], offset)
  }

  /** The handle map after recording a message's sender, if it has one,
      under the sender's own id. */
  function RecordSender(seen: map<int, PackedChat>, m: RawMessage): map<int, PackedChat> {
    if m.sender.Some? then seen[ChatId(m.sender.value) := Pack(m.sender.value)] else seen
  }

  /** The handle map after recording the sender of each message in turn. */
  function RecordSenders(seen: map<int, PackedChat>, ms: seq<RawMessage>): map<int, PackedChat> {
    if ms == [] then seen else RecordSender(RecordSenders(seen, ms[..|ms| - 1]), ms[|ms| - 1])
  }

  function SenderIds(ms: seq<RawMessage>): set<int> {
    set m | m in ms && m.sender.Some? :: ChatId(m.sender.value)
  }

  /** What a load returns, and the handle map afterwards (handles recorded
      before an error are kept). */
  datatype MessageLoad = MessageLoad(result: Result<seq<NativeMessage>>, seen: map<int, PackedChat>)

  /** `load_messages_from_iter`. The listing's error is only reached when the
      iteration neither stopped early nor hit the limit. */
  function LoadMessages(seen: map<int, PackedChat>, feed: MessageFeed, offset: Option<int>): MessageLoad {
    var kept := TakeNewer(Window(feed.items), offset);
    var recorded := RecordSenders(seen, kept);
    if |kept| == |feed.items| && |feed.items| < MESSAGE_LIMIT && feed.end.Failed? then
      MessageLoad(Err(feed.end.error), recorded)
    else
      MessageLoad(Ok(SortAll(kept)), recorded)
  }

  /** The kept messages are a prefix, none of them stops the iteration, and
      the message right after them does. */
  lemma {:induction false} TakeNewerIsStopPrefix(items: seq<RawMessage>, offset: Option<int>)
    ensures var kept := TakeNewer(items, offset);
            && kept <= items
            && (forall m :: m in kept ==> !Stops(m, offset))
            && (|kept| < |items| ==> Stops(items[|kept|], offset))
    decreases |items|
  {
    if items != [] && !Stops(items[0], offset) {
      TakeNewerIsStopPrefix(items[1..], offset);
    }
  }

  /** A prefix of which no message stops, followed by the end or a stopping
      message, is exactly what is kept. */
  lemma {:induction false} TakeNewerExact(items: seq<RawMessage>, offset: Option<int>, n: nat)
    requires n <= |items|
    requires forall k :: 0 <= k < n ==> !Stops(items[k], offset)
    requires n == |items| || Stops(items[n], offset)
    ensures TakeNewer(items, offset) == items[..n]
    decreases n
  {
    if n > 0 {
      TakeNewerExact(items[1..], offset, n - 1);
      assert items[..n] == [items[0]] + items[1..][..n - 1];
    }
  }

  lemma {:induction false} RecordSendersKeys(seen: map<int, PackedChat>, ms: seq<RawMessage>)
    ensures RecordSenders(seen, ms).Keys == seen.Keys + SenderIds(ms)
    ensures HandlesKeyed(seen) ==> HandlesKeyed(RecordSenders(seen, ms))
    ensures forall k :: k in seen && k !in SenderIds(ms) ==> RecordSenders(seen, ms)[k] == seen[k]
    decreases |ms|
  {
    if ms != [] {
      var front := ms[..|ms| - 1];
      assert ms == front + [ms[|ms| - 1]];
      assert SenderIds(ms) == SenderIds(front) + SenderIds([ms[|ms| - 1]]);
      RecordSendersKeys(seen, front);
    }
  }

  /** Every message returned is newer than the resume bound, at most 100
      come back, in strictly ascending id order (one per id), each converted
      from a message the iterator yielded; only the senders of kept messages
      are recorded, each under its own id. */
  lemma LoadMessagesBounds(seen: map<int, PackedChat>, feed: MessageFeed, offset: Option<int>)
    ensures var r := LoadMessages(seen, feed, offset);
            var kept := TakeNewer(Window(feed.items), offset);
            && (r.result.Ok? ==>
                  && Ascending(r.result.value)
                  && |r.result.value| <= MESSAGE_LIMIT
                  && (offset.Some? ==> forall x :: x in r.result.value ==> x.message_id > offset.value)
                  && Keys(r.result.value) == IdsOf(kept)
                  && (forall x :: x in r.result.value ==>
                        exists i :: 0 <= i < |kept| && x == MessageFromRaw(kept[i])))
            && kept <= feed.items
            && r.seen.Keys == seen.Keys + SenderIds(kept)
            && (HandlesKeyed(seen) ==> HandlesKeyed(r.seen))
  {
    var w := Window(feed.items);
    var kept := TakeNewer(w, offset);
    TakeNewerIsStopPrefix(w, offset);
    RecordSendersKeys(seen, kept);
    SortAllKeys(kept);
    var r := LoadMessages(seen, feed, offset);
    if r.result.Ok? {
      forall x | x in r.result.value
        ensures exists i :: 0 <= i < |kept| && x == MessageFromRaw(kept[i])
      {
        SortAllFromInserted(kept, x);
      }
    }
    if r.result.Ok? && offset.Some? {
      forall x | x in r.result.value
        ensures x.message_id > offset.value
      {
        assert x.message_id in Keys(r.result.value);
        var m :| m in kept && m.id == x.message_id;
      }
    }
  }

  /** The message that stops the iteration is neither returned nor has its
      sender recorded (unless a kept message has the same sender). */
  lemma StoppingMessageIgnored(seen: map<int, PackedChat>, feed: MessageFeed, offset: Option<int>, n: nat)
    requires n < |feed.items| && n < MESSAGE_LIMIT
    requires forall k :: 0 <= k < n ==> !Stops(feed.items[k], offset)
    requires Stops(feed.items[n], offset)
    ensures var r := LoadMessages(seen, feed, offset);
            && r.result.Ok?
            && Keys(r.result.value) == IdsOf(feed.items[..n])
            && r.seen == RecordSenders(seen, feed.items[..n])
  {
    var w := Window(feed.items);
    assert w[..n] == feed.items[..n];
    TakeNewerExact(w, offset, n);
    SortAllKeys(feed.items[..n]);
  }

  /** Position `i` of the listing, reached without stopping, either stops
      the iteration (and then everything before it is kept) or is kept. */
  lemma {:induction false} TakeNewerAt(items: seq<RawMessage>, offset: Option<int>, i: nat)
    requires i < |items| && i <= |TakeNewer(items, offset)|
    ensures var kept := TakeNewer(items, offset);
            && (i < |kept| <==> !Stops(items[i], offset))
            && (i < |kept| ==> kept[i] == items[i])
    decreases i
  {
    if i > 0 {
      TakeNewerAt(items[1..], offset, i - 1);
    }
  }

  /** One more message: the map and the handle map each take one step. */
  lemma StepUnfolds(seen: map<int, PackedChat>, ms: seq<RawMessage>, i: nat)
    requires i < |ms|
    ensures SortAll(ms[..i + 1]) == InsertByKey(SortAll(ms[..i]), MessageFromRaw(ms[i]))
    ensures RecordSenders(seen, ms[..i + 1]) == RecordSender(RecordSenders(seen, ms[..i]), ms[i])
  {
    assert ms[..i + 1][..i] == ms[..i];
  }

  method LoadMessagesFromIter(b: Backend, feed: MessageFeed, offset: Option<int>)
      returns (r: Result<seq<NativeMessage>>)
    modifies b`seenPackedChats
    ensures var spec := LoadMessages(old(b.seenPackedChats), feed, offset);
            r == spec.result && b.seenPackedChats == spec.seen
  {
    ghost var seen0 := b.seenPackedChats;
    ghost var window := Window(feed.items);
    ghost var kept := TakeNewer(window, offset);
    var sorted: seq<NativeMessage> := [];
    var i := 0;
    var stopped := false;
    while i < |feed.items| && i < MESSAGE_LIMIT && !stopped
      invariant 0 <= i <= |kept|
      invariant stopped ==> i == |kept| && i < |feed.items|
      invariant sorted == SortAll(kept[..i])
      invariant b.seenPackedChats == RecordSenders(seen0, kept[..i])
      decreases |feed.items| - i, if stopped then 0 else 1
    {
      var raw := feed.items[i];
      assert window[i] == raw;
      TakeNewerAt(window, offset, i);
      if offset.Some? && raw.id <= offset.value {
        stopped := true;
      } else {
        StepUnfolds(seen0, kept, i);
        b.seenPackedChats := RecordSender(b.seenPackedChats, raw);
        sorted := InsertByKey(sorted, MessageFromRaw(raw));
        i := i + 1;
      }
    }
    assert kept[..i] == kept;
    if !stopped && i == |feed.items| && i < MESSAGE_LIMIT && feed.end.Failed? {
      return Err(feed.end.error);
    }
    r := Ok(sorted);
  }

  // ---------------------------------------------------------------------
  // incoming_message_handler

  /** The handle map after a live message: the chat's handle, then the
      sender's, each under its own id. */
  function RecordMessageHandles(seen: map<int, PackedChat>, raw: RawMessage): map<int, PackedChat> {
    var withChat := seen[ChatId(raw.chat) := Pack(raw.chat)];
    if raw.sender.Some? then withChat[ChatId(raw.sender.value) := Pack(raw.sender.value)] else withChat
  }

  /** The summary of a known chat after a live message: only the four
      last-message fields are replaced. */
  function WithLastMessage(c: NativeChat, m: NativeMessage): NativeChat {
    c.(last_message_sender_name := m.sender_name, last_message_id := m.message_id,
       last_message_text := m.text, last_message_timestamp := m.timestamp)
  }

  /** `incoming_message_handler`: records the handles, spawns a sender-photo
      prefetch (a second one for a chat not yet summarised), and updates or
      creates the chat's summary. */
  function IncomingMessage(c: CacheState, raw: RawMessage): CacheState {
    var seen := RecordMessageHandles(c.seen, raw);
    var spawned := SenderPhotoDownloadSpawned(raw.sender);
    var id := ChatId(raw.chat);
    var message := MessageFromRaw(raw);
    if id in c.chats then
      CacheState(c.chats[id := WithLastMessage(c.chats[id], message)], seen, c.log + [spawned])
    else
      CacheState(c.chats[id := WithLastMessage(ChatFromRaw(raw.chat), message)], seen, c.log + [spawned, spawned])
  }

  method IncomingMessageHandler(b: Backend, raw: RawMessage)
    modifies b`seenPackedChats, b`chats, b`log
    ensures CachesOf(b) == IncomingMessage(old(CachesOf(b)), raw)
    ensures old(b.Valid()) ==> b.Valid()
  {
    b.seenPackedChats := b.seenPackedChats[ChatId(raw.chat) := Pack(raw.chat)];
    if raw.sender.Some? {
      b.seenPackedChats := b.seenPackedChats[ChatId(raw.sender.value) := Pack(raw.sender.value)];
    }
    assert b.seenPackedChats == RecordMessageHandles(old(b.seenPackedChats), raw);
    b.log := b.log + [SenderPhotoDownloadSpawned(raw.sender)];
    var id := ChatId(raw.chat);
    if id in b.chats {
      var old_chat := b.chats[id];
      var senderName := if raw.sender.Some? then ChatName(raw.sender.value) else "";
      old_chat := old_chat.(last_message_sender_name := senderName);
      old_chat := old_chat.(last_message_id := raw.id);
      old_chat := old_chat.(last_message_text := raw.text);
      old_chat := old_chat.(last_message_timestamp := raw.date);
      assert old_chat == WithLastMessage(b.chats[id], MessageFromRaw(raw));
      b.chats := b.chats[id := old_chat];
    } else {
      b.log := b.log + [SenderPhotoDownloadSpawned(raw.sender)];
      var message := MessageFromRaw(raw);
      var chat := ChatFromRaw(raw.chat);
      chat := chat.(last_message_id := message.message_id);
      chat := chat.(last_message_sender_name := message.sender_name);
      chat := chat.(last_message_text := message.text);
      chat := chat.(last_message_timestamp := message.timestamp);
      assert chat == WithLastMessage(ChatFromRaw(raw.chat), message);
      b.chats := b.chats[id := chat];
    }
    assert CachesOf(b) == IncomingMessage(old(CachesOf(b)), raw);
    IncomingMessageKeepsKeyed(old(CachesOf(b)), raw);
  }

  /** The chat's handle and the sender's are recorded under their own ids
      (the sender's wins when the two ids coincide); other handles stay. */
  lemma IncomingMessageRecordsHandles(c: CacheState, raw: RawMessage)
    ensures var seen := IncomingMessage(c, raw).seen;
            && ChatId(raw.chat) in seen
            && (raw.sender.Some? ==> seen[ChatId(raw.sender.value)] == Pack(raw.sender.value))
            && (raw.sender.None? || ChatId(raw.sender.value) != ChatId(raw.chat) ==>
                  seen[ChatId(raw.chat)] == Pack(raw.chat))
            && (forall k :: (k in c.seen && k != ChatId(raw.chat) &&
                             (raw.sender.None? || k != ChatId(raw.sender.value))) ==> seen[k] == c.seen[k])
            && (HandlesKeyed(c.seen) ==> HandlesKeyed(seen))
  {
  }

  /** For a chat already summarised, only the four last-message fields
      change; name, type, pin flag, megagroup and forum stay. For an unknown
      chat a fresh unpinned summary is stored. Either way the summary now
      names this message as the last one, no other summary changes, and
      summaries stay keyed by their own chat id. */
  lemma IncomingMessageUpdatesSummary(c: CacheState, raw: RawMessage)
    requires ChatsKeyed(c.chats)
    ensures var r := IncomingMessage(c, raw);
            var id := ChatId(raw.chat);
            var s := r.chats[id];
            && id in r.chats
            && s.last_message_id == raw.id
            && s.last_message_text == raw.text
            && s.last_message_timestamp == raw.date
            && s.last_message_sender_name == (if raw.sender.Some? then ChatName(raw.sender.value) else "")
            && (id in c.chats ==>
                  var o := c.chats[id];
                  s.name == o.name && s.chat_type == o.chat_type && s.pinned == o.pinned
                  && s.megagroup == o.megagroup && s.forum == o.forum
                  && r.log == c.log + [SenderPhotoDownloadSpawned(raw.sender)])
            && (id !in c.chats ==>
                  !s.pinned && s.name == ChatName(raw.chat) && s.chat_type == ChatTypeOf(raw.chat)
                  && r.log == c.log + [SenderPhotoDownloadSpawned(raw.sender), SenderPhotoDownloadSpawned(raw.sender)])
            && (forall k :: k in c.chats && k != id ==> k in r.chats && r.chats[k] == c.chats[k])
            && ChatsKeyed(r.chats)
  {
  }

  /** The handler keeps every summary under its own chat id. */
  lemma IncomingMessageKeepsKeyed(c: CacheState, raw: RawMessage)
    ensures ChatsKeyed(c.chats) ==> ChatsKeyed(IncomingMessage(c, raw).chats)
  {
    if ChatsKeyed(c.chats) {
      IncomingMessageUpdatesSummary(c, raw);
    }
  }

  // ---------------------------------------------------------------------
  // get_sorted_messages

  /** `Vec::reverse`. */
  function Reversed<T>(s: seq<T>): (r: seq<T>)
    ensures |r| == |s|
    ensures forall i :: 0 <= i < |s| ==> r[i] == s[|s| - 1 - i]
  {
    if s == [] then [] else Reversed(s[1..]) + [s[0]]
  }

  lemma {:induction false} ReversedTwice<T>(s: seq<T>)
    ensures Reversed(Reversed(s)) == s
  {
    var r := Reversed(Reversed(s));
    assert forall i :: 0 <= i < |s| ==> r[i] == s[i];
  }

  /** `get_sorted_messages`: the first five messages the listing yields,
      oldest of them first; an error while listing is returned. */
  method GetSortedMessages(feed: MessageFeed) returns (r: Result<seq<NativeMessage>>)
    ensures r.Ok? <==> |feed.items| >= SORTED_LIMIT || feed.end.Exhausted?
    ensures r.Err? ==> r.error == feed.end.error
    ensures r.Ok? ==>
      var n := |r.value|;
      && n == (if |feed.items| < SORTED_LIMIT then |feed.items| else SORTED_LIMIT)
      && forall i :: 0 <= i < n ==> r.value[i] == MessageFromRaw(feed.items[n - 1 - i])
  {
    var pushed: seq<NativeMessage> := [];
    var i := 0;
    while i < |feed.items| && i < SORTED_LIMIT
      invariant 0 <= i <= |feed.items| && i <= SORTED_LIMIT
      invariant |pushed| == i
      invariant forall k :: 0 <= k < i ==> pushed[k] == MessageFromRaw(feed.items[k])
    {
      pushed := pushed + [MessageFromRaw(feed.items[i])];
      i := i + 1;
    }
    if i < SORTED_LIMIT && feed.end.Failed? {
      return Err(feed.end.error);
    }
    r := Ok(Reversed(pushed));
  }

  // ---------------------------------------------------------------------
  // send_message and download_media_from_message

  /** What `send_message` sends, before uploading anything. */
  datatype Outgoing =
    | TextMessage(target: PackedChat, text: string)
    | Album(target: PackedChat, files: seq<string>, captions: seq<string>)

  /** The caption of each album entry: the text on the first, nothing on the
      rest. */
  function AlbumCaptions(text: string, n: nat): (r: seq<string>)
    ensures |r| == n
    ensures forall i :: 0 <= i < n ==> r[i] == (if i == 0 then text else "")
  {
    if n == 0 then [] else AlbumCaptions(text, n - 1) + [if n - 1 == 0 then text else ""]
  }

  /** The lookup and caption rules of `send_message`: an unknown chat panics;
      with media files, one album entry per file; otherwise a text message. */
  function SendPlan(seen: map<int, PackedChat>, chatId: int, text: string, medias: Option<seq<string>>): (r: Result<Outgoing>)
    ensures chatId !in seen ==> r.Err? && r.error.Panicked?
    ensures chatId in seen ==> r.Ok? && r.value.target == seen[chatId]
    ensures chatId in seen && medias.None? ==> r.Ok? && r.value == TextMessage(seen[chatId], text)
    ensures chatId in seen && medias.Some? ==>
      r.Ok? && r.value.Album? && r.value.files == medias.value && |r.value.captions| == |medias.value|
  {
    if chatId !in seen then Err(Panicked("chat not found"))
    else match medias
      case None => Ok(TextMessage(seen[chatId], text))
      case Some(files) => Ok(Album(seen[chatId], files, AlbumCaptions(text, |files|)))
  }

  /** An album's first entry carries the text and no other entry has one. */
  lemma AlbumCaptionOnFirstOnly(seen: map<int, PackedChat>, chatId: int, text: string, files: seq<string>)
    requires chatId in seen && files != []
    ensures var r := SendPlan(seen, chatId, text, Some(files));
            r.value.captions[0] == text && forall i :: 1 <= i < |files| ==> r.value.captions[i] == ""
  {
  }

  /** `download_media_from_message`. `fetched` is the client's answer to the
      lookup by id, `fileExists` whether the media file is already on disk,
      `dirReady` whether the chat's download directory exists or could be
      created, and `download` the client's download outcome. */
  function DownloadMediaFromMessage(seen: map<int, PackedChat>, chatId: int, messageId: int,
                                    fetched: Result<seq<Option<RawMessage>>>,
                                    fileExists: bool, dirReady: bool, download: Result<bool>): (r: Result<string>)
    ensures chatId !in seen ==> r.Err? && r.error.Panicked?
    ensures r.Ok? ==> r.value == MediaPath(chatId, messageId)
    ensures chatId in seen && fetched.Err? ==> r == Err(fetched.error)
    ensures chatId in seen && fetched.Ok? && fetched.value == [] ==> r.Err? && r.error.NotFound?
    ensures chatId in seen && fetched.Ok? && fetched.value != [] && fetched.value[|fetched.value| - 1].Some? ==>
      (r.Ok? <==> fileExists || (dirReady && download == Ok(true)))
  {
    if chatId !in seen then Err(Panicked("chat not found"))
    else match fetched
      case Err(e) => Err(e)
      case Ok(list) =>
        if list == [] then Err(NotFound("message not found"))
        else if list[|list| - 1].None? then Err(Panicked("message not found"))
        else
          var path := MediaPath(chatId, messageId);
          if fileExists then Ok(path)
          else if !dirReady then Err(FsError)
          else match download
            case Ok(true) => Ok(path)
            case Ok(false) => Err(DownloadReturnedFalse)
            case Err(e) => Err(e)
  }
}
