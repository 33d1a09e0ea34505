/** The chat scan, the cache bootstrap and the profile-photo functions
    (src/tg/chat.rs).

    The account's dialog listing is a `DialogFeed`: the dialogs the client's
    iterator would yield, and how the listing ends after them. Each dialog
    carries its own message history (`Dialog.history`). The resume offsets
    are a map from chat id to the last message id the host already has. */
module Chat {
  import opened Types
  import opened Utils
  import opened Tg
  import opened Message

  datatype DialogFeed = DialogFeed(dialogs: seq<Dialog>, end: FeedEnd)

  /** The two host callbacks the scan invokes. */
  datatype Hooks = Hooks(cacheSeen: Option<Callback>, updateChat: Option<Callback>)

  function HooksOf(b: Backend): Hooks
    reads b`cacheSeenChatCallback, b`updateChatCallback
  {
    Hooks(b.cacheSeenChatCallback, b.updateChatCallback)
  }

  /** After one dialog: go on with the next one, stop the scan early, or end
      it with an error. */
  datatype Flow = Next | Stop | Abort(error: Error)

  datatype Visit = Visit(state: CacheState, flow: Flow)

  // ---------------------------------------------------------------------
  // load_chats_with_offset

  /** A dialog's resume bound: the offset-map entry for its chat id; no map,
      or no entry, means no bound. */
  function ResumeBound(offsets: Option<map<int, int>>, chatId: int): (r: Option<int>)
    ensures r.Some? <==> offsets.Some? && chatId in offsets.value
    ensures r.Some? ==> r.value == offsets.value[chatId]
  {
    if offsets.Some? && chatId in offsets.value then Some(offsets.value[chatId]) else None
  }

  /** The summary stored for a dialog with new messages: built from the raw
      chat, pinned as the dialog says, last-message fields from `last`. */
  function Summary(d: Dialog, last: NativeMessage): NativeChat {
    ChatFromRaw(d.chat).(pinned := d.pinned,
                         last_message_id := last.message_id,
                         last_message_sender_name := last.sender_name,
                         last_message_text := last.text,
                         last_message_timestamp := last.timestamp)
  }

  /** One turn of the scan loop: save the session in the background, load
      the dialog's messages newer than its resume bound, then store them. */
  function VisitDialog(c: CacheState, hooks: Hooks, d: Dialog, offsets: Option<map<int, int>>): Visit {
    var id := ChatId(d.chat);
    var visited := c.log + [SessionSaveSpawned, ClientCalled(IterMessages(id))];
    var load := LoadMessages(c.seen, d.history, ResumeBound(offsets, id));
    match load.result
    case Err(e) => Visit(CacheState(c.chats, load.seen, visited), Abort(e))
    case Ok(ms) => StoreDialog(CacheState(c.chats, load.seen, visited), hooks, d, ms)
  }

  /** What a dialog's loaded messages lead to: nothing new stops the scan
      unless the dialog is pinned; otherwise the handle and the summary are
      stored and both callbacks invoked (an unregistered one panics). */
  function StoreDialog(c: CacheState, hooks: Hooks, d: Dialog, ms: seq<NativeMessage>): Visit {
    if ms == [] then
      Visit(c, if d.pinned then Next else Stop)
    else
      var id := ChatId(d.chat);
      var chat := Summary(d, ms[|ms| - 1]);
      var seen := c.seen[Pack(d.chat).id := Pack(d.chat)];
      var native := SeenFromRaw(d.chat);
      if hooks.cacheSeen.None? then
        Visit(CacheState(c.chats, seen, c.log), Abort(Panicked("cache_seen_chat_callback not registered")))
      else
        var cached := c.log + [CacheSeenChatCalled(hooks.cacheSeen.value, native)];
        var chats := c.chats[id := chat];
        if hooks.updateChat.None? then
          Visit(CacheState(chats, seen, cached), Abort(Panicked("update_chat_callback not registered")))
        else
          Visit(CacheState(chats, seen, cached + [UpdateChatCalled(hooks.updateChat.value, native, chat, ms)]), Next)
  }

  /** The scan over the dialogs listed, up to an early stop or an error. */
  function ScanDialogs(c: CacheState, hooks: Hooks, ds: seq<Dialog>, offsets: Option<map<int, int>>): Visit
    decreases |ds|
  {
    if ds == [] then Visit(c, Next)
    else
      var v := VisitDialog(c, hooks, ds[0], offsets);
      if v.flow.Next? then ScanDialogs(v.state, hooks, ds[1..], offsets) else v
  }

  /** `load_chats_with_offset`: the caches afterwards and the result. The
      listing's own error is reached only when every dialog was visited. */
  function LoadChats(c: CacheState, hooks: Hooks, feed: DialogFeed, offsets: Option<map<int, int>>): (CacheState, Result<()>) {
    var v := ScanDialogs(c, hooks, feed.dialogs, offsets);
    match v.flow
    case Stop => (v.state, Ok(()))
    case Abort(e) => (v.state, Err(e))
    case Next => (v.state, if feed.end.Failed? then Err(feed.end.error) else Ok(()))
  }

  /** The body of the scan loop for one dialog. */
  method LoadDialog(b: Backend, d: Dialog, offsets: Option<map<int, int>>) returns (flow: Flow)
    modifies b`chats, b`seenPackedChats, b`log
    ensures Visit(CachesOf(b), flow) == VisitDialog(old(CachesOf(b)), HooksOf(b), d, offsets)
    ensures old(b.Valid()) ==> b.Valid()
  {
    VisitKeepsWrites(CachesOf(b), HooksOf(b), d, offsets);
    ghost var start := CachesOf(b);
    b.log := b.log + [SessionSaveSpawned];
    var id := ChatId(d.chat);
    var lastMessageId := if offsets.Some? && id in offsets.value then Some(offsets.value[id]) else None;
    b.log := b.log + [ClientCalled(IterMessages(id))];
    var loaded := LoadMessagesFromIter(b, d.history, lastMessageId);
    ghost var load := LoadMessages(start.seen, d.history, ResumeBound(offsets, id));
    assert loaded == load.result;
    assert CachesOf(b) == CacheState(start.chats, load.seen, start.log + [SessionSaveSpawned, ClientCalled(IterMessages(id))]);
    if loaded.Err? {
      return Abort(loaded.error);
    }
    flow := StoreLoaded(b, d, loaded.value);
  }

  /** The rest of the loop body, once the messages are loaded. */
  method StoreLoaded(b: Backend, d: Dialog, sorted: seq<NativeMessage>) returns (flow: Flow)
    modifies b`chats, b`seenPackedChats, b`log
    ensures Visit(CachesOf(b), flow) == StoreDialog(old(CachesOf(b)), HooksOf(b), d, sorted)
    ensures old(b.Valid()) ==> b.Valid()
  {
    var chat := ChatFromRaw(d.chat);
    var packed := Pack(d.chat);
    chat := chat.(pinned := d.pinned);
    if |sorted| == 0 {
      if !chat.pinned {
        return Stop;
      }
      return Next;
    }
    var last := sorted[|sorted| - 1];
    chat := chat.(last_message_id := last.message_id, last_message_sender_name := last.sender_name,
                  last_message_text := last.text, last_message_timestamp := last.timestamp);
    assert chat == Summary(d, last) && chat.chat_id == ChatId(d.chat);
    b.seenPackedChats := b.seenPackedChats[packed.id := packed];
    var native := SeenFromRaw(d.chat);
    if b.cacheSeenChatCallback.None? {
      return Abort(Panicked("cache_seen_chat_callback not registered"));
    }
    b.log := b.log + [CacheSeenChatCalled(b.cacheSeenChatCallback.value, native)];
    b.chats := b.chats[ChatId(d.chat) := chat];
    if b.updateChatCallback.None? {
      return Abort(Panicked("update_chat_callback not registered"));
    }
    b.log := b.log + [UpdateChatCalled(b.updateChatCallback.value, native, chat, sorted)];
    flow := Next;
  }

  method LoadChatsWithOffset(b: Backend, feed: DialogFeed, offsets: Option<map<int, int>>) returns (r: Result<()>)
    modifies b`chats, b`seenPackedChats, b`log
    ensures (CachesOf(b), r) == LoadChats(old(CachesOf(b)), HooksOf(b), feed, offsets)
    ensures old(b.Valid()) ==> b.Valid()
  {
    ghost var start := CachesOf(b);
    var i := 0;
    while i < |feed.dialogs|
      invariant 0 <= i <= |feed.dialogs|
      invariant old(b.Valid()) ==> b.Valid()
      invariant ScanDialogs(CachesOf(b), HooksOf(b), feed.dialogs[i..], offsets)
                == ScanDialogs(start, HooksOf(b), feed.dialogs, offsets)
    {
      assert feed.dialogs[i..][0] == feed.dialogs[i];
      assert feed.dialogs[i..][1..] == feed.dialogs[i + 1..];
      ghost var v := VisitDialog(CachesOf(b), HooksOf(b), feed.dialogs[i], offsets);
      assert ScanDialogs(CachesOf(b), HooksOf(b), feed.dialogs[i..], offsets)
             == if v.flow.Next? then ScanDialogs(v.state, HooksOf(b), feed.dialogs[i + 1..], offsets) else v;
      var flow := LoadDialog(b, feed.dialogs[i], offsets);
      assert Visit(CachesOf(b), flow) == v;
      match flow {
        case Stop => return Ok(());
        case Abort(e) => return Err(e);
        case Next =>
      }
      i := i + 1;
    }
    if feed.end.Failed? {
      return Err(feed.end.error);
    }
    r := Ok(());
  }

  // ---------------------------------------------------------------------
  // Properties of the scan

  /** The outcomes of one dialog. A load error aborts with the cache
      summaries untouched. A dialog with no new messages writes no summary
      and invokes no callback; it stops the scan unless it is pinned. A
      dialog with new messages (callbacks registered) stores its handle under
      its id and a summary whose last-message fields are those of the
      newest message loaded and whose pin flag is the dialog's; then
      `cache_seen_chat` and, after it, `update_chat` with the messages in
      ascending id order, all newer than the dialog's resume bound. */
  lemma VisitDialogOutcomes(c: CacheState, hooks: Hooks, d: Dialog, offsets: Option<map<int, int>>)
    ensures var v := VisitDialog(c, hooks, d, offsets);
            var id := ChatId(d.chat);
            var bound := ResumeBound(offsets, id);
            var load := LoadMessages(c.seen, d.history, bound);
            var visited := c.log + [SessionSaveSpawned, ClientCalled(IterMessages(id))];
            && (load.result.Err? ==> v.flow == Abort(load.result.error) && v.state.chats == c.chats)
            && (load.result == Ok([]) ==>
                  && v.state == CacheState(c.chats, c.seen, visited)
                  && (v.flow == Stop <==> !d.pinned)
                  && (v.flow == Next <==> d.pinned))
            && (load.result.Ok? && load.result.value != [] && hooks.cacheSeen.Some? && hooks.updateChat.Some? ==>
                  var ms := load.result.value;
                  var s := v.state.chats[id];
                  && v.flow == Next
                  && v.state.chats == c.chats[id := s]
                  && v.state.seen[id] == Pack(d.chat)
                  && s.pinned == d.pinned
                  && s.chat_id == id && s.name == ChatName(d.chat)
                  && s.last_message_id == ms[|ms| - 1].message_id
                  && s.last_message_text == ms[|ms| - 1].text
                  && s.last_message_sender_name == ms[|ms| - 1].sender_name
                  && s.last_message_timestamp == ms[|ms| - 1].timestamp
                  && (forall x :: x in ms ==> x.message_id <= s.last_message_id)
                  && Ascending(ms)
                  && (bound.Some? ==> forall x :: x in ms ==> x.message_id > bound.value)
                  && v.state.log == visited + [CacheSeenChatCalled(hooks.cacheSeen.value, SeenFromRaw(d.chat)),
                                               UpdateChatCalled(hooks.updateChat.value, SeenFromRaw(d.chat), s, ms)])
  {
    var id := ChatId(d.chat);
    var load := LoadMessages(c.seen, d.history, ResumeBound(offsets, id));
    var visited := c.log + [SessionSaveSpawned, ClientCalled(IterMessages(id))];
    LoadMessagesBounds(c.seen, d.history, ResumeBound(offsets, id));
    if load.result == Ok([]) {
      EmptyLoadRecordsNothing(c.seen, d.history, ResumeBound(offsets, id));
    }
    if load.result.Ok? {
      StoreDialogOutcomes(CacheState(c.chats, load.seen, visited), hooks, d, load.result.value);
    }
  }

  /** Storing what a dialog loaded, with both callbacks registered: the
      summary carries the newest message's fields and the dialog's pin flag,
      the handle is stored under the chat's id, and the two callbacks are
      invoked in this order. */
  lemma StoreDialogOutcomes(c: CacheState, hooks: Hooks, d: Dialog, ms: seq<NativeMessage>)
    ensures var v := StoreDialog(c, hooks, d, ms);
            && (ms == [] ==> v.state == c && (v.flow == Stop <==> !d.pinned) && (v.flow == Next <==> d.pinned))
            && (ms != [] && hooks.cacheSeen.Some? && hooks.updateChat.Some? ==>
                  var id := ChatId(d.chat);
                  var s := v.state.chats[id];
                  && v.flow == Next
                  && v.state.chats == c.chats[id := s]
                  && v.state.seen == c.seen[id := Pack(d.chat)]
                  && s.pinned == d.pinned
                  && s.chat_id == id && s.name == ChatName(d.chat)
                  && s.last_message_id == ms[|ms| - 1].message_id
                  && s.last_message_text == ms[|ms| - 1].text
                  && s.last_message_sender_name == ms[|ms| - 1].sender_name
                  && s.last_message_timestamp == ms[|ms| - 1].timestamp
                  && (Ascending(ms) ==> forall x :: x in ms ==> x.message_id <= s.last_message_id)
                  && v.state.log == c.log + [CacheSeenChatCalled(hooks.cacheSeen.value, SeenFromRaw(d.chat)),
                                             UpdateChatCalled(hooks.updateChat.value, SeenFromRaw(d.chat), s, ms)])
  {
    if ms != [] && Ascending(ms) {
      LastIsNewest(ms);
    }
  }

  /** A load that returns nothing kept nothing, so it recorded no handle. */
  lemma EmptyLoadRecordsNothing(seen: map<int, PackedChat>, feed: MessageFeed, offset: Option<int>)
    requires LoadMessages(seen, feed, offset).result == Ok([])
    ensures LoadMessages(seen, feed, offset).seen == seen
  {
    var kept := TakeNewer(Window(feed.items), offset);
    SortAllKeys(kept);
  }

  /** Scanning a listing in two parts: the second part is scanned from
      where the first left the caches, and only if the first ran through. */
  lemma {:induction false} ScanComposes(c: CacheState, hooks: Hooks, ds: seq<Dialog>, rest: seq<Dialog>,
                                        offsets: Option<map<int, int>>)
    ensures var v := ScanDialogs(c, hooks, ds, offsets);
            ScanDialogs(c, hooks, ds + rest, offsets) ==
              if v.flow.Next? then ScanDialogs(v.state, hooks, rest, offsets) else v
    decreases |ds|
  {
    if ds != [] {
      assert (ds + rest)[0] == ds[0];
      assert (ds + rest)[1..] == ds[1..] + rest;
      var v := VisitDialog(c, hooks, ds[0], offsets);
      if v.flow.Next? {
        ScanComposes(v.state, hooks, ds[1..], rest, offsets);
      }
    } else {
      assert ds + rest == rest;
    }
  }

  /** The first non-pinned dialog with no new messages ends the scan: no
      later dialog is visited, whatever follows, and nothing is written
      for it. */
  lemma StaleDialogEndsScan(c: CacheState, hooks: Hooks, d: Dialog, rest: seq<Dialog>,
                            offsets: Option<map<int, int>>)
    requires !d.pinned
    requires LoadMessages(c.seen, d.history, ResumeBound(offsets, ChatId(d.chat))).result == Ok([])
    ensures var v := ScanDialogs(c, hooks, [d] + rest, offsets);
            && v.flow == Stop
            && v.state == CacheState(c.chats, c.seen, c.log + [SessionSaveSpawned, ClientCalled(IterMessages(ChatId(d.chat)))])
  {
    VisitDialogOutcomes(c, hooks, d, offsets);
    assert ([d] + rest)[0] == d;
  }

  /** A pinned dialog with no new messages is skipped: no summary, no handle,
      no callback, and the scan goes on with the next dialog. */
  lemma PinnedStaleDialogSkipped(c: CacheState, hooks: Hooks, d: Dialog, rest: seq<Dialog>,
                                 offsets: Option<map<int, int>>)
    requires d.pinned
    requires LoadMessages(c.seen, d.history, ResumeBound(offsets, ChatId(d.chat))).result == Ok([])
    ensures ScanDialogs(c, hooks, [d] + rest, offsets) ==
            ScanDialogs(CacheState(c.chats, c.seen, c.log + [SessionSaveSpawned, ClientCalled(IterMessages(ChatId(d.chat)))]),
                        hooks, rest, offsets)
  {
    VisitDialogOutcomes(c, hooks, d, offsets);
    assert ([d] + rest)[0] == d;
    assert ([d] + rest)[1..] == rest;
  }

  /** A write once made is kept: the scan never removes a summary or a
      handle and only appends to the log, also when it ends with an error;
      summaries and handles stay keyed by their own ids. */
  lemma {:induction false} ScanKeepsWrites(c: CacheState, hooks: Hooks, ds: seq<Dialog>, offsets: Option<map<int, int>>)
    ensures var v := ScanDialogs(c, hooks, ds, offsets);
            && c.chats.Keys <= v.state.chats.Keys
            && c.seen.Keys <= v.state.seen.Keys
            && c.log <= v.state.log
            && (ChatsKeyed(c.chats) ==> ChatsKeyed(v.state.chats))
            && (HandlesKeyed(c.seen) ==> HandlesKeyed(v.state.seen))
    decreases |ds|
  {
    if ds != [] {
      var d := ds[0];
      var v := VisitDialog(c, hooks, d, offsets);
      VisitKeepsWrites(c, hooks, d, offsets);
      if v.flow.Next? {
        ScanKeepsWrites(v.state, hooks, ds[1..], offsets);
      }
    }
  }

  lemma VisitKeepsWrites(c: CacheState, hooks: Hooks, d: Dialog, offsets: Option<map<int, int>>)
    ensures var v := VisitDialog(c, hooks, d, offsets);
            && c.chats.Keys <= v.state.chats.Keys
            && c.seen.Keys <= v.state.seen.Keys
            && c.log <= v.state.log
            && (ChatsKeyed(c.chats) ==> ChatsKeyed(v.state.chats))
            && (HandlesKeyed(c.seen) ==> HandlesKeyed(v.state.seen))
  {
    var id := ChatId(d.chat);
    var load := LoadMessages(c.seen, d.history, ResumeBound(offsets, id));
    LoadMessagesBounds(c.seen, d.history, ResumeBound(offsets, id));
    if load.result.Ok? {
      StoreKeepsWrites(CacheState(c.chats, load.seen, c.log + [SessionSaveSpawned, ClientCalled(IterMessages(id))]),
                       hooks, d, load.result.value);
    }
  }

  lemma StoreKeepsWrites(c: CacheState, hooks: Hooks, d: Dialog, ms: seq<NativeMessage>)
    ensures var v := StoreDialog(c, hooks, d, ms);
            && c.chats.Keys <= v.state.chats.Keys
            && c.seen.Keys <= v.state.seen.Keys
            && c.log <= v.state.log
            && (ChatsKeyed(c.chats) ==> ChatsKeyed(v.state.chats))
            && (HandlesKeyed(c.seen) ==> HandlesKeyed(v.state.seen))
  {
    var v := StoreDialog(c, hooks, d, ms);
    if ms != [] {
      var id := ChatId(d.chat);
      assert Pack(d.chat).id == id;
      assert v.state.seen == c.seen[id := Pack(d.chat)];
      assert Summary(d, ms[|ms| - 1]).chat_id == id;
      assert v.state.chats == c.chats || v.state.chats == c.chats[id := Summary(d, ms[|ms| - 1])];
    }
  }

  /** The scan's result: an error from a dialog, or from the listing itself
      once every dialog was visited; an early stop is a success even when
      the listing would have failed later. */
  lemma LoadChatsResult(c: CacheState, hooks: Hooks, feed: DialogFeed, offsets: Option<map<int, int>>)
    ensures var v := ScanDialogs(c, hooks, feed.dialogs, offsets);
            var r := LoadChats(c, hooks, feed, offsets);
            && r.0 == v.state
            && (r.1.Err? <==> v.flow.Abort? || (v.flow.Next? && feed.end.Failed?))
            && (v.flow == Stop ==> r.1 == Ok(()))
  {
  }

  // ---------------------------------------------------------------------
  // sync_caches_from_local_db

  /** Handles decoded in turn, each stored under the id the host gave with
      it; the first one that does not decode ends the loop (`false`), with
      the earlier ones kept. */
  function InsertHandles(seen: map<int, PackedChat>, ps: seq<NativePackedChat>,
                         decode: string -> Option<PackedChat>): (map<int, PackedChat>, bool)
    decreases |ps|
  {
    if ps == [] then (seen, true)
    else match decode(ps[0].packed_chat)
      case None => (seen, false)
      case Some(h) => InsertHandles(seen[ps[0].chat_id := h], ps[1..], decode)
  }

  function InsertChats(chats: map<int, NativeChat>, cs: seq<NativeChat>): map<int, NativeChat>
    decreases |cs|
  {
    if cs == [] then chats else InsertChats(chats[cs[0].chat_id := cs[0]], cs[1..])
  }

  /** The summaries of a list as one map, a later entry winning over an
      earlier one with the same id. */
  function ChatsMapOf(cs: seq<NativeChat>): map<int, NativeChat>
    decreases |cs|
  {
    if cs == [] then map[] else map[cs[0].chat_id := cs[0]] + ChatsMapOf(cs[1..])
  }

  /** That map holds every listed id and each summary under its own id. */
  lemma {:induction false} ChatsMapOfKeys(cs: seq<NativeChat>)
    ensures ChatsMapOf(cs).Keys == (set c | c in cs :: c.chat_id)
    ensures ChatsKeyed(ChatsMapOf(cs))
    decreases |cs|
  {
    if cs != [] {
      ChatsMapOfKeys(cs[1..]);
      assert forall c :: c in cs <==> c == cs[0] || c in cs[1..];
    }
  }

  /** For each id, the map holds the last summary listed with it. */
  lemma {:induction false} ChatsMapOfLastWins(cs: seq<NativeChat>, i: nat)
    requires i < |cs|
    requires forall j :: i < j < |cs| ==> cs[j].chat_id != cs[i].chat_id
    ensures cs[i].chat_id in ChatsMapOf(cs) && ChatsMapOf(cs)[cs[i].chat_id] == cs[i]
    decreases |cs|
  {
    if i > 0 {
      forall j | i - 1 < j < |cs| - 1
        ensures cs[1..][j].chat_id != cs[1..][i - 1].chat_id
      {
        assert cs[1..][j] == cs[j + 1];
      }
      ChatsMapOfLastWins(cs[1..], i - 1);
    } else {
      ChatsMapOfKeys(cs[1..]);
    }
  }

  /** `sync_caches_from_local_db`: the caches afterwards and the result. */
  function Bootstrap(c: CacheState, ps: seq<NativePackedChat>, cs: seq<NativeChat>,
                     decode: string -> Option<PackedChat>): (CacheState, Result<()>)
  {
    var (seen, ok) := InsertHandles(c.seen, ps, decode);
    if !ok then (c.(seen := seen), Err(ClientError("invalid packed chat")))
    else (c.(seen := seen, chats := InsertChats(c.chats, cs)), Ok(()))
  }

  method SyncCachesFromLocalDb(b: Backend, ps: seq<NativePackedChat>, cs: seq<NativeChat>,
                               decode: string -> Option<PackedChat>) returns (r: Result<()>)
    modifies b`seenPackedChats, b`chats
    ensures (CachesOf(b), r) == Bootstrap(old(CachesOf(b)), ps, cs, decode)
    ensures old(b.Valid()) ==> b.Valid()
  {
    BootstrapProperties(CachesOf(b), ps, cs, decode);
    ghost var start := CachesOf(b);
    for i := 0 to |ps|
      invariant InsertHandles(b.seenPackedChats, ps[i..], decode) == InsertHandles(start.seen, ps, decode)
      invariant b.chats == start.chats && b.log == start.log
    {
      assert ps[i..][0] == ps[i] && ps[i..][1..] == ps[i + 1..];
      var handle := decode(ps[i].packed_chat);
      if handle.None? {
        return Err(ClientError("invalid packed chat"));
      }
      b.seenPackedChats := b.seenPackedChats[ps[i].chat_id := handle.value];
    }
    assert ps[|ps|..] == [];
    ghost var seen := b.seenPackedChats;
    for i := 0 to |cs|
      invariant InsertChats(b.chats, cs[i..]) == InsertChats(start.chats, cs)
      invariant b.seenPackedChats == seen && b.log == start.log
    {
      assert cs[i..][0] == cs[i] && cs[i..][1..] == cs[i + 1..];
      b.chats := b.chats[cs[i].chat_id := cs[i]];
    }
    assert cs[|cs|..] == [];
    r := Ok(());
  }

  /** Inserting a list of summaries is a union with the list's own map. */
  lemma {:induction false} InsertChatsIsUnion(chats: map<int, NativeChat>, cs: seq<NativeChat>)
    ensures InsertChats(chats, cs) == chats + ChatsMapOf(cs)
    decreases |cs|
  {
    if cs != [] {
      InsertChatsIsUnion(chats[cs[0].chat_id := cs[0]], cs[1..]);
      assert chats[cs[0].chat_id := cs[0]] + ChatsMapOf(cs[1..]) ==
             chats + (map[cs[0].chat_id := cs[0]] + ChatsMapOf(cs[1..]));
    } else {
      assert chats + map[] == chats;
    }
  }

  /** Where every handle decodes, the handles likewise form one map. */
  function HandlesMapOf(ps: seq<NativePackedChat>, decode: string -> Option<PackedChat>): map<int, PackedChat>
    decreases |ps|
  {
    if ps == [] then map[]
    else
      var rest := HandlesMapOf(ps[1..], decode);
      match decode(ps[0].packed_chat)
      case None => rest
      case Some(h) => map[ps[0].chat_id := h] + rest
  }

  predicate AllDecode(ps: seq<NativePackedChat>, decode: string -> Option<PackedChat>) {
    forall p :: p in ps ==> decode(p.packed_chat).Some?
  }

  lemma {:induction false} InsertHandlesIsUnion(seen: map<int, PackedChat>, ps: seq<NativePackedChat>,
                                                decode: string -> Option<PackedChat>)
    requires AllDecode(ps, decode)
    ensures InsertHandles(seen, ps, decode) == (seen + HandlesMapOf(ps, decode), true)
    decreases |ps|
  {
    if ps != [] {
      var h := decode(ps[0].packed_chat).value;
      assert forall p :: p in ps[1..] ==> p in ps;
      InsertHandlesIsUnion(seen[ps[0].chat_id := h], ps[1..], decode);
      assert seen[ps[0].chat_id := h] + HandlesMapOf(ps[1..], decode) ==
             seen + (map[ps[0].chat_id := h] + HandlesMapOf(ps[1..], decode));
    } else {
      assert seen + map[] == seen;
    }
  }

  /** The handles decoded before the first one that does not decode, as
      one map, a later entry winning over an earlier one with the same id. */
  function PrefixMap(ps: seq<NativePackedChat>, decode: string -> Option<PackedChat>): map<int, PackedChat>
    decreases |ps|
  {
    if ps == [] then map[]
    else match decode(ps[0].packed_chat)
      case None => map[]
      case Some(h) => map[ps[0].chat_id := h] + PrefixMap(ps[1..], decode)
  }

  /** Whether or not the loop stops early, the handles it leaves are the old
      ones with the decoded prefix laid over them. */
  lemma {:induction false} InsertHandlesKeepsPrefix(seen: map<int, PackedChat>, ps: seq<NativePackedChat>,
                                                    decode: string -> Option<PackedChat>)
    ensures InsertHandles(seen, ps, decode).0 == seen + PrefixMap(ps, decode)
    decreases |ps|
  {
    if ps == [] {
      assert seen + map[] == seen;
    } else if decode(ps[0].packed_chat).None? {
      assert seen + map[] == seen;
    } else {
      var h := decode(ps[0].packed_chat).value;
      var rest := PrefixMap(ps[1..], decode);
      assert PrefixMap(ps, decode) == map[ps[0].chat_id := h] + rest;
      InsertHandlesKeepsPrefix(seen[ps[0].chat_id := h], ps[1..], decode);
      assert seen[ps[0].chat_id := h] + rest == seen + (map[ps[0].chat_id := h] + rest);
    }
  }

  /** Every summary is stored under its own chat id, later duplicates
      winning; a handle that does not decode ends the bootstrap with an
      error before any summary is stored, keeping the handles decoded before
      it; and applying the same input twice leaves the caches and the result
      as applying it once, on success and on failure alike. */
  lemma BootstrapProperties(c: CacheState, ps: seq<NativePackedChat>, cs: seq<NativeChat>,
                            decode: string -> Option<PackedChat>)
    ensures var (c1, r1) := Bootstrap(c, ps, cs, decode);
            && (r1.Err? <==> !AllDecode(ps, decode))
            && c1.seen == c.seen + PrefixMap(ps, decode)
            && (r1.Err? ==> c1.chats == c.chats)
            && (r1.Ok? ==> c1.chats == c.chats + ChatsMapOf(cs) && c1.seen == c.seen + HandlesMapOf(ps, decode))
            && (ChatsKeyed(c.chats) ==> ChatsKeyed(c1.chats))
            && Bootstrap(c1, ps, cs, decode) == (c1, r1)
            && c1.log == c.log
  {
    var (c1, r1) := Bootstrap(c, ps, cs, decode);
    InsertHandlesFailsIffUndecodable(c.seen, ps, decode);
    InsertHandlesKeepsPrefix(c.seen, ps, decode);
    InsertHandlesTwice(c.seen, ps, decode);
    if AllDecode(ps, decode) {
      InsertHandlesIsUnion(c.seen, ps, decode);
      InsertChatsIsUnion(c.chats, cs);
      InsertChatsIsUnion(c1.chats, cs);
      ChatsMapOfKeys(cs);
      assert c1.chats + ChatsMapOf(cs) == c1.chats;
    }
  }

  /** The handle loop run a second time over the same list changes nothing
      and stops, or not, at the same place. */
  lemma InsertHandlesTwice(seen: map<int, PackedChat>, ps: seq<NativePackedChat>,
                           decode: string -> Option<PackedChat>)
    ensures var once := InsertHandles(seen, ps, decode);
            InsertHandles(once.0, ps, decode) == once
  {
    var once := InsertHandles(seen, ps, decode);
    InsertHandlesFailsIffUndecodable(seen, ps, decode);
    InsertHandlesFailsIffUndecodable(once.0, ps, decode);
    InsertHandlesKeepsPrefix(seen, ps, decode);
    InsertHandlesKeepsPrefix(once.0, ps, decode);
    assert once.0 + PrefixMap(ps, decode) == once.0;
  }

  lemma {:induction false} InsertHandlesFailsIffUndecodable(seen: map<int, PackedChat>, ps: seq<NativePackedChat>,
                                                            decode: string -> Option<PackedChat>)
    ensures !InsertHandles(seen, ps, decode).1 <==> !AllDecode(ps, decode)
    decreases |ps|
  {
    if ps != [] {
      assert forall p :: p in ps <==> p == ps[0] || p in ps[1..];
      if decode(ps[0].packed_chat).Some? {
        InsertHandlesFailsIffUndecodable(seen[ps[0].chat_id := decode(ps[0].packed_chat).value], ps[1..], decode);
      }
    }
  }

  // ---------------------------------------------------------------------
  // Profile photos

  /** The in-flight set and the log: what the photo functions change. */
  datatype PhotoState = PhotoState(downloading: set<int>, log: seq<Event>)

  function PhotoStateOf(b: Backend): PhotoState
    reads b`profilePhotoDownloading, b`log
  {
    PhotoState(b.profilePhotoDownloading, b.log)
  }

  /** `check_chat_photo_downloading_and_wait`, with the wait taken as
      finished: true exactly when a fetch for the chat is in flight. */
  method CheckChatPhotoDownloadingAndWait(b: Backend, chatId: int) returns (waited: bool)
    ensures waited <==> chatId in b.profilePhotoDownloading
  {
    waited := chatId in b.profilePhotoDownloading;
  }

  /** `download_chat_photo` as written, with `fetch` the client's download
      outcome: a failed fetch returns through `?` before the chat's in-flight
      marker is removed. */
  function DownloadChatPhotoAsWritten(p: PhotoState, chat: RawChat, big: bool, path: ProfilePhotoPath,
                                      fetch: Result<()>): (PhotoState, Result<()>)
  {
    var id := ChatId(chat);
    if id in p.downloading then (p, Ok(()))
    else match PhotoDownloadable(chat, big)
      case None => (p, Err(NoProfilePhoto))
      case Some(photo) =>
        var log := p.log + [ClientCalled(DownloadMedia(photo, path.next))];
        match fetch
        case Err(e) => (PhotoState(p.downloading + {id}, log), Err(e))
        case Ok(_) => (PhotoState(p.downloading + {id} - {id}, log), Ok(()))
  }

  /** A chat already in flight: success without a fetch. No photo: an error
      with nothing changed. Otherwise one download into the next numbered
      file is requested and its outcome returned; a fetch that succeeds
      leaves the set as it was, one that fails leaves the chat marked. */
  lemma DownloadChatPhotoAsWrittenOutcomes(p: PhotoState, chat: RawChat, big: bool, path: ProfilePhotoPath,
                                           fetch: Result<()>)
    ensures var (q, r) := DownloadChatPhotoAsWritten(p, chat, big, path, fetch);
            var id := ChatId(chat);
            && (id in p.downloading ==> q == p && r == Ok(()))
            && (id !in p.downloading && ChatPhotoOf(chat).None? ==> q == p && r == Err(NoProfilePhoto))
            && (id !in p.downloading && ChatPhotoOf(chat).Some? ==>
                  && q.log == p.log + [ClientCalled(DownloadMedia(ProfilePhotoOf(id, big), path.next))]
                  && (fetch.Ok? ==> r == Ok(()) && q.downloading == p.downloading)
                  && (fetch.Err? ==> r == Err(fetch.error) && q.downloading == p.downloading + {id}))
  {
    var id := ChatId(chat);
    if id !in p.downloading && ChatPhotoOf(chat).Some? && fetch.Ok? {
      assert p.downloading + {id} - {id} == p.downloading;
    }
  }

  /** A failed fetch leaves the chat marked in flight for good: every later
      request for it takes the in-flight path and never fetches again (in
      the source, the wait on that path polls for ever). */
  lemma DownloadChatPhotoLeaksMarker(p: PhotoState, chat: RawChat, big: bool, path: ProfilePhotoPath,
                                     e: Error, later: ProfilePhotoPath, fetch: Result<()>)
    requires ChatId(chat) !in p.downloading && ChatPhotoOf(chat).Some?
    ensures var (q, r) := DownloadChatPhotoAsWritten(p, chat, big, path, Err(e));
            && r == Err(e)
            && ChatId(chat) in q.downloading
            && DownloadChatPhotoAsWritten(q, chat, big, later, fetch) == (q, Ok(()))
  {
  }

  /** `download_chat_photo` corrected: the marker is released on every
      path, also when the fetch fails. */
  function DownloadChatPhotoCorrected(p: PhotoState, chat: RawChat, big: bool, path: ProfilePhotoPath,
                                      fetch: Result<()>): (PhotoState, Result<()>)
  {
    var id := ChatId(chat);
    if id in p.downloading then (p, Ok(()))
    else match PhotoDownloadable(chat, big)
      case None => (p, Err(NoProfilePhoto))
      case Some(photo) =>
        var log := p.log + [ClientCalled(DownloadMedia(photo, path.next))];
        match fetch
        case Err(e) => (PhotoState(p.downloading + {id} - {id}, log), Err(e))
        case Ok(_) => (PhotoState(p.downloading + {id} - {id}, log), Ok(()))
  }

  /** The correction changes nothing but the in-flight set after a failed
      fetch: result and log are the same on every input. */
  lemma CorrectionOnlyReleasesMarker(p: PhotoState, chat: RawChat, big: bool, path: ProfilePhotoPath,
                                     fetch: Result<()>)
    ensures var (q1, r1) := DownloadChatPhotoAsWritten(p, chat, big, path, fetch);
            var (q2, r2) := DownloadChatPhotoCorrected(p, chat, big, path, fetch);
            && r1 == r2 && q1.log == q2.log
            && (q1.downloading == q2.downloading <==>
                  !(ChatId(chat) !in p.downloading && ChatPhotoOf(chat).Some? && fetch.Err?))
  {
    var id := ChatId(chat);
    if id !in p.downloading && ChatPhotoOf(chat).Some? && fetch.Err? {
      assert id in p.downloading + {id};
      assert id !in p.downloading + {id} - {id};
    }
  }

  /** `download_chat_photo`: what the source does, failed fetch included. */
  method DownloadChatPhoto(b: Backend, chat: RawChat, big: bool, path: ProfilePhotoPath, fetch: Result<()>)
      returns (r: Result<()>)
    modifies b`profilePhotoDownloading, b`log
    ensures (PhotoStateOf(b), r) == DownloadChatPhotoAsWritten(old(PhotoStateOf(b)), chat, big, path, fetch)
  {
    var waited := CheckChatPhotoDownloadingAndWait(b, ChatId(chat));
    if waited {
      r := Ok(());
    } else {
      var photo := PhotoDownloadable(chat, big);
      if photo.Some? {
        b.profilePhotoDownloading := b.profilePhotoDownloading + {ChatId(chat)};
        b.log := b.log + [ClientCalled(DownloadMedia(photo.value, path.next))];
        if fetch.Err? {
          return Err(fetch.error);
        }
        b.profilePhotoDownloading := b.profilePhotoDownloading - {ChatId(chat)};
        r := Ok(());
      } else {
        r := Err(NoProfilePhoto);
      }
    }
  }

  /** A chat already in flight: success without a fetch. No photo: an error
      with nothing changed. Otherwise one download into the next numbered
      file is requested, and its outcome is returned. On every path the
      in-flight set ends as it began, so a later request for the chat is
      never held up by this one. */
  lemma DownloadChatPhotoOutcomes(p: PhotoState, chat: RawChat, big: bool, path: ProfilePhotoPath, fetch: Result<()>)
    ensures var (q, r) := DownloadChatPhotoCorrected(p, chat, big, path, fetch);
            var id := ChatId(chat);
            && q.downloading == p.downloading
            && (id in p.downloading ==> q == p && r == Ok(()))
            && (id !in p.downloading && ChatPhotoOf(chat).None? ==> q == p && r == Err(NoProfilePhoto))
            && (id !in p.downloading && ChatPhotoOf(chat).Some? ==>
                  && q.log == p.log + [ClientCalled(DownloadMedia(ProfilePhotoOf(id, big), path.next))]
                  && (fetch.Ok? ==> r == Ok(()))
                  && (fetch.Err? ==> r == Err(fetch.error)))
  {
    var id := ChatId(chat);
    if id !in p.downloading && ChatPhotoOf(chat).Some? {
      assert p.downloading + {id} - {id} == p.downloading;
    }
  }

  /** `download_chat_photo_by_chat_id`. `listing` is the outcome of reading
      the chat's photo directory, `unpack` the client's answer to unpacking
      the stored handle. */
  method DownloadChatPhotoByChatId(b: Backend, chatId: int, big: bool, listing: Option<nat>,
                                   unpack: Result<RawChat>, fetch: Result<()>) returns (r: Result<string>)
    modifies b`profilePhotoDownloading, b`log
    ensures listing.None? ==> r == Err(FsError) && PhotoStateOf(b) == old(PhotoStateOf(b))
    ensures listing.Some? && chatId in old(b.profilePhotoDownloading) ==>
              r == Ok(ProfilePhotoPathFor(chatId, listing).value.next) && PhotoStateOf(b) == old(PhotoStateOf(b))
    ensures listing.Some? && chatId !in old(b.profilePhotoDownloading) && chatId !in b.seenPackedChats ==>
              r.Err? && r.error.NotFound? && PhotoStateOf(b) == old(PhotoStateOf(b))
    ensures listing.Some? && chatId !in old(b.profilePhotoDownloading) && chatId in b.seenPackedChats ==>
              var path := ProfilePhotoPathFor(chatId, listing).value;
              var asked := old(b.log) + [ClientCalled(UnpackChat(b.seenPackedChats[chatId]))];
              && (unpack.Err? ==> r == Err(unpack.error) && PhotoStateOf(b) == PhotoState(old(b.profilePhotoDownloading), asked))
              && (unpack.Ok? ==>
                    var (q, d) := DownloadChatPhotoAsWritten(PhotoState(old(b.profilePhotoDownloading), asked),
                                                        unpack.value, big, path, fetch);
                    PhotoStateOf(b) == q && r == (if d.Ok? then Ok(path.next) else Err(d.error)))
    ensures r.Ok? ==> r.value == ProfilePhotoPathFor(chatId, listing).value.next
  {
    var pathResult := ProfilePhotoPathFor(chatId, listing);
    if pathResult.Err? {
      return Err(pathResult.error);
    }
    var path := pathResult.value;
    var waited := CheckChatPhotoDownloadingAndWait(b, chatId);
    if waited {
      return Ok(path.next);
    }
    if chatId !in b.seenPackedChats {
      return Err(NotFound("chat not in seen_packed_chats_map"));
    }
    b.log := b.log + [ClientCalled(UnpackChat(b.seenPackedChats[chatId]))];
    if unpack.Err? {
      return Err(unpack.error);
    }
    var done := DownloadChatPhoto(b, unpack.value, big, path, fetch);
    if done.Err? {
      return Err(done.error);
    }
    r := Ok(path.next);
  }

  /** `get_chat_photo_thumb_by_chat_id`: an unknown chat is an error;
      otherwise the stripped thumbnail of the unpacked chat's photo, if any. */
  function GetChatPhotoThumbByChatId(seen: map<int, PackedChat>, chatId: int, unpack: Result<RawChat>): (r: Result<Option<Bytes>>)
    ensures chatId !in seen ==> r.Err? && r.error.NotFound?
    ensures chatId in seen && unpack.Err? ==> r == Err(unpack.error)
    ensures chatId in seen && unpack.Ok? ==> r.Ok? && (r.value.Some? ==> ChatPhotoOf(unpack.value).Some?)
    ensures chatId in seen && unpack.Ok? && ChatPhotoOf(unpack.value).Some? ==>
              r == Ok(ChatPhotoOf(unpack.value).value.strippedThumb)
  {
    if chatId !in seen then Err(NotFound("chat not in seen_packed_chats_map"))
    else match unpack
      case Err(e) => Err(e)
      case Ok(chat) => Ok(ThumbOf(ChatPhotoOf(chat)))
  }

  /** `download_sender_chat_photo`: no sender is an error; a sender that
      already has a stored photo needs no download; otherwise the big photo
      is fetched into the next numbered file. */
  method DownloadSenderChatPhoto(b: Backend, sender: Option<RawChat>, listing: Option<nat>, fetch: Result<()>)
      returns (r: Result<()>)
    modifies b`profilePhotoDownloading, b`log
    ensures sender.None? ==> r == Err(NoSender) && PhotoStateOf(b) == old(PhotoStateOf(b))
    ensures sender.Some? && listing.None? ==> r == Err(FsError) && PhotoStateOf(b) == old(PhotoStateOf(b))
    ensures sender.Some? && listing.Some? && listing.value > 0 ==>
              r == Ok(()) && PhotoStateOf(b) == old(PhotoStateOf(b))
    ensures sender.Some? && listing == Some(0) ==>
              (PhotoStateOf(b), r) == DownloadChatPhotoAsWritten(old(PhotoStateOf(b)), sender.value, true,
                                                            ProfilePhotoPathFor(ChatId(sender.value), listing).value, fetch)
  {
    if sender.None? {
      return Err(NoSender);
    }
    var pathResult := ProfilePhotoPathFor(ChatId(sender.value), listing);
    if pathResult.Err? {
      return Err(pathResult.error);
    }
    var path := pathResult.value;
    if path.current.None? {
      r := DownloadChatPhoto(b, sender.value, true, path, fetch);
    } else {
      r := Ok(());
    }
  }
}
