/** The update loop and its handle slot (src/tg/run.rs).

    The updates the client delivers are a finite `UpdateStream`: the updates
    `next_update` yields in turn, then the error it finally returns. */
module Run {
  import opened Types
  import opened Tg
  import opened Message

  datatype Update = NewMessage(message: RawMessage) | OtherUpdate

  datatype UpdateStream = UpdateStream(updates: seq<Update>, failure: Error)

  /** One turn of the loop: a new message goes to the live-message handler,
      any other kind of update only is logged; then a session save is
      spawned. */
  function Dispatch(c: CacheState, u: Update): CacheState {
    var handled := match u
      case NewMessage(m) => IncomingMessage(c, m)
      case OtherUpdate => c;
    handled.(log := handled.log + [SessionSaveSpawned])
  }

  /** The caches after the loop has handled `us`. */
  function RunUpdates(c: CacheState, us: seq<Update>): CacheState
    decreases |us|
  {
    if us == [] then c else Dispatch(RunUpdates(c, us[..|us| - 1]), us[|us| - 1])
  }

  /** `Backend::run`: the loop ends only with the client's error. */
  method RunLoop(b: Backend, stream: UpdateStream) returns (r: Result<()>)
    modifies b`seenPackedChats, b`chats, b`log
    ensures r == Err(stream.failure)
    ensures CachesOf(b) == RunUpdates(old(CachesOf(b)), stream.updates)
    ensures old(b.Valid()) ==> b.Valid()
  {
    ghost var start := CachesOf(b);
    RunKeepsChatsKeyed(start, stream.updates);
    var i := 0;
    while true
      invariant 0 <= i <= |stream.updates|
      invariant CachesOf(b) == RunUpdates(start, stream.updates[..i])
      decreases |stream.updates| - i
    {
      if i == |stream.updates| {
        assert stream.updates[..i] == stream.updates;
        return Err(stream.failure);
      }
      assert stream.updates[..i + 1][..i] == stream.updates[..i];
      match stream.updates[i] {
        case NewMessage(m) => IncomingMessageHandler(b, m);
        case OtherUpdate =>
      }
      b.log := b.log + [SessionSaveSpawned];
      i := i + 1;
    }
  }

  /** `set_run_handler`: replaces whatever handle was stored. */
  method SetRunHandler(b: Backend, handler: TaskHandle)
    modifies b`runHandler
    ensures b.runHandler == Some(handler)
  {
    b.runHandler := Some(handler);
  }

  /** `get_run_handler`: returns the stored handle and leaves the slot empty. */
  method GetRunHandler(b: Backend) returns (handler: Option<TaskHandle>)
    modifies b`runHandler
    ensures handler == old(b.runHandler) && b.runHandler.None?
  {
    handler := b.runHandler;
    b.runHandler := None;
  }

  // ---------------------------------------------------------------------
  // Properties of the loop

  /** How many session saves were spawned. */
  function Saves(log: seq<Event>): nat
    decreases |log|
  {
    if log == [] then 0 else Saves(log[..|log| - 1]) + (if log[|log| - 1] == SessionSaveSpawned then 1 else 0)
  }

  lemma {:induction false} SavesAppend(a: seq<Event>, b: seq<Event>)
    ensures Saves(a + b) == Saves(a) + Saves(b)
    decreases |b|
  {
    if b == [] {
      assert a + b == a;
    } else {
      assert (a + b)[..|a + b| - 1] == a + b[..|b| - 1];
      SavesAppend(a, b[..|b| - 1]);
    }
  }

  /** Every update, whatever its kind, is followed by exactly one spawned
      session save, and the log only grows. */
  lemma {:induction false} OneSavePerUpdate(c: CacheState, us: seq<Update>)
    ensures c.log <= RunUpdates(c, us).log
    ensures Saves(RunUpdates(c, us).log) == Saves(c.log) + |us|
    decreases |us|
  {
    if us != [] {
      OneSavePerUpdate(c, us[..|us| - 1]);
      DispatchSavesOnce(RunUpdates(c, us[..|us| - 1]), us[|us| - 1]);
    }
  }

  lemma DispatchSavesOnce(c: CacheState, u: Update)
    ensures c.log <= Dispatch(c, u).log
    ensures Saves(Dispatch(c, u).log) == Saves(c.log) + 1
  {
    var handled := match u
      case NewMessage(m) => IncomingMessage(c, m)
      case OtherUpdate => c;
    var added := handled.log[|c.log|..];
    assert handled.log == c.log + added;
    SavesAppend(c.log, added);
    NoSaves(added);
    SavesAppend(handled.log, [SessionSaveSpawned]);
    assert [SessionSaveSpawned][..0] == [];
  }

  lemma {:induction false} NoSaves(log: seq<Event>)
    requires forall k :: 0 <= k < |log| ==> log[k] != SessionSaveSpawned
    ensures Saves(log) == 0
    decreases |log|
  {
    if log != [] {
      NoSaves(log[..|log| - 1]);
    }
  }

  /** The new messages among a run of updates, in order. */
  function NewMessages(us: seq<Update>): seq<RawMessage>
    decreases |us|
  {
    if us == [] then []
    else
      var front := NewMessages(us[..|us| - 1]);
      match us[|us| - 1]
      case NewMessage(m) => front + [m]
      case OtherUpdate => front
  }

  /** The caches after handling a sequence of live messages one by one. */
  function IncomingAll(c: CacheState, ms: seq<RawMessage>): CacheState
    decreases |ms|
  {
    if ms == [] then c else IncomingMessage(IncomingAll(c, ms[..|ms| - 1]), ms[|ms| - 1])
  }

  /** However many updates the loop handles, every summary stays stored
      under its own chat id. */
  lemma {:induction false} RunKeepsChatsKeyed(c: CacheState, us: seq<Update>)
    ensures ChatsKeyed(c.chats) ==> ChatsKeyed(RunUpdates(c, us).chats)
    decreases |us|
  {
    if us != [] && ChatsKeyed(c.chats) {
      var front := RunUpdates(c, us[..|us| - 1]);
      RunKeepsChatsKeyed(c, us[..|us| - 1]);
      if us[|us| - 1].NewMessage? {
        IncomingMessageKeepsKeyed(front, us[|us| - 1].message);
      }
    }
  }

  /** Other kinds of update change no cache: the summaries and handles after
      a run of updates are those after its new messages alone. */
  lemma {:induction false} OtherUpdatesChangeNoCache(c: CacheState, us: seq<Update>)
    ensures RunUpdates(c, us).chats == IncomingAll(c, NewMessages(us)).chats
    ensures RunUpdates(c, us).seen == IncomingAll(c, NewMessages(us)).seen
    decreases |us|
  {
    if us != [] {
      var prev := RunUpdates(c, us[..|us| - 1]);
      OtherUpdatesChangeNoCache(c, us[..|us| - 1]);
      var front := NewMessages(us[..|us| - 1]);
      assert RunUpdates(c, us) == Dispatch(prev, us[|us| - 1]);
      match us[|us| - 1] {
        case NewMessage(m) =>
          assert NewMessages(us) == front + [m];
          assert (front + [m])[..|front + [m]| - 1] == front;
          assert IncomingAll(c, front + [m]) == IncomingMessage(IncomingAll(c, front), m);
          assert Dispatch(prev, us[|us| - 1]).chats == IncomingMessage(prev, m).chats;
          assert Dispatch(prev, us[|us| - 1]).seen == IncomingMessage(prev, m).seen;
        case OtherUpdate =>
          assert NewMessages(us) == front;
      }
    }
  }
}
