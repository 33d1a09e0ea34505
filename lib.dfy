/** The host-facing entry points that do more than forward a result
    (src/lib.rs): the start/stop guard over the run-loop handle slot, and
    the construction of the resume-offset map.

    Which spawned loops are still running is not a field of the engine: it
    is the task runtime's knowledge, given here as the set `live` of handles
    whose task has not finished. */
module Lib {
  import opened Types
  import opened Utils
  import opened Tg
  import Run
  import Chat

  /** The handle slot together with the loops still running. */
  datatype Loops = Loops(slot: Option<TaskHandle>, live: set<TaskHandle>)

  /** Every running loop is the one whose handle is stored, so `stop` can
      reach it. */
  predicate Tracked(l: Loops) {
    forall h :: h in l.live ==> l.slot == Some(h)
  }

  // ---------------------------------------------------------------------
  // run

  /** `run` as written: the stored handle is taken out of the slot before
      it is checked, and a refusal does not put it back. */
  function RunGuardAsWritten(l: Loops, spawned: TaskHandle): (Loops, Result<()>) {
    if l.slot.Some? && l.slot.value in l.live then (l.(slot := None), Err(AlreadyRunning))
    else (Loops(Some(spawned), l.live + {spawned}), Ok(()))
  }

  /** Two `run` calls while the loop is running: the first is refused but
      empties the slot, so the second spawns a second loop, and the first
      one is no longer tracked (a later `stop` cannot reach it). */
  lemma RunGuardAsWrittenLosesLoop()
    ensures var first := TaskHandle(1);
            var second := TaskHandle(2);
            var start := Loops(Some(first), {first});
            var (afterRefusal, r1) := RunGuardAsWritten(start, second);
            var (afterSecond, r2) := RunGuardAsWritten(afterRefusal, second);
            && Tracked(start)
            && r1 == Err(AlreadyRunning) && afterRefusal.slot.None? && !Tracked(afterRefusal)
            && r2 == Ok(()) && afterSecond.live == {first, second}
            && StopLoops(afterSecond).live == {first}
  {
    var first := TaskHandle(1);
    var second := TaskHandle(2);
    assert first in Loops(None, {first}).live;
    assert {first, second} - {second} == {first};
  }

  /** `run` corrected: an unfinished stored loop makes it fail with the
      handle kept in its slot; otherwise a new loop is spawned and its
      handle stored. */
  function RunGuard(l: Loops, spawned: TaskHandle): (r: (Loops, Result<()>))
    ensures l.slot.Some? && l.slot.value in l.live ==> r == (l, Err(AlreadyRunning))
    ensures !(l.slot.Some? && l.slot.value in l.live) ==>
              r.1 == Ok(()) && r.0.slot == Some(spawned) && r.0.live == l.live + {spawned}
  {
    if l.slot.Some? && l.slot.value in l.live then (l, Err(AlreadyRunning))
    else (Loops(Some(spawned), l.live + {spawned}), Ok(()))
  }

  /** `stop`: a stored handle is aborted and the slot emptied; with none
      stored nothing changes. */
  function StopLoops(l: Loops): (r: Loops)
    ensures r.slot.None?
    ensures l.slot.Some? ==> r.live == l.live - {l.slot.value}
    ensures l.slot.None? ==> r == l
  {
    match l.slot
    case None => l
    case Some(h) => Loops(None, l.live - {h})
  }

  /** With the corrected guard at most one loop ever runs: starting,
      stopping and a loop finishing on its own all keep every running loop
      tracked, and a tracked state has at most one. */
  lemma AtMostOneLoop(l: Loops, spawned: TaskHandle, finished: TaskHandle)
    requires Tracked(l)
    requires spawned !in l.live
    ensures Tracked(RunGuard(l, spawned).0)
    ensures Tracked(StopLoops(l))
    ensures Tracked(l.(live := l.live - {finished}))
    ensures |l.live| <= 1
  {
    if l.slot.Some? {
      assert l.live <= {l.slot.value};
      SubsetSize(l.live, {l.slot.value});
    } else {
      assert l.live == {};
    }
    var (after, _) := RunGuard(l, spawned);
    if !(l.slot.Some? && l.slot.value in l.live) {
      assert l.live == {};
    }
  }

  lemma SubsetSize(a: set<TaskHandle>, b: set<TaskHandle>)
    requires a <= b
    ensures |a| <= |b|
  {
    assert b == a + (b - a);
  }

  /** `run` as written: takes the stored handle out of its slot and, if its
      loop is still running, refuses with the slot left empty; otherwise
      spawns a new loop and stores its handle. `live` is the set of loops
      whose task has not finished, `spawned` the new task's handle. */
  method StartRun(b: Backend, live: set<TaskHandle>, spawned: TaskHandle) returns (r: Result<()>)
    modifies b`runHandler, b`log
    ensures var (after, res) := RunGuardAsWritten(Loops(old(b.runHandler), live), spawned);
            && r == res && b.runHandler == after.slot
            && b.log == old(b.log) + (if res.Ok? then [RunLoopSpawned(spawned)] else [])
  {
    var handler := Run.GetRunHandler(b);
    if handler.Some? {
      var finished := handler.value !in live;
      if !finished {
        return Err(AlreadyRunning);
      }
    }
    b.log := b.log + [RunLoopSpawned(spawned)];
    Run.SetRunHandler(b, spawned);
    r := Ok(());
  }

  /** `stop`: aborts and removes a stored handle; with none stored only an
      error is logged, and nothing changes. */
  method Stop(b: Backend)
    modifies b`runHandler, b`log
    ensures b.runHandler.None?
    ensures old(b.runHandler).Some? ==> b.log == old(b.log) + [RunLoopAborted(old(b.runHandler).value)]
    ensures old(b.runHandler).None? ==> b.log == old(b.log)
  {
    var handler := Run.GetRunHandler(b);
    match handler {
      case Some(h) => b.log := b.log + [RunLoopAborted(h)];
      case None =>
    }
  }

  // ---------------------------------------------------------------------
  // load_chats and load_chats_with_offset

  /** `load_chats`: the scan with no resume offsets. */
  method LoadChats(b: Backend, feed: Chat.DialogFeed) returns (r: Result<()>)
    modifies b`chats, b`seenPackedChats, b`log
    ensures (CachesOf(b), r) == Chat.LoadChats(old(CachesOf(b)), Chat.HooksOf(b), feed, None)
    ensures old(b.Valid()) ==> b.Valid()
  {
    r := Chat.LoadChatsWithOffset(b, feed, None);
  }

  /** The host's offsets as one map: keys parsed as decimal 64-bit ids, each
      entry in turn, a later entry replacing an earlier one with the same
      parsed id; an unparsable key panics. `entries` is the host map in its
      iteration order. */
  function OffsetMap(entries: seq<(string, int)>): Result<map<int, int>>
    decreases |entries|
  {
    if entries == [] then Ok(map[])
    else
      match OffsetMap(entries[..|entries| - 1])
      case Err(e) => Err(e)
      case Ok(m) =>
        var (key, value) := entries[|entries| - 1];
        match ParseI64(key)
        case None => Err(Panicked("chat id is not a number"))
        case Some(id) => Ok(m[id := value])
  }

  /** The map is built exactly when every key parses; otherwise the
      conversion panics. */
  lemma {:induction false} OffsetMapDefined(entries: seq<(string, int)>)
    ensures OffsetMap(entries).Ok? <==> forall i :: 0 <= i < |entries| ==> ParseI64(entries[i].0).Some?
    ensures OffsetMap(entries).Err? ==> OffsetMap(entries).error.Panicked?
    decreases |entries|
  {
    if entries != [] {
      var front := entries[..|entries| - 1];
      OffsetMapDefined(front);
      if OffsetMap(front).Err? {
        var i :| 0 <= i < |front| && ParseI64(front[i].0).None?;
        assert entries[i] == front[i];
      } else {
        assert forall i :: 0 <= i < |front| ==> entries[i] == front[i];
      }
    }
  }

  /** The ids the keys of `entries` parse to. */
  function ParsedKeys(entries: seq<(string, int)>): set<int> {
    set e | e in entries && ParseI64(e.0).Some? :: ParseI64(e.0).value
  }

  /** Its keys are exactly the parsed keys. */
  lemma {:induction false} OffsetMapKeys(entries: seq<(string, int)>)
    requires OffsetMap(entries).Ok?
    ensures OffsetMap(entries).value.Keys == ParsedKeys(entries)
    decreases |entries|
  {
    if entries != [] {
      var front := entries[..|entries| - 1];
      var last := entries[|entries| - 1];
      OffsetMapKeys(front);
      assert ParsedKeys(entries) == ParsedKeys(front) + {ParseI64(last.0).value} by {
        assert entries == front + [last];
        assert forall e :: e in entries <==> e in front || e == last;
      }
    }
  }

  /** Each key maps to the value of the last entry whose key parses to it. */
  lemma {:induction false} OffsetMapLastWins(entries: seq<(string, int)>, i: nat)
    requires OffsetMap(entries).Ok?
    requires i < |entries| && LastWithKey(entries, i)
    ensures ParseI64(entries[i].0).Some?
    ensures var id := ParseI64(entries[i].0).value;
            id in OffsetMap(entries).value && OffsetMap(entries).value[id] == entries[i].1
    decreases |entries|
  {
    var front := entries[..|entries| - 1];
    if i < |entries| - 1 {
      assert front[i] == entries[i];
      assert LastWithKey(front, i) by {
        forall j | i < j < |front|
          ensures ParseI64(front[j].0) != ParseI64(front[i].0)
        {
          assert front[j] == entries[j];
        }
      }
      OffsetMapLastWins(front, i);
    }
  }

  /** No later entry's key parses to the same id as entry `i`'s. */
  predicate LastWithKey(entries: seq<(string, int)>, i: nat)
    requires i < |entries|
  {
    forall j :: i < j < |entries| ==> ParseI64(entries[j].0) != ParseI64(entries[i].0)
  }

  /** "7" and "07" name the same chat: the later value wins. */
  lemma LeadingZerosCollapse()
    ensures OffsetMap([("7", 10), ("07", 20)]) == Ok(map[7 := 20])
  {
    ParseCollapsesLeadingZeros();
    assert [("7", 10), ("07", 20)][..1] == [("7", 10)];
    assert [("7", 10)][..0] == [];
    assert map[7 := 10][7 := 20] == map[7 := 20];
  }

  /** `load_chats_with_offset`: builds the offset map entry by entry, then
      runs the scan with it; an unparsable key panics before any dialog is
      visited. */
  method LoadChatsWithOffset(b: Backend, entries: seq<(string, int)>, feed: Chat.DialogFeed) returns (r: Result<()>)
    modifies b`chats, b`seenPackedChats, b`log
    ensures OffsetMap(entries).Err? ==> r == Err(OffsetMap(entries).error) && CachesOf(b) == old(CachesOf(b))
    ensures OffsetMap(entries).Ok? ==>
              (CachesOf(b), r) == Chat.LoadChats(old(CachesOf(b)), Chat.HooksOf(b), feed, Some(OffsetMap(entries).value))
    ensures old(b.Valid()) ==> b.Valid()
  {
    var offsets: map<int, int> := map[];
    for i := 0 to |entries|
      invariant OffsetMap(entries[..i]) == Ok(offsets)
    {
      assert entries[..i + 1][..i] == entries[..i];
      var (key, value) := entries[i];
      var id := ParseI64(key);
      if id.None? {
        PanicPropagates(entries, i);
        return Err(Panicked("chat id is not a number"));
      }
      offsets := offsets[id.value := value];
    }
    assert entries[..|entries|] == entries;
    r := Chat.LoadChatsWithOffset(b, feed, Some(offsets));
  }

  /** A key that does not parse makes the whole conversion panic, whatever
      follows it. */
  lemma {:induction false} PanicPropagates(entries: seq<(string, int)>, i: nat)
    requires i < |entries| && OffsetMap(entries[..i]).Ok? && ParseI64(entries[i].0).None?
    ensures OffsetMap(entries) == Err(Panicked("chat id is not a number"))
    decreases |entries|
  {
    if i == |entries| - 1 {
      assert entries[..|entries| - 1] == entries[..i];
    } else {
      var front := entries[..|entries| - 1];
      assert front[..i] == entries[..i];
      assert front[i] == entries[i];
      PanicPropagates(front, i);
    }
  }
}
