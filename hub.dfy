/**
 * The broadcast hub: per-source bounded history, the set of live clients,
 * fan-out of every new line to all of them and history replay to a client
 * that joins. Every operation below is one region that the program runs
 * wholly under the hub's mutex, so each is modelled as one atomic method.
 */
module Broadcast {
  import opened Wrappers
  import opened Window
  import Config

  /** The event sent to a browser: a line of the source at `logIndex`. */
  datatype Message = Message(logIndex: int, text: string)

  /** The history of a source; a source with no entry yet has an empty one. */
  function Get(history: map<int, seq<string>>, index: int): seq<string>
  {
    if index in history then history[index] else []
  }

  /** The messages that carry `lines` of the source at `index`, in order. */
  function SourceMessages(index: int, lines: seq<string>): (r: seq<Message>)
    ensures |r| == |lines|
    ensures forall j :: 0 <= j < |lines| ==> r[j] == Message(index, lines[j])
  {
    if lines == [] then []
    else SourceMessages(index, lines[..|lines| - 1]) + [Message(index, lines[|lines| - 1])]
  }

  /** The texts of the messages of source `index`, in the order they were sent. */
  function TextsOf(msgs: seq<Message>, index: int): (r: seq<string>)
    ensures |r| <= |msgs|
  {
    if msgs == [] then []
    else
      var last := msgs[|msgs| - 1];
      TextsOf(msgs[..|msgs| - 1], index) + (if last.logIndex == index then [last.text] else [])
  }

  /** `order` lists every key of `keys` exactly once. */
  ghost predicate Enumerates(order: seq<int>, keys: set<int>)
  {
    && (forall a, b :: 0 <= a < b < |order| ==> order[a] != order[b])
    && (forall k :: k in order <==> k in keys)
  }

  /** The messages that replay `history`, visiting its sources in `order`. */
  function Replay(history: map<int, seq<string>>, order: seq<int>): (r: seq<Message>)
    requires forall k :: k in order ==> k in history
  {
    if order == [] then []
    else
      var last := order[|order| - 1];
      Replay(history, order[..|order| - 1]) + SourceMessages(last, history[last])
  }

  /** Filtering by source distributes over concatenation. */
  lemma {:induction false} TextsOfConcat(a: seq<Message>, b: seq<Message>, index: int)
    ensures TextsOf(a + b, index) == TextsOf(a, index) + TextsOf(b, index)
  {
    if b == [] {
      assert a + b == a;
    } else {
      var init, last := b[..|b| - 1], b[|b| - 1];
      assert (a + b)[..|a + b| - 1] == a + init;
      assert (a + b)[|a + b| - 1] == last;
      TextsOfConcat(a, init, index);
    }
  }

  /** The texts of one source's messages are its lines; other sources see none of them. */
  lemma {:induction false} TextsOfSource(source: int, lines: seq<string>, index: int)
    ensures TextsOf(SourceMessages(source, lines), index) == if source == index then lines else []
  {
    if lines != [] {
      var init := lines[..|lines| - 1];
      var msgs := SourceMessages(source, lines);
      assert msgs[..|msgs| - 1] == SourceMessages(source, init);
      TextsOfSource(source, init, index);
      assert lines == init + [lines[|lines| - 1]];
    }
  }

  /** Replaying one more source adds exactly that source's lines to its own filter. */
  lemma ReplayStep(history: map<int, seq<string>>, order: seq<int>, index: int)
    requires order != []
    requires forall k :: k in order ==> k in history
    ensures var init, last := order[..|order| - 1], order[|order| - 1];
      TextsOf(Replay(history, order), index) ==
      TextsOf(Replay(history, init), index) + (if last == index then history[last] else [])
  {
    var init, last := order[..|order| - 1], order[|order| - 1];
    TextsOfConcat(Replay(history, init), SourceMessages(last, history[last]), index);
    TextsOfSource(last, history[last], index);
  }

  lemma {:induction false} ReplayTexts(history: map<int, seq<string>>, order: seq<int>, index: int)
    requires forall k :: k in order ==> k in history
    requires forall a, b :: 0 <= a < b < |order| ==> order[a] != order[b]
    ensures index in order ==> TextsOf(Replay(history, order), index) == history[index]
    ensures index !in order ==> TextsOf(Replay(history, order), index) == []
  {
    if order != [] {
      var init, last := order[..|order| - 1], order[|order| - 1];
      assert order == init + [last];
      assert forall a, b :: 0 <= a < b < |init| ==> init[a] != init[b] by {
        forall a, b | 0 <= a < b < |init| ensures init[a] != init[b] {
          assert init[a] == order[a] && init[b] == order[b];
        }
      }
      ReplayTexts(history, init, index);
      ReplayStep(history, order, index);
      if index == last {
        assert index !in init by {
          forall a | 0 <= a < |init| ensures init[a] != last {
            assert order[a] == init[a];
          }
        }
      }
    }
  }

  /**
   * Whatever order the sources are replayed in, the replay carries every
   * buffered line of every source exactly once, in stored order within
   * that source.
   */
  lemma ReplayPerSource(history: map<int, seq<string>>, order: seq<int>, index: int)
    requires Enumerates(order, history.Keys)
    ensures TextsOf(Replay(history, order), index) == Get(history, index)
  {
    ReplayTexts(history, order, index);
  }

  /**
   * Replay then live: what a client that joined receives from a source is
   * that source's buffered history as of the join, followed by the lines
   * ingested after it, never interleaved.
   */
  lemma ReplayThenLive(history: map<int, seq<string>>, order: seq<int>, live: seq<Message>, index: int)
    requires Enumerates(order, history.Keys)
    ensures TextsOf(Replay(history, order) + live, index) == Get(history, index) + TextsOf(live, index)
  {
    TextsOfConcat(Replay(history, order), live, index);
    ReplayPerSource(history, order, index);
  }

  /** One browser connection; `sent` stands for what WriteMessage has written to it so far. */
  class Conn {
    ghost var sent: seq<Message>

    /** A freshly upgraded connection, to which nothing has been written. */
    constructor ()
      ensures sent == []
    {
      sent := [];
    }
  }

  /** The shared hub: history per source index and the set of live clients. */
  class Hub {
    var history: map<int, seq<string>>
    var clients: set<Conn>

    /** No history buffer ever holds more than HistorySize lines. */
    ghost predicate Valid()
      reads this
    {
      forall index :: index in history ==> |history[index]| <= HistorySize
    }

    /** The hub as main leaves it: an empty history for each of the `logCount` sources, no clients. */
    constructor (logCount: nat)
      ensures Valid()
      ensures clients == {}
      ensures forall index :: index in history <==> 0 <= index < logCount
      ensures forall index :: index in history ==> history[index] == []
    {
      var h: map<int, seq<string>> := map[];
      var i := 0;
      while i < logCount
        invariant 0 <= i <= logCount
        invariant forall index :: index in h <==> 0 <= index < i
        invariant forall index :: index in h ==> h[index] == []
      {
        h := h[i := []];
        i := i + 1;
      }
      history := h;
      clients := {};
    }

    /**
     * The startup append of a follower: the last lines of its file go into
     * its still empty buffer. Nothing is written to clients.
     */
    method Seed(index: int, initialLines: seq<string>)
      requires Valid()
      requires Get(history, index) == []
      requires |initialLines| <= HistorySize
      modifies this
      ensures Valid()
      ensures history == old(history)[index := initialLines]
      ensures clients == old(clients)
    {
      assert Get(history, index) + initialLines == initialLines;
      history := history[index := Get(history, index) + initialLines];
    }

    /**
     * startTailing: every source with a path gets the last HistorySize lines
     * of its file (none if it cannot be opened); sources without a path are
     * skipped. `files` maps a path to the lines of the file there.
     */
    method StartTailing(logs: seq<Config.LogEntry>, files: map<string, seq<string>>)
      requires Valid()
      requires forall index :: 0 <= index < |logs| ==> Get(history, index) == []
      modifies this
      ensures Valid()
      ensures clients == old(clients)
      ensures history == Seeded(old(history), logs, files, |logs|)
      ensures forall index :: 0 <= index < |logs| && logs[index].path != [] ==>
        Get(history, index) == LastLines(FileAt(files, logs[index].path), HistorySize)
      ensures forall index :: !(0 <= index < |logs| && logs[index].path != []) ==>
        Get(history, index) == Get(old(history), index)
    {
      ghost var start := history;
      var i := 0;
      while i < |logs|
        invariant 0 <= i <= |logs|
        invariant Valid()
        invariant clients == old(clients)
        invariant history == Seeded(start, logs, files, i)
      {
        SeededAt(start, logs, files, i, i);
        if logs[i].path != [] {
          var initialLines := GetLastLinesFromFile(FileAt(files, logs[i].path), HistorySize);
          Seed(i, initialLines);
        }
        i := i + 1;
      }
      forall index
        ensures Get(history, index) ==
          if 0 <= index < |logs| && logs[index].path != []
          then LastLines(FileAt(files, logs[index].path), HistorySize)
          else Get(start, index)
      {
        SeededAt(start, logs, files, |logs|, index);
      }
    }

    /**
     * handleMessages, for one event: append the line to its source's
     * buffer, evict the oldest line when the buffer then holds more than
     * HistorySize, and write the event to every live client. A failed write
     * removes nobody.
     */
    method Ingest(index: int, text: string)
      requires Valid()
      modifies this, clients
      ensures Valid()
      ensures history == old(history)[index := LastN(old(Get(history, index)) + [text], HistorySize)]
      ensures clients == old(clients)
      ensures forall c :: c in clients ==> c.sent == old(c.sent) + [Message(index, text)]
    {
      var buffer := Get(history, index) + [text];
      EvictOldest(Get(history, index), text, HistorySize);
      if |buffer| > HistorySize {
        buffer := buffer[1..];
      }
      history := history[index := buffer];
      var msg := Message(index, text);
      var pending := clients;
      while pending != {}
        invariant pending <= clients
        invariant history == old(history)[index := buffer]
        invariant clients == old(clients)
        invariant forall c :: c in clients && c !in pending ==> c.sent == old(c.sent) + [msg]
        invariant forall c :: c in pending ==> c.sent == old(c.sent)
        decreases pending
      {
        var c :| c in pending;
        c.sent := c.sent + [msg];
        pending := pending - {c};
      }
    }

    /**
     * handleMessages: the events taken from the broadcast channel, one
     * after another. Each source's buffer ends up as the last HistorySize
     * lines of its old buffer followed by that source's new lines, and every
     * live client receives all events in the order they were taken.
     */
    method HandleMessages(events: seq<Message>)
      requires Valid()
      modifies this, clients
      ensures Valid()
      ensures clients == old(clients)
      ensures history == AfterEvents(old(history), events)
      ensures forall index :: (Get(history, index) ==
        LastN(Get(old(history), index) + TextsOf(events, index), HistorySize))
      ensures forall c :: c in clients ==> c.sent == old(c.sent) + events
    {
      ghost var start := history;
      var i := 0;
      while i < |events|
        invariant 0 <= i <= |events|
        invariant Valid()
        invariant clients == old(clients)
        invariant history == AfterEvents(start, events[..i])
        invariant forall c :: c in clients ==> c.sent == old(c.sent) + events[..i]
      {
        Ingest(events[i].logIndex, events[i].text);
        assert events[..i + 1] == events[..i] + [events[i]];
        i := i + 1;
      }
      assert events[..|events|] == events;
      forall index
        ensures Get(history, index) == LastN(Get(start, index) + TextsOf(events, index), HistorySize)
      {
        AfterEventsAt(start, events, index);
      }
    }

    /**
     * handleConnections, on joining: add the client and, in the same
     * critical section, write it every buffered line of every source. The
     * sources are visited in Go's map-iteration order, which the runtime
     * picks at random: `order` is that order, listing every source once.
     */
    method Register(c: Conn, order: seq<int>)
      requires Valid()
      requires Enumerates(order, history.Keys)
      modifies this, c
      ensures Valid()
      ensures clients == old(clients) + {c}
      ensures history == old(history)
      ensures c.sent == old(c.sent) + Replay(history, order)
    {
      clients := clients + {c};
      var i := 0;
      while i < |order|
        invariant 0 <= i <= |order|
        invariant history == old(history) && clients == old(clients) + {c}
        invariant c.sent == old(c.sent) + Replay(history, order[..i])
      {
        var index := order[i];
        WriteSource(c, index, history[index]);
        assert order[..i + 1][..i] == order[..i];
        i := i + 1;
      }
      assert order[..i] == order;
    }

    /** The inner replay loop of handleConnections: write each line of one source, in order. */
    method WriteSource(c: Conn, index: int, lines: seq<string>)
      modifies c
      ensures c.sent == old(c.sent) + SourceMessages(index, lines)
    {
      var j := 0;
      while j < |lines|
        invariant 0 <= j <= |lines|
        invariant c.sent == old(c.sent) + SourceMessages(index, lines[..j])
      {
        assert lines[..j + 1][..j] == lines[..j];
        c.sent := c.sent + [Message(index, lines[j])];
        j := j + 1;
      }
      assert lines[..j] == lines;
    }

    /** handleConnections, on a read error: drop the client. Dropping an absent client changes nothing. */
    method Unregister(c: Conn)
      modifies this
      ensures clients == old(clients) - {c}
      ensures c !in old(clients) ==> clients == old(clients)
      ensures history == old(history)
    {
      clients := clients - {c};
    }
  }

  /** The history after the hub has ingested `events`, one after another. */
  ghost function AfterEvents(history: map<int, seq<string>>, events: seq<Message>): map<int, seq<string>>
  {
    if events == [] then history
    else
      var earlier := AfterEvents(history, events[..|events| - 1]);
      var e := events[|events| - 1];
      earlier[e.logIndex := LastN(Get(earlier, e.logIndex) + [e.text], HistorySize)]
  }

  /**
   * After a stream of events, the buffer of each source holds the last
   * HistorySize lines of its old buffer followed by that source's lines
   * from the stream, in arrival order.
   */
  lemma {:induction false} AfterEventsAt(history: map<int, seq<string>>, events: seq<Message>, index: int)
    requires |Get(history, index)| <= HistorySize
    ensures Get(AfterEvents(history, events), index) ==
      LastN(Get(history, index) + TextsOf(events, index), HistorySize)
  {
    if events == [] {
      assert Get(history, index) + [] == Get(history, index);
    } else {
      var init, e := events[..|events| - 1], events[|events| - 1];
      AfterEventsAt(history, init, index);
      var earlier := Get(history, index) + TextsOf(init, index);
      var now := Get(AfterEvents(history, init), index);
      if e.logIndex == index {
        assert Get(AfterEvents(history, events), index) == LastN(now + [e.text], HistorySize);
        assert TextsOf(events, index) == TextsOf(init, index) + [e.text];
        LastNSlide(earlier, e.text, HistorySize);
        assert earlier + [e.text] == Get(history, index) + TextsOf(events, index);
      } else {
        assert Get(AfterEvents(history, events), index) == now;
        assert TextsOf(events, index) == TextsOf(init, index);
        LastNIdempotent(earlier, HistorySize);
      }
    }
  }

  /**
   * Two sources, 60 lines ingested for the first before anyone joins: a
   * client that joins then receives lines 11 to 60 of the first source and
   * nothing of the second, whatever order the sources are replayed in.
   */
  lemma JoinAfterOverflow(lines: seq<string>, order: seq<int>)
    requires |lines| == 60
    requires Enumerates(order, AfterEvents(map[0 := [], 1 := []], SourceMessages(0, lines)).Keys)
    ensures var history := AfterEvents(map[0 := [], 1 := []], SourceMessages(0, lines));
      TextsOf(Replay(history, order), 0) == lines[10..] &&
      TextsOf(Replay(history, order), 1) == []
  {
    var start: map<int, seq<string>> := map[0 := [], 1 := []];
    var history := AfterEvents(start, SourceMessages(0, lines));
    TextsOfSource(0, lines, 0);
    TextsOfSource(0, lines, 1);
    AfterEventsAt(start, SourceMessages(0, lines), 0);
    AfterEventsAt(start, SourceMessages(0, lines), 1);
    assert Get(start, 0) + lines == lines;
    ReplayPerSource(history, order, 0);
    ReplayPerSource(history, order, 1);
  }

  /** The history once the followers of the first `count` sources have seeded their buffers. */
  ghost function Seeded(history: map<int, seq<string>>, logs: seq<Config.LogEntry>,
                        files: map<string, seq<string>>, count: nat): map<int, seq<string>>
    requires count <= |logs|
  {
    if count == 0 then history
    else
      var earlier := Seeded(history, logs, files, count - 1);
      var entry := logs[count - 1];
      if entry.path == [] then earlier
      else earlier[count - 1 := LastLines(FileAt(files, entry.path), HistorySize)]
  }

  /**
   * After seeding, the buffer of a source with a path holds the last lines
   * of its file; every other buffer is as it was.
   */
  lemma {:induction false} SeededAt(history: map<int, seq<string>>, logs: seq<Config.LogEntry>,
                                    files: map<string, seq<string>>, count: nat, index: int)
    requires count <= |logs|
    ensures Get(Seeded(history, logs, files, count), index) ==
      if 0 <= index < count && logs[index].path != []
      then LastLines(FileAt(files, logs[index].path), HistorySize)
      else Get(history, index)
  {
    if count > 0 {
      SeededAt(history, logs, files, count - 1, index);
    }
  }

  /** The file at `path`, if it can be opened. */
  function FileAt(files: map<string, seq<string>>, path: string): Option<seq<string>>
  {
    if path in files then Some(files[path]) else None
  }
}
