/** The channel (`Channel<ValueType>`) and its two awaiters (`WriterAwaiter`, `ReaderAwaiter`).

    They live in one module because each refers to the other: the channel's waiter lists hold
    awaiters, and every awaiter points back at its channel.

    Every critical section under `channel_lock` is one atomic step on the buffer, the two FIFO
    waiter lists and the `active` flag. The calls the channel makes into awaiters (`resume`,
    `resume_unsafe`) are recorded in order as `Wake` events in the field `wakes`; what such a
    call does to an awaiter is modelled by `Awaiters.Awaiter`.

    The first half of the module states the critical sections as functions on a
    `ChannelState` and proves what they keep: the buffer bound, the cross-list invariant, and
    that the channel is a FIFO (the i-th reader to ask gets the i-th value sent). The second
    half is the class `Channel`, whose methods are proved to perform exactly those steps, and
    the awaiter classes. */
module Channels {
  import opened Results
  import opened Runtime
  import opened Awaiters

  /** What `check_closed` throws: a `ChannelClosedException`, whose `what()` is this message. */
  const ClosedError: Exception := Exception("Channel is closed.")

  /** `check_closed()`: fails with `ClosedError` exactly when the channel is inactive. */
  function CheckOutcome(active: bool): (o: Outcome<()>)
    ensures o.Thrown? <==> !active
    ensures o.Thrown? ==> o.exception == ClosedError
  {
    if active then Returned(()) else Thrown(ClosedError)
  }

  /** One call the channel makes into an awaiter. */
  datatype Wake<V> =
    | ResumeWriter(writer: WriterAwaiter<V>)              // writer->resume()
    | ResumeReader(reader: ReaderAwaiter<V>, value: V)    // reader->resume(value)
    | ResumeReaderUnsafe(reader: ReaderAwaiter<V>)        // reader->resume_unsafe()

  /** The fields of a channel: `buffer_capacity`, `buffer`, `writer_list`, `reader_list`,
      `_is_active`, and the log of calls made into awaiters. */
  datatype ChannelState<V> = ChannelState(
    capacity: nat,
    buffer: seq<V>,
    writers: seq<WriterAwaiter<V>>,
    readers: seq<ReaderAwaiter<V>>,
    active: bool,
    wakes: seq<Wake<V>>)

  /** What every operation keeps:
      - the buffer never holds more than `capacity` values (so capacity 0 keeps it empty);
      - a waiting reader means there is nothing buffered and no waiting writer;
      - a waiting writer means the buffer is full;
      - a closed channel holds no value and no waiter. */
  predicate Invariant<V>(s: ChannelState<V>) {
    && |s.buffer| <= s.capacity
    && (s.readers != [] ==> s.buffer == [] && s.writers == [])
    && (s.writers != [] ==> |s.buffer| == s.capacity)
    && (!s.active ==> s.buffer == [] && s.writers == [] && s.readers == [])
  }

  /** `Channel(capacity)`: active, empty, nothing woken yet. */
  function Init<V>(capacity: nat): (s: ChannelState<V>)
    ensures Invariant(s) && s.active && s.capacity == capacity
    ensures s.buffer == [] && s.writers == [] && s.readers == [] && s.wakes == []
  {
    ChannelState(capacity, [], [], [], true, [])
  }

  // ---------------------------------------------------------------------------------------
  // Abstract views of a channel state

  /** The values carried by the given writers, in order. */
  function Values<V>(ws: seq<WriterAwaiter<V>>): (vs: seq<V>)
    ensures |vs| == |ws|
    ensures forall i :: 0 <= i < |ws| ==> vs[i] == ws[i].value
  {
    if ws == [] then [] else [ws[0].value] + Values(ws[1..])
  }

  /** The values the channel has accepted and not yet handed to a reader, oldest first:
      the buffer, then the values of the waiting writers. */
  function InFlight<V>(s: ChannelState<V>): seq<V> {
    s.buffer + Values(s.writers)
  }

  /** The hand-offs in a log: each reader that was resumed with a value, and that value. */
  function Handoffs<V>(ws: seq<Wake<V>>): seq<(ReaderAwaiter<V>, V)> {
    if ws == [] then []
    else (if ws[0].ResumeReader? then [(ws[0].reader, ws[0].value)] else []) + Handoffs(ws[1..])
  }

  /** The writers resumed in a log, in order. */
  function WokenWriters<V>(ws: seq<Wake<V>>): seq<WriterAwaiter<V>> {
    if ws == [] then []
    else (if ws[0].ResumeWriter? then [ws[0].writer] else []) + WokenWriters(ws[1..])
  }

  /** The readers resumed in a log, with a value or unsafely, in order. */
  function ResumedReaders<V>(ws: seq<Wake<V>>): seq<ReaderAwaiter<V>> {
    if ws == [] then []
    else (if ws[0].ResumeWriter? then [] else [ws[0].reader]) + ResumedReaders(ws[1..])
  }

  /** The readers of a list of hand-offs. */
  function Receivers<V>(hs: seq<(ReaderAwaiter<V>, V)>): seq<ReaderAwaiter<V>> {
    seq(|hs|, i requires 0 <= i < |hs| => hs[i].0)
  }

  /** The values of a list of hand-offs. */
  function Delivered<V>(hs: seq<(ReaderAwaiter<V>, V)>): seq<V> {
    seq(|hs|, i requires 0 <= i < |hs| => hs[i].1)
  }

  lemma {:induction false} ValuesAppend<V>(a: seq<WriterAwaiter<V>>, b: seq<WriterAwaiter<V>>)
    ensures Values(a + b) == Values(a) + Values(b)
  {
  }

  lemma {:induction false} LogAppend<V>(a: seq<Wake<V>>, b: seq<Wake<V>>)
    ensures Handoffs(a + b) == Handoffs(a) + Handoffs(b)
    ensures WokenWriters(a + b) == WokenWriters(a) + WokenWriters(b)
    ensures ResumedReaders(a + b) == ResumedReaders(a) + ResumedReaders(b)
  {
    HandoffsOfAppend(a, b);
    WokenWritersOfAppend(a, b);
    ResumedReadersOfAppend(a, b);
  }

  lemma {:induction false} HandoffsOfAppend<V>(a: seq<Wake<V>>, b: seq<Wake<V>>)
    ensures Handoffs(a + b) == Handoffs(a) + Handoffs(b)
  {
    if a == [] {
      assert a + b == b;
    } else {
      assert (a + b)[0] == a[0] && (a + b)[1..] == a[1..] + b;
      HandoffsOfAppend(a[1..], b);
    }
  }

  lemma {:induction false} WokenWritersOfAppend<V>(a: seq<Wake<V>>, b: seq<Wake<V>>)
    ensures WokenWriters(a + b) == WokenWriters(a) + WokenWriters(b)
  {
    if a == [] {
      assert a + b == b;
    } else {
      assert (a + b)[0] == a[0] && (a + b)[1..] == a[1..] + b;
      WokenWritersOfAppend(a[1..], b);
    }
  }

  lemma {:induction false} ResumedReadersOfAppend<V>(a: seq<Wake<V>>, b: seq<Wake<V>>)
    ensures ResumedReaders(a + b) == ResumedReaders(a) + ResumedReaders(b)
  {
    if a == [] {
      assert a + b == b;
    } else {
      assert (a + b)[0] == a[0] && (a + b)[1..] == a[1..] + b;
      ResumedReadersOfAppend(a[1..], b);
    }
  }

  /** What one call contributes to each view of the log. */
  lemma {:induction false} LogOne<V>(e: Wake<V>)
    ensures Handoffs([e]) == if e.ResumeReader? then [(e.reader, e.value)] else []
    ensures WokenWriters([e]) == if e.ResumeWriter? then [e.writer] else []
    ensures ResumedReaders([e]) == if e.ResumeWriter? then [] else [e.reader]
  {
    assert [e][1..] == [];
  }

  /** What two calls, in order, contribute to each view of the log appended to `log`. */
  lemma {:induction false} LogTwo<V>(log: seq<Wake<V>>, a: Wake<V>, b: Wake<V>)
    ensures Handoffs(log + [a, b]) == Handoffs(log) + Handoffs([a]) + Handoffs([b])
    ensures WokenWriters(log + [a, b]) == WokenWriters(log) + WokenWriters([a]) + WokenWriters([b])
    ensures ResumedReaders(log + [a, b]) == ResumedReaders(log) + ResumedReaders([a]) + ResumedReaders([b])
  {
    assert log + [a, b] == (log + [a]) + [b];
    LogAppend(log, [a]);
    LogAppend(log + [a], [b]);
  }


  // ---------------------------------------------------------------------------------------
  // The critical sections as steps on a channel state

  /** The locked part of `try_push_writer` once `check_closed` has passed:
      - a waiting reader: the oldest one is popped and resumed with the writer's value, then the
        writer is resumed; the buffer is not touched;
      - otherwise, room in the buffer: the value goes to its back and the writer is resumed;
      - otherwise the writer joins the back of the writer list. */
  function AfterPushWriter<V>(s: ChannelState<V>, w: WriterAwaiter<V>): (t: ChannelState<V>)
    requires s.active
    ensures Invariant(s) ==> Invariant(t)
    ensures t.active && t.capacity == s.capacity
  {
    if s.readers != [] then
      s.(readers := s.readers[1..], wakes := s.wakes + [ResumeReader(s.readers[0], w.value), ResumeWriter(w)])
    else if |s.buffer| < s.capacity then
      s.(buffer := s.buffer + [w.value], wakes := s.wakes + [ResumeWriter(w)])
    else
      s.(writers := s.writers + [w])
  }

  /** The locked part of `try_push_reader` once `check_closed` has passed:
      - a value in the buffer: the front value is popped; if a writer waits, the oldest one's
        value moves into the freed slot and that writer is resumed; then the reader is resumed
        with the popped value;
      - otherwise a waiting writer: the reader is resumed with the oldest writer's value, then
        that writer is resumed;
      - otherwise the reader joins the back of the reader list. */
  function AfterPushReader<V>(s: ChannelState<V>, r: ReaderAwaiter<V>): (t: ChannelState<V>)
    requires s.active
    ensures Invariant(s) ==> Invariant(t)
    ensures t.active && t.capacity == s.capacity
    ensures |s.buffer| > 0 && Invariant(s) ==> |t.buffer| == |s.buffer| - (if s.writers == [] then 1 else 0)
  {
    if s.buffer != [] then
      var value := s.buffer[0];
      if s.writers != [] then
        s.(buffer := s.buffer[1..] + [s.writers[0].value], writers := s.writers[1..],
           wakes := s.wakes + [ResumeWriter(s.writers[0]), ResumeReader(r, value)])
      else
        s.(buffer := s.buffer[1..], wakes := s.wakes + [ResumeReader(r, value)])
    else if s.writers != [] then
      s.(writers := s.writers[1..], wakes := s.wakes + [ResumeReader(r, s.writers[0].value), ResumeWriter(s.writers[0])])
    else
      s.(readers := s.readers + [r])
  }

  /** `xs` without any element equal to `x`, the rest in their order (`std::list::remove`). */
  function Without<T(==)>(xs: seq<T>, x: T): (ys: seq<T>)
    ensures |ys| <= |xs|
  {
    if xs == [] then []
    else if xs[0] == x then Without(xs[1..], x)
    else [xs[0]] + Without(xs[1..], x)
  }

  /** `list::remove` keeps every element not equal to the removed one, and no equal one. */
  lemma {:induction false} WithoutKeepsOthers<T>(xs: seq<T>, x: T)
    ensures forall i :: 0 <= i < |Without(xs, x)| ==> Without(xs, x)[i] in xs && Without(xs, x)[i] != x
    ensures forall i :: 0 <= i < |xs| && xs[i] != x ==> xs[i] in Without(xs, x)
  {
    if xs != [] {
      WithoutKeepsOthers(xs[1..], x);
      assert forall i :: 0 < i < |xs| ==> xs[i] == xs[1..][i - 1];
    }
  }

  /** `remove_writer`: the given writer leaves the writer list; nothing else changes. */
  function AfterRemoveWriter<V>(s: ChannelState<V>, w: WriterAwaiter<V>): (t: ChannelState<V>)
    ensures Invariant(s) ==> Invariant(t)
    ensures w !in t.writers
    ensures forall i :: 0 <= i < |t.writers| ==> t.writers[i] in s.writers
    ensures forall i :: 0 <= i < |s.writers| && s.writers[i] != w ==> s.writers[i] in t.writers
    ensures t.buffer == s.buffer && t.readers == s.readers && t.active == s.active && t.wakes == s.wakes
  {
    WithoutKeepsOthers(s.writers, w);
    s.(writers := Without(s.writers, w))
  }

  /** `remove_reader`: the given reader leaves the reader list; nothing else changes. */
  function AfterRemoveReader<V>(s: ChannelState<V>, r: ReaderAwaiter<V>): (t: ChannelState<V>)
    ensures Invariant(s) ==> Invariant(t)
    ensures r !in t.readers
    ensures forall i :: 0 <= i < |t.readers| ==> t.readers[i] in s.readers
    ensures forall i :: 0 <= i < |s.readers| && s.readers[i] != r ==> s.readers[i] in t.readers
    ensures t.buffer == s.buffer && t.writers == s.writers && t.active == s.active && t.wakes == s.wakes
  {
    WithoutKeepsOthers(s.readers, r);
    s.(readers := Without(s.readers, r))
  }

  /** The calls `clean_up` makes on the queued writers: `resume()` on each, in list order. */
  function WriterWakes<V>(ws: seq<WriterAwaiter<V>>): (wakes: seq<Wake<V>>)
    ensures |wakes| == |ws|
    ensures forall i :: 0 <= i < |ws| ==> wakes[i] == ResumeWriter(ws[i])
  {
    seq(|ws|, i requires 0 <= i < |ws| => ResumeWriter(ws[i]))
  }

  /** The calls `clean_up` makes on the queued readers: `resume_unsafe()` on each, in order. */
  function ReaderWakes<V>(rs: seq<ReaderAwaiter<V>>): (wakes: seq<Wake<V>>)
    ensures |wakes| == |rs|
    ensures forall i :: 0 <= i < |rs| ==> wakes[i] == ResumeReaderUnsafe(rs[i])
  {
    seq(|rs|, i requires 0 <= i < |rs| => ResumeReaderUnsafe(rs[i]))
  }

  /** `clean_up`: resume every waiting writer, then every waiting reader unsafely, empty both
      lists and drain the buffer (its values are dropped). */
  function AfterCleanUp<V>(s: ChannelState<V>): (t: ChannelState<V>)
    ensures t.buffer == [] && t.writers == [] && t.readers == []
    ensures t.capacity == s.capacity && t.active == s.active
  {
    s.(buffer := [], writers := [], readers := [],
       wakes := s.wakes + WriterWakes(s.writers) + ReaderWakes(s.readers))
  }

  /** `close`: only a call that finds the channel active clears `active` and cleans up;
      any later call changes nothing. */
  function AfterClose<V>(s: ChannelState<V>): (t: ChannelState<V>)
    ensures !t.active && t.capacity == s.capacity
    ensures Invariant(s) ==> Invariant(t)
    ensures s.active ==> t.buffer == [] && t.writers == [] && t.readers == []
    ensures !s.active ==> t == s
  {
    if s.active then AfterCleanUp(s.(active := false)) else s
  }

  // ---------------------------------------------------------------------------------------
  // What each step keeps

  /** The log views after one more hand-off. */
  lemma HandoffsAppendOne<V>(h: seq<(ReaderAwaiter<V>, V)>, r: ReaderAwaiter<V>, v: V)
    ensures Receivers(h + [(r, v)]) == Receivers(h) + [r]
    ensures Delivered(h + [(r, v)]) == Delivered(h) + [v]
  {
  }

  /** The log after a hand-off from `w` to `r` in which the reader is resumed first. */
  lemma {:induction false} ReaderThenWriterLogged<V>(log: seq<Wake<V>>, w: WriterAwaiter<V>, r: ReaderAwaiter<V>, v: V)
    ensures var added := [ResumeReader(r, v), ResumeWriter(w)];
      && Handoffs(log + added) == Handoffs(log) + [(r, v)]
      && WokenWriters(log + added) == WokenWriters(log) + [w]
      && ResumedReaders(log + added) == ResumedReaders(log) + [r]
  {
    LogOne(ResumeReader(r, v));
    LogOne(ResumeWriter(w));
    LogTwo(log, ResumeReader(r, v), ResumeWriter(w));
  }

  /** The log after a hand-off from `w` to `r` in which the writer is resumed first. */
  lemma {:induction false} WriterThenReaderLogged<V>(log: seq<Wake<V>>, w: WriterAwaiter<V>, r: ReaderAwaiter<V>, v: V)
    ensures var added := [ResumeWriter(w), ResumeReader(r, v)];
      && Handoffs(log + added) == Handoffs(log) + [(r, v)]
      && WokenWriters(log + added) == WokenWriters(log) + [w]
      && ResumedReaders(log + added) == ResumedReaders(log) + [r]
  {
    LogOne(ResumeReader(r, v));
    LogOne(ResumeWriter(w));
    LogTwo(log, ResumeWriter(w), ResumeReader(r, v));
  }

  /** The three outcomes of `try_push_writer` on an active channel, as changes to what the
      channel has delivered, holds and has resumed. */
  lemma {:induction false} PushWriterCases<V>(s: ChannelState<V>, w: WriterAwaiter<V>)
    requires Invariant(s) && s.active
    ensures var t := AfterPushWriter(s, w);
      && (s.readers != [] ==>
            && Handoffs(t.wakes) == Handoffs(s.wakes) + [(s.readers[0], w.value)]
            && WokenWriters(t.wakes) == WokenWriters(s.wakes) + [w]
            && ResumedReaders(t.wakes) == ResumedReaders(s.wakes) + [s.readers[0]]
            && t.readers == s.readers[1..] && t.buffer == s.buffer == [] && t.writers == s.writers == [])
      && (s.readers == [] && |s.buffer| < s.capacity ==>
            && Handoffs(t.wakes) == Handoffs(s.wakes)
            && WokenWriters(t.wakes) == WokenWriters(s.wakes) + [w]
            && ResumedReaders(t.wakes) == ResumedReaders(s.wakes)
            && t.readers == [] && t.buffer == s.buffer + [w.value] && t.writers == s.writers == [])
      && (s.readers == [] && |s.buffer| >= s.capacity ==>
            && t.wakes == s.wakes && t.readers == [] && t.buffer == s.buffer && t.writers == s.writers + [w])
  {
    if s.readers != [] {
      ReaderThenWriterLogged(s.wakes, w, s.readers[0], w.value);
    } else if |s.buffer| < s.capacity {
      LogAppend(s.wakes, [ResumeWriter(w)]);
      LogOne(ResumeWriter(w));
    }
  }

  /** A writer's value either goes straight to the oldest waiting reader (and the buffer is
      untouched) or joins the back of the values in flight. Every value accepted is either
      delivered or still in flight, in order; readers are served, and writers resumed, in the
      order they queued. */
  lemma {:induction false} PushWriterKeepsOrder<V>(s: ChannelState<V>, w: WriterAwaiter<V>)
    requires Invariant(s) && s.active
    ensures var t := AfterPushWriter(s, w);
      && (s.readers != [] ==> Handoffs(t.wakes) == Handoffs(s.wakes) + [(s.readers[0], w.value)] && t.buffer == s.buffer)
      && (s.readers == [] ==> Handoffs(t.wakes) == Handoffs(s.wakes) && InFlight(t) == InFlight(s) + [w.value])
      && Delivered(Handoffs(t.wakes)) + InFlight(t) == Delivered(Handoffs(s.wakes)) + InFlight(s) + [w.value]
      && Receivers(Handoffs(t.wakes)) + t.readers == Receivers(Handoffs(s.wakes)) + s.readers
      && ResumedReaders(t.wakes) + t.readers == ResumedReaders(s.wakes) + s.readers
      && WokenWriters(t.wakes) + t.writers == WokenWriters(s.wakes) + s.writers + [w]
  {
    if s.readers != [] {
      WriterMeetsReader(s, w);
    } else if |s.buffer| < s.capacity {
      WriterBuffered(s, w);
    } else {
      ValuesAppend(s.writers, [w]);
    }
  }

  lemma {:induction false} WriterMeetsReader<V>(s: ChannelState<V>, w: WriterAwaiter<V>)
    requires Invariant(s) && s.active && s.readers != []
    ensures var t := AfterPushWriter(s, w);
      && Handoffs(t.wakes) == Handoffs(s.wakes) + [(s.readers[0], w.value)] && t.buffer == s.buffer
      && Delivered(Handoffs(t.wakes)) + InFlight(t) == Delivered(Handoffs(s.wakes)) + InFlight(s) + [w.value]
      && Receivers(Handoffs(t.wakes)) + t.readers == Receivers(Handoffs(s.wakes)) + s.readers
      && ResumedReaders(t.wakes) + t.readers == ResumedReaders(s.wakes) + s.readers
      && WokenWriters(t.wakes) + t.writers == WokenWriters(s.wakes) + s.writers + [w]
  {
    var t := AfterPushWriter(s, w);
    ReaderThenWriterLogged(s.wakes, w, s.readers[0], w.value);
    HandoffsAppendOne(Handoffs(s.wakes), s.readers[0], w.value);
    assert InFlight(s) == [] && InFlight(t) == [];
    ShiftKeepsOrder(Receivers(Handoffs(s.wakes)), Receivers(Handoffs(t.wakes)), s.readers);
    ShiftKeepsOrder(ResumedReaders(s.wakes), ResumedReaders(t.wakes), s.readers);
  }

  lemma {:induction false} WriterBuffered<V>(s: ChannelState<V>, w: WriterAwaiter<V>)
    requires Invariant(s) && s.active && s.readers == [] && |s.buffer| < s.capacity
    ensures var t := AfterPushWriter(s, w);
      && Handoffs(t.wakes) == Handoffs(s.wakes) && InFlight(t) == InFlight(s) + [w.value]
      && ResumedReaders(t.wakes) == ResumedReaders(s.wakes)
      && WokenWriters(t.wakes) + t.writers == WokenWriters(s.wakes) + s.writers + [w]
  {
    var t := AfterPushWriter(s, w);
    LogAppend(s.wakes, [ResumeWriter(w)]);
    LogOne(ResumeWriter(w));
    assert s.writers == [] && t.writers == [];
    assert InFlight(s) == s.buffer && InFlight(t) == s.buffer + [w.value];
  }

  /** The three outcomes of `try_push_reader` on an active channel. */
  lemma {:induction false} PushReaderCases<V>(s: ChannelState<V>, r: ReaderAwaiter<V>)
    requires Invariant(s) && s.active
    ensures var t := AfterPushReader(s, r);
      && (s.buffer != [] ==>
            && Handoffs(t.wakes) == Handoffs(s.wakes) + [(r, s.buffer[0])]
            && WokenWriters(t.wakes) == WokenWriters(s.wakes) + (if s.writers == [] then [] else [s.writers[0]])
            && ResumedReaders(t.wakes) == ResumedReaders(s.wakes) + [r]
            && t.readers == s.readers == []
            && t.buffer == s.buffer[1..] + (if s.writers == [] then [] else [s.writers[0].value])
            && t.writers == (if s.writers == [] then [] else s.writers[1..]))
      && (s.buffer == [] && s.writers != [] ==>
            && Handoffs(t.wakes) == Handoffs(s.wakes) + [(r, s.writers[0].value)]
            && WokenWriters(t.wakes) == WokenWriters(s.wakes) + [s.writers[0]]
            && ResumedReaders(t.wakes) == ResumedReaders(s.wakes) + [r]
            && t.readers == s.readers == [] && t.buffer == [] && t.writers == s.writers[1..])
      && (s.buffer == [] && s.writers == [] ==> t == s.(readers := s.readers + [r]))
  {
    if s.buffer != [] {
      if s.writers != [] {
        WriterThenReaderLogged(s.wakes, s.writers[0], r, s.buffer[0]);
      } else {
        LogAppend(s.wakes, [ResumeReader(r, s.buffer[0])]);
        LogOne(ResumeReader(r, s.buffer[0]));
      }
    } else if s.writers != [] {
      ReaderThenWriterLogged(s.wakes, s.writers[0], r, s.writers[0].value);
    }
  }

  /** A reader takes the oldest value in flight when there is one (promoting the oldest waiting
      writer into the freed buffer slot), and otherwise joins the back of the reader list. */
  lemma {:induction false} PushReaderTakesOldest<V>(s: ChannelState<V>, r: ReaderAwaiter<V>)
    requires Invariant(s) && s.active
    ensures var t := AfterPushReader(s, r);
      && (InFlight(s) != [] ==>
            && Handoffs(t.wakes) == Handoffs(s.wakes) + [(r, InFlight(s)[0])]
            && InFlight(s) == [InFlight(s)[0]] + InFlight(t) && t.readers == s.readers == []
            && ResumedReaders(t.wakes) == ResumedReaders(s.wakes) + [r]
            && WokenWriters(t.wakes) + t.writers == WokenWriters(s.wakes) + s.writers)
      && (InFlight(s) == [] ==> t == s.(readers := s.readers + [r]))
  {
    if s.buffer != [] && s.writers != [] {
      TakeFromBufferAndPromote(s, r);
    } else if s.buffer != [] {
      TakeFromBuffer(s, r);
    } else if s.writers != [] {
      TakeFromWriter(s, r);
    }
  }

  lemma {:induction false} TakeFromBufferAndPromote<V>(s: ChannelState<V>, r: ReaderAwaiter<V>)
    requires Invariant(s) && s.active && s.buffer != [] && s.writers != []
    ensures var t := AfterPushReader(s, r);
      && InFlight(s)[0] == s.buffer[0]
      && Handoffs(t.wakes) == Handoffs(s.wakes) + [(r, s.buffer[0])]
      && InFlight(s) == [s.buffer[0]] + InFlight(t) && t.readers == s.readers == []
      && ResumedReaders(t.wakes) == ResumedReaders(s.wakes) + [r]
      && WokenWriters(t.wakes) + t.writers == WokenWriters(s.wakes) + s.writers
  {
    var t := AfterPushReader(s, r);
    WriterThenReaderLogged(s.wakes, s.writers[0], r, s.buffer[0]);
    PromotionKeepsInFlight(s.buffer, s.writers, t.buffer, t.writers);
    ShiftKeepsOrder(WokenWriters(s.wakes), WokenWriters(t.wakes), s.writers);
  }

  /** Popping the buffer's front and moving the oldest waiting writer's value to the back
      leaves the rest of the values in flight in order. */
  lemma {:induction false} PromotionKeepsInFlight<V>(b: seq<V>, ws: seq<WriterAwaiter<V>>, b2: seq<V>, ws2: seq<WriterAwaiter<V>>)
    requires b != [] && ws != [] && b2 == b[1..] + [ws[0].value] && ws2 == ws[1..]
    ensures b + Values(ws) == [b[0]] + (b2 + Values(ws2))
  {
    PromoteKeepsInFlight(b[1..], ws);
    calc {
      b + Values(ws);
      { assert b == [b[0]] + b[1..]; }
      ([b[0]] + b[1..]) + Values(ws);
      [b[0]] + (b[1..] + Values(ws));
      [b[0]] + ((b[1..] + [ws[0].value]) + Values(ws[1..]));
      [b[0]] + (b2 + Values(ws2));
    }
  }

  lemma {:induction false} TakeFromBuffer<V>(s: ChannelState<V>, r: ReaderAwaiter<V>)
    requires Invariant(s) && s.active && s.buffer != [] && s.writers == []
    ensures var t := AfterPushReader(s, r);
      && InFlight(s)[0] == s.buffer[0]
      && Handoffs(t.wakes) == Handoffs(s.wakes) + [(r, s.buffer[0])]
      && InFlight(s) == [s.buffer[0]] + InFlight(t) && t.readers == s.readers == []
      && ResumedReaders(t.wakes) == ResumedReaders(s.wakes) + [r]
      && WokenWriters(t.wakes) + t.writers == WokenWriters(s.wakes) + s.writers
  {
    var value := s.buffer[0];
    LogAppend(s.wakes, [ResumeReader(r, value)]);
    LogOne(ResumeReader(r, value));
    assert s.buffer == [value] + s.buffer[1..];
  }

  lemma {:induction false} TakeFromWriter<V>(s: ChannelState<V>, r: ReaderAwaiter<V>)
    requires Invariant(s) && s.active && s.buffer == [] && s.writers != []
    ensures var t := AfterPushReader(s, r);
      && InFlight(s)[0] == s.writers[0].value
      && Handoffs(t.wakes) == Handoffs(s.wakes) + [(r, s.writers[0].value)]
      && InFlight(s) == [s.writers[0].value] + InFlight(t) && t.readers == s.readers == []
      && ResumedReaders(t.wakes) == ResumedReaders(s.wakes) + [r]
      && WokenWriters(t.wakes) + t.writers == WokenWriters(s.wakes) + s.writers
  {
    var t := AfterPushReader(s, r);
    ReaderThenWriterLogged(s.wakes, s.writers[0], r, s.writers[0].value);
    PromoteKeepsInFlight([], s.writers);
    assert InFlight(s) == [] + Values(s.writers);
    ShiftKeepsOrder(WokenWriters(s.wakes), WokenWriters(t.wakes), s.writers);
  }

  /** Moving the oldest waiting writer's value to the back of the buffer keeps the values in
      flight as they were. */
  lemma {:induction false} PromoteKeepsInFlight<V>(b: seq<V>, ws: seq<WriterAwaiter<V>>)
    requires ws != []
    ensures b + Values(ws) == (b + [ws[0].value]) + Values(ws[1..])
  {
    assert ws == [ws[0]] + ws[1..];
    ValuesAppend([ws[0]], ws[1..]);
  }

  /** Every value accepted is either delivered or still in flight, in order; readers are
      served, and writers resumed, in the order they queued. */
  lemma {:induction false} PushReaderKeepsOrder<V>(s: ChannelState<V>, r: ReaderAwaiter<V>)
    requires Invariant(s) && s.active
    ensures var t := AfterPushReader(s, r);
      && Delivered(Handoffs(t.wakes)) + InFlight(t) == Delivered(Handoffs(s.wakes)) + InFlight(s)
      && Receivers(Handoffs(t.wakes)) + t.readers == Receivers(Handoffs(s.wakes)) + s.readers + [r]
      && ResumedReaders(t.wakes) + t.readers == ResumedReaders(s.wakes) + s.readers + [r]
      && WokenWriters(t.wakes) + t.writers == WokenWriters(s.wakes) + s.writers
  {
    var t := AfterPushReader(s, r);
    PushReaderTakesOldest(s, r);
    if InFlight(s) != [] {
      ServeKeepsOrder(Handoffs(s.wakes), Handoffs(t.wakes), InFlight(s), InFlight(t), r);
    }
  }

  /** One hand-off of the oldest value in flight keeps values and readers accounted for. */
  lemma {:induction false} ServeKeepsOrder<V>(hs: seq<(ReaderAwaiter<V>, V)>, ht: seq<(ReaderAwaiter<V>, V)>,
                                              before: seq<V>, after: seq<V>, r: ReaderAwaiter<V>)
    requires before != [] && ht == hs + [(r, before[0])] && before == [before[0]] + after
    ensures Delivered(ht) + after == Delivered(hs) + before
    ensures Receivers(ht) == Receivers(hs) + [r]
  {
    HandoffsAppendOne(hs, r, before[0]);
  }

  /** Moving the front of a queue to the back of a log keeps log-then-queue as it was. */
  lemma {:induction false} ShiftKeepsOrder<T>(log: seq<T>, log2: seq<T>, queue: seq<T>)
    requires queue != [] && log2 == log + [queue[0]]
    ensures log2 + queue[1..] == log + queue
  {
    assert queue == [queue[0]] + queue[1..];
  }

  /** Removing an awaiter that occurs once in a list deletes exactly that entry: the others
      keep their relative order. */
  lemma {:induction false} WithoutDeletesExactlyOne<T>(xs: seq<T>, x: T, k: nat)
    requires k < |xs| && xs[k] == x
    requires forall i :: 0 <= i < |xs| && i != k ==> xs[i] != x
    ensures Without(xs, x) == xs[..k] + xs[k + 1..]
  {
    var tail := xs[1..];
    if k == 0 {
      WithoutAbsent(tail, x);
      assert xs[..k] + xs[k + 1..] == tail;
    } else {
      assert xs[0] != x;
      forall i | 0 <= i < |tail| && i != k - 1
        ensures tail[i] != x
      {
        assert tail[i] == xs[i + 1];
      }
      WithoutDeletesExactlyOne(tail, x, k - 1);
      calc {
        Without(xs, x);
        [xs[0]] + Without(tail, x);
        [xs[0]] + (tail[..k - 1] + tail[k..]);
        { assert [xs[0]] + tail[..k - 1] == xs[..k]; assert tail[k..] == xs[k + 1..]; }
        xs[..k] + xs[k + 1..];
      }
    }
  }

  /** Removing an awaiter that is not queued (one already resumed) changes nothing. */
  lemma {:induction false} WithoutAbsent<T>(xs: seq<T>, x: T)
    requires forall i :: 0 <= i < |xs| ==> xs[i] != x
    ensures Without(xs, x) == xs
  {
    if xs != [] {
      assert forall i :: 0 <= i < |xs| - 1 ==> xs[1..][i] == xs[i + 1];
      WithoutAbsent(xs[1..], x);
      assert xs == [xs[0]] + xs[1..];
    }
  }

  lemma {:induction false} CleanUpWakes<V>(ws: seq<WriterAwaiter<V>>, rs: seq<ReaderAwaiter<V>>)
    ensures Handoffs(WriterWakes(ws) + ReaderWakes(rs)) == []
    ensures WokenWriters(WriterWakes(ws) + ReaderWakes(rs)) == ws
    ensures ResumedReaders(WriterWakes(ws) + ReaderWakes(rs)) == rs
  {
    LogAppend(WriterWakes(ws), ReaderWakes(rs));
    WriterWakesResume(ws);
    ReaderWakesResume(rs);
  }

  lemma {:induction false} WriterWakesResume<V>(ws: seq<WriterAwaiter<V>>)
    ensures Handoffs(WriterWakes(ws)) == [] && WokenWriters(WriterWakes(ws)) == ws && ResumedReaders(WriterWakes(ws)) == []
  {
    if ws != [] {
      WriterWakesResume(ws[1..]);
      assert WriterWakes(ws) == [ResumeWriter(ws[0])] + WriterWakes(ws[1..]);
    }
  }

  lemma {:induction false} ReaderWakesResume<V>(rs: seq<ReaderAwaiter<V>>)
    ensures Handoffs(ReaderWakes(rs)) == [] && WokenWriters(ReaderWakes(rs)) == [] && ResumedReaders(ReaderWakes(rs)) == rs
  {
    if rs != [] {
      ReaderWakesResume(rs[1..]);
      assert ReaderWakes(rs) == [ResumeReaderUnsafe(rs[0])] + ReaderWakes(rs[1..]);
    }
  }

  /** The first `close` resumes every waiting writer and every waiting reader exactly once, in
      queue order, hands no value to anybody, and drops the values in flight. */
  lemma {:induction false} CloseWakesEveryWaiter<V>(s: ChannelState<V>)
    requires s.active
    ensures var t := AfterClose(s);
      && WokenWriters(t.wakes) == WokenWriters(s.wakes) + s.writers
      && ResumedReaders(t.wakes) == ResumedReaders(s.wakes) + s.readers
      && Handoffs(t.wakes) == Handoffs(s.wakes)
      && InFlight(t) == []
  {
    var t := AfterClose(s);
    assert t.wakes == s.wakes + (WriterWakes(s.writers) + ReaderWakes(s.readers));
    LogAppend(s.wakes, WriterWakes(s.writers) + ReaderWakes(s.readers));
    CleanUpWakes(s.writers, s.readers);
  }

  /** Closing twice is closing once. */
  lemma CloseIsIdempotent<V>(s: ChannelState<V>)
    ensures AfterClose(AfterClose(s)) == AfterClose(s)
  {
  }

  // ---------------------------------------------------------------------------------------
  // Runs of sends and receives

  /** A `co_await` on a channel awaiter that reaches the channel's critical section. */
  datatype Op<V> = Send(writer: WriterAwaiter<V>) | Receive(reader: ReaderAwaiter<V>)

  /** One operation: `try_push_writer` or `try_push_reader`; on a closed channel
      `check_closed` throws and nothing changes. */
  function Step<V>(s: ChannelState<V>, op: Op<V>): ChannelState<V> {
    if !s.active then s
    else match op
      case Send(w) => AfterPushWriter(s, w)
      case Receive(r) => AfterPushReader(s, r)
  }

  function Run<V>(s: ChannelState<V>, ops: seq<Op<V>>): ChannelState<V>
    decreases |ops|
  {
    if ops == [] then s else Run(Step(s, ops[0]), ops[1..])
  }

  /** The values sent in a run, in order. */
  function SentValues<V>(ops: seq<Op<V>>): seq<V> {
    if ops == [] then [] else (if ops[0].Send? then [ops[0].writer.value] else []) + SentValues(ops[1..])
  }

  /** The writers of a run, in order. */
  function Senders<V>(ops: seq<Op<V>>): seq<WriterAwaiter<V>> {
    if ops == [] then [] else (if ops[0].Send? then [ops[0].writer] else []) + Senders(ops[1..])
  }

  /** The readers of a run, in order. */
  function Askers<V>(ops: seq<Op<V>>): seq<ReaderAwaiter<V>> {
    if ops == [] then [] else (if ops[0].Receive? then [ops[0].reader] else []) + Askers(ops[1..])
  }

  /** What a channel state accounts for, each in order: the values delivered and then those
      still in flight; the readers served and then those waiting; the readers resumed and then
      those waiting; the writers resumed and then those waiting. */
  datatype Ledger<V> = Ledger(
    values: seq<V>,
    served: seq<ReaderAwaiter<V>>,
    released: seq<ReaderAwaiter<V>>,
    writers: seq<WriterAwaiter<V>>)

  function LedgerOf<V>(s: ChannelState<V>): Ledger<V> {
    Ledger(Delivered(Handoffs(s.wakes)) + InFlight(s), Receivers(Handoffs(s.wakes)) + s.readers,
           ResumedReaders(s.wakes) + s.readers, WokenWriters(s.wakes) + s.writers)
  }

  /** The entries one operation adds to a ledger: a send adds its value and its writer, a
      receive adds its reader. */
  function Record<V>(l: Ledger<V>, op: Op<V>): Ledger<V> {
    match op
    case Send(w) => l.(values := l.values + [w.value], writers := l.writers + [w])
    case Receive(r) => l.(served := l.served + [r], released := l.released + [r])
  }

  function RecordAll<V>(l: Ledger<V>, ops: seq<Op<V>>): Ledger<V>
    decreases |ops|
  {
    if ops == [] then l else RecordAll(Record(l, ops[0]), ops[1..])
  }

  /** Each operation on an active channel adds exactly its own entries to the ledger. */
  lemma {:induction false} StepRecords<V>(s: ChannelState<V>, op: Op<V>)
    requires Invariant(s) && s.active
    ensures LedgerOf(Step(s, op)) == Record(LedgerOf(s), op)
  {
    match op {
      case Send(w) => PushWriterKeepsOrder(s, w);
      case Receive(r) => PushReaderKeepsOrder(s, r);
    }
  }

  lemma {:induction false} RunRecords<V>(s: ChannelState<V>, ops: seq<Op<V>>)
    requires Invariant(s) && s.active
    decreases |ops|
    ensures Invariant(Run(s, ops)) && Run(s, ops).active
    ensures LedgerOf(Run(s, ops)) == RecordAll(LedgerOf(s), ops)
  {
    if ops != [] {
      StepRecords(s, ops[0]);
      RunRecords(Step(s, ops[0]), ops[1..]);
    }
  }

  lemma {:induction false} RecordAllAppends<V>(l: Ledger<V>, ops: seq<Op<V>>)
    decreases |ops|
    ensures RecordAll(l, ops) ==
              Ledger(l.values + SentValues(ops), l.served + Askers(ops), l.released + Askers(ops), l.writers + Senders(ops))
  {
    if ops != [] {
      RecordAllAppends(Record(l, ops[0]), ops[1..]);
      match ops[0] {
        case Send(w) => SendAppends(l, ops, w);
        case Receive(r) => ReceiveAppends(l, ops, r);
      }
    }
  }

  lemma {:induction false} SendAppends<V>(l: Ledger<V>, ops: seq<Op<V>>, w: WriterAwaiter<V>)
    requires ops != [] && ops[0] == Send(w)
    ensures var m := Record(l, ops[0]);
      Ledger(m.values + SentValues(ops[1..]), m.served + Askers(ops[1..]), m.released + Askers(ops[1..]), m.writers + Senders(ops[1..]))
        == Ledger(l.values + SentValues(ops), l.served + Askers(ops), l.released + Askers(ops), l.writers + Senders(ops))
  {
    assert SentValues(ops) == [w.value] + SentValues(ops[1..]);
    assert Senders(ops) == [w] + Senders(ops[1..]);
    assert Askers(ops) == Askers(ops[1..]);
    assert l.values + [w.value] + SentValues(ops[1..]) == l.values + SentValues(ops);
    assert l.writers + [w] + Senders(ops[1..]) == l.writers + Senders(ops);
  }

  lemma {:induction false} ReceiveAppends<V>(l: Ledger<V>, ops: seq<Op<V>>, r: ReaderAwaiter<V>)
    requires ops != [] && ops[0] == Receive(r)
    ensures var m := Record(l, ops[0]);
      Ledger(m.values + SentValues(ops[1..]), m.served + Askers(ops[1..]), m.released + Askers(ops[1..]), m.writers + Senders(ops[1..]))
        == Ledger(l.values + SentValues(ops), l.served + Askers(ops), l.released + Askers(ops), l.writers + Senders(ops))
  {
    assert SentValues(ops) == SentValues(ops[1..]);
    assert Senders(ops) == Senders(ops[1..]);
    assert Askers(ops) == [r] + Askers(ops[1..]);
    assert l.served + [r] + Askers(ops[1..]) == l.served + Askers(ops);
    assert l.released + [r] + Askers(ops[1..]) == l.released + Askers(ops);
  }

  /** Over any run of sends and receives on an active channel, no value is lost or duplicated
      and nobody is served out of turn: values delivered plus values in flight are the values
      sent, readers served plus readers waiting are the readers that asked, and writers resumed
      plus writers waiting are the writers that sent, each in order. */
  lemma {:induction false} RunKeepsOrder<V>(s: ChannelState<V>, ops: seq<Op<V>>)
    requires Invariant(s) && s.active
    ensures var t := Run(s, ops);
      && Invariant(t) && t.active
      && Delivered(Handoffs(t.wakes)) + InFlight(t) == Delivered(Handoffs(s.wakes)) + InFlight(s) + SentValues(ops)
      && Receivers(Handoffs(t.wakes)) + t.readers == Receivers(Handoffs(s.wakes)) + s.readers + Askers(ops)
      && ResumedReaders(t.wakes) + t.readers == ResumedReaders(s.wakes) + s.readers + Askers(ops)
      && WokenWriters(t.wakes) + t.writers == WokenWriters(s.wakes) + s.writers + Senders(ops)
  {
    RunRecords(s, ops);
    RecordAllAppends(LedgerOf(s), ops);
  }

  /** The channel is a FIFO: starting from a fresh channel of any capacity, the i-th value
      handed to a reader is the i-th value sent, and it goes to the i-th reader that asked. */
  lemma {:induction false} ChannelIsFifo<V>(capacity: nat, ops: seq<Op<V>>)
    ensures var h := Handoffs(Run(Init(capacity), ops).wakes);
      && |h| <= |SentValues(ops)| && |h| <= |Askers(ops)|
      && forall i :: 0 <= i < |h| ==> h[i] == (Askers(ops)[i], SentValues(ops)[i])
  {
    var s := Init<V>(capacity);
    RunKeepsOrder(s, ops);
    var t := Run(s, ops);
    var h := Handoffs(t.wakes);
    assert Delivered(h) + InFlight(t) == SentValues(ops);
    assert Receivers(h) + t.readers == Askers(ops);
    forall i | 0 <= i < |h|
      ensures h[i] == (Askers(ops)[i], SentValues(ops)[i])
    {
      assert Delivered(h)[i] == SentValues(ops)[i];
      assert Receivers(h)[i] == Askers(ops)[i];
    }
  }

  /** Closing a channel after any run of sends and receives resumes every writer and every
      reader of the run exactly once, in the order they came. */
  lemma {:induction false} CloseReleasesEveryone<V>(capacity: nat, ops: seq<Op<V>>)
    ensures var t := AfterClose(Run(Init(capacity), ops));
      WokenWriters(t.wakes) == Senders(ops) && ResumedReaders(t.wakes) == Askers(ops)
  {
    var s := Init<V>(capacity);
    RunKeepsOrder(s, ops);
    CloseWakesEveryWaiter(Run(s, ops));
  }

  /** A channel of capacity 2: three sends fill the buffer and queue the third writer; one
      receive then takes the oldest value, moves the queued writer's value into the buffer and
      resumes that writer. */
  lemma {:induction false} FullBufferPromotesWriter<V>(w1: WriterAwaiter<V>, w2: WriterAwaiter<V>, w3: WriterAwaiter<V>, r: ReaderAwaiter<V>)
    ensures var s := Run(Init(2), [Send(w1), Send(w2), Send(w3)]);
      && s.active && s.buffer == [w1.value, w2.value] && s.writers == [w3] && WokenWriters(s.wakes) == [w1, w2]
      && var t := AfterPushReader(s, r);
         && t.buffer == [w2.value, w3.value] && t.writers == []
         && Handoffs(t.wakes) == [(r, w1.value)] && WokenWriters(t.wakes) == [w1, w2, w3]
  {
    var s := ThreeSendsFillBuffer(w1, w2, w3);
    var writerLog := [ResumeWriter(w1), ResumeWriter(w2), ResumeWriter(w3)];
    var t := AfterPushReader(s, r);
    assert t == ChannelState(2, [w2.value, w3.value], [], [], true, writerLog + [ResumeReader(r, w1.value)]);
    assert s.wakes == WriterWakes([w1, w2]) && writerLog == WriterWakes([w1, w2, w3]);
    WriterWakesResume([w1, w2]);
    WriterWakesResume([w1, w2, w3]);
    LogAppend(writerLog, [ResumeReader(r, w1.value)]);
    LogOne(ResumeReader(r, w1.value));
  }

  /** The state three sends leave in a fresh channel of capacity 2. */
  lemma {:induction false} ThreeSendsFillBuffer<V>(w1: WriterAwaiter<V>, w2: WriterAwaiter<V>, w3: WriterAwaiter<V>)
    returns (s: ChannelState<V>)
    ensures s == Run(Init(2), [Send(w1), Send(w2), Send(w3)])
    ensures s == ChannelState(2, [w1.value, w2.value], [w3], [], true, [ResumeWriter(w1), ResumeWriter(w2)])
  {
    var ops := [Send(w1), Send(w2), Send(w3)];
    var s0 := Init<V>(2);
    var s1 := AfterPushWriter(s0, w1);
    assert s1 == ChannelState(2, [w1.value], [], [], true, [ResumeWriter(w1)]);
    var s2 := AfterPushWriter(s1, w2);
    assert s2 == ChannelState(2, [w1.value, w2.value], [], [], true, [ResumeWriter(w1), ResumeWriter(w2)]);
    s := AfterPushWriter(s2, w3);
    assert s == ChannelState(2, [w1.value, w2.value], [w3], [], true, [ResumeWriter(w1), ResumeWriter(w2)]);
    assert ops[1..] == [Send(w2), Send(w3)] && ops[1..][1..] == [Send(w3)] && ops[1..][1..][1..] == [];
    assert Run(s2, [Send(w3)]) == s;
    assert Run(s1, [Send(w2), Send(w3)]) == s;
  }

  // ---------------------------------------------------------------------------------------
  // The channel object

  class Channel<V> {
    const capacity: nat
    var buffer: seq<V>
    var writers: seq<WriterAwaiter<V>>
    var readers: seq<ReaderAwaiter<V>>
    var active: bool
    /** The calls this channel has made into awaiters, in order. */
    var wakes: seq<Wake<V>>

    function State(): ChannelState<V>
      reads this
    {
      ChannelState(capacity, buffer, writers, readers, active, wakes)
    }

    predicate Valid()
      reads this
    {
      Invariant(State())
    }

    /** `Channel(capacity)`: the source's `int` capacity is a `nat` here. */
    constructor (capacity: nat)
      ensures Valid()
      ensures State() == Init(capacity)
    {
      this.capacity := capacity;
      buffer := [];
      writers := [];
      readers := [];
      active := true;
      wakes := [];
    }

    method CheckClosed() returns (o: Outcome<()>)
      ensures o == CheckOutcome(active)
    {
      if !active {
        return Thrown(ClosedError);
      }
      return Returned(());
    }

    method TryPushReader(r: ReaderAwaiter<V>) returns (o: Outcome<()>)
      requires Valid()
      modifies this
      ensures Valid()
      ensures o == CheckOutcome(old(active))
      ensures State() == if old(active) then AfterPushReader(old(State()), r) else old(State())
    {
      o := CheckClosed();
      if o.Thrown? {
        return;
      }
      if buffer != [] {
        var value := buffer[0];
        buffer := buffer[1..];
        if writers != [] {
          var writer := writers[0];
          writers := writers[1..];
          buffer := buffer + [writer.value];
          wakes := wakes + [ResumeWriter(writer)];
        }
        wakes := wakes + [ResumeReader(r, value)];
        return;
      }
      if writers != [] {
        var writer := writers[0];
        writers := writers[1..];
        wakes := wakes + [ResumeReader(r, writer.value), ResumeWriter(writer)];
        return;
      }
      readers := readers + [r];
    }

    method TryPushWriter(w: WriterAwaiter<V>) returns (o: Outcome<()>)
      requires Valid()
      modifies this
      ensures Valid()
      ensures o == CheckOutcome(old(active))
      ensures State() == if old(active) then AfterPushWriter(old(State()), w) else old(State())
    {
      o := CheckClosed();
      if o.Thrown? {
        return;
      }
      if readers != [] {
        var reader := readers[0];
        readers := readers[1..];
        wakes := wakes + [ResumeReader(reader, w.value), ResumeWriter(w)];
        return;
      }
      if |buffer| < capacity {
        buffer := buffer + [w.value];
        wakes := wakes + [ResumeWriter(w)];
        return;
      }
      writers := writers + [w];
    }

    method RemoveWriter(w: WriterAwaiter<V>)
      requires Valid()
      modifies this
      ensures Valid()
      ensures State() == AfterRemoveWriter(old(State()), w)
    {
      writers := Without(writers, w);
    }

    method RemoveReader(r: ReaderAwaiter<V>)
      requires Valid()
      modifies this
      ensures Valid()
      ensures State() == AfterRemoveReader(old(State()), r)
    {
      readers := Without(readers, r);
    }

    /** `write(value)`: fails when closed; otherwise a fresh writer awaiter for this channel. */
    method Write(v: V) returns (o: Outcome<WriterAwaiter<V>>)
      ensures o.Thrown? <==> !active
      ensures o.Thrown? ==> o.exception == ClosedError
      ensures o.Returned? ==>
                && fresh(o.value) && fresh(o.value.base)
                && o.value.channel == this && o.value.value == v
                && o.value.base.handle == None && o.value.base.result == None && o.value.base.executor == null
    {
      var c := CheckClosed();
      if c.Thrown? {
        return Thrown(c.exception);
      }
      var w := new WriterAwaiter(this, v);
      return Returned(w);
    }

    /** `read()`: fails when closed; otherwise a fresh reader awaiter for this channel. */
    method Read() returns (o: Outcome<ReaderAwaiter<V>>)
      ensures o.Thrown? <==> !active
      ensures o.Thrown? ==> o.exception == ClosedError
      ensures o.Returned? ==>
                && fresh(o.value) && fresh(o.value.base)
                && o.value.channel == this && o.value.target == null
                && o.value.base.handle == None && o.value.base.result == None && o.value.base.executor == null
    {
      var c := CheckClosed();
      if c.Thrown? {
        return Thrown(c.exception);
      }
      var r := new ReaderAwaiter(this);
      return Returned(r);
    }

    /** `close()`: the compare-and-set on `_is_active` is a plain check-and-set here. The
        destructor `~Channel` is this same call. */
    method Close()
      requires Valid()
      modifies this
      ensures Valid()
      ensures State() == AfterClose(old(State()))
    {
      if active {
        active := false;
        CleanUp();
      }
    }

    method CleanUp()
      modifies this
      ensures State() == AfterCleanUp(old(State()))
    {
      var i := 0;
      while i < |writers|
        invariant 0 <= i <= |writers|
        invariant writers == old(writers) && readers == old(readers)
        invariant buffer == old(buffer) && active == old(active)
        invariant wakes == old(wakes) + WriterWakes(writers[..i])
      {
        assert WriterWakes(writers[..i + 1]) == WriterWakes(writers[..i]) + [ResumeWriter(writers[i])];
        wakes := wakes + [ResumeWriter(writers[i])];
        i := i + 1;
      }
      assert writers[..i] == writers;
      writers := [];
      var j := 0;
      while j < |readers|
        invariant 0 <= j <= |readers|
        invariant readers == old(readers) && writers == []
        invariant buffer == old(buffer) && active == old(active)
        invariant wakes == old(wakes) + WriterWakes(old(writers)) + ReaderWakes(readers[..j])
      {
        assert ReaderWakes(readers[..j + 1]) == ReaderWakes(readers[..j]) + [ResumeReaderUnsafe(readers[j])];
        wakes := wakes + [ResumeReaderUnsafe(readers[j])];
        j := j + 1;
      }
      assert readers[..j] == readers;
      readers := [];
      while buffer != []
        invariant readers == [] && writers == [] && active == old(active)
        invariant wakes == old(wakes) + WriterWakes(old(writers)) + ReaderWakes(old(readers))
        decreases |buffer|
      {
        buffer := buffer[1..];
      }
    }
  }

  // ---------------------------------------------------------------------------------------
  // The awaiters a `co_await channel.write(v)` / `co_await channel.read()` suspends on

  /** `WriterAwaiter`: an `Awaiter<void>` (`base`) plus the channel and the value to send. */
  class WriterAwaiter<V> {
    /** `channel`; `null` once the awaiter is done with it (or was moved from). */
    var channel: Channel?<V>
    const value: V
    const base: Awaiter<()>

    constructor (channel: Channel<V>, value: V)
      ensures this.channel == channel && this.value == value
      ensures fresh(base) && base.handle == None && base.result == None && base.executor == null
    {
      this.channel := channel;
      this.value := value;
      base := new Awaiter<()>();
    }

    /** The move constructor: the new awaiter takes over the channel pointer and the source's
        pointer is nulled, so only the new one can deregister. */
    constructor Move(other: WriterAwaiter<V>)
      modifies other
      ensures channel == old(other.channel) && value == other.value && other.channel == null
      ensures fresh(base)
      ensures base.handle == other.base.handle && base.result == other.base.result && base.executor == other.base.executor
    {
      channel := other.channel;
      value := other.value;
      base := new Awaiter<()>.Copy(other.base);
      new;
      other.channel := null;
    }

    /** A writer always suspends. */
    method AwaitReady() returns (ready: bool)
      ensures !ready
    {
      ready := false;
    }

    /** `after_suspend`: register with the channel through `try_push_writer`. */
    method AfterSuspend() returns (o: Outcome<()>)
      requires channel != null && channel.Valid()
      modifies channel
      ensures channel.Valid()
      ensures o == CheckOutcome(old(channel.active))
      ensures channel.State() == if o.Returned? then AfterPushWriter(old(channel.State()), this) else old(channel.State())
    {
      o := channel.TryPushWriter(this);
    }

    /** `await_suspend(handle)`: the handle is recorded before `after_suspend` runs. */
    method AwaitSuspend(h: Handle) returns (o: Outcome<()>)
      requires channel != null && channel.Valid()
      modifies base, channel
      ensures base.handle == Some(h) && base.result == old(base.result) && base.executor == old(base.executor)
      ensures base.pending == old(base.pending) && base.resumed == old(base.resumed)
      ensures channel.Valid()
      ensures o == CheckOutcome(old(channel.active))
      ensures channel.State() == if o.Returned? then AfterPushWriter(old(channel.State()), this) else old(channel.State())
    {
      base.AwaitSuspend(h);
      o := AfterSuspend();
    }

    /** `before_resume`: `check_closed` comes first, so a writer resumed by `clean_up` fails
        with `ClosedError`; otherwise the channel pointer is dropped. */
    method BeforeResume() returns (o: Outcome<()>)
      requires channel != null
      modifies this
      ensures o == CheckOutcome(old(channel).active)
      ensures channel == if o.Returned? then null else old(channel)
    {
      o := channel.CheckClosed();
      if o.Thrown? {
        return;
      }
      channel := null;
    }

    /** `await_resume` of `Awaiter<void>`: `before_resume`, then `_result->get_or_throw()`. */
    method AwaitResume() returns (o: Outcome<()>)
      requires channel != null
      requires channel.active ==> base.result.Some?
      modifies this, base
      ensures base.handle == old(base.handle) && base.executor == old(base.executor)
      ensures base.pending == old(base.pending) && base.resumed == old(base.resumed)
      ensures !old(channel.active) ==>
                o == Thrown(ClosedError) && channel == old(channel) && base.result == old(base.result)
      ensures old(channel.active) ==>
                && channel == null
                && o == GetOrThrow(old(base.result).value).0
                && base.result == Some(GetOrThrow(old(base.result).value).1)
    {
      o := BeforeResume();
      if o.Thrown? {
        return;
      }
      o := base.TakeResult();
    }

    /** The destructor: an awaiter that still holds its channel (it was never resumed normally)
        removes itself from the writer list. */
    method Destroy()
      requires channel != null ==> channel.Valid()
      modifies channel
      ensures channel != null ==> channel.Valid() && channel.State() == AfterRemoveWriter(old(channel.State()), this)
    {
      if channel != null {
        channel.RemoveWriter(this);
      }
    }
  }

  /** Where a reader may have the delivered value written (`p_value` points to one). */
  class Slot<V> {
    var contents: V

    constructor (v: V)
      ensures contents == v
    {
      contents := v;
    }
  }

  /** `ReaderAwaiter`: an `Awaiter<ValueType>` (`base`) plus the channel and `p_value`. */
  class ReaderAwaiter<V> {
    var channel: Channel?<V>
    /** `p_value`; `null` unless a caller sets it. */
    var target: Slot?<V>
    const base: Awaiter<V>

    constructor (channel: Channel<V>)
      ensures this.channel == channel && target == null
      ensures fresh(base) && base.handle == None && base.result == None && base.executor == null
    {
      this.channel := channel;
      target := null;
      base := new Awaiter<V>();
    }

    /** The move constructor: `channel` and `p_value` move over and are nulled in the source. */
    constructor Move(other: ReaderAwaiter<V>)
      modifies other
      ensures channel == old(other.channel) && target == old(other.target)
      ensures other.channel == null && other.target == null
      ensures fresh(base)
      ensures base.handle == other.base.handle && base.result == other.base.result && base.executor == other.base.executor
    {
      channel := other.channel;
      target := other.target;
      base := new Awaiter<V>.Copy(other.base);
      new;
      other.channel := null;
      other.target := null;
    }

    /** `after_suspend`: register with the channel through `try_push_reader`. */
    method AfterSuspend() returns (o: Outcome<()>)
      requires channel != null && channel.Valid()
      modifies channel
      ensures channel.Valid()
      ensures o == CheckOutcome(old(channel.active))
      ensures channel.State() == if o.Returned? then AfterPushReader(old(channel.State()), this) else old(channel.State())
    {
      o := channel.TryPushReader(this);
    }

    /** `await_suspend(handle)`: the handle is recorded before `after_suspend` runs. */
    method AwaitSuspend(h: Handle) returns (o: Outcome<()>)
      requires channel != null && channel.Valid()
      modifies base, channel
      ensures base.handle == Some(h) && base.result == old(base.result) && base.executor == old(base.executor)
      ensures base.pending == old(base.pending) && base.resumed == old(base.resumed)
      ensures channel.Valid()
      ensures o == CheckOutcome(old(channel.active))
      ensures channel.State() == if o.Returned? then AfterPushReader(old(channel.State()), this) else old(channel.State())
    {
      base.AwaitSuspend(h);
      o := AfterSuspend();
    }

    /** `before_resume`: `check_closed` first; then, only when `p_value` is set, the delivered
        value is written through it (reading `_result`, which can rethrow); then the channel
        pointer is dropped. */
    method BeforeResume() returns (o: Outcome<()>)
      requires channel != null
      requires channel.active && target != null ==> base.result.Some?
      modifies this, base, target
      ensures target == old(target)
      ensures base.handle == old(base.handle) && base.executor == old(base.executor)
      ensures base.pending == old(base.pending) && base.resumed == old(base.resumed)
      ensures !old(channel.active) ==>
                && o == Thrown(ClosedError) && channel == old(channel) && base.result == old(base.result)
                && (target != null ==> target.contents == old(target.contents))
      ensures old(channel.active) && target == null ==>
                o == Returned(()) && channel == null && base.result == old(base.result)
      ensures old(channel.active) && target != null ==>
                var p := GetOrThrow(old(base.result).value);
                && base.result == Some(p.1)
                && (p.0.Returned? ==> o == Returned(()) && target.contents == p.0.value && channel == null)
                && (p.0.Thrown? ==> o == Thrown(p.0.exception) && target.contents == old(target.contents) && channel == old(channel))
    {
      o := channel.CheckClosed();
      if o.Thrown? {
        return;
      }
      if target != null {
        var got := base.TakeResult();
        if got.Thrown? {
          o := Thrown(got.exception);
          return;
        }
        target.contents := got.value;
      }
      channel := null;
    }

    /** `await_resume`: `before_resume`, then `_result->get_or_throw()`. A reader resumed by
        `clean_up` fails with `ClosedError`; one resumed with a value returns it. */
    method AwaitResume() returns (o: Outcome<V>)
      requires channel != null
      requires channel.active ==> base.result.Some?
      modifies this, base, target
      ensures target == old(target)
      ensures base.handle == old(base.handle) && base.executor == old(base.executor)
      ensures base.pending == old(base.pending) && base.resumed == old(base.resumed)
      ensures !old(channel.active) ==>
                && o == Thrown(ClosedError) && channel == old(channel) && base.result == old(base.result)
                && (target != null ==> target.contents == old(target.contents))
      ensures old(channel.active) ==>
                var p := GetOrThrow(old(base.result).value);
                && o == p.0 && base.result == Some(p.1)
                && channel == (if p.0.Returned? || target == null then null else old(channel))
                && (target != null ==> target.contents == if p.0.Returned? then p.0.value else old(target.contents))
    {
      var b := BeforeResume();
      if b.Thrown? {
        o := Thrown(b.exception);
        return;
      }
      o := base.TakeResult();
    }

    /** The destructor: an awaiter still holding its channel removes itself from the reader
        list (cancellation). */
    method Destroy()
      requires channel != null ==> channel.Valid()
      modifies channel
      ensures channel != null ==> channel.Valid() && channel.State() == AfterRemoveReader(old(channel.State()), this)
    {
      if channel != null {
        channel.RemoveReader(this);
      }
    }
  }

  // ---------------------------------------------------------------------------------------
  // Whole exchanges on fresh channels, through the awaiters a coroutine suspends on. Where
  // the channel records a resume call, the exchange then performs it on the awaiter.

  /** Capacity 0, a reader waiting: a writer hands its value straight over. Once the two resume
      calls are performed, the reader's `co_await` returns the value and the writer's returns. */
  method RendezvousDeliversValue<V>(v: V, hr: Handle, hw: Handle)
    returns (got: Outcome<V>, sent: Outcome<()>, log: seq<Wake<V>>)
    ensures got == Returned(v) && sent == Returned(())
    ensures |log| == 2 && log[0].ResumeReader? && log[0].value == v && log[1].ResumeWriter?
  {
    var ch := new Channel<V>(0);
    var ro := ch.Read();
    var r := ro.value;
    var queued := r.AwaitSuspend(hr);
    var wo := ch.Write(v);
    var w := wo.value;
    var handed := w.AwaitSuspend(hw);
    log := ch.wakes;
    r.base.Resume(v);
    ResumeVoid(w.base, false);
    got := r.AwaitResume();
    sent := w.AwaitResume();
  }

  /** Capacity 1: the first writer's value is buffered and it returns at once; the second
      writer waits. Closing drops the buffered value and resumes the waiting writer, whose
      `co_await` then fails with the closed-channel error. */
  method CloseFailsWaitingWriter<V>(v1: V, v2: V, h1: Handle, h2: Handle)
    returns (first: Outcome<()>, second: Outcome<()>, bufferedBeforeClose: seq<V>, log: seq<Wake<V>>)
    ensures first == Returned(()) && second == Thrown(ClosedError)
    ensures bufferedBeforeClose == [v1]
    ensures |log| == 2 && log[0].ResumeWriter? && log[1].ResumeWriter?
  {
    var ch := new Channel<V>(1);
    var wo1 := ch.Write(v1);
    var w1 := wo1.value;
    var o1 := w1.AwaitSuspend(h1);
    ResumeVoid(w1.base, false);
    first := w1.AwaitResume();
    var wo2 := ch.Write(v2);
    var w2 := wo2.value;
    var o2 := w2.AwaitSuspend(h2);
    bufferedBeforeClose := ch.buffer;
    ch.Close();
    log := ch.wakes;
    ResumeVoid(w2.base, false);
    second := w2.AwaitResume();
  }

  /** A reader waiting on an empty channel is resumed by `close` without a value, and its
      `co_await` fails with the closed-channel error. */
  method CloseFailsWaitingReader<V>(h: Handle) returns (got: Outcome<V>, log: seq<Wake<V>>)
    ensures got == Thrown(ClosedError)
    ensures |log| == 1 && log[0].ResumeReaderUnsafe?
  {
    var ch := new Channel<V>(0);
    var ro := ch.Read();
    var r := ro.value;
    var queued := r.AwaitSuspend(h);
    ch.Close();
    log := ch.wakes;
    r.base.ResumeUnsafe();
    got := r.AwaitResume();
  }

  /** A waiting reader that is destroyed (its coroutine cancelled) leaves the reader list, so a
      later writer on a capacity-0 channel finds nobody to hand to and waits itself. */
  method DestroyedReaderLeavesQueue<V>(v: V, hr: Handle, hw: Handle)
    returns (readersBefore: nat, readersAfter: nat, writersAfter: nat, log: seq<Wake<V>>)
    ensures readersBefore == 1 && readersAfter == 0 && writersAfter == 1 && log == []
  {
    var ch := new Channel<V>(0);
    var ro := ch.Read();
    var r := ro.value;
    var queued := r.AwaitSuspend(hr);
    readersBefore := |ch.readers|;
    r.Destroy();
    readersAfter := |ch.readers|;
    var wo := ch.Write(v);
    var w := wo.value;
    var waited := w.AwaitSuspend(hw);
    writersAfter := |ch.writers|;
    log := ch.wakes;
  }
}
