/** Log lines on their way to the database: a bounded buffer that drops its oldest entry, and a
    writer that takes a batch, and may have to put it back. */
module LogHandoff {

  /** A captured line, told apart by the order of capture. */
  type Line = nat

  /** `hand` is the batch being written. `captured`, `persisted` and `uncounted` are history:
      how many lines were captured, which of them reached the database, and how many went
      missing without the drop counter noticing. */
  datatype Log = Log(capacity: nat, entries: seq<Line>, dropped: nat, hand: seq<Line>,
                     captured: nat, persisted: seq<Line>, uncounted: nat)

  datatype Event =
    | Capture
    | Drain(limit: nat)
    | Written
    | PutBack
    | LoseBatch
    | Resize(capacity: nat)

  function Newest(s: seq<Line>, n: nat): seq<Line> { if |s| <= n then s else s[|s| - n..] }

  function Oldest(s: seq<Line>, n: nat): seq<Line> { if |s| <= n then s else s[..n] }

  /** Appending to a full buffer pushes out the oldest entry, and counts it. */
  function Captured(l: Log): Log {
    l.(entries := Newest(l.entries + [l.captured], l.capacity),
       dropped := if |l.entries| == l.capacity then l.dropped + 1 else l.dropped,
       captured := l.captured + 1)
  }

  /** A failed batch goes back to the front; what does not fit falls off at the other end. */
  function Restored(l: Log): Log {
    var all := l.hand + l.entries;
    l.(entries := Oldest(all, l.capacity), hand := [], uncounted := l.uncounted + |all| - |Oldest(all, l.capacity)|)
  }

  function Step(l: Log, e: Event): Log {
    match e
    case Capture => Captured(l)
    case Drain(limit) =>
      if l.hand != [] then l
      else l.(hand := Oldest(l.entries, limit), entries := l.entries[|Oldest(l.entries, limit)|..])
    case Written => l.(persisted := l.persisted + l.hand, hand := [])
    case PutBack => Restored(l)
    case LoseBatch => l.(hand := [], uncounted := l.uncounted + |l.hand|)
    case Resize(capacity) =>
      l.(capacity := capacity, entries := Newest(l.entries, capacity),
         uncounted := l.uncounted + |l.entries| - |Newest(l.entries, capacity)|)
  }

  function Start(capacity: nat): Log { Log(capacity, [], 0, [], 0, [], 0) }

  function Play(l: Log, events: seq<Event>): Log {
    if events == [] then l else Step(Play(l, events[..|events| - 1]), events[|events| - 1])
  }

  // ---- the buffer and the writer as they run -------------------------------------------

  class LogSink {
    var capacity: nat
    var entries: seq<Line>
    var dropped: nat

    method Append(x: Line)
      modifies this`entries, this`dropped
      ensures entries == Newest(old(entries) + [x], capacity)
      ensures dropped == if |old(entries)| == capacity then old(dropped) + 1 else old(dropped)
      requires |entries| <= capacity
    {
      if |entries| == capacity { dropped := dropped + 1; }
      entries := entries + [x];
      if |entries| > capacity { entries := entries[1..]; }
    }

    method Drain(limit: nat) returns (taken: seq<Line>)
      modifies this`entries
      ensures taken == Oldest(old(entries), limit) && taken + entries == old(entries)
    {
      taken := [];
      while entries != [] && |taken| < limit
        invariant taken + entries == old(entries) && |taken| <= limit
        decreases |entries|
      {
        taken, entries := taken + [entries[0]], entries[1..];
      }
    }

    /** Prepend the batch from its last line to its first, as a bounded double-ended queue does:
        each line that finds no room pushes one out at the far end. */
    method Restore(batch: seq<Line>)
      requires |entries| <= capacity
      modifies this`entries
      ensures entries == Oldest(batch + old(entries), capacity)
    {
      var i := |batch|;
      while i > 0
        invariant 0 <= i <= |batch| && entries == Oldest(batch[i..] + old(entries), capacity)
      {
        i := i - 1;
        assert batch[i..] + old(entries) == [batch[i]] + (batch[i + 1..] + old(entries));
        entries := Oldest([batch[i]] + entries, capacity);
      }
    }
  }

  datatype Insert = Stored | LinkBroken | Failed | Stopped

  class LogWriter {
    const sink: LogSink
    var persisted: seq<Line>
    var written: nat

    constructor (sink: LogSink)
      ensures this.sink == sink && persisted == [] && written == 0
    {
      this.sink, persisted, written := sink, [], 0;
    }

    /** One batch. `first` and `second` are what became of the insert and of the insert without
        links; `meanwhile` are the lines others captured while it was under way. */
    method FlushOnce(limit: nat, first: Insert, second: Insert, meanwhile: seq<Line>) returns (raised: bool)
      requires |sink.entries| <= sink.capacity
      modifies this, sink
      ensures sink.capacity == old(sink.capacity)
      ensures var batch := Oldest(old(sink.entries), limit);
        && raised == (batch != [] && first != Stored && !(first == LinkBroken && second == Stored))
        && (batch == [] ==> persisted == old(persisted) && sink.entries == old(sink.entries))
        && (batch != [] && !raised ==> persisted == old(persisted) + batch)
        && (batch != [] && raised ==> persisted == old(persisted))
        && (batch != [] && first == Failed ==>
              sink.entries
                == Oldest(batch + Kept(old(sink.entries)[|batch|..], meanwhile, sink.capacity), sink.capacity))
        && (batch != [] && first != Failed ==>
            sink.entries == Kept(old(sink.entries)[|batch|..], meanwhile, sink.capacity))
      ensures written == old(written) + |persisted| - |old(persisted)|
    {
      var batch := sink.Drain(limit);
      if batch == [] { return false; }
      for i := 0 to |meanwhile|
        invariant |sink.entries| <= sink.capacity && sink.capacity == old(sink.capacity)
        invariant persisted == old(persisted) && written == old(written)
        invariant sink.entries == Kept(old(sink.entries)[|batch|..], meanwhile[..i], sink.capacity)
      {
        assert meanwhile[..i + 1][..i] == meanwhile[..i];
        sink.Append(meanwhile[i]);
      }
      assert meanwhile[..|meanwhile|] == meanwhile;
      match first {
        case Stored =>
        case LinkBroken => if second != Stored { return true; }
        case Failed => sink.Restore(batch); return true;
        case Stopped => return true;
      }
      persisted := persisted + batch;
      written := written + |batch|;
      return false;
    }
  }

  /** The buffer after appending lines to it one by one. */
  function Kept(entries: seq<Line>, more: seq<Line>, capacity: nat): (s: seq<Line>)
    ensures |entries| <= capacity ==> |s| <= capacity
  {
    if more == [] then entries
    else Newest(Kept(entries, more[..|more| - 1], capacity) + [more[|more| - 1]], capacity)
  }

  // ---- what every interleaving keeps ---------------------------------------------------

  ghost predicate Increasing(s: seq<Line>) { forall i, j :: 0 <= i < j < |s| ==> s[i] < s[j] }

  function Trail(l: Log): seq<Line> { l.persisted + l.hand + l.entries }

  ghost predicate InOrder(l: Log) {
    Increasing(Trail(l)) && forall x :: x in Trail(l) ==> x < l.captured
  }

  ghost predicate Conserved(l: Log) {
    |l.entries| <= l.capacity
    && l.captured == |l.persisted| + |l.hand| + |l.entries| + l.dropped + l.uncounted
  }

  /** Taking lines out never disturbs the order of the others. */
  lemma PartInOrder(s: seq<Line>, i: nat, j: nat, bound: nat)
    requires i <= j <= |s| && Increasing(s) && forall x :: x in s ==> x < bound
    ensures Increasing(s[..i] + s[j..]) && forall x :: x in s[..i] + s[j..] ==> x < bound
  {
    forall x | x in s[..i] + s[j..] ensures x in s {}
  }

  lemma AppendInOrder(s: seq<Line>, bound: nat)
    requires Increasing(s) && forall x :: x in s ==> x < bound
    ensures Increasing(s + [bound]) && forall x :: x in s + [bound] ==> x < bound + 1
  {
    forall i | 0 <= i < |s| ensures s[i] < bound { assert s[i] in s; }
  }

  lemma CutNewest(a: seq<Line>, c: seq<Line>, n: nat)
    ensures a + Newest(c, n) == (a + c)[..|a|] + (a + c)[|a| + |c| - |Newest(c, n)|..]
  {
  }

  lemma CutOldest(a: seq<Line>, c: seq<Line>, n: nat)
    ensures a + Oldest(c, n) == (a + c)[..|a| + |Oldest(c, n)|] + (a + c)[|a| + |c|..]
  {
  }

  lemma CaptureCuts(l: Log) returns (i: nat, j: nat)
    ensures i <= j <= |Trail(l)| + 1
      && Trail(Captured(l)) == (Trail(l) + [l.captured])[..i] + (Trail(l) + [l.captured])[j..]
  {
    var kept, longer := l.persisted + l.hand, l.entries + [l.captured];
    assert Trail(l) + [l.captured] == kept + longer;
    CutNewest(kept, longer, l.capacity);
    i, j := |kept|, |kept| + |longer| - |Newest(longer, l.capacity)|;
  }

  lemma PutBackCuts(l: Log) returns (i: nat)
    ensures i <= |Trail(l)| && Trail(Restored(l)) == Trail(l)[..i]
  {
    var all := l.hand + l.entries;
    assert Trail(l) == l.persisted + all;
    CutOldest(l.persisted, all, l.capacity);
    i := |l.persisted| + |Oldest(all, l.capacity)|;
  }

  lemma LosingCuts(l: Log) returns (i: nat, j: nat)
    ensures i <= j <= |Trail(l)| && Trail(Step(l, LoseBatch)) == Trail(l)[..i] + Trail(l)[j..]
  {
    CutMiddle(l.persisted, l.hand, l.entries);
    assert Trail(Step(l, LoseBatch)) == l.persisted + l.entries;
    i, j := |l.persisted|, |l.persisted| + |l.hand|;
  }

  lemma CutMiddle(a: seq<Line>, b: seq<Line>, c: seq<Line>)
    ensures (a + b + c)[..|a|] == a && (a + b + c)[|a| + |b|..] == c
  {
  }

  lemma ResizeCuts(l: Log, capacity: nat) returns (i: nat, j: nat)
    ensures i <= j <= |Trail(l)| && Trail(Step(l, Resize(capacity))) == Trail(l)[..i] + Trail(l)[j..]
  {
    CutNewest(l.persisted + l.hand, l.entries, capacity);
    i, j := |l.persisted| + |l.hand|, |Trail(l)| - |Newest(l.entries, capacity)|;
  }

  lemma DrainKeepsTrail(l: Log, limit: nat)
    ensures Trail(Step(l, Drain(limit))) == Trail(l)
  {
    var batch := Oldest(l.entries, limit);
    assert batch + l.entries[|batch|..] == l.entries;
  }

  /** A step keeps the trail, or takes one stretch out of it, after adding a captured line. */
  lemma StepKeepsOrder(l: Log, e: Event)
    requires InOrder(l)
    ensures InOrder(Step(l, e))
  {
    match e
    case Capture =>
      var i, j := CaptureCuts(l);
      AppendInOrder(Trail(l), l.captured);
      PartInOrder(Trail(l) + [l.captured], i, j, l.captured + 1);
    case Drain(limit) => DrainKeepsTrail(l, limit);
    case Written => assert Trail(Step(l, e)) == Trail(l);
    case PutBack =>
      var i := PutBackCuts(l);
      assert Trail(l)[..i] == Trail(l)[..i] + Trail(l)[|Trail(l)|..];
      PartInOrder(Trail(l), i, |Trail(l)|, l.captured);
    case LoseBatch =>
      var i, j := LosingCuts(l);
      PartInOrder(Trail(l), i, j, l.captured);
    case Resize(capacity) =>
      var i, j := ResizeCuts(l, capacity);
      PartInOrder(Trail(l), i, j, l.captured);
  }

  lemma StepConserves(l: Log, e: Event)
    requires Conserved(l)
    ensures Conserved(Step(l, e))
  {
  }

  /** Whatever is captured, drained, written, put back or lost, the persisted lines, then the batch
      in hand, then the buffer are the captured lines in their order, none of them twice; and every
      captured line is there, counted as dropped, or uncounted. */
  lemma {:induction false} LinesAreAccountedFor(capacity: nat, events: seq<Event>)
    ensures var l := Play(Start(capacity), events); InOrder(l) && Conserved(l)
  {
    if events != [] {
      var before := events[..|events| - 1];
      LinesAreAccountedFor(capacity, before);
      StepKeepsOrder(Play(Start(capacity), before), events[|events| - 1]);
      StepConserves(Play(Start(capacity), before), events[|events| - 1]);
    }
  }

  /** Nothing goes missing without being counted in this step. */
  ghost predicate Harmless(l: Log, e: Event) {
    match e
    case PutBack => |l.hand| + |l.entries| <= l.capacity
    case LoseBatch => l.hand == []
    case Resize(capacity) => |l.entries| <= capacity
    case _ => true
  }

  ghost predicate AllHarmless(l: Log, events: seq<Event>) {
    forall k :: 0 <= k < |events| ==> Harmless(Play(l, events[..k]), events[k])
  }

  lemma StepIsCounted(l: Log, e: Event)
    ensures Step(l, e).uncounted >= l.uncounted
    ensures Step(l, e).uncounted == l.uncounted <==> Harmless(l, e)
  {
  }

  /** The counter tells the whole truth exactly as long as every batch that comes back finds room,
      no batch is abandoned and the buffer is not made smaller than what it holds. */
  lemma {:induction false} UncountedIff(capacity: nat, events: seq<Event>)
    ensures var l := Play(Start(capacity), events);
      l.captured == |l.persisted| + |l.hand| + |l.entries| + l.dropped <==> AllHarmless(Start(capacity), events)
  {
    LinesAreAccountedFor(capacity, events);
    UncountedFrom(Start(capacity), events);
  }

  lemma {:induction false} UncountedFrom(l: Log, events: seq<Event>)
    ensures Play(l, events).uncounted >= l.uncounted
    ensures Play(l, events).uncounted == l.uncounted <==> AllHarmless(l, events)
  {
    if events != [] {
      var n := |events| - 1;
      UncountedFrom(l, events[..n]);
      StepIsCounted(Play(l, events[..n]), events[n]);
      SplitHarmless(l, events);
    }
  }

  lemma {:induction false} SplitHarmless(l: Log, events: seq<Event>)
    requires events != []
    ensures var n := |events| - 1;
      AllHarmless(l, events) <==> AllHarmless(l, events[..n]) && Harmless(Play(l, events[..n]), events[n])
  {
    var n := |events| - 1;
    forall k | 0 <= k < n ensures events[..n][..k] == events[..k] {}
  }

  // ---- a loss the counter misses -------------------------------------------------------

  function Captures(n: nat): seq<Event> { if n == 0 then [] else Captures(n - 1) + [Capture] }

  lemma {:induction false} Next(l: Log, events: seq<Event>, e: Event)
    ensures Play(l, events + [e]) == Step(Play(l, events), e)
  {
    assert (events + [e])[..|events|] == events;
  }

  lemma {:induction false} PlayInTurn(l: Log, before: seq<Event>, after: seq<Event>)
    ensures Play(l, before + after) == Play(Play(l, before), after)
    decreases |after|
  {
    if after == [] {
      assert before + after == before;
    } else {
      var front, last := after[..|after| - 1], after[|after| - 1];
      PlayInTurn(l, before, front);
      Next(l, before + front, last);
      assert before + after == before + front + [last];
    }
  }

  lemma {:induction false} CapturesFit(l: Log, n: nat)
    requires |l.entries| + n <= l.capacity
    ensures var after := Play(l, Captures(n));
      && |after.entries| == |l.entries| + n && after.captured == l.captured + n && after.hand == l.hand
      && after.persisted == l.persisted && after.dropped == l.dropped && after.capacity == l.capacity
  {
    if n > 0 {
      CapturesFit(l, n - 1);
      assert Captures(n)[..|Captures(n)| - 1] == Captures(n - 1);
    }
  }

  /** However large the buffer, a whole bufferful can go missing while the counter stands at zero: a
      batch that fails comes back to a buffer that has filled up meanwhile. */
  lemma {:induction false} LossGoesUncounted(capacity: nat) returns (events: seq<Event>)
    ensures var l := Play(Start(capacity), events);
      l.dropped == 0 && l.captured == 2 * capacity && |l.persisted| + |l.hand| + |l.entries| == capacity
  {
    var first, second := Captures(capacity) + [Drain(capacity)], Captures(capacity) + [PutBack];
    CapturesFit(Start(capacity), capacity);
    Next(Start(capacity), Captures(capacity), Drain(capacity));
    var half := Play(Start(capacity), first);
    CapturesFit(half, capacity);
    Next(half, Captures(capacity), PutBack);
    PlayInTurn(Start(capacity), first, second);
    events := first + second;
  }
}
