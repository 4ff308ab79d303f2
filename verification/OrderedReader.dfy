/** The prefetch consumer as it works, in place, proved against its description. */
module OrderedReader {
  import opened Base
  import opened OrderedPrefetch

  lemma {:induction false} ScanSplits(done: seq<Slot>, rest: seq<Slot>, ready: nat -> bool, src: Source)
    requires forall k :: 0 <= k < |done| ==> !Terminal(Polled(done[k], ready, src))
    ensures Scan(done + rest, ready, src) == PolledAll(done, ready, src) + Scan(rest, ready, src)
  {
    if done == [] {
      assert done + rest == rest;
      assert [] + Scan(rest, ready, src) == Scan(rest, ready, src);
    } else {
      assert (done + rest)[1..] == done[1..] + rest;
      ScanSplits(done[1..], rest, ready, src);
      assert PolledAll(done, ready, src) == [Polled(done[0], ready, src)] + PolledAll(done[1..], ready, src);
    }
  }

  function PolledAll(slots: seq<Slot>, ready: nat -> bool, src: Source): (r: seq<Slot>)
    ensures |r| == |slots|
  {
    seq(|slots|, i requires 0 <= i < |slots| => Polled(slots[i], ready, src))
  }

  /** The scan stops at the first terminal slot and forgets what lies behind it. */
  lemma ScanStops(slots: seq<Slot>, i: nat, ready: nat -> bool, src: Source)
    requires i < |slots| && Terminal(Polled(slots[i], ready, src))
    requires forall k :: 0 <= k < i ==> !Terminal(Polled(slots[k], ready, src))
    ensures Scan(slots, ready, src) == PolledAll(slots[..i + 1], ready, src)
  {
    assert slots == slots[..i] + slots[i..];
    ScanSplits(slots[..i], slots[i..], ready, src);
    assert Scan(slots[i..], ready, src) == [Polled(slots[i], ready, src)];
  }

  lemma ScanCovers(slots: seq<Slot>, ready: nat -> bool, src: Source)
    requires forall k :: 0 <= k < |slots| ==> !Terminal(Polled(slots[k], ready, src))
    ensures Scan(slots, ready, src) == PolledAll(slots, ready, src)
  {
    assert slots + [] == slots;
    ScanSplits(slots, [], ready, src);
  }

  class Consumer {
    const source: Source
    var config: Config
    var end: nat
    var nextOffset: nat
    var reserved: nat
    var slots: seq<Slot>
    var stop: bool
    var finished: bool
    ghost var calls: seq<(nat, nat)>
    ghost var completed: set<nat>

    ghost function View(): Reader
      reads this
    {
      Reader(config, end, nextOffset, reserved, slots, stop, finished, calls, completed)
    }

    ghost predicate Valid()
      reads this
    {
      if finished then Spent(View()) else Good(View(), source)
    }

    /** The initial reader of a configuration that validates; see `Open`. */
    constructor (c: Config, src: Source)
      requires Validate(c).Some?
      ensures New(c) == Some(View()) && source == src && Valid()
    {
      source := src;
      config, end, nextOffset, reserved, slots := c, Validate(c).value, c.offset, 0, [];
      stop, finished, calls, completed := false, false, [], {};
    }

    method FillWindow()
      requires Valid() && !finished
      modifies this
      ensures View() == Fill(old(View())) && Good(View(), source)
      ensures Refilled(old(View()), View())
    {
      FillIsFull(View(), source);
      hide Good, Refilled, Fill, Issue;
      while !stop && nextOffset < end && |slots| < config.window
        invariant Good(View(), source) && Fill(View()) == Fill(old(View()))
        decreases config.window - |slots|
      {
        var len := Min(end - nextOffset, config.chunk);
        ReservedFits(View(), source);
        if len > config.maxBytes - reserved {
          break;
        }
        IssueKeepsGood(View(), source);
        FillGoesOn(View());
        StartRead(len);
      }
      FillEnds(View());
    }

    /** The next chunk's read is started, and its slot put last. */
    method StartRead(len: nat)
      requires CanFill(View()) && len == ChunkLen(View())
      modifies this
      ensures View() == Issue(old(View())) && |slots| == |old(slots)| + 1 && config == old(config)
    {
      calls := calls + [(nextOffset, len)];
      slots := slots + [Slot(nextOffset, len, Waiting)];
      reserved := reserved + len;
      nextOffset := nextOffset + len;
    }

    /** Poll the window in order; stop at the first terminal slot. */
    method PollWindow(ready: nat -> bool) returns (terminal: Option<nat>)
      requires Good(View(), source) && !finished
      modifies `slots
      ensures |slots| == |old(slots)|
      ensures terminal.None? ==> slots == Scan(old(slots), ready, source) && !EndsTerminal(slots)
      ensures terminal.Some? ==> terminal.value < |slots| && EndsTerminal(slots[..terminal.value + 1])
                                 && slots[..terminal.value + 1] == Scan(old(slots), ready, source)
      ensures Lens(slots) == old(Lens(slots))
    {
      hide Good, Scan, Lens;
      ghost var was := slots;
      var i := 0;
      while i < |slots|
        invariant 0 <= i <= |slots| == |was|
        invariant slots[..i] == PolledAll(was[..i], ready, source) && slots[i..] == was[i..]
        invariant forall k :: 0 <= k < i ==> !Terminal(Polled(was[k], ready, source))
        invariant Lens(slots) == Lens(was)
        invariant forall k :: 0 <= k < i ==> !Terminal(slots[k])
      {
        var s := slots[i];
        assert s == was[i..][0] == was[i];
        var next := Polled(s, ready, source);
        LensUpdate(slots, i, next);
        slots := slots[i := next];
        assert slots[..i + 1] == PolledAll(was[..i + 1], ready, source);
        if Terminal(next) {
          ScanStops(was, i, ready, source);
          return Some(i);
        }
        i := i + 1;
      }
      assert was[..i] == was && slots[..i] == slots;
      ScanCovers(was, ready, source);
      terminal := None;
    }

    /** Drop, from the back, every slot behind the terminal one. */
    method DropBehind(index: nat)
      requires index < |slots| && reserved == Lens(slots)
      modifies `slots, `reserved
      ensures slots == old(slots)[..index + 1] && reserved == Lens(slots)
    {
      while |slots| > index + 1
        invariant index < |slots| <= |old(slots)| && slots == old(slots)[..|slots|]
        invariant reserved == Lens(slots)
        decreases |slots|
      {
        var s := slots[|slots| - 1];
        ghost var before := slots;
        slots := slots[..|slots| - 1];
        assert before == slots + [s];
        LensSnoc(slots, s);
        reserved := reserved - s.len;
      }
    }

    /** Poll the window and drop what can no longer contribute. */
    method ScanWindow(ready: nat -> bool)
      requires Good(View(), source) && !finished
      modifies `slots, `reserved, `stop, `completed
      ensures View() == Scanned(old(View()), ready, source)
    {
      hide Good, Scan, Lens, DoneOffsets;
      ReservedFits(View(), source);
      var terminal := PollWindow(ready);
      if terminal.Some? {
        stop := true;
        DropBehind(terminal.value);
      }
      completed := completed + DoneOffsets(slots);
    }

    /** Deliver the front slot, if it is ready. */
    method TakeFront() returns (out: Out)
      requires Good(View(), source) && !finished
      modifies `slots, `reserved, `finished
      ensures (View(), out) == Take(old(View()))
    {
      ReservedFits(View(), source);
      hide Good, Lens;
      if slots == [] {
        finished := true;
        return End;
      }
      if slots[0].state.Waiting? {
        return Pending;
      }
      var s := slots[0];
      FrontFits(slots);
      slots := slots[1..];
      reserved := reserved - s.len;
      match s.state.reply
      case Err(e) =>
        finished := true;
        out := Fail(e);
      case Ok(bytes) =>
        if |bytes| < s.len {
          finished := true;
        }
        out := if bytes == [] then End else Yield(s.offset, bytes);
    }

    /** `poll_next`: with the futures in `ready` able to answer. */
    method PollNext(ready: nat -> bool) returns (out: Out)
      requires Valid()
      modifies this
      ensures (View(), out) == OrderedPrefetch.PollNext(old(View()), ready, source) && Valid()
      ensures Reaches(View(), out)
    {
      if finished {
        return End;
      }
      hide Good, Spent, Fill, Scanned, Take, Full, Extends, Reaches;
      FillKeepsGood(View(), source);
      FillWindow();
      ScannedKeepsGood(View(), ready, source);
      ScannedIsFull(View(), ready, source);
      ScanWindow(ready);
      TakeReaches(View(), source);
      TakeIsValid(View(), source);
      out := TakeFront();
    }
  }

  /** `OrderedReader::new`: a configuration that does not validate is refused. */
  method Open(c: Config, src: Source) returns (r: Consumer?)
    ensures r != null <==>
              && 1 <= c.chunk <= MAX_CHUNK && 1 <= c.window <= MAX_WINDOW
              && c.chunk <= c.maxBytes <= MAX_WINDOW * MAX_CHUNK
              && c.offset + c.length <= I64_MAX
    ensures r != null ==>
              && r.config == c && r.end == c.offset + c.length && r.nextOffset == c.offset && r.slots == [] && r.reserved == 0
              && !r.stop && !r.finished
    ensures r != null ==> fresh(r) && New(c) == Some(r.View()) && r.source == src && r.Valid()
  {
    r := null;
    if Validate(c).Some? {
      r := new Consumer(c, src);
    }
  }

  lemma FillGoesOn(r: Reader)
    requires CanFill(r)
    ensures Fill(r) == Fill(Issue(r))
  {
  }

  lemma FillEnds(r: Reader)
    requires !CanFill(r)
    ensures Fill(r) == r
  {
  }

  lemma ReservedFits(r: Reader, src: Source)
    requires Good(r, src)
    ensures r.reserved <= r.config.maxBytes && r.reserved == Lens(r.slots)
  {
  }

  lemma FrontFits(slots: seq<Slot>)
    requires slots != []
    ensures slots[0].len <= Lens(slots) && Lens(slots[1..]) == Lens(slots) - slots[0].len
  {
  }

  lemma {:induction false} LensUpdate(slots: seq<Slot>, i: nat, s: Slot)
    requires i < |slots| && s.len == slots[i].len
    ensures Lens(slots[i := s]) == Lens(slots)
  {
    if i > 0 {
      assert slots[i := s][1..] == slots[1..][i - 1 := s];
      LensUpdate(slots[1..], i - 1, s);
    } else {
      assert slots[i := s][1..] == slots[1..];
    }
  }

  /** After delivery the reader is good again, or spent. */
  lemma TakeIsValid(t: Reader, src: Source)
    requires Good(t, src) && !t.finished
    ensures var u := Take(t).0;
            if u.finished then Spent(u) else Good(u, src)
  {
    if t.slots != [] && t.slots[0].state.Done? {
      if Terminal(t.slots[0]) {
        TerminalFrontIsAlone(t, src);
      } else {
        PopKeepsGood(t, src);
      }
    }
  }
}
