/**
 * The ordered prefetch consumer (`examples/ordered_prefetch/reader.rs`): a window
 * of reads that complete in any order must look like one sequential reader.
 */
module OrderedPrefetch {
  import opened Base

  const MAX_WINDOW: nat := 64
  const MAX_CHUNK: nat := 8 * 1024 * 1024
  const INVALID_DATA: int := -1

  datatype Config = Config(offset: nat, length: nat, chunk: nat, window: nat, maxBytes: nat)

  /** `Config::validate`: the end of the range, when everything is in bounds. */
  function Validate(c: Config): Option<nat> {
    if c.chunk == 0 || c.chunk > MAX_CHUNK || c.window == 0 || c.window > MAX_WINDOW then None
    else if c.maxBytes < c.chunk || c.maxBytes > MAX_WINDOW * MAX_CHUNK then None
    else if c.offset + c.length <= I64_MAX then Some(c.offset + c.length)
    else None
  }

  /** What a source read resolves to. */
  datatype Reply = Ok(bytes: seq<byte>) | Err(error: int)

  /** The reply each source read will eventually give. */
  type Source = (nat, nat) -> Reply

  datatype SlotState = Waiting | Done(reply: Reply)

  datatype Slot = Slot(offset: nat, len: nat, state: SlotState)

  datatype Reader = Reader(
    config: Config,
    end: nat,
    nextOffset: nat,
    reserved: nat,
    slots: seq<Slot>,
    stop: bool,
    finished: bool,
    // history: source reads started, and futures that have returned a result
    calls: seq<(nat, nat)>,
    completed: set<nat>)

  datatype Out = Pending | Yield(offset: nat, bytes: seq<byte>) | Fail(error: int) | End

  function New(c: Config): Option<Reader> {
    match Validate(c)
    case None => None
    case Some(end) => Some(Reader(c, end, c.offset, 0, [], false, false, [], {}))
  }

  // ---- the reader ----

  function ChunkLen(r: Reader): nat
    requires r.nextOffset < r.end
  {
    Min(r.end - r.nextOffset, r.config.chunk)
  }

  predicate CanFill(r: Reader) {
    !r.stop && r.nextOffset < r.end && |r.slots| < r.config.window && ChunkLen(r) <= r.config.maxBytes - r.reserved
  }

  function Issue(r: Reader): Reader
    requires CanFill(r)
  {
    r.(slots := r.slots + [Slot(r.nextOffset, ChunkLen(r), Waiting)],
       reserved := r.reserved + ChunkLen(r),
       nextOffset := r.nextOffset + ChunkLen(r),
       calls := r.calls + [(r.nextOffset, ChunkLen(r))])
  }

  function Fill(r: Reader): Reader
    decreases r.config.window - |r.slots|
  {
    if CanFill(r) then Fill(Issue(r)) else r
  }

  /** A reply longer than asked for is an error. */
  function Clamp(reply: Reply, len: nat): Reply {
    if reply.Ok? && |reply.bytes| > len then Err(INVALID_DATA) else reply
  }

  function Polled(s: Slot, ready: nat -> bool, src: Source): Slot {
    if s.state.Waiting? && ready(s.offset) then s.(state := Done(Clamp(src(s.offset, s.len), s.len))) else s
  }

  /** A result after which nothing more can be delivered. */
  predicate Terminal(s: Slot) {
    s.state.Done? && !(s.state.reply.Ok? && |s.state.reply.bytes| == s.len)
  }

  /** Poll in order up to the first terminal slot; whatever lies behind it is dropped. */
  function Scan(slots: seq<Slot>, ready: nat -> bool, src: Source): seq<Slot> {
    if slots == [] then []
    else
      var s := Polled(slots[0], ready, src);
      if Terminal(s) then [s] else [s] + Scan(slots[1..], ready, src)
  }

  function Lens(slots: seq<Slot>): nat {
    if slots == [] then 0 else slots[0].len + Lens(slots[1..])
  }

  predicate EndsTerminal(slots: seq<Slot>) {
    slots != [] && Terminal(slots[|slots| - 1])
  }

  function DoneOffsets(slots: seq<Slot>): set<nat> {
    set s | s in slots && s.state.Done? :: s.offset
  }

  function Scanned(r: Reader, ready: nat -> bool, src: Source): Reader {
    var slots := Scan(r.slots, ready, src);
    r.(slots := slots, reserved := Lens(slots), stop := r.stop || EndsTerminal(slots),
       completed := r.completed + DoneOffsets(slots))
  }

  /** Deliver the front slot, if it is ready. */
  function Take(r: Reader): (Reader, Out) {
    if r.slots == [] then (r.(finished := true), End)
    else if r.slots[0].state.Waiting? then (r, Pending)
    else
      var s := r.slots[0];
      var rest := r.(slots := r.slots[1..], reserved := Lens(r.slots[1..]));
      match s.state.reply
      case Err(e) => (rest.(finished := true), Fail(e))
      case Ok(bytes) =>
        (if |bytes| < s.len then rest.(finished := true) else rest,
         if bytes == [] then End else Yield(s.offset, bytes))
  }

  /** One poll: refill, poll the window, deliver. */
  function PollNext(r: Reader, ready: nat -> bool, src: Source): (Reader, Out) {
    if r.finished then (r, End) else Take(Scanned(Fill(r), ready, src))
  }

  // ---- what a sequential reader would do ----

  datatype Item = Chunk(offset: nat, bytes: seq<byte>) | Error(error: int)

  function Sequential(src: Source, off: nat, end: nat, chunk: nat): seq<Item>
    requires chunk > 0
    decreases end - off
  {
    if off >= end then []
    else
      var len := Min(end - off, chunk);
      match src(off, len)
      case Err(e) => [Error(e)]
      case Ok(bytes) =>
        if |bytes| > len then [Error(INVALID_DATA)]
        else if |bytes| == len then [Chunk(off, bytes)] + Sequential(src, off + len, end, chunk)
        else if bytes == [] then []
        else [Chunk(off, bytes)]
  }

  function Items(outs: seq<Out>): seq<Item> {
    if outs == [] then []
    else
      (match outs[0]
       case Yield(o, b) => [Chunk(o, b)]
       case Fail(e) => [Error(e)]
       case _ => []) + Items(outs[1..])
  }

  // ---- the invariant ----

  /** Slots tile `[lo, hi)`, and a finished one holds its source's reply. */
  ghost predicate Tiles(slots: seq<Slot>, lo: nat, hi: nat, end: nat, chunk: nat, src: Source) {
    if slots == [] then lo == hi
    else
      && slots[0].offset == lo && lo < end && slots[0].len == Min(end - lo, chunk)
      && (slots[0].state.Done? ==> slots[0].state.reply == Clamp(src(lo, slots[0].len), slots[0].len))
      && Tiles(slots[1..], lo + slots[0].len, hi, end, chunk, src)
  }

  /** Only the last slot may be terminal. */
  predicate OnlyLastTerminal(slots: seq<Slot>) {
    forall i :: 0 <= i < |slots| - 1 ==> !Terminal(slots[i])
  }

  ghost predicate CallsTile(calls: seq<(nat, nat)>, lo: nat, hi: nat) {
    if calls == [] then lo == hi
    else
      var last := calls[|calls| - 1];
      last.1 > 0 && last.0 + last.1 == hi && CallsTile(calls[..|calls| - 1], lo, last.0)
  }

  /** Where the next chunk to deliver starts. */
  function Cursor(r: Reader): nat {
    if r.slots == [] then r.nextOffset else r.slots[0].offset
  }

  /** Slots, reservations and history of a reader, whatever it has delivered. */
  ghost predicate Good(r: Reader, src: Source) {
    && Validate(r.config) == Some(r.end)
    && r.config.offset <= r.nextOffset <= r.end
    && CallsTile(r.calls, r.config.offset, r.nextOffset)
    && Cursor(r) + Lens(r.slots) <= r.nextOffset
    && (!r.stop ==> Cursor(r) + Lens(r.slots) == r.nextOffset)
    && Tiles(r.slots, Cursor(r), Cursor(r) + Lens(r.slots), r.end, r.config.chunk, src)
    && OnlyLastTerminal(r.slots)
    && (r.stop <==> EndsTerminal(r.slots))
    && r.reserved == Lens(r.slots) <= r.config.maxBytes
    && |r.slots| <= r.config.window
    && (forall x :: x in r.completed ==> x < r.nextOffset)
    && (forall i :: 0 <= i < |r.slots| && r.slots[i].state.Waiting? ==> r.slots[i].offset !in r.completed)
  }

  /** A finished reader holds nothing. */
  ghost predicate Spent(r: Reader) {
    && Validate(r.config) == Some(r.end)
    && r.slots == [] && r.reserved == 0
    && r.nextOffset <= r.end && CallsTile(r.calls, r.config.offset, r.nextOffset)
  }

  function Whole(r: Reader, src: Source): seq<Item>
    requires Validate(r.config) == Some(r.end)
  {
    Sequential(src, r.config.offset, r.end, r.config.chunk)
  }

  /** What was delivered so far, followed by what is left, is the sequential reading. */
  ghost predicate Refines(r: Reader, src: Source, yielded: seq<Item>) {
    if r.finished then Spent(r) && yielded == Whole(r, src)
    else
      && Good(r, src)
      && yielded + Sequential(src, Cursor(r), r.end, r.config.chunk) == Whole(r, src)
  }

  lemma NewRefines(c: Config, src: Source)
    requires New(c).Some?
    ensures Refines(New(c).value, src, [])
  {
    var w := Whole(New(c).value, src);
    assert [] + w == w;
  }

  // ---- refilling ----

  lemma {:induction false} TilesSnoc(slots: seq<Slot>, lo: nat, hi: nat, end: nat, chunk: nat, src: Source)
    requires Tiles(slots, lo, hi, end, chunk, src) && hi < end
    ensures Tiles(slots + [Slot(hi, Min(end - hi, chunk), Waiting)], lo, hi + Min(end - hi, chunk), end, chunk, src)
  {
    var s := Slot(hi, Min(end - hi, chunk), Waiting);
    if slots == [] {
      assert [s][1..] == [];
    } else {
      assert (slots + [s])[1..] == slots[1..] + [s];
      TilesSnoc(slots[1..], lo + slots[0].len, hi, end, chunk, src);
    }
  }

  lemma {:induction false} LensSnoc(slots: seq<Slot>, s: Slot)
    ensures Lens(slots + [s]) == Lens(slots) + s.len
  {
    if slots == [] {
      assert [s][1..] == [];
    } else {
      assert (slots + [s])[1..] == slots[1..] + [s];
      LensSnoc(slots[1..], s);
    }
  }

  lemma IssueKeepsGood(r: Reader, src: Source)
    requires Good(r, src) && CanFill(r)
    ensures Good(Issue(r), src) && Cursor(Issue(r)) == Cursor(r)
  {
    var s := Slot(r.nextOffset, ChunkLen(r), Waiting);
    var t := Issue(r);
    TilesSnoc(r.slots, Cursor(r), r.nextOffset, r.end, r.config.chunk, src);
    LensSnoc(r.slots, s);
    assert t.calls[..|r.calls|] == r.calls;
  }

  lemma {:induction false} FillKeepsGood(r: Reader, src: Source)
    requires Good(r, src)
    ensures Good(Fill(r), src) && Cursor(Fill(r)) == Cursor(r) && !CanFill(Fill(r))
    ensures Fill(r).config == r.config && Fill(r).end == r.end && Fill(r).finished == r.finished
    decreases r.config.window - |r.slots|
  {
    if CanFill(r) {
      IssueKeepsGood(r, src);
      hide Good, Issue, CanFill;
      assert Issue(r).config == r.config && |Issue(r).slots| == |r.slots| + 1 by { IssueFrame(r); }
      FillKeepsGood(Issue(r), src);
      IssueFrame(r);
    }
  }

  lemma IssueFrame(r: Reader)
    requires CanFill(r)
    ensures var t := Issue(r);
            t.config == r.config && t.end == r.end && t.finished == r.finished && |t.slots| == |r.slots| + 1
    ensures |r.slots| < r.config.window
  {
  }

  // ---- how far a refill goes ----

  /** Nothing more can be started: the window is full, the range is exhausted, or the next chunk does not fit. */
  predicate Full(r: Reader) {
    || |r.slots| == r.config.window
    || r.nextOffset == r.end
    || Min(r.end - r.nextOffset, r.config.chunk) > r.config.maxBytes - r.reserved
  }

  /** The slots that were there stay in front; each new one waits for a read just started. */
  ghost predicate Extends(r: Reader, t: Reader) {
    && t == r.(slots := t.slots, reserved := t.reserved, nextOffset := t.nextOffset, calls := t.calls)
    && r.slots <= t.slots
    && (forall i :: |r.slots| <= i < |t.slots| ==> t.slots[i].state.Waiting?)
    && t.calls == r.calls + Reads(t.slots[|r.slots|..])
  }

  /** The source reads behind a window. */
  function Reads(slots: seq<Slot>): seq<(nat, nat)> {
    seq(|slots|, i requires 0 <= i < |slots| => (slots[i].offset, slots[i].len))
  }

  /** A refill starts reads until nothing more can be started, and none once the reader has stopped. */
  ghost predicate Refilled(r: Reader, t: Reader) {
    Extends(r, t) && if r.stop then t == r else Full(t)
  }

  lemma IssueExtends(r: Reader, u: Reader)
    requires CanFill(r) && Extends(Issue(r), u)
    ensures Extends(r, u)
  {
    var m, t := |r.slots|, Issue(r);
    assert u.slots[m] == t.slots[m];
    assert Reads(u.slots[m..]) == [(r.nextOffset, ChunkLen(r))] + Reads(u.slots[m + 1..]);
  }

  lemma NothingToFill(r: Reader, src: Source)
    requires Good(r, src) && !CanFill(r)
    ensures Refilled(r, r)
  {
  }

  /** A refill is exact: it goes on for as long as there is room, and no further. */
  lemma {:induction false} FillIsFull(r: Reader, src: Source)
    requires Good(r, src)
    ensures Refilled(r, Fill(r))
    decreases r.config.window - |r.slots|
  {
    hide Good;
    if CanFill(r) {
      IssueKeepsGood(r, src);
      IssueFrame(r);
      hide CanFill, Extends, Full;
      FillIsFull(Issue(r), src);
      hide Fill;
      NotStopped(r);
      IssueExtends(r, Fill(Issue(r)));
    } else {
      NothingToFill(r, src);
    }
  }

  lemma NotStopped(r: Reader)
    requires CanFill(r)
    ensures !r.stop && !Issue(r).stop
  {
  }

  /** A refilled window is empty only at the end of the range. */
  lemma FilledIsEmptyAtEnd(r: Reader, src: Source)
    requires Good(r, src) && !CanFill(r) && r.slots == []
    ensures r.nextOffset == r.end
  {
  }

  // ---- polling the window ----

  lemma PolledKeeps(s: Slot, ready: nat -> bool, src: Source)
    ensures Polled(s, ready, src).offset == s.offset && Polled(s, ready, src).len == s.len
    ensures s.state.Done? ==> Polled(s, ready, src) == s
    ensures s.state.Waiting? && Polled(s, ready, src).state.Done? ==>
              Polled(s, ready, src).state.reply == Clamp(src(s.offset, s.len), s.len)
  {
  }

  lemma {:induction false} ScanTiles(slots: seq<Slot>, lo: nat, hi: nat, end: nat, chunk: nat, src: Source, ready: nat -> bool)
    requires Tiles(slots, lo, hi, end, chunk, src)
    ensures var t := Scan(slots, ready, src);
            && Tiles(t, lo, lo + Lens(t), end, chunk, src)
            && |t| <= |slots| && Lens(t) <= Lens(slots) && (slots != [] ==> t != [])
            && OnlyLastTerminal(t)
            && (!EndsTerminal(t) ==> |t| == |slots| && Lens(t) == Lens(slots))
            && (EndsTerminal(slots) ==> EndsTerminal(t))
  {
    if slots != [] {
      var s := Polled(slots[0], ready, src);
      var rest := Scan(slots[1..], ready, src);
      ScanTiles(slots[1..], lo + slots[0].len, hi, end, chunk, src, ready);
      if Terminal(s) {
        assert [s][1..] == [];
      } else {
        assert ([s] + rest)[1..] == rest;
        if EndsTerminal(slots) && |slots| == 1 {
          assert Terminal(slots[0]);
        }
      }
    }
  }

  /** Every slot up to the first terminal one was polled, and only the waiting ones. */
  lemma {:induction false} ScanReaches(slots: seq<Slot>, ready: nat -> bool, src: Source, i: nat)
    requires i < |Scan(slots, ready, src)|
    ensures i < |slots| && Scan(slots, ready, src)[i] == Polled(slots[i], ready, src)
    ensures var a, b := slots[i], Scan(slots, ready, src)[i];
            && b == a.(state := b.state)
            && (a.state.Done? ==> b == a)
            && (a.state.Waiting? ==> (b.state.Done? <==> ready(a.offset)))
            && (a.state.Waiting? && b.state.Done? ==>
                  var reply := src(a.offset, a.len);
                  b.state.reply == if reply.Ok? && |reply.bytes| > a.len then Err(INVALID_DATA) else reply)
  {
    var s := Polled(slots[0], ready, src);
    if i > 0 && !Terminal(s) {
      ScanReaches(slots[1..], ready, src, i - 1);
    }
  }

  lemma {:induction false} TilesIncrease(slots: seq<Slot>, lo: nat, hi: nat, end: nat, chunk: nat, src: Source, i: nat)
    requires Tiles(slots, lo, hi, end, chunk, src) && i < |slots| && chunk > 0
    ensures lo <= slots[i].offset < hi && (i > 0 ==> lo < slots[i].offset) && hi == lo + Lens(slots)
  {
    if i > 0 {
      TilesIncrease(slots[1..], lo + slots[0].len, hi, end, chunk, src, i - 1);
    } else {
      TilesLength(slots[1..], lo + slots[0].len, hi, end, chunk, src);
    }
  }

  lemma {:induction false} TilesLength(slots: seq<Slot>, lo: nat, hi: nat, end: nat, chunk: nat, src: Source)
    requires Tiles(slots, lo, hi, end, chunk, src)
    ensures hi == lo + Lens(slots)
  {
    if slots != [] {
      TilesLength(slots[1..], lo + slots[0].len, hi, end, chunk, src);
    }
  }

  lemma {:induction false} TilesDistinct(slots: seq<Slot>, lo: nat, hi: nat, end: nat, chunk: nat, src: Source, i: nat, j: nat)
    requires Tiles(slots, lo, hi, end, chunk, src) && i < j < |slots| && chunk > 0
    ensures slots[i].offset < slots[j].offset
  {
    if i == 0 {
      TilesIncrease(slots, lo, hi, end, chunk, src, j);
    } else {
      TilesDistinct(slots[1..], lo + slots[0].len, hi, end, chunk, src, i - 1, j - 1);
    }
  }

  /** A waiting slot's offset is none of the finished slots'. */
  lemma WaitingIsNotDone(slots: seq<Slot>, lo: nat, hi: nat, end: nat, chunk: nat, src: Source, i: nat)
    requires Tiles(slots, lo, hi, end, chunk, src) && chunk > 0 && i < |slots| && slots[i].state.Waiting?
    ensures slots[i].offset !in DoneOffsets(slots)
  {
    forall j | 0 <= j < |slots| && slots[j].state.Done?
      ensures slots[j].offset != slots[i].offset
    {
      if i < j {
        TilesDistinct(slots, lo, hi, end, chunk, src, i, j);
      } else {
        TilesDistinct(slots, lo, hi, end, chunk, src, j, i);
      }
    }
  }

  lemma DoneOffsetsBelow(slots: seq<Slot>, lo: nat, hi: nat, end: nat, chunk: nat, src: Source)
    requires Tiles(slots, lo, hi, end, chunk, src) && chunk > 0
    ensures forall x :: x in DoneOffsets(slots) ==> x < hi
  {
    forall i | 0 <= i < |slots|
      ensures slots[i].offset < hi
    {
      TilesIncrease(slots, lo, hi, end, chunk, src, i);
    }
  }

  lemma ScannedKeepsCompleted(r: Reader, ready: nat -> bool, src: Source)
    requires Good(r, src)
    ensures var t := Scanned(r, ready, src);
            && (forall x :: x in t.completed ==> x < t.nextOffset)
            && (forall i :: 0 <= i < |t.slots| && t.slots[i].state.Waiting? ==> t.slots[i].offset !in t.completed)
  {
    hide Tiles, Scan, DoneOffsets;
    var t := Scanned(r, ready, src);
    var lo, chunk := Cursor(r), r.config.chunk;
    var hi := lo + Lens(t.slots);
    ScanTiles(r.slots, lo, lo + Lens(r.slots), r.end, chunk, src, ready);
    DoneOffsetsBelow(t.slots, lo, hi, r.end, chunk, src);
    forall i | 0 <= i < |t.slots| && t.slots[i].state.Waiting?
      ensures t.slots[i].offset !in t.completed
    {
      ScanReaches(r.slots, ready, src, i);
      PolledKeeps(r.slots[i], ready, src);
      WaitingIsNotDone(t.slots, lo, hi, r.end, chunk, src, i);
    }
  }

  lemma ScannedKeepsGood(r: Reader, ready: nat -> bool, src: Source)
    requires Good(r, src)
    ensures Good(Scanned(r, ready, src), src) && Cursor(Scanned(r, ready, src)) == Cursor(r)
  {
    hide Tiles, Scan, DoneOffsets, CallsTile, Validate;
    var t := Scanned(r, ready, src);
    ScannedKeepsCompleted(r, ready, src);
    ScanTiles(r.slots, Cursor(r), Cursor(r) + Lens(r.slots), r.end, r.config.chunk, src, ready);
    if r.slots != [] {
      ScanReaches(r.slots, ready, src, 0);
    }
  }

  // ---- delivering ----

  /** Dropping a ready front slot leaves a good reader. */
  lemma PopKeepsGood(r: Reader, src: Source)
    requires Good(r, src) && r.slots != [] && !Terminal(r.slots[0]) && r.slots[0].state.Done?
    ensures var t := r.(slots := r.slots[1..], reserved := Lens(r.slots[1..]));
            Good(t, src) && Cursor(t) == r.slots[0].offset + r.slots[0].len
  {
    var t := r.(slots := r.slots[1..], reserved := Lens(r.slots[1..]));
    var s := r.slots[0];
    var hi := Cursor(r) + Lens(r.slots);
    assert Tiles(t.slots, s.offset + s.len, hi, r.end, r.config.chunk, src);
    TilesLength(t.slots, s.offset + s.len, hi, r.end, r.config.chunk, src);
    assert forall i :: 0 <= i < |t.slots| ==> t.slots[i] == r.slots[i + 1];
    if t.slots == [] {
      assert !EndsTerminal(r.slots);
    } else {
      assert t.slots[0].offset == s.offset + s.len;
    }
  }

  /** What the front slot says is the next item of the sequential reading. */
  lemma FrontIsNext(r: Reader, src: Source)
    requires Good(r, src) && r.slots != [] && r.slots[0].state.Done?
    ensures var s := r.slots[0];
            var rest := Sequential(src, Cursor(r), r.end, r.config.chunk);
            match s.state.reply
            case Err(e) => rest == [Error(e)]
            case Ok(bytes) =>
              if |bytes| == s.len then
                bytes != [] && rest == [Chunk(s.offset, bytes)] + Sequential(src, s.offset + s.len, r.end, r.config.chunk)
              else |bytes| < s.len && rest == (if bytes == [] then [] else [Chunk(s.offset, bytes)])
  {
  }

  lemma TerminalFrontIsAlone(r: Reader, src: Source)
    requires Good(r, src) && r.slots != [] && Terminal(r.slots[0])
    ensures |r.slots| == 1 && Lens(r.slots[1..]) == 0
  {
  }

  function ItemOf(out: Out): seq<Item> {
    match out
    case Yield(o, b) => [Chunk(o, b)]
    case Fail(e) => [Error(e)]
    case _ => []
  }

  /** What the delivery step owes its caller. */
  ghost predicate TakeOwes(r: Reader, src: Source, yielded: seq<Item>, t: Reader, out: Out) {
    && t.config == r.config && t.end == r.end
    && Refines(t, src, yielded + ItemOf(out))
    && (out.End? ==> t.finished)
    && (out.Fail? ==> t.finished)
  }

  lemma TakeChunkRefines(r: Reader, src: Source, yielded: seq<Item>)
    requires Good(r, src) && !r.finished && r.slots != [] && r.slots[0].state.Done? && !Terminal(r.slots[0])
    requires yielded + Sequential(src, Cursor(r), r.end, r.config.chunk) == Whole(r, src)
    ensures TakeOwes(r, src, yielded, Take(r).0, Take(r).1)
  {
    var s := r.slots[0];
    FrontIsNext(r, src);
    PopKeepsGood(r, src);
    hide Good, Sequential;
    var rest := Sequential(src, s.offset + s.len, r.end, r.config.chunk);
    var c := [Chunk(s.offset, s.state.reply.bytes)];
    assert (yielded + c) + rest == yielded + (c + rest);
  }

  lemma TakeLastRefines(r: Reader, src: Source, yielded: seq<Item>)
    requires Good(r, src) && !r.finished && r.slots != [] && Terminal(r.slots[0])
    requires yielded + Sequential(src, Cursor(r), r.end, r.config.chunk) == Whole(r, src)
    ensures TakeOwes(r, src, yielded, Take(r).0, Take(r).1)
  {
    FrontIsNext(r, src);
    TerminalFrontIsAlone(r, src);
    assert Validate(r.config) == Some(r.end) && CallsTile(r.calls, r.config.offset, r.nextOffset) && r.nextOffset <= r.end;
    hide Good, Sequential, CallsTile, Validate;
    assert r.slots[1..] == [];
  }

  lemma TakeNothingRefines(r: Reader, src: Source, yielded: seq<Item>)
    requires Good(r, src) && !r.finished && (r.slots == [] ==> r.nextOffset == r.end)
    requires r.slots == [] || r.slots[0].state.Waiting?
    requires yielded + Sequential(src, Cursor(r), r.end, r.config.chunk) == Whole(r, src)
    ensures TakeOwes(r, src, yielded, Take(r).0, Take(r).1)
  {
    assert yielded + [] == yielded;
  }

  lemma TakeRefines(r: Reader, src: Source, yielded: seq<Item>)
    requires Good(r, src) && !r.finished && (r.slots == [] ==> r.nextOffset == r.end)
    requires yielded + Sequential(src, Cursor(r), r.end, r.config.chunk) == Whole(r, src)
    ensures TakeOwes(r, src, yielded, Take(r).0, Take(r).1)
  {
    hide Good, TakeOwes, Take, Sequential;
    if r.slots == [] || r.slots[0].state.Waiting? {
      TakeNothingRefines(r, src, yielded);
    } else if Terminal(r.slots[0]) {
      TakeLastRefines(r, src, yielded);
    } else {
      TakeChunkRefines(r, src, yielded);
    }
  }

  /** One poll, in any state and with any futures ready, follows the sequential reading. */
  lemma PollRefines(r: Reader, src: Source, ready: nat -> bool, yielded: seq<Item>)
    requires Refines(r, src, yielded)
    ensures var (t, out) := PollNext(r, ready, src);
            && t.config == r.config && t.end == r.end
            && Refines(t, src, yielded + ItemOf(out))
            && (out.End? ==> t.finished)
            && (out.Fail? ==> t.finished)
            && (r.finished ==> out.End? && t == r)
  {
    if r.finished {
      assert yielded + [] == yielded;
    } else {
      FillKeepsGood(r, src);
      ScannedKeepsGood(Fill(r), ready, src);
      var t := Scanned(Fill(r), ready, src);
      if t.slots == [] {
        ScanEmpty(Fill(r).slots, ready, src);
        FilledIsEmptyAtEnd(Fill(r), src);
      }
      hide Good, Fill;
      TakeRefines(t, src, yielded);
    }
  }

  lemma ScanEmpty(slots: seq<Slot>, ready: nat -> bool, src: Source)
    requires Scan(slots, ready, src) == []
    ensures slots == []
  {
  }

  /** A poll that found no last chunk had started all the reads it could; what it delivered then made room again. */
  predicate Reaches(t: Reader, out: Out) {
    var n, len := if out.Yield? then 1 else 0, if out.Yield? then |out.bytes| else 0;
    !t.finished && !t.stop ==>
      || |t.slots| + n == t.config.window
      || t.nextOffset == t.end
      || Min(t.end - t.nextOffset, t.config.chunk) > t.config.maxBytes - (t.reserved + len)
  }

  lemma ScannedIsFull(r: Reader, ready: nat -> bool, src: Source)
    requires Good(r, src) && (r.stop || Full(r))
    ensures var t := Scanned(r, ready, src); t.stop || Full(t)
  {
    hide Tiles, Scan, DoneOffsets, CallsTile, Validate;
    ScanTiles(r.slots, Cursor(r), Cursor(r) + Lens(r.slots), r.end, r.config.chunk, src, ready);
  }

  lemma TakeReaches(r: Reader, src: Source)
    requires Good(r, src) && (r.stop || Full(r))
    ensures Reaches(Take(r).0, Take(r).1)
  {
  }

  /** After every poll the reads started reach as far as window, range and bytes allow. */
  lemma PollReaches(r: Reader, src: Source, ready: nat -> bool, yielded: seq<Item>)
    requires Refines(r, src, yielded)
    ensures Reaches(PollNext(r, ready, src).0, PollNext(r, ready, src).1)
  {
    if !r.finished {
      FillKeepsGood(r, src);
      FillIsFull(r, src);
      ScannedKeepsGood(Fill(r), ready, src);
      hide Good, Fill, Full, Extends;
      ScannedIsFull(Fill(r), ready, src);
      TakeReaches(Scanned(Fill(r), ready, src), src);
    }
  }

  predicate AllReady(offset: nat) { true }

  /** When every future is ready, a poll does not wait. */
  lemma ReadyPollAnswers(r: Reader, src: Source, yielded: seq<Item>)
    requires Refines(r, src, yielded)
    ensures !PollNext(r, AllReady, src).1.Pending?
  {
    if !r.finished {
      var slots := Scan(Fill(r).slots, AllReady, src);
      if slots != [] {
        ScanReaches(Fill(r).slots, AllReady, src, 0);
      }
    }
  }

  // ---- whole runs ----

  /** Polls with any futures ready each time; a dropped `next` is a poll whose caller went away. */
  function RunPolls(r: Reader, schedule: seq<nat -> bool>, src: Source): (Reader, seq<Out>)
    decreases |schedule|
  {
    if schedule == [] then (r, [])
    else
      var (t, out) := PollNext(r, schedule[0], src);
      var (u, outs) := RunPolls(t, schedule[1..], src);
      (u, [out] + outs)
  }

  lemma ItemsCons(out: Out, outs: seq<Out>)
    ensures Items([out] + outs) == ItemOf(out) + Items(outs)
  {
    assert ([out] + outs)[1..] == outs;
  }

  lemma {:induction false} RunRefines(r: Reader, schedule: seq<nat -> bool>, src: Source, yielded: seq<Item>)
    requires Refines(r, src, yielded)
    ensures var (t, outs) := RunPolls(r, schedule, src);
            && t.config == r.config && t.end == r.end
            && Refines(t, src, yielded + Items(outs))
    decreases |schedule|
  {
    hide Refines, PollNext;
    if schedule == [] {
      assert yielded + [] == yielded;
    } else {
      var (t, out) := PollNext(r, schedule[0], src);
      PollRefines(r, src, schedule[0], yielded);
      RunRefines(t, schedule[1..], src, yielded + ItemOf(out));
      var outs := RunPolls(t, schedule[1..], src).1;
      ItemsCons(out, outs);
      assert (yielded + ItemOf(out)) + Items(outs) == yielded + (ItemOf(out) + Items(outs));
    }
  }

  /** So it is in every run: after each poll, nothing more could have been started. */
  lemma {:induction false} RunReaches(r: Reader, schedule: seq<nat -> bool>, src: Source, yielded: seq<Item>)
    requires Refines(r, src, yielded) && schedule != []
    ensures var (t, outs) := RunPolls(r, schedule, src);
            |outs| == |schedule| && Reaches(t, outs[|outs| - 1])
    decreases |schedule|
  {
    hide Refines, PollNext, Reaches;
    var (t, out) := PollNext(r, schedule[0], src);
    PollRefines(r, src, schedule[0], yielded);
    PollReaches(r, src, schedule[0], yielded);
    if |schedule| > 1 {
      RunReaches(t, schedule[1..], src, yielded + ItemOf(out));
    } else {
      assert schedule[1..] == [];
    }
  }

  lemma PrefetchReaches(c: Config, src: Source, schedule: seq<nat -> bool>)
    requires New(c).Some? && schedule != []
    ensures var (t, outs) := RunPolls(New(c).value, schedule, src);
            |outs| == |schedule| && Reaches(t, outs[|outs| - 1])
  {
    hide Refines, Reaches, RunPolls;
    NewRefines(c, src);
    RunReaches(New(c).value, schedule, src, []);
  }

  /** The outputs from the first end or error on: that one, and then the end for ever. */
  ghost predicate Fused(outs: seq<Out>) {
    forall i, j :: 0 <= i < j < |outs| && (outs[i].End? || outs[i].Fail?) ==> outs[j].End?
  }

  lemma {:induction false} RunIsFused(r: Reader, schedule: seq<nat -> bool>, src: Source, yielded: seq<Item>)
    requires Refines(r, src, yielded)
    ensures var (t, outs) := RunPolls(r, schedule, src);
            && Fused(outs)
            && (r.finished ==> t == r && forall i :: 0 <= i < |outs| ==> outs[i].End?)
            && ((exists i :: 0 <= i < |outs| && (outs[i].End? || outs[i].Fail?)) ==> t.finished)
    decreases |schedule|
  {
    hide Refines, PollNext;
    if schedule != [] {
      var (t, out) := PollNext(r, schedule[0], src);
      PollRefines(r, src, schedule[0], yielded);
      RunIsFused(t, schedule[1..], src, yielded + ItemOf(out));
      var outs := RunPolls(t, schedule[1..], src).1;
      var all := [out] + outs;
      assert forall i :: 1 <= i < |all| ==> all[i] == outs[i - 1];
    }
  }

  /**
   * For every validated range, every source and every pattern of readiness, what
   * the reader delivers is a prefix of what a sequential reader would, the end is
   * announced only after all of it, and then for ever.
   */
  lemma PrefetchIsSequential(c: Config, src: Source, schedule: seq<nat -> bool>)
    requires New(c).Some?
    ensures var (t, outs) := RunPolls(New(c).value, schedule, src);
            var whole := Sequential(src, c.offset, c.offset + c.length, c.chunk);
            && Items(outs) <= whole
            && ((exists i :: 0 <= i < |outs| && (outs[i].End? || outs[i].Fail?)) ==> Items(outs) == whole)
            && Fused(outs)
  {
    hide Sequential, Good;
    var r := New(c).value;
    NewRefines(c, src);
    RunRefines(r, schedule, src, []);
    RunIsFused(r, schedule, src, []);
    var (t, outs) := RunPolls(r, schedule, src);
    assert [] + Items(outs) == Items(outs);
  }

  /** Polls with every future ready. */
  function Always(m: nat): seq<nat -> bool> {
    seq(m, _ => AllReady)
  }

  /** Every poll with everything ready brings the end one item nearer. */
  lemma {:induction false} ReadyPollsFinish(r: Reader, m: nat, src: Source, yielded: seq<Item>)
    requires Refines(r, src, yielded) && Validate(r.config) == Some(r.end)
    requires r.finished || m + |yielded| > |Whole(r, src)|
    ensures RunPolls(r, Always(m), src).0.finished
    decreases m
  {
    hide Refines, PollNext, Validate;
    if m > 0 {
      var (t, out) := PollNext(r, AllReady, src);
      assert Always(m)[1..] == Always(m - 1);
      PollRefines(r, src, AllReady, yielded);
      ReadyPollAnswers(r, src, yielded);
      ReadyPollsFinish(t, m - 1, src, yielded + ItemOf(out));
    } else {
      YieldedIsPrefix(r, src, yielded);
    }
  }

  lemma YieldedIsPrefix(r: Reader, src: Source, yielded: seq<Item>)
    requires Refines(r, src, yielded) && Validate(r.config) == Some(r.end)
    ensures yielded <= Whole(r, src)
  {
    hide Good, Sequential, Spent;
  }

  /** With every future ready, one poll for each item and one more deliver the whole reading. */
  lemma ReadyPollsDeliverAll(c: Config, src: Source)
    requires New(c).Some?
    ensures var whole := Sequential(src, c.offset, c.offset + c.length, c.chunk);
            var (t, outs) := RunPolls(New(c).value, Always(|whole| + 1), src);
            Items(outs) == whole && t.finished
  {
    var r := New(c).value;
    var whole := Sequential(src, c.offset, c.offset + c.length, c.chunk);
    NewRefines(c, src);
    assert Whole(r, src) == whole;
    hide Good, Sequential;
    ReadyPollsFinish(r, |whole| + 1, src, []);
    RunRefines(r, Always(|whole| + 1), src, []);
    var (t, outs) := RunPolls(r, Always(|whole| + 1), src);
    assert [] + Items(outs) == Items(outs);
  }

  /** Resources in every state: contiguous slots within both limits, each source read started once. */
  lemma PrefetchResources(c: Config, src: Source, schedule: seq<nat -> bool>)
    requires New(c).Some?
    ensures var t := RunPolls(New(c).value, schedule, src).0;
            && |t.slots| <= c.window
            && t.reserved == Lens(t.slots) <= c.maxBytes
            && CallsTile(t.calls, c.offset, t.nextOffset) && t.nextOffset <= c.offset + c.length
            && (forall i :: 0 <= i < |t.slots| ==> t.slots[i].len > 0)
            && (forall i :: 0 < i < |t.slots| ==> t.slots[i].offset == t.slots[i - 1].offset + t.slots[i - 1].len)
            && (!t.finished ==>
                  forall i :: 0 <= i < |t.slots| && t.slots[i].state.Waiting? ==> t.slots[i].offset !in t.completed)
  {
    hide Sequential, CallsTile;
    NewRefines(c, src);
    RunRefines(New(c).value, schedule, src, []);
    var t := RunPolls(New(c).value, schedule, src).0;
    hide RunPolls;
    if !t.finished {
      SlotsContiguous(t.slots, Cursor(t), Cursor(t) + Lens(t.slots), t.end, c.chunk, src);
    }
  }

  lemma {:induction false} SlotsContiguous(slots: seq<Slot>, lo: nat, hi: nat, end: nat, chunk: nat, src: Source)
    requires Tiles(slots, lo, hi, end, chunk, src) && chunk > 0
    ensures forall i :: 0 <= i < |slots| ==> slots[i].len > 0
    ensures forall i :: 0 < i < |slots| ==> slots[i].offset == slots[i - 1].offset + slots[i - 1].len
  {
    if slots != [] {
      var rest := slots[1..];
      SlotsContiguous(rest, lo + slots[0].len, hi, end, chunk, src);
      assert forall i :: 1 <= i < |slots| ==> slots[i] == rest[i - 1];
    }
  }

  // ---- over a file ----

  function Bytes(items: seq<Item>): seq<byte> {
    if items == [] then [] else (if items[0].Chunk? then items[0].bytes else []) + Bytes(items[1..])
  }

  function FileSource(file: seq<byte>): Source {
    (off: nat, len: nat) => Ok(Pread(file, off, len))
  }

  lemma PreadSplit(file: seq<byte>, off: nat, a: nat, b: nat)
    requires a > 0 && |Pread(file, off, a)| == a
    ensures Pread(file, off, a + b) == Pread(file, off, a) + Pread(file, off + a, b)
  {
  }

  /** A short read has reached the end of the file. */
  lemma PreadShort(file: seq<byte>, off: nat, a: nat, n: nat)
    requires |Pread(file, off, a)| < a <= n
    ensures Pread(file, off, n) == Pread(file, off, a)
  {
  }

  lemma BytesCons(item: Item, items: seq<Item>)
    ensures Bytes([item] + items) == (if item.Chunk? then item.bytes else []) + Bytes(items)
  {
    assert ([item] + items)[1..] == items;
  }

  lemma SequentialStep(file: seq<byte>, off: nat, end: nat, chunk: nat)
    requires chunk > 0 && off < end
    ensures var len := Min(end - off, chunk);
            var b := Pread(file, off, len);
            Sequential(FileSource(file), off, end, chunk) ==
            if |b| == len then [Chunk(off, b)] + Sequential(FileSource(file), off + len, end, chunk)
            else if b == [] then []
            else [Chunk(off, b)]
  {
  }

  /** Read through a file, the chunks concatenate to exactly the range of the file. */
  lemma {:induction false} SequentialReadsFile(file: seq<byte>, off: nat, end: nat, chunk: nat)
    requires chunk > 0 && off <= end
    ensures Bytes(Sequential(FileSource(file), off, end, chunk)) == Pread(file, off, end - off)
    decreases end - off
  {
    hide Pread, FileSource;
    if off < end {
      SequentialStep(file, off, end, chunk);
      hide Sequential;
      var len := Min(end - off, chunk);
      var b := Pread(file, off, len);
      if |b| == len {
        SequentialReadsFile(file, off + len, end, chunk);
        BytesCons(Chunk(off, b), Sequential(FileSource(file), off + len, end, chunk));
        PreadSplit(file, off, len, end - off - len);
      } else {
        PreadShort(file, off, len, end - off);
        BytesCons(Chunk(off, b), []);
        assert [Chunk(off, b)] + [] == [Chunk(off, b)] && b + [] == b;
      }
    } else {
      PreadNothing(file, off);
    }
  }

  lemma PreadNothing(file: seq<byte>, off: nat)
    ensures Pread(file, off, 0) == []
  {
  }
}
