/**
 * One shard as a transition system (`drive` and what surrounds it): the message
 * channel, the pending table, the backlog, the two rings, an adversarial kernel,
 * the heap the buffers live in, and the descriptor table. Each event is one
 * atomic action; a guard that does not hold leaves the state as it is.
 */
module ShardMachine {
  import opened Base
  import opened Geometry
  import opened LogicalRead

  /** The arguments of a read, with the byte permits taken for it. */
  datatype Args = Args(fd: nat, offset: nat, len: nat, align: nat, charge: nat)

  /** A read as it was accepted: its arguments and the file they named then. */
  datatype Request = Request(args: Args, file: seq<byte>)

  datatype Msg = Read(id: nat, args: Args) | Cancel(id: nat) | Shutdown

  /** An operation inside the kernel; a read holds the file its descriptor named. */
  datatype KernelOp = KRead(sqe: Sqe, file: seq<byte>) | KCancel(target: nat)

  datatype Cqe = Cqe(ud: nat, res: int)

  datatype Block = Block(base: nat, bytes: seq<byte>)

  datatype Phase = Running | Drained | Leaked

  /** The one use of a read's sender; `observed` when the receiver was still open. */
  datatype Resolution = Resolution(id: nat, outcome: Outcome, observed: bool)

  datatype Stats = Stats(submitted: nat, delivered: nat, orphans: nat, inFlight: int,
                         cancelSucceeded: nat, cancelNotFound: nat, cancelAlready: nat, submitErrors: nat)

  datatype Shard = Shard(
    sqCap: nat,
    // the channel
    queue: seq<Msg>,
    senders: bool,
    // the driver thread
    pending: map<nat, Pending>,
    backlog: seq<Sqe>,
    queuedCancels: set<nat>,
    shuttingDown: bool,
    errors: nat,
    phase: Phase,
    stats: Stats,
    // the rings and the kernel
    sq: seq<Sqe>,
    ops: seq<KernelOp>,
    cq: seq<Cqe>,
    // memory and descriptors; `fault` records a use of a freed buffer or closed descriptor
    heap: map<nat, Block>,
    fds: map<nat, seq<byte>>,
    callerFds: set<nat>,
    fault: bool,
    // receivers that were closed
    closed: set<nat>,
    // history: accepted reads, every request ever queued, those the kernel took, sender uses
    requests: map<nat, Request>,
    created: seq<Sqe>,
    accepted: seq<Sqe>,
    results: seq<Resolution>)

  function Init(sqCap: nat): Shard {
    Shard(sqCap, [], true, map[], [], {}, false, 0, Running, Stats(0, 0, 0, 0, 0, 0, 0, 0),
          [], [], [], map[], map[], {}, false, {}, map[], [], [], [])
  }

  /** What `io_uring_enter` returned; an error need not carry an errno. */
  datatype SubmitResult = EnterOk | EnterErr(errno: Option<int>) {
    /** Neither success nor backpressure nor an interruption. */
    predicate Hard() { EnterErr? && errno != Some(EBUSY) && errno != Some(EINTR) }
  }

  datatype Event =
    // callers
    | SendRead(id: nat, args: Args, stream: bool)
    | SendCancel(target: nat)
    | SendShutdown
    | DropSenders
    | CloseReceiver(receiver: nat)
    | OpenFile(fd: nat, contents: seq<byte>)
    | DropFile(fd: nat)
    // the driver thread
    | RecvRead(block: nat, base: nat, aligns: bool)
    | RecvCancel
    | RecvShutdown(order: seq<nat>)
    | SeeDisconnect
    | FlushOne
    | SubmitReturned(result: SubmitResult, order: seq<nat>)
    | Reap(lateClose: bool, metaOk: bool)
    | ExitDrained
    | ExitLeaked(order: seq<nat>)
    // the kernel
    | AcceptOne
    | KernelWrite(op: nat, data: seq<byte>)
    | CompleteRead(op: nat, res: int, data: seq<byte>)
    | CompleteCancel(op: nat, answer: int)

  // ---- callers ----

  predicate ValidArgs(a: Args, stream: bool) {
    && a.offset < U64_RANGE && a.len < U64_RANGE
    && Validate(a.offset, a.len, a.align, stream, Limits(None, None)) == Accepted(a.charge)
    && (stream ==> a.offset == CURRENT_POSITION && a.align == 1)
  }

  predicate CanSend(s: Shard) { s.phase.Running? && s.senders }

  function DoSendRead(s: Shard, id: nat, args: Args, stream: bool): Shard {
    if !CanSend(s) || id in s.requests || id >= CANCEL_BIT || args.fd !in s.fds || !ValidArgs(args, stream) then s
    else s.(queue := s.queue + [Read(id, args)], requests := s.requests[id := Request(args, s.fds[args.fd])])
  }

  /** Every descriptor some `Arc<File>` still holds open. */
  function FdRefs(callerFds: set<nat>, queue: seq<Msg>, pending: map<nat, Pending>): set<nat> {
    callerFds + (set m | m in queue && m.Read? :: m.args.fd) + (set id | id in pending :: pending[id].fd)
  }

  function Referenced(fds: map<nat, seq<byte>>, refs: set<nat>): map<nat, seq<byte>> {
    map f | f in fds && f in refs :: fds[f]
  }

  /** Dropping the last `Arc<File>` closes the descriptor. */
  function CloseUnreferenced(s: Shard): Shard {
    s.(fds := Referenced(s.fds, FdRefs(s.callerFds, s.queue, s.pending)))
  }

  function DoOpenFile(s: Shard, fd: nat, contents: seq<byte>): Shard {
    if fd in s.fds then s else s.(fds := s.fds[fd := contents], callerFds := s.callerFds + {fd})
  }

  function DoDropFile(s: Shard, fd: nat): Shard {
    CloseUnreferenced(s.(callerFds := s.callerFds - {fd}))
  }

  // ---- the driver thread ----

  function Resolve(s: Shard, id: nat, outcome: Outcome): Shard {
    s.(results := s.results + [Resolution(id, outcome, id !in s.closed)])
  }

  /** Intake refuses a read: its sender is used, its permit and file are dropped. */
  function Reject(s: Shard, outcome: Outcome): Shard
    requires s.queue != [] && s.queue[0].Read?
  {
    CloseUnreferenced(Resolve(s.(queue := s.queue[1..]), s.queue[0].id, outcome))
  }

  function NewEntry(a: Args, g: Region, block: nat, base: nat): Pending
    requires a.align > 0
  {
    Pending(block, a.fd, true, g.kernelOffset, 0, a.charge, Pad(base, a.align), g.head, a.len, g.regionLen, a.align, 0, false)
  }

  function Zeroes(n: nat): seq<byte> {
    seq(n, _ => 0)
  }

  function Push(s: Shard, sqe: Sqe): Shard {
    s.(backlog := s.backlog + [sqe], created := s.created + [sqe])
  }

  function Admit(s: Shard, id: nat, a: Args, g: Region, block: nat, base: nat): Shard
    requires s.queue != [] && a.align > 0
  {
    var p := NewEntry(a, g, block, base);
    Push(s.(queue := s.queue[1..],
            pending := s.pending[id := p],
            heap := s.heap[block := Block(base, Zeroes(g.regionLen + a.align - 1))],
            stats := s.stats.(submitted := s.stats.submitted + 1, inFlight := s.stats.inFlight + 1)),
         ReadSqeOf(p, id))
  }

  function DoRecvRead(s: Shard, block: nat, base: nat, aligns: bool): Shard {
    if !s.phase.Running? || s.queue == [] || !s.queue[0].Read? then s
    else if s.shuttingDown then Reject(s, ShuttingDown)
    else
      var a := s.queue[0].args;
      if a.offset >= U64_RANGE || a.len >= U64_RANGE || AlignedGeometry(a.offset, a.len, a.align).None? then s
      else if block in s.heap then s
      else if !aligns then Reject(s, CannotAlign)
      else Admit(s, s.queue[0].id, a, AlignedGeometry(a.offset, a.len, a.align).value, block, base)
  }

  /** At most one cancel request per operation. */
  function QueueCancel(s: Shard, id: nat): Shard {
    if id in s.queuedCancels then s
    else Push(s.(queuedCancels := s.queuedCancels + {id}), CancelSqe(id))
  }

  function CancelAll(s: Shard, order: seq<nat>): Shard
    decreases |order|
  {
    if order == [] then s else CancelAll(QueueCancel(s, order[0]), order[1..])
  }

  /** Some iteration order of the pending table. */
  predicate Enumerates(order: seq<nat>, ids: set<nat>) {
    multiset(order) == multiset(ids)
  }

  function DoRecvCancel(s: Shard): Shard {
    if !s.phase.Running? || s.queue == [] || !s.queue[0].Cancel? then s
    else
      var id := s.queue[0].id;
      if id !in s.pending then s.(queue := s.queue[1..])
      else
        QueueCancel(s.(queue := s.queue[1..],
                       pending := s.pending[id := s.pending[id].(cancelRequested := true)]), id)
  }

  function DoRecvShutdown(s: Shard, order: seq<nat>): Shard {
    if !s.phase.Running? || s.queue == [] || !s.queue[0].Shutdown? || !Enumerates(order, s.pending.Keys) then s
    else CancelAll(StartShutdown(s.(queue := s.queue[1..])), order)
  }

  function DoSeeDisconnect(s: Shard): Shard {
    if !s.phase.Running? || s.queue != [] || s.senders then s else s.(shuttingDown := true)
  }

  function DoFlushOne(s: Shard): Shard {
    if !s.phase.Running? || s.backlog == [] || |s.sq| >= s.sqCap then s
    else s.(backlog := s.backlog[1..], sq := s.sq + [s.backlog[0]])
  }

  /** `handle_submit_result`: a long enough run of failures starts the shutdown. */
  function DoSubmitReturned(s: Shard, result: SubmitResult, order: seq<nat>): Shard {
    if !s.phase.Running? then s
    else if !result.Hard() then s.(errors := 0)
    else if s.shuttingDown || s.errors + 1 < MAX_CONSECUTIVE_SUBMIT_ERRORS then CountFailure(s)
    else if !Enumerates(order, s.pending.Keys) then s
    else CancelAll(StartShutdown(CountFailure(s)), order)
  }

  function CountFailure(s: Shard): Shard {
    s.(errors := s.errors + 1, stats := s.stats.(submitErrors := s.stats.submitErrors + 1))
  }

  function StartShutdown(s: Shard): Shard {
    s.(shuttingDown := true)
  }

  function CountCancel(stats: Stats, res: int): Stats {
    if res == 0 then stats.(cancelSucceeded := stats.cancelSucceeded + 1)
    else if res == -ENOENT then stats.(cancelNotFound := stats.cancelNotFound + 1)
    else if res == -EALREADY then stats.(cancelAlready := stats.cancelAlready + 1)
    else stats
  }

  /** The entry of a finished read goes, and with it its buffer and its permit. */
  function RemoveEntry(s: Shard, id: nat): Shard
    requires id in s.pending
  {
    var observed := id !in s.closed;
    s.(pending := s.pending - {id},
       heap := s.heap - {s.pending[id].block},
       queuedCancels := s.queuedCancels - {id},
       stats := s.stats.(delivered := s.stats.delivered + (if observed then 1 else 0),
                         orphans := s.stats.orphans + (if observed then 0 else 1),
                         inFlight := s.stats.inFlight - 1))
  }

  /** A finished read: its entry goes, its sender is used, its file may close. */
  function FinishEntry(s: Shard, id: nat, outcome: Outcome): Shard
    requires id in s.pending
  {
    CloseUnreferenced(Resolve(RemoveEntry(s, id), id, outcome))
  }

  /**
   * One completion is consumed. `lateClose`: the receiver closes after `deliver`
   * has looked at it and before the result is sent. `metaOk`: the metadata
   * lookup of a direct tail works.
   */
  function DoReap(s: Shard, lateClose: bool, metaOk: bool): Shard {
    if !s.phase.Running? || s.cq == [] then s
    else if s.cq[0].ud >= CANCEL_BIT then s.(cq := s.cq[1..], stats := CountCancel(s.stats, s.cq[0].res))
    else if s.cq[0].ud !in s.pending then PopCqe(s)
    else ReapEntry(PopCqe(s), s.cq[0].ud, s.cq[0].res, lateClose, metaOk)
  }

  function PopCqe(s: Shard): Shard
    requires s.cq != []
  {
    s.(cq := s.cq[1..])
  }

  function ReapEntry(s: Shard, id: nat, res: int, lateClose: bool, metaOk: bool): Shard
    requires id in s.pending
  {
    var p := s.pending[id];
    if p.block !in s.heap || p.fd !in s.fds || !p.Shaped(|s.heap[p.block].bytes|)
       || (res > 0 && p.nread + res > p.regionLen) then s.(fault := true)
    else
      var fileLen := if metaOk then Some(|s.fds[p.fd]|) else None;
      var r := ReapRead(p, res, s.shuttingDown, fileLen, s.heap[p.block].bytes, id !in s.closed);
      match r.1
      case Resubmit => if r.0.nread <= r.0.regionLen then Resubmitted(s, id, r.0) else s
      case Finish(outcome) => FinishEntry(CloseLate(s, id, lateClose), id, outcome)
  }

  function Resubmitted(s: Shard, id: nat, q: Pending): Shard
    requires q.nread <= q.regionLen
  {
    Push(s.(pending := s.pending[id := q]), ReadSqeOf(q, id))
  }

  function CloseLate(s: Shard, id: nat, lateClose: bool): Shard {
    s.(closed := if lateClose then s.closed + {id} else s.closed)
  }

  /** Dropping the channel drops the queued reads, and with them their senders. */
  function DropQueue(queue: seq<Msg>, closed: set<nat>): seq<Resolution> {
    if queue == [] then []
    else (if queue[0].Read? then [Resolution(queue[0].id, ChannelDropped, queue[0].id !in closed)] else [])
         + DropQueue(queue[1..], closed)
  }

  function LeakResults(order: seq<nat>, closed: set<nat>): seq<Resolution> {
    seq(|order|, i requires 0 <= i < |order| => Resolution(order[i], LeakedAtExit, order[i] !in closed))
  }

  function LeaveDrained(s: Shard): Shard {
    s.(phase := Drained, queue := [], results := s.results + DropQueue(s.queue, s.closed))
  }

  function DoExitDrained(s: Shard): Shard {
    if !s.phase.Running? || !s.shuttingDown || s.pending != map[] || s.backlog != [] then s
    else CloseUnreferenced(LeaveDrained(s))
  }

  function Senderless(pending: map<nat, Pending>): map<nat, Pending> {
    map id | id in pending :: pending[id].(hasSender := false)
  }

  function LeaveLeaked(s: Shard, order: seq<nat>): Shard {
    s.(phase := Leaked, queue := [],
       pending := Senderless(s.pending),
       results := s.results + LeakResults(order, s.closed) + DropQueue(s.queue, s.closed))
  }

  /** The drain deadline passed: fail the stranded callers and leak the rest. */
  function DoExitLeaked(s: Shard, order: seq<nat>): Shard {
    if !s.phase.Running? || !s.shuttingDown || (s.pending == map[] && s.backlog == [])
       || !Enumerates(order, s.pending.Keys) then s
    else CloseUnreferenced(LeaveLeaked(s, order))
  }

  // ---- the kernel ----

  /** The operation a request becomes: the kernel resolves the descriptor now. */
  function Taken(sqe: Sqe, fds: map<nat, seq<byte>>): KernelOp {
    if sqe.CancelSqe? then KCancel(sqe.target)
    else if sqe.fd in fds then KRead(sqe, fds[sqe.fd])
    else KRead(sqe, [])
  }

  /** The kernel takes the head of the submission queue. */
  function DoAcceptOne(s: Shard): Shard {
    if s.sq == [] then s
    else
      var sqe := s.sq[0];
      s.(sq := s.sq[1..],
         accepted := s.accepted + [sqe],
         ops := s.ops + [Taken(sqe, s.fds)],
         fault := s.fault || (sqe.ReadSqe? && sqe.fd !in s.fds))
  }

  predicate Mapped(heap: map<nat, Block>, ptr: Pointer, n: nat) {
    ptr.block in heap && ptr.index + n <= |heap[ptr.block].bytes|
  }

  function Overwrite(bytes: seq<byte>, at: nat, data: seq<byte>): seq<byte>
    requires at + |data| <= |bytes|
  {
    bytes[..at] + data + bytes[at + |data|..]
  }

  function Stored(heap: map<nat, Block>, ptr: Pointer, data: seq<byte>): map<nat, Block> {
    if !Mapped(heap, ptr, |data|) then heap
    else
      var b := heap[ptr.block];
      heap[ptr.block := Block(b.base, Overwrite(b.bytes, ptr.index, data))]
  }

  /** A store through a raw pointer; storing outside a live buffer is a fault. */
  function Store(s: Shard, ptr: Pointer, data: seq<byte>): Shard {
    s.(heap := Stored(s.heap, ptr, data), fault := s.fault || !Mapped(s.heap, ptr, |data|))
  }

  predicate IsRead(s: Shard, op: nat) {
    op < |s.ops| && s.ops[op].KRead? && s.ops[op].sqe.ReadSqe?
  }

  /** An operation in the kernel may fill its window with anything at any time. */
  function DoKernelWrite(s: Shard, op: nat, data: seq<byte>): Shard {
    if !IsRead(s, op) || |data| != s.ops[op].sqe.len then s else Store(s, s.ops[op].sqe.ptr, data)
  }

  /** Results and bytes the kernel may answer a read with. */
  predicate LegalCompletion(op: KernelOp, res: int, data: seq<byte>)
    requires op.KRead? && op.sqe.ReadSqe?
  {
    var sqe := op.sqe;
    && |data| == (if res > 0 then res else 0)
    && if sqe.off == CURRENT_POSITION then res <= sqe.len
       else LegalResult(op.file, sqe.off, sqe.len, res) && (res > 0 ==> data == op.file[sqe.off..sqe.off + res])
  }

  function RemoveAt<T>(q: seq<T>, i: nat): seq<T>
    requires i < |q|
  {
    q[..i] + q[i + 1..]
  }

  function DoCompleteRead(s: Shard, op: nat, res: int, data: seq<byte>): Shard {
    if !IsRead(s, op) || !LegalCompletion(s.ops[op], res, data) then s
    else
      var sqe := s.ops[op].sqe;
      Store(s.(ops := RemoveAt(s.ops, op), cq := s.cq + [Cqe(sqe.ud, res)]), sqe.ptr, data)
  }

  function DoCompleteCancel(s: Shard, op: nat, answer: int): Shard {
    if op >= |s.ops| || !s.ops[op].KCancel? || answer !in {0, -ENOENT, -EALREADY} then s
    else s.(ops := RemoveAt(s.ops, op), cq := s.cq + [Cqe(s.ops[op].target + CANCEL_BIT, answer)])
  }

  // ---- runs ----

  function Next(s: Shard, e: Event): Shard {
    match e
    case SendRead(id, args, stream) => DoSendRead(s, id, args, stream)
    case SendCancel(target) => if CanSend(s) then s.(queue := s.queue + [Cancel(target)]) else s
    case SendShutdown => if CanSend(s) then s.(queue := s.queue + [Shutdown]) else s
    case DropSenders => s.(senders := false)
    case CloseReceiver(receiver) => s.(closed := s.closed + {receiver})
    case OpenFile(fd, contents) => DoOpenFile(s, fd, contents)
    case DropFile(fd) => DoDropFile(s, fd)
    case RecvRead(block, base, aligns) => DoRecvRead(s, block, base, aligns)
    case RecvCancel => DoRecvCancel(s)
    case RecvShutdown(order) => DoRecvShutdown(s, order)
    case SeeDisconnect => DoSeeDisconnect(s)
    case FlushOne => DoFlushOne(s)
    case SubmitReturned(result, order) => DoSubmitReturned(s, result, order)
    case Reap(lateClose, metaOk) => DoReap(s, lateClose, metaOk)
    case ExitDrained => DoExitDrained(s)
    case ExitLeaked(order) => DoExitLeaked(s, order)
    case AcceptOne => DoAcceptOne(s)
    case KernelWrite(op, data) => DoKernelWrite(s, op, data)
    case CompleteRead(op, res, data) => DoCompleteRead(s, op, res, data)
    case CompleteCancel(op, answer) => DoCompleteCancel(s, op, answer)
  }

  function Run(s: Shard, events: seq<Event>): Shard
    decreases |events|
  {
    if events == [] then s else Next(Run(s, events[..|events| - 1]), events[|events| - 1])
  }

  lemma {:induction false} RunAppend(s: Shard, a: seq<Event>, b: seq<Event>)
    ensures Run(s, a + b) == Run(Run(s, a), b)
    decreases |b|
  {
    if b == [] {
      assert a + b == a;
    } else {
      var n := |b| - 1;
      assert (a + b)[..|a + b| - 1] == a + b[..n];
      RunAppend(s, a, b[..n]);
    }
  }
}
