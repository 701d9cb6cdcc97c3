/** The producer and consumer of copyPipeline (internal/reconcile/reconcile.go) as a
    concurrent system: one goroutine streams bodies into a bounded channel, the other
    appends them through a ring of unconfirmed appends and records them in batches. */
module Pipeline {

  // -------------------------------------------- the consumer's local variables

  /** ring: issued, unconfirmed; records: confirmed, not yet stored; recorded: stored;
      lost: appends of unknown outcome; failed: consErr is set. */
  datatype Cons<T> = Cons(ring: seq<T>, records: seq<T>, recorded: seq<T>, lost: seq<T>, failed: bool)

  function Idle<T>(): Cons<T> { Cons([], [], [], [], false) }

  function Begun<T>(c: Cons<T>, it: T): Cons<T> { c.(ring := c.ring + [it]) }

  function BeginFailed<T>(c: Cons<T>, it: T): Cons<T> { c.(lost := c.lost + [it], failed := true) }

  function Confirmed<T>(c: Cons<T>): Cons<T>
    requires c.ring != []
  {
    c.(ring := c.ring[1..], records := c.records + [c.ring[0]])
  }

  function Unconfirmed<T>(c: Cons<T>): Cons<T>
    requires c.ring != []
  {
    c.(ring := c.ring[1..], lost := c.lost + [c.ring[0]], failed := true)
  }

  function Flushed<T>(c: Cons<T>): Cons<T> { c.(recorded := c.recorded + c.records, records := []) }

  function FlushFailed<T>(c: Cons<T>): Cons<T> { c.(failed := true) }

  // --------------------------------------------------------------- the system

  const DEPTH := 8
  const APPEND_RING := 4
  const RECORD_FLUSH := 50

  datatype Limits = Limits(ring: nat, flush: nat)

  /** Without the guard: one append in flight, recorded at once. */
  function LimitsFor(guard: bool): Limits {
    if guard then Limits(APPEND_RING, RECORD_FLUSH) else Limits(1, 1)
  }

  predicate LimitsOk(l: Limits) { 1 <= l.ring && 1 <= l.flush }

  datatype Producer<T> = Fetching | Sending(item: T) | Ended(err: bool)

  /** Where the consumer stands; tail says that the channel is drained and closed. */
  datatype Pc<T> = Recv | Have(item: T) | Settling(tail: bool) | Flushing(tail: bool) | Tail | Final | Stopped

  datatype Pipe<T> = Pipe(
    stream: seq<T>,      // what the server still has to send
    sent: seq<T>,        // everything put into the channel so far
    skipped: seq<T>,     // empty bodies and UIDs nobody asked for
    ch: seq<T>,
    prod: Producer<T>,
    pc: Pc<T>,
    cons: Cons<T>,
    cancelled: bool)

  datatype Move =
    | FetchItem | SkipItem | FetchError | FetchEnd | Send | SeeFailed | SeeCancelled
    | Receive | Drain | CloseSeen | BeginOk | BeginBad | WaitOk | WaitBad | FlushOk | FlushBad
    | TailSettle | TailDone | FinalEmpty | Cancel
  {
    predicate Begins() { BeginOk? || BeginBad? }

    predicate Settles() { WaitOk? || WaitBad? || FlushOk? || FlushBad? }
  }

  function Start<T>(stream: seq<T>): Pipe<T> {
    Pipe(stream, [], [], [], Fetching, Recv, Idle(), false)
  }

  predicate Can<T>(l: Limits, p: Pipe<T>, m: Move) {
    match m
    case FetchItem => p.prod.Fetching? && p.stream != []
    case SkipItem => p.prod.Fetching? && p.stream != []
    case FetchError => p.prod.Fetching?
    case FetchEnd => p.prod.Fetching? && p.stream == []
    case Send => p.prod.Sending? && |p.ch| < DEPTH
    case SeeFailed => p.prod.Sending? && p.cons.failed
    case SeeCancelled => p.prod.Sending? && p.cancelled
    case Receive => p.pc.Recv? && p.ch != [] && !p.cons.failed
    case Drain => p.pc.Recv? && p.ch != [] && p.cons.failed
    case CloseSeen => p.pc.Recv? && p.ch == [] && p.prod.Ended?
    case BeginOk => p.pc.Have?
    case BeginBad => p.pc.Have?
    case WaitOk => p.pc.Settling? && p.cons.ring != []
    case WaitBad => p.pc.Settling? && p.cons.ring != []
    case FlushOk => p.pc.Flushing? || (p.pc.Final? && p.cons.records != [])
    case FlushBad => p.pc.Flushing? || (p.pc.Final? && p.cons.records != [])
    case TailSettle => p.pc.Tail? && !p.cons.failed && p.cons.ring != []
    case TailDone => p.pc.Tail? && (p.cons.failed || p.cons.ring == [])
    case FinalEmpty => p.pc.Final? && p.cons.records == []
    case Cancel => !p.cancelled
  }

  function Back<T>(tail: bool): Pc<T> { if tail then Tail else Recv }

  function AfterFlush<T>(pc: Pc<T>): Pc<T> {
    if pc.Flushing? then Back(pc.tail) else Stopped
  }

  function Step<T>(l: Limits, p: Pipe<T>, m: Move): Pipe<T>
    requires Can(l, p, m)
  {
    match m
    case FetchItem => p.(stream := p.stream[1..], prod := Sending(p.stream[0]))
    case SkipItem => p.(stream := p.stream[1..], skipped := p.skipped + [p.stream[0]])
    case FetchError => p.(prod := Ended(true))
    case FetchEnd => p.(prod := Ended(false))
    case Send => p.(sent := p.sent + [p.prod.item], ch := p.ch + [p.prod.item], prod := Fetching)
    case SeeFailed => p.(prod := Ended(true))
    case SeeCancelled => p.(prod := Ended(true))
    case Receive => p.(ch := p.ch[1..], pc := Have(p.ch[0]))
    case Drain => p.(ch := p.ch[1..])
    case CloseSeen => p.(pc := Tail)
    case BeginOk =>
      var c := Begun(p.cons, p.pc.item);
      p.(cons := c, pc := if |c.ring| >= l.ring then Settling(false) else Recv)
    case BeginBad => p.(cons := BeginFailed(p.cons, p.pc.item), pc := Recv)
    case WaitOk =>
      var c := Confirmed(p.cons);
      p.(cons := c, pc := if |c.records| >= l.flush then Flushing(p.pc.tail) else Back(p.pc.tail))
    case WaitBad => p.(cons := Unconfirmed(p.cons), pc := Back(p.pc.tail))
    case FlushOk => p.(cons := Flushed(p.cons), pc := AfterFlush(p.pc))
    case FlushBad => p.(cons := FlushFailed(p.cons), pc := AfterFlush(p.pc))
    case TailSettle => p.(pc := Settling(true))
    case TailDone => p.(pc := Final)
    case FinalEmpty => p.(pc := Stopped)
    case Cancel => p.(cancelled := true)
  }

  predicate Terminal<T>(p: Pipe<T>) { p.pc.Stopped? && p.prod.Ended? }

  /** What copyPipeline returns: nil exactly when neither side nor the context failed. */
  predicate ReturnsNil<T>(p: Pipe<T>) {
    !p.cons.failed && p.prod == Ended(false) && !p.cancelled
  }

  // -------------------------------------------------------------- invariants

  function Holding<T>(pc: Pc<T>): seq<T> { if pc.Have? then [pc.item] else [] }

  /** Until the first error everything sent is recorded, buffered, in the ring or still
      queued, in FIFO order; afterwards the records are a prefix of what was sent. */
  ghost predicate Fifo<T>(p: Pipe<T>) {
    && p.cons.recorded + p.cons.records <= p.sent
    && (!p.cons.failed ==>
          p.sent == p.cons.recorded + p.cons.records + p.cons.ring + Holding(p.pc) + p.ch)
  }

  ghost predicate Sizes<T>(l: Limits, p: Pipe<T>) {
    && |p.ch| <= DEPTH
    && |p.cons.ring| + |p.cons.records| + |p.cons.lost| < l.ring + l.flush
    && (p.cons.failed || p.cons.lost == [])
    && |p.cons.ring| <= l.ring
    && (p.pc.Recv? || p.pc.Have? || p.pc.Tail? ==> |p.cons.ring| < l.ring)
    && (p.pc.Settling? ==> p.cons.ring != [] && (p.pc.tail ==> |p.cons.ring| < l.ring))
    && (p.pc.Flushing? ==> |p.cons.ring| < l.ring && p.cons.records != [])
    && (!p.cons.failed && !p.pc.Flushing? ==> |p.cons.records| < l.flush)
    && (p.cons.failed && |p.cons.lost| == 1 ==> |p.cons.records| < l.flush && |p.cons.ring| < l.ring)
    && |p.cons.lost| <= 1
    && |p.cons.records| <= l.flush
  }

  ghost predicate Control<T>(p: Pipe<T>) {
    && (p.pc.Have? || p.pc.Settling? || p.pc.Flushing? ==> !p.cons.failed)
    && (p.pc.Tail? || p.pc.Final? || p.pc.Stopped? ==> p.ch == [] && p.prod.Ended?)
    && ((p.pc.Settling? || p.pc.Flushing?) && p.pc.tail ==> p.ch == [] && p.prod.Ended?)
    && ((p.pc.Final? || p.pc.Stopped?) && !p.cons.failed ==> p.cons.ring == [])
    && (p.pc.Stopped? && !p.cons.failed ==> p.cons.records == [])
  }

  ghost predicate PipeInv<T>(l: Limits, p: Pipe<T>) { LimitsOk(l) && Fifo(p) && Sizes(l, p) && Control(p) }

  lemma FifoStep<T>(l: Limits, p: Pipe<T>, m: Move)
    requires PipeInv(l, p) && Can(l, p, m)
    ensures Fifo(Step(l, p, m))
  {
    if m.Begins() { BeginFifo(l, p, m); }
    else if m.Settles() { SettleFifo(l, p, m); }
    else { ChannelFifo(l, p, m); }
  }

  /** The moves that change the channel only, and those that change nothing of the order. */
  lemma ChannelFifo<T>(l: Limits, p: Pipe<T>, m: Move)
    requires PipeInv(l, p) && Can(l, p, m) && !m.Begins() && !m.Settles()
    ensures Fifo(Step(l, p, m))
  {
    match m
    case Receive => assert p.ch == [p.ch[0]] + p.ch[1..];
    case Send => SendFifo(p);
    case _ =>
  }

  lemma SendFifo<T>(p: Pipe<T>)
    requires Fifo(p) && p.prod.Sending?
    ensures var sent, ch := p.sent + [p.prod.item], p.ch + [p.prod.item];
            && p.cons.recorded + p.cons.records <= sent
            && (!p.cons.failed ==> sent == p.cons.recorded + p.cons.records + p.cons.ring + Holding(p.pc) + ch)
  {
  }

  /** The item in hand goes into the ring, or is lost with the consumer. */
  lemma BeginFifo<T>(l: Limits, p: Pipe<T>, m: Move)
    requires PipeInv(l, p) && Can(l, p, m) && m.Begins()
    ensures Fifo(Step(l, p, m))
  {
    var c := p.cons;
    assert c.ring + [p.pc.item] + p.ch == c.ring + ([p.pc.item] + p.ch);
  }

  /** The oldest append is settled, or the records are flushed. */
  lemma SettleFifo<T>(l: Limits, p: Pipe<T>, m: Move)
    requires PipeInv(l, p) && Can(l, p, m) && m.Settles()
    ensures Fifo(Step(l, p, m))
  {
    match m
    case WaitOk => WaitFifo(p);
    case FlushOk => FlushFifo(p);
    case _ =>
  }

  lemma FlushFifo<T>(p: Pipe<T>)
    requires Fifo(p) && !p.pc.Have?
    ensures var c := Flushed(p.cons);
            && c.recorded + c.records <= p.sent
            && (!c.failed ==> p.sent == c.recorded + c.records + c.ring + [] + p.ch)
  {
    var c, c' := p.cons, Flushed(p.cons);
    assert c'.recorded + c'.records == c.recorded + c.records;
  }

  lemma WaitFifo<T>(p: Pipe<T>)
    requires Fifo(p) && !p.cons.failed && p.cons.ring != [] && !p.pc.Have?
    ensures var c := Confirmed(p.cons);
            c.recorded + c.records <= p.sent && p.sent == c.recorded + c.records + c.ring + p.ch
  {
    var c := p.cons;
    assert c.ring == [c.ring[0]] + c.ring[1..];
    assert p.sent == c.recorded + c.records + c.ring + p.ch;
    assert c.recorded + (c.records + [c.ring[0]]) == c.recorded + c.records + [c.ring[0]];
    assert p.sent == c.recorded + (c.records + [c.ring[0]]) + c.ring[1..] + p.ch;
  }

  lemma PipeStep<T>(l: Limits, p: Pipe<T>, m: Move)
    requires PipeInv(l, p) && Can(l, p, m)
    ensures PipeInv(l, Step(l, p, m))
  {
    FifoStep(l, p, m);
  }

  /** No interleaving gets stuck: until both sides have stopped, one of them can move. */
  lemma NoDeadlock<T>(l: Limits, p: Pipe<T>)
    requires PipeInv(l, p) && !Terminal(p)
    ensures exists m :: m != Cancel && Can(l, p, m)
  {
    var m := match p.pc
      case Recv =>
        if p.ch != [] then (if p.cons.failed then Drain else Receive)
        else (match p.prod
              case Fetching => FetchError
              case Sending(_) => Send
              case Ended(_) => CloseSeen)
      case Have(_) => BeginOk
      case Settling(_) => WaitOk
      case Flushing(_) => FlushOk
      case Tail => if p.cons.failed || p.cons.ring == [] then TailDone else TailSettle
      case Final => if p.cons.records == [] then FinalEmpty else FlushOk
      case Stopped => FetchError;
    assert Can(l, p, m);
  }

  // -------------------------------------------------------------- termination

  function ProdRank<T>(prod: Producer<T>): nat {
    match prod case Fetching => 1 case Sending(_) => 8 case Ended(_) => 0
  }

  function PcRank<T>(pc: Pc<T>): nat {
    match pc
    case Recv => 3
    case Have(_) => 8
    case Settling(tail) => if tail then 1 else 4
    case Flushing(tail) => if tail then 3 else 4
    case Tail => 2
    case Final => 1
    case Stopped => 0
  }

  function Rank<T>(p: Pipe<T>): nat {
    8 * |p.stream| + ProdRank(p.prod) + 6 * |p.ch| + PcRank(p.pc) + 3 * |p.cons.ring| + if p.cancelled then 0 else 1
  }

  lemma RankDrops<T>(l: Limits, p: Pipe<T>, m: Move)
    requires Can(l, p, m)
    ensures Rank(Step(l, p, m)) < Rank(p)
  {
  }

  // -------------------------------------------------------------- whole calls

  ghost predicate Reaches<T>(l: Limits, p: Pipe<T>, moves: seq<Move>, q: Pipe<T>)
    decreases |moves|
  {
    if moves == [] then p == q
    else Can(l, p, moves[0]) && Reaches(l, Step(l, p, moves[0]), moves[1..], q)
  }

  /** Every interleaving keeps the order and the sizes, and none is longer than the rank of
      its start; where no move is left, the call has ended. */
  lemma {:induction false} CallKeeps<T>(l: Limits, p: Pipe<T>, moves: seq<Move>, q: Pipe<T>)
    requires PipeInv(l, p) && Reaches(l, p, moves, q)
    ensures PipeInv(l, q)
    ensures |moves| + Rank(q) <= Rank(p)
    ensures (forall m :: Can(l, q, m) ==> m == Cancel) ==> Terminal(q)
    decreases |moves|
  {
    if moves != [] {
      PipeStep(l, p, moves[0]);
      RankDrops(l, p, moves[0]);
      CallKeeps(l, Step(l, p, moves[0]), moves[1..], q);
    } else if !Terminal(q) {
      NoDeadlock(l, q);
    }
  }

  function InHand<T>(prod: Producer<T>): seq<T> { if prod.Sending? then [prod.item] else [] }

  /** Until the stream breaks off, each requested body is sent, in hand, skipped as empty or
      still to come; if none was skipped, in the order of the stream. */
  ghost predicate Conserved<T>(all: seq<T>, p: Pipe<T>) {
    p.prod != Ended(true) ==>
      && (p.prod.Ended? ==> p.stream == [])
      && multiset(all) == multiset(p.sent) + multiset(InHand(p.prod)) + multiset(p.skipped) + multiset(p.stream)
      && (p.skipped == [] ==> all == p.sent + InHand(p.prod) + p.stream)
  }

  predicate ProducerMove(m: Move) {
    m.FetchItem? || m.SkipItem? || m.FetchError? || m.FetchEnd? || m.Send? || m.SeeFailed? || m.SeeCancelled?
  }

  lemma ConsumerFrame<T>(l: Limits, p: Pipe<T>, m: Move)
    requires Can(l, p, m) && !ProducerMove(m)
    ensures var q := Step(l, p, m);
            q.sent == p.sent && q.skipped == p.skipped && q.stream == p.stream && q.prod == p.prod
  {
  }

  lemma ConservedFetch<T>(all: seq<T>, p: Pipe<T>, l: Limits, m: Move)
    requires Conserved(all, p) && Can(l, p, m) && (m.FetchItem? || m.SkipItem?)
    ensures Conserved(all, Step(l, p, m))
  {
    assert p.stream == [p.stream[0]] + p.stream[1..];
  }

  lemma ConservedSend<T>(all: seq<T>, p: Pipe<T>, l: Limits)
    requires Conserved(all, p) && Can(l, p, Send)
    ensures Conserved(all, Step(l, p, Send))
  {
    assert p.sent + InHand(p.prod) + p.stream == (p.sent + [p.prod.item]) + [] + p.stream;
  }

  lemma ConservedStep<T>(l: Limits, all: seq<T>, p: Pipe<T>, m: Move)
    requires Conserved(all, p) && Can(l, p, m)
    ensures Conserved(all, Step(l, p, m))
  {
    if !ProducerMove(m) {
      ConsumerFrame(l, p, m);
    } else if m.FetchItem? || m.SkipItem? {
      ConservedFetch(all, p, l, m);
    } else if m.Send? {
      ConservedSend(all, p, l);
    }
  }

  lemma {:induction false} CallConserves<T>(l: Limits, all: seq<T>, p: Pipe<T>, moves: seq<Move>, q: Pipe<T>)
    requires Conserved(all, p) && Reaches(l, p, moves, q)
    ensures Conserved(all, q)
    decreases |moves|
  {
    if moves != [] {
      ConservedStep(l, all, p, moves[0]);
      CallConserves(l, all, Step(l, p, moves[0]), moves[1..], q);
    }
  }

  lemma NilMeansAll<T>(l: Limits, stream: seq<T>, q: Pipe<T>)
    requires PipeInv(l, q) && Conserved(stream, q) && Terminal(q) && ReturnsNil(q)
    ensures q.cons.recorded == q.sent && q.cons.ring == q.cons.records == q.cons.lost == []
    ensures multiset(stream) == multiset(q.cons.recorded) + multiset(q.skipped)
    ensures q.skipped == [] ==> q.cons.recorded == stream
  {
    assert q.cons.recorded + [] + [] + [] + [] == q.cons.recorded;
    assert q.sent + [] + [] == q.sent;
  }

  /** A finished call: whatever happened, the store holds a prefix of what was sent and
      confirmed; on nil it holds everything requested except bodies skipped as empty, with
      nothing left in flight. At no time were more than ring + flush - 1 appends issued and
      unrecorded. */
  lemma CallResult<T>(guard: bool, stream: seq<T>, moves: seq<Move>, q: Pipe<T>)
    requires Reaches(LimitsFor(guard), Start(stream), moves, q)
    ensures q.cons.recorded <= q.sent
    ensures |q.cons.ring| + |q.cons.records| + |q.cons.lost| <= if guard then 53 else 1
    ensures Terminal(q) && ReturnsNil(q) ==>
              && q.cons.recorded == q.sent && q.cons.ring == q.cons.records == q.cons.lost == []
              && multiset(stream) == multiset(q.cons.recorded) + multiset(q.skipped)
              && (q.skipped == [] ==> q.cons.recorded == stream)
  {
    CallKeeps(LimitsFor(guard), Start(stream), moves, q);
    assert q.cons.recorded <= q.cons.recorded + q.cons.records;
    if Terminal(q) && ReturnsNil(q) {
      assert stream == [] + [] + stream;
      CallConserves(LimitsFor(guard), stream, Start(stream), moves, q);
      NilMeansAll(LimitsFor(guard), stream, q);
    }
  }
}
