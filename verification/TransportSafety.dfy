/** What every event of the transport keeps, and what follows for every run:
    order, back pressure, wake-ups and the one loss. */
module TransportSafety {
  import opened Octets
  import opened Runs
  import opened TransportMachine

  // ---- the words of the claims ---------------------------------------------

  /** The carrier's writes, without its shutdown. */
  function Writes(c: seq<CarrierEvent>): seq<Bytes> {
    if c == [] then []
    else
      var last := c[|c| - 1];
      Writes(c[..|c| - 1]) + (if last.Wrote? then [last.data] else [])
  }

  predicate EndsShut(c: seq<CarrierEvent>) { c != [] && c[|c| - 1].Shut? }

  /** Nothing follows a shutdown. */
  predicate ShutIsLast(c: seq<CarrierEvent>) {
    forall i :: 0 <= i < |c| - 1 ==> c[i].Wrote?
  }

  /** The write handed to the carrier that it has not done. */
  function InProgress(op: Op): seq<Bytes> {
    if op.WriteOp? && !op.performed then [op.data] else []
  }

  /** The write that still counts as queued: the loop was not told it is done. */
  function Charged(op: Op): seq<Bytes> {
    if op.WriteOp? then [op.data] else []
  }

  /** Calls alternate, the first being `pause_writing`. */
  predicate Alternates(cs: seq<Signal>) {
    forall i :: 0 <= i < |cs| ==> (cs[i].PauseWriting? <==> i % 2 == 0)
  }

  // ---- the invariant -------------------------------------------------------

  /** The carrier's writes, then the one in progress, then the queue, are the
      writes accepted; a shutdown comes last, and only by the loop's own call. */
  predicate InOrder(carrier: seq<CarrierEvent>, op: Op, queue: seq<Bytes>, accepted: seq<Bytes>) {
    && Writes(carrier) + InProgress(op) + queue == accepted
    && ShutIsLast(carrier)
    && (EndsShut(carrier) <==> op == ShutdownOp(true))
    && (op.ShutdownOp? ==> queue == [])
    && (forall i :: 0 <= i < |accepted| ==> accepted[i] != [])
  }

  /** The count is the bytes queued or in progress, and the protocol is paused
      just as the two limits say. */
  predicate Pressed(low: nat, high: nat, op: Op, queue: seq<Bytes>, queued: int, paused: bool,
                    signals: seq<Signal>) {
    && low <= high
    && queued == Size(Charged(op)) + Size(queue)
    && (paused ==> low < queued)
    && (!paused ==> queued <= high)
    && Alternates(signals)
    && (paused <==> |signals| % 2 == 1)
  }

  /** Chunks are delivered as they come, and a read loop waits at the gate only
      while reading is paused. */
  predicate ReadInOrder(inp: In, received: seq<Bytes>, delivered: seq<Bytes>) {
    && received == delivered + Chunks(inp.at)
    && (inp.open ==> inp.at != RGate(false))
  }

  /** Where the write loop stands fits the rest: a parked loop that nothing will
      wake has nothing to do, and a loop is over without a loss only after an
      end of file. */
  predicate Placed(o: Out, f: Flags) {
    && (o.at.WParked? && !o.wake && !o.cancel ==> o.queue == [] && !f.eof && !f.closing)
    && (o.at.WParked? && o.wake ==> o.queue != [] || f.eof || f.closing)
    && (CurrentOp(o.at).ShutdownOp? ==> f.eof || f.closing)
    && (o.at.WBusy? ==> !o.at.op.NoOp?)
    && (o.at.WEnded? && o.at.how.Returned? ==> o.at.op == ShutdownOp(true))
    && (o.at.WEnded? && !f.lost ==> o.at.how.Returned? && !f.closing)
    && (f.lost ==> f.closing)
    && (o.cancel ==> f.lost)
    && (o.at.WResuming? ==> !o.cancel)
  }

  predicate Inv(s: State) {
    && InOrder(s.log.carrier, CurrentOp(s.out.at), s.out.queue, s.log.accepted)
    && Pressed(s.low, s.high, CurrentOp(s.out.at), s.out.queue, s.out.queued, s.out.paused, s.log.signals)
    && ReadInOrder(s.inp, s.log.received, s.log.delivered)
    && Placed(s.out, s.flags)
    && s.log.losses == (if s.flags.lost then 1 else 0)
    && (s.inp.cancel ==> s.flags.lost)
    && (s.out.at.WResuming? ==> !s.inp.at.RDelivering? && !s.inp.at.REofCall?)
  }

  lemma InitialInv(s: State)
    requires Initial(s)
    ensures Inv(s)
  {
  }

  // ---- every event keeps it ------------------------------------------------

  lemma {:induction false} QueueGrows(s: State, data: Bytes, t: State)
    requires Inv(s) && !s.flags.closing && !s.flags.eof && data != [] && t == DoWrite(s, data)
    ensures InOrder(t.log.carrier, CurrentOp(t.out.at), t.out.queue, t.log.accepted)
    ensures Pressed(t.low, t.high, CurrentOp(t.out.at), t.out.queue, t.out.queued, t.out.paused, t.log.signals)
  {
    hide Writes, ShutIsLast, EndsShut, ReadInOrder;
    SizeAppends(s.out.queue, [data]);
    SizeOfOne(data);
    hide Size;
  }

  lemma {:induction false} WriteKeeps(s: State, data: Bytes)
    requires Inv(s)
    ensures Inv(DoWrite(s, data))
  {
    if !(s.flags.closing || s.flags.eof || data == []) { QueueGrows(s, data, DoWrite(s, data)); }
    hide InOrder, Pressed, ReadInOrder;
  }

  lemma {:induction false} LoseKeeps(s: State, runner: Task, clean: bool)
    requires Inv(s) || (s.flags.closing && Inv(s.(flags := s.flags.(closing := false))) && s.out.at.WEnded?)
    requires runner == Current(s) || (Current(s).Other? && runner.Writer? && s.out.at.WBusy?)
             || (Current(s).Other? && runner.Reader? && s.inp.at.RReading?)
    ensures Inv(Lose(s, runner, clean))
  {
    hide InOrder, Pressed;
  }

  lemma {:induction false} CloseKeeps(s: State, runner: Task)
    requires Inv(s) && runner == Current(s)
    ensures Inv(DoClose(s, runner))
  {
    hide InOrder, Pressed, ReadInOrder;
    if !s.flags.closing && s.out.at.WEnded? {
      var t := s.(flags := s.flags.(closing := true), out := s.out.(wake := true));
      LoseKeeps(t, runner, true);
    }
  }

  lemma {:induction false} QueueShrinks(s: State, t: State)
    requires Inv(s) && s.out.at.WResuming? && s.out.queue != [] && t == WriterHead(s)
    ensures InOrder(t.log.carrier, CurrentOp(t.out.at), t.out.queue, t.log.accepted)
    ensures Pressed(t.low, t.high, CurrentOp(t.out.at), t.out.queue, t.out.queued, t.out.paused, t.log.signals)
  {
    hide Writes, ShutIsLast, EndsShut, ReadInOrder, Placed, Alternates;
    assert s.out.queue == [s.out.queue[0]] + s.out.queue[1..];
    SizeOfOne(s.out.queue[0]);
  }

  /** The order does not care which carrier call a loop is at that holds no
      data and shut nothing. */
  lemma OrderOfIdle(carrier: seq<CarrierEvent>, op: Op, op': Op, queue: seq<Bytes>, accepted: seq<Bytes>)
    requires InOrder(carrier, op, queue, accepted)
    requires InProgress(op) == InProgress(op') == []
    requires op != ShutdownOp(true) && op' != ShutdownOp(true)
    requires op'.ShutdownOp? ==> queue == []
    ensures InOrder(carrier, op', queue, accepted)
  {
    hide Writes, ShutIsLast, EndsShut;
  }

  /** At the loop's head nothing is in progress or charged. */
  lemma {:induction false} HeadKeeps(s: State)
    requires Inv(s) && s.out.at.WResuming?
    ensures Inv(WriterHead(s))
  {
    if s.out.queue != [] {
      QueueShrinks(s, WriterHead(s));
    } else {
      OrderOfIdle(s.log.carrier, NoOp, ShutdownOp(false), s.out.queue, s.log.accepted);
      assert Charged(ShutdownOp(false)) == Charged(NoOp);
      assert Pressed(s.low, s.high, ShutdownOp(false), s.out.queue, s.out.queued, s.out.paused, s.log.signals);
    }
    hide InOrder, ReadInOrder, Pressed;
  }

  /** A loop that starts, or wakes, is at its head. */
  lemma {:induction false} RunsKeeps(s: State)
    requires Inv(s) && Can(s, WriterRuns)
    ensures Inv(WriterHead(s))
  {
    var t := s.(out := s.out.(at := WResuming));
    assert Inv(t) by { hide InOrder, Pressed, ReadInOrder; }
    hide Inv;
    HeadKeeps(t);
    assert WriterHead(t) == WriterHead(s);
  }

  lemma {:induction false} WritesAppends(c: seq<CarrierEvent>, x: CarrierEvent)
    ensures Writes(c + [x]) == Writes(c) + (if x.Wrote? then [x.data] else [])
  {
    assert (c + [x])[..|c|] == c;
  }

  lemma {:induction false} PerformInOrder(carrier: seq<CarrierEvent>, op: Op, queue: seq<Bytes>, accepted: seq<Bytes>)
    requires InOrder(carrier, op, queue, accepted) && Unperformed(op)
    ensures InOrder(carrier + Trace(op), DoneOp(op), queue, accepted)
  {
    hide Writes;
    if op.ShutdownOp? { WritesAppends(carrier, Shut); } else { WritesAppends(carrier, Wrote(op.data)); }
  }

  lemma PerformPressed(low: nat, high: nat, op: Op, queue: seq<Bytes>, queued: int, paused: bool,
                       signals: seq<Signal>)
    requires Pressed(low, high, op, queue, queued, paused, signals)
    ensures Pressed(low, high, DoneOp(op), queue, queued, paused, signals)
  {
    hide Size, Alternates;
    assert Charged(DoneOp(op)) == Charged(op);
  }

  lemma PerformPlaced(s: State)
    requires Placed(s.out, s.flags) && Can(s, CarrierPerforms)
    ensures Placed(Perform(s).out, s.flags)
  {
  }

  lemma {:induction false} PerformKeeps(s: State)
    requires Inv(s) && Can(s, CarrierPerforms)
    ensures Inv(Perform(s))
  {
    var op := CurrentOp(s.out.at);
    PerformInOrder(s.log.carrier, op, s.out.queue, s.log.accepted);
    PerformPressed(s.low, s.high, op, s.out.queue, s.out.queued, s.out.paused, s.log.signals);
    PerformPlaced(s);
    hide InOrder, ReadInOrder, Pressed, Trace, Placed;
    assert CurrentOp(Perform(s).out.at) == DoneOp(op);
  }

  /** A write acknowledged leaves the loop inside `resume_writing`, or at its
      head. */
  lemma {:induction false} WroteKeeps(s: State, data: Bytes)
    requires Inv(s) && s.out.at == WBusy(WriteOp(data, true)) && !s.out.cancel && Current(s).Other?
    ensures Inv(WriterWrote(s, data))
  {
    var o := s.out.(queued := s.out.queued - |data|, at := WResuming);
    WrotePressed(s, data);
    OrderOfIdle(s.log.carrier, CurrentOp(s.out.at), NoOp, s.out.queue, s.log.accepted);
    hide InOrder, ReadInOrder, Pressed;
    if !(o.paused && o.queued <= s.low) {
      var t := s.(out := o);
      assert Inv(t);
      hide Inv;
      HeadKeeps(t);
      assert WriterHead(t) == WriterWrote(s, data);
    }
  }

  lemma {:induction false} WrotePressed(s: State, data: Bytes)
    requires Inv(s) && CurrentOp(s.out.at) == WriteOp(data, true)
    ensures var n := s.out.queued - |data|;
            if s.out.paused && n <= s.low
            then Pressed(s.low, s.high, NoOp, s.out.queue, n, false, s.log.signals + [ResumeWriting])
            else Pressed(s.low, s.high, NoOp, s.out.queue, n, s.out.paused, s.log.signals)
  {
    SizeOfOne(data);
    var none := Charged(NoOp);
    assert none == [] && Size(none) == 0;
    hide InOrder, ReadInOrder, Placed, Size;
  }

  lemma {:induction false} ShutKeeps(s: State)
    requires Inv(s) && s.out.at == WBusy(ShutdownOp(true)) && !s.out.cancel && Current(s).Other?
    ensures Inv(WriterShut(s))
  {
    if s.flags.closing { LoseKeeps(s, Writer, true); }
    hide InOrder, Pressed, ReadInOrder;
  }

  lemma {:induction false} FailKeeps(s: State)
    requires Inv(s) && Can(s, WriterFails)
    ensures Inv(WriterFailed(s))
  {
    LoseKeeps(s, Writer, false);
    hide InOrder, Pressed, ReadInOrder;
  }

  lemma {:induction false} CancelKeeps(s: State)
    requires Inv(s) && Can(s, WriterIsCancelled)
    ensures Inv(Step(s, WriterIsCancelled))
  {
    hide InOrder, Pressed, ReadInOrder;
  }

  lemma {:induction false} EofKeeps(s: State)
    requires Inv(s)
    ensures Inv(DoWriteEof(s))
  {
    hide InOrder, Pressed, ReadInOrder;
  }

  /** Other halves of the state are left alone by the read loop's own pieces. */
  lemma {:induction false} ReaderMoves(s: State, e: Event)
    requires Inv(s) && Can(s, e)
    requires e.ReaderRuns? || e.CarrierReads? || e.ReaderContinues? || e.DataReceivedReturns?
             || e.ReaderIsCancelled? || e.CallPauseReading? || e.CallResumeReading?
    ensures Inv(Step(s, e))
  {
    hide InOrder, Pressed, Placed;
  }

  lemma {:induction false} ReaderEnds(s: State)
    requires Inv(s) && Chunks(s.inp.at) == []
    ensures Inv(ReaderGoes(s, REnded([])))
  {
    hide InOrder, Pressed, Placed;
  }

  lemma {:induction false} ReaderKeeps(s: State, e: Event)
    requires Inv(s) && Can(s, e)
    requires e.ReaderRuns? || e.CarrierReads? || e.ReaderContinues? || e.ReaderFails?
             || e.DataReceivedReturns? || e.EofReceivedReturns? || e.ReaderIsCancelled?
             || e.CallPauseReading? || e.CallResumeReading?
    ensures Inv(Step(s, e))
  {
    assert e.EofReceivedReturns? ==> Current(s) == Reader;
    hide Inv;
    match e
    case ReaderFails => LoseKeeps(s, Reader, false); ReaderEnds(Lose(s, Reader, false));
    case EofReceivedReturns(keepOpen) =>
      if keepOpen {
        ReaderEnds(s);
      } else {
        CloseKeeps(s, Reader);
        ReaderEnds(DoClose(s, Reader));
      }
    case _ => ReaderMoves(s, e);
  }

  lemma {:induction false} StepKeeps(s: State, e: Event)
    requires Inv(s) && Can(s, e)
    ensures Inv(Step(s, e))
  {
    assert s.out.at.WBusy? && s.out.at.op.NoOp? ==> false by { hide InOrder, Pressed, ReadInOrder; }
    hide Inv;
    match e
    case CallWrite(data) => WriteKeeps(s, data);
    case CallWriteEof => EofKeeps(s);
    case CallClose => CloseKeeps(s, Current(s));
    case CallAbort => LoseKeeps(s, Current(s), true);
    case WriterRuns => RunsKeeps(s);
    case CarrierPerforms => PerformKeeps(s);
    case WriterContinues =>
      if s.out.at.op.ShutdownOp? { ShutKeeps(s); } else { WroteKeeps(s, s.out.at.op.data); }
    case WriterFails => FailKeeps(s);
    case ResumeWritingReturns => HeadKeeps(s);
    case WriterIsCancelled => CancelKeeps(s);
    case _ => ReaderKeeps(s, e);
  }

  lemma {:induction false} Invariant(s: State, es: seq<Event>)
    requires Initial(s) && Legal(Transport, s, es)
    ensures Inv(After(Transport, s, es))
  {
    InitialInv(s);
    InvIsInductive();
    Kept(Transport, Inv, s, es);
  }

  lemma {:induction false} InvIsInductive()
    ensures Inductive(Transport, Inv)
  {
    forall s, e | Inv(s) && Can(s, e) ensures Inv(Step(s, e)) { StepKeeps(s, e); }
  }
}
