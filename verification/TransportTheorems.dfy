/** What holds of every run of the transport. */
module TransportTheorems {
  import opened Octets
  import opened Runs
  import opened TransportMachine
  import opened TransportSafety

  ghost predicate Reachable(s: State) {
    exists s0, es :: Initial(s0) && Legal(Transport, s0, es) && After(Transport, s0, es) == s
  }

  lemma {:induction false} ReachableInv(s: State)
    requires Reachable(s)
    ensures Inv(s)
  {
    var s0, es :| Initial(s0) && Legal(Transport, s0, es) && After(Transport, s0, es) == s;
    Invariant(s0, es);
  }

  // ---- order ---------------------------------------------------------------

  /** Each write is one carrier write, in order: those done, the one in progress
      and the queue are the writes accepted.  The carrier is shut down at most
      once, after all of them, and never written to again. */
  lemma {:induction false} WritesInOrder(s: State)
    requires Reachable(s)
    ensures Writes(s.log.carrier) + InProgress(CurrentOp(s.out.at)) + s.out.queue == s.log.accepted
    ensures ShutIsLast(s.log.carrier)
    ensures EndsShut(s.log.carrier) ==> Writes(s.log.carrier) == s.log.accepted
  {
    ReachableInv(s);
  }

  // ---- back pressure -------------------------------------------------------

  /** The protocol is paused above the high limit and resumed at the low one:
      the two calls alternate, and a paused protocol has a write pending. */
  lemma {:induction false} BackPressure(s: State)
    requires Reachable(s)
    ensures s.out.queued == Size(Charged(CurrentOp(s.out.at))) + Size(s.out.queue)
    ensures s.out.paused ==> s.low < s.out.queued
    ensures !s.out.paused ==> s.out.queued <= s.high
    ensures Alternates(s.log.signals) && (s.out.paused <==> |s.log.signals| % 2 == 1)
    ensures s.out.paused ==> Charged(CurrentOp(s.out.at)) + s.out.queue != []
  {
    ReachableInv(s);
  }

  /** What a step did to the protocol's pausing, and that it said so. */
  predicate Signalled(s: State, t: State) {
    t.log.signals == s.log.signals + (if t.out.paused == s.out.paused then []
                                      else if t.out.paused then [PauseWriting] else [ResumeWriting])
  }

  /** The two limits decide: the protocol is paused by a write that takes the count
      above the high one, and resumed by a write acknowledged that takes it to the
      low one or below; nothing else calls it. */
  lemma {:induction false} LimitsDecide(s: State, e: Event)
    requires Inv(s) && Can(s, e)
    ensures var t := Step(s, e);
            && (!s.out.paused && t.out.paused <==> e.CallWrite? && !s.out.paused && t.out.queued > s.high)
            && (s.out.paused && !t.out.paused <==> e.WriterContinues? && s.out.paused && t.out.queued <= s.low)
            && Signalled(s, t)
  {
    WithinLimits(s);
    hide Inv;
    match e
    case CallWrite(data) => hide Can;
    case WriterContinues => AckDecides(s);
    case _ => OthersAreSilent(s, e); hide Step, Can;
  }

  lemma WithinLimits(s: State)
    requires Inv(s)
    ensures s.out.paused ==> s.low < s.out.queued
    ensures !s.out.paused ==> s.out.queued <= s.high
  {
    hide InOrder, ReadInOrder, Placed;
  }

  lemma {:induction false} AckDecides(s: State)
    requires Can(s, WriterContinues) && (s.out.paused ==> s.low < s.out.queued)
    ensures var t := Step(s, WriterContinues);
            && (t.out.paused ==> s.out.paused)
            && (s.out.paused && !t.out.paused <==> s.out.paused && t.out.queued <= s.low)
            && Signalled(s, t)
  {
    match s.out.at.op
    case WriteOp(data, _) => assert Step(s, WriterContinues) == WriterWrote(s, data);
    case ShutdownOp(_) => assert Step(s, WriterContinues) == WriterShut(s);
    case NoOp =>
  }

  lemma {:induction false} OthersAreSilent(s: State, e: Event)
    requires Can(s, e) && !e.CallWrite? && !e.WriterContinues?
    ensures Step(s, e).out.paused == s.out.paused && Signalled(s, Step(s, e))
  {
  }

  /** A run in which each write waits until the protocol is not paused, as a
      caller does that drains after each. */
  predicate CanDrained(s: State, e: Event) { Can(s, e) && (e.CallWrite? ==> !s.out.paused) }

  const Drained := Machine(CanDrained, Step)

  predicate WithinOneWrite(s: State) { s.out.queued <= s.high + Longest(s.log.accepted) }

  lemma {:induction false} OnlyWritesAdd(s: State, e: Event)
    requires Can(s, e) && !e.CallWrite?
    ensures var t := Step(s, e);
            t.high == s.high && t.log.accepted == s.log.accepted && t.out.queued <= s.out.queued
  {
  }

  lemma {:induction false} DrainedKeeps(s: State, e: Event)
    requires Inv(s) && WithinOneWrite(s) && CanDrained(s, e)
    ensures WithinOneWrite(Step(s, e))
  {
    hide Longest;
    if e.CallWrite? {
      LongestGrows(s.log.accepted, e.data);
      hide InOrder, ReadInOrder, Placed, Size, Alternates, Charged;
      assert !s.out.paused && s.out.queued <= s.high;
      hide Inv;
    } else {
      hide Inv;
      OnlyWritesAdd(s, e);
      hide Step, Can;
    }
  }

  /** Such a caller never leaves more than the high limit and one write queued. */
  lemma {:induction false} DrainedWriterIsBounded(s: State, es: seq<Event>)
    requires Initial(s) && Legal(Drained, s, es)
    ensures WithinOneWrite(After(Drained, s, es))
  {
    var inv := (s: State) => Inv(s) && WithinOneWrite(s);
    InitialInv(s);
    forall s, e | inv(s) && CanDrained(s, e) ensures inv(Step(s, e)) {
      StepKeeps(s, e);
      DrainedKeeps(s, e);
    }
    Kept(Drained, inv, s, es);
  }

  // ---- wake-ups and progress -----------------------------------------------

  /** A loop parked with its event clear has nothing to do. */
  lemma {:induction false} NoLostWakeUp(s: State)
    requires Reachable(s) && s.out.at.WParked? && !s.out.wake && !s.flags.lost
    ensures s.out.queue == [] && !s.flags.eof && !s.flags.closing
  {
    ReachableInv(s);
  }

  /** The write loop's events, its carrier's, and returns of callbacks. */
  predicate IsWork(e: Event) {
    || e.WriterRuns? || e.CarrierPerforms? || e.WriterContinues? || e.WriterFails?
    || e.ResumeWritingReturns? || e.WriterIsCancelled?
  }

  predicate IsReturn(e: Event) {
    e.ResumeWritingReturns? || e.DataReceivedReturns? || e.EofReceivedReturns?
  }

  /** An event of the write loop, its carrier or a callback that is due. */
  function Due(s: State): Event {
    if s.out.at.WResuming? then ResumeWritingReturns
    else if s.inp.at.RDelivering? then DataReceivedReturns
    else if s.inp.at.REofCall? then EofReceivedReturns(true)
    else if s.out.cancel then WriterIsCancelled
    else if s.out.at.WBusy? then (if Unperformed(s.out.at.op) then CarrierPerforms else WriterContinues)
    else WriterRuns
  }

  /** Something is due whenever a closed transport is not lost, or a paused one
      has not failed. */
  lemma {:induction false} SomethingIsDue(s: State)
    requires Inv(s) && !s.flags.lost && (s.flags.closing || s.out.paused)
    ensures Can(s, Due(s)) && (IsWork(Due(s)) || IsReturn(Due(s)))
  {
    if s.out.at.WEnded? { EndedIsEmpty(s); }
    hide InOrder, ReadInOrder;
  }

  lemma EndedIsEmpty(s: State)
    requires Inv(s) && s.out.at.WEnded? && !s.flags.lost
    ensures s.out.at.op == ShutdownOp(true) && s.out.queue == []
  {
    hide Pressed, ReadInOrder, Writes, ShutIsLast, EndsShut;
  }

  /** What the write loop and the carrier have yet to do. */
  function Rank(w: WriterAt): nat {
    match w
    case WEnded(op, _) => if Unperformed(op) then 1 else 0
    case WBusy(ShutdownOp(done)) => if done then 2 else 3
    case WParked => 4
    case WStart => 5
    case WResuming => 5
    case WBusy(WriteOp(_, done)) => if done then 6 else 7
    case WBusy(NoOp) => 0
  }

  function Cost(s: State): nat { 4 * |s.out.queue| + Rank(s.out.at) }

  /** Every event of the loop or the carrier uses up some of it; only a write
      accepted adds any. */
  lemma {:induction false} WorkIsPaid(s: State, e: Event)
    requires Inv(s) && Can(s, e)
    ensures IsWork(e) ==> Cost(Step(s, e)) < Cost(s)
    ensures !IsWork(e) ==> Cost(Step(s, e)) <= Cost(s) + (if e.CallWrite? && !s.flags.closing then 4 else 0)
  {
    hide InOrder, Pressed, ReadInOrder;
  }

  predicate InvClosing(s: State) { Inv(s) && s.flags.closing }

  lemma {:induction false} ClosingStays(s: State, e: Event)
    requires s.flags.closing && Can(s, e)
    ensures Step(s, e).flags.closing
  {
  }

  /** After `close()`, whatever is called and however the loops, the carrier and
      the callbacks take turns, the loop and the carrier do no more than a
      bounded number of things, and once nothing of theirs is due the protocol's
      `connection_lost` was scheduled, exactly once. */
  lemma {:induction false} CloseCompletes(s: State, es: seq<Event>)
    requires Reachable(s) && s.flags.closing && Legal(Transport, s, es)
    ensures Count(IsWork, es) <= Cost(s)
    ensures var t := After(Transport, s, es);
            t.log.losses == 1 || (t.log.losses == 0 && Can(t, Due(t)))
  {
    ReachableInv(s);
    InvIsInductive();
    forall s, e | InvClosing(s) && Can(s, e) ensures InvClosing(Step(s, e)) {
      StepKeeps(s, e);
      ClosingStays(s, e);
    }
    var price := (e: Event) => 0;
    forall s, e | InvClosing(s) && Can(s, e)
      ensures Cost(Step(s, e)) + (if IsWork(e) then 1 else 0) <= Cost(s) + price(e)
    {
      WorkIsPaid(s, e);
    }
    Budget(Transport, InvClosing, Cost, IsWork, price, s, es);
    NothingIsFree(price, es);
    Kept(Transport, InvClosing, s, es);
    var t := After(Transport, s, es);
    if !t.flags.lost { SomethingIsDue(t); }
  }

  lemma {:induction false} NothingIsFree(price: Event -> nat, es: seq<Event>)
    requires forall e :: price(e) == 0
    ensures Total(price, es) == 0
  {
    if es != [] { NothingIsFree(price, es[1..]); }
  }

  /** The loops and the carrier have nothing to do, and no callback is under way. */
  ghost predicate Idle(s: State) { Current(s).Other? && forall e :: IsWork(e) ==> !Can(s, e) }

  lemma {:induction false} EofStays(s: State, e: Event)
    requires s.flags.eof && Can(s, e)
    ensures Step(s, e).flags.eof && Step(s, e).log.accepted == s.log.accepted
  {
  }

  /** After `write_eof` nothing more is accepted, and once nothing is left to do, with
      the transport not lost, the carrier has every write accepted before it and
      then one shutdown. */
  lemma {:induction false} EofCompletes(s: State, es: seq<Event>)
    requires Reachable(s) && Legal(Transport, Step(s, CallWriteEof), es)
    ensures var t := After(Transport, Step(s, CallWriteEof), es);
            && t.log.accepted == s.log.accepted
            && (Idle(t) && !t.flags.lost ==>
                  Writes(t.log.carrier) == s.log.accepted && EndsShut(t.log.carrier) && ShutIsLast(t.log.carrier))
  {
    ReachableInv(s);
    StepKeeps(s, CallWriteEof);
    var inv := (t: State) => Inv(t) && t.flags.eof && t.log.accepted == s.log.accepted;
    forall t, e | inv(t) && Can(t, e) ensures inv(Step(t, e)) {
      StepKeeps(t, e);
      EofStays(t, e);
      hide Inv, Step;
    }
    Kept(Transport, inv, Step(s, CallWriteEof), es);
    var t := After(Transport, Step(s, CallWriteEof), es);
    if Idle(t) && !t.flags.lost { IdleIsShut(t); }
  }

  lemma {:induction false} IdleIsShut(t: State)
    requires Inv(t) && t.flags.eof && Idle(t) && !t.flags.lost
    ensures Writes(t.log.carrier) == t.log.accepted && EndsShut(t.log.carrier) && ShutIsLast(t.log.carrier)
  {
    assert !Can(t, WriterRuns) && !Can(t, CarrierPerforms) && !Can(t, WriterContinues);
    assert t.out.at.WEnded? by { hide InOrder, Pressed, ReadInOrder; }
    EndedIsEmpty(t);
    hide Writes, ShutIsLast, EndsShut, Pressed, ReadInOrder, Placed;
    assert Writes(t.log.carrier) + [] + [] == Writes(t.log.carrier);
  }

  /** A paused protocol is never left waiting: until the transport is lost
      something is due. */
  lemma {:induction false} PausedIsNotStuck(s: State)
    requires Reachable(s) && s.out.paused && !s.flags.lost
    ensures Can(s, Due(s)) && (IsWork(Due(s)) || IsReturn(Due(s)))
  {
    ReachableInv(s);
    SomethingIsDue(s);
  }

  /** `connection_lost` is scheduled at most once, when the transport is lost. */
  lemma {:induction false} LostAtMostOnce(s: State)
    requires Reachable(s)
    ensures s.log.losses <= 1
    ensures s.log.losses == 1 <==> s.flags.lost
    ensures s.flags.lost ==> s.flags.closing
  {
    ReachableInv(s);
  }

  /** What closes the transport. */
  predicate IsClose(e: Event) {
    e.CallClose? || e.CallAbort? || e.WriterFails? || e.ReaderFails? || e == EofReceivedReturns(false)
  }

  predicate IsLoss(e: Event) { e.CallAbort? || e.WriterFails? || e.ReaderFails? }

  /** A failure of the carrier, before anything else lost the transport. */
  predicate HurtsFirst(s: State, e: Event) { (e.WriterFails? || e.ReaderFails?) && !s.flags.lost }

  lemma {:induction false} LossMoves(s: State, e: Event)
    requires Inv(s) && Can(s, e)
    ensures Step(s, e).flags.closing <==> s.flags.closing || IsClose(e)
    ensures s.flags.lost || IsLoss(e) ==> Step(s, e).flags.lost
    ensures Step(s, e).flags.lost && !Step(s, e).log.clean <==> (s.flags.lost && !s.log.clean) || HurtsFirst(s, e)
  {
    hide InOrder, Pressed, ReadInOrder;
  }

  /** The transport closes by a call, a failure or a protocol that does not keep it
      open at the carrier's end, and by nothing else; so `write_eof` alone leaves
      it open for reading.  An abort or a failure loses it; and the loss is
      reported as an error exactly if a failure of the carrier came first. */
  lemma {:induction false} LossHasACause(s: State, es: seq<Event>)
    requires Initial(s) && Legal(Transport, s, es)
    ensures var t := After(Transport, s, es);
            && (t.flags.closing <==> Has(IsClose, es))
            && (t.flags.lost ==> Has(IsClose, es))
            && (Has(IsLoss, es) ==> t.flags.lost)
            && (t.flags.lost && !t.log.clean <==> Any(Transport, HurtsFirst, s, es))
  {
    InitialInv(s);
    InvIsInductive();
    Kept(Transport, Inv, s, es);
    assert After(Transport, s, es).flags.lost ==> After(Transport, s, es).flags.closing;
    hide Inv, Step, Can, IsClose, IsLoss, HurtsFirst;
    var closing := (t: State) => t.flags.closing;
    var lost := (t: State) => t.flags.lost;
    var hurt := (t: State) => t.flags.lost && !t.log.clean;
    forall t, e | Inv(t) && Can(t, e)
      ensures closing(Step(t, e)) <==> closing(t) || IsClose(e)
      ensures lost(t) || IsLoss(e) ==> lost(Step(t, e))
      ensures hurt(Step(t, e)) <==> hurt(t) || HurtsFirst(t, e)
    {
      LossMoves(t, e);
    }
    Tells(Transport, Inv, closing, IsClose, s, es);
    Lasts(Transport, Inv, lost, IsLoss, s, es);
    Remembered(Transport, Inv, hurt, HurtsFirst, s, es);
  }

  /** Closing twice is closing once. */
  lemma {:induction false} CloseIsOnce(s: State)
    requires Inv(s)
    ensures s.flags.closing ==> Step(s, CallClose) == s
    ensures Step(Step(s, CallClose), CallClose) == Step(s, CallClose)
  {
    hide Inv;
  }

  // ---- reading -------------------------------------------------------------

  /** Chunks reach the protocol in the order the carrier gave them, none lost or
      repeated but one in the hands of the read loop. */
  lemma {:induction false} ReadsInOrder(s: State)
    requires Reachable(s)
    ensures s.log.delivered <= s.log.received
    ensures !s.inp.at.REnded? ==> |s.log.received| <= |s.log.delivered| + 1
    ensures !s.inp.at.REnded? && !s.inp.at.RReading? ==> s.log.delivered == s.log.received
  {
    ReachableInv(s);
  }

  /** What the read loop does next, with the carrier's next chunk, or the callback
      that has to return first. */
  function ReaderDue(s: State, chunk: Bytes): Event {
    if s.out.at.WResuming? then ResumeWritingReturns
    else match s.inp.at
         case RReading(None) => CarrierReads(chunk)
         case RReading(Some(_)) => ReaderContinues
         case RDelivering => DataReceivedReturns
         case REofCall => EofReceivedReturns(true)
         case _ => ReaderRuns
  }

  /** While reading is not paused the read loop waits only for the carrier: until
      the transport is lost what is due can happen. */
  lemma {:induction false} ReaderIsNotStuck(s: State, chunk: Bytes)
    requires Reachable(s) && s.inp.open && !s.flags.lost && !s.inp.at.REnded?
    ensures Can(s, ReaderDue(s, chunk))
  {
    ReachableInv(s);
    GateIsOpen(s);
    hide Inv, Reachable;
  }

  lemma {:induction false} GateIsOpen(s: State)
    requires Inv(s) && s.inp.open && !s.flags.lost
    ensures s.inp.at != RGate(false) && !s.inp.cancel
  {
    hide InOrder, Pressed, Placed;
  }

  /** The chunk that may still be delivered though reading is paused. */
  function Credit(r: ReaderAt): nat {
    match r
    case RGate(woken) => if woken then 1 else 0
    case RReading(got) => if got == Some([]) then 0 else 1
    case _ => 0
  }

  predicate CanPaused(s: State, e: Event) { Can(s, e) && !e.CallResumeReading? }

  const WhilePaused := Machine(CanPaused, Step)

  lemma {:induction false} CreditIsSpent(s: State, e: Event)
    requires !s.inp.open && CanPaused(s, e)
    ensures var t := Step(s, e);
            !t.inp.open && |t.log.delivered| + Credit(t.inp.at) <= |s.log.delivered| + Credit(s.inp.at)
  {
  }

  /** From `pause_reading` to the next `resume_reading` one chunk at most is
      delivered. */
  lemma {:induction false} OneChunkWhilePaused(s: State, es: seq<Event>)
    requires !s.inp.open && Legal(WhilePaused, s, es)
    ensures |After(WhilePaused, s, es).log.delivered| <= |s.log.delivered| + 1
  {
    var bound := |s.log.delivered| + Credit(s.inp.at);
    var inv := (t: State) => !t.inp.open && |t.log.delivered| + Credit(t.inp.at) <= bound;
    forall s, e | inv(s) && CanPaused(s, e) ensures inv(Step(s, e)) { CreditIsSpent(s, e); }
    Kept(WhilePaused, inv, s, es);
  }

  /** That is what `pause_reading` does: whatever the state it is called in, at most
      one more chunk is delivered before `resume_reading` is. */
  lemma {:induction false} PauseHolds(s: State, es: seq<Event>)
    requires Legal(WhilePaused, Step(s, CallPauseReading), es)
    ensures |After(WhilePaused, Step(s, CallPauseReading), es).log.delivered| <= |s.log.delivered| + 1
  {
    OneChunkWhilePaused(Step(s, CallPauseReading), es);
  }

  /** A read loop that was woken reads, though reading was paused again before it
      ran; one that starts, or goes round, waits while reading is paused. */
  lemma {:induction false} WakeIsNotTakenBack(s: State)
    requires s.inp.at.RGate? && Current(s).Other? && !s.inp.cancel
    ensures var t := Step(Step(s, CallResumeReading), CallPauseReading);
            Can(t, ReaderRuns) && Step(t, ReaderRuns).inp.at == RReading(None)
  {
  }

  /** The read loop will deliver nothing more. */
  predicate Stopped(i: In) { i.at.REnded? || i.at.REofCall? || (i.cancel && !i.at.RDelivering?) }

  lemma {:induction false} StoppedStays(s: State, e: Event)
    requires Stopped(s.inp) && Can(s, e)
    ensures Stopped(Step(s, e).inp) && Step(s, e).log.delivered == s.log.delivered
  {
  }

  lemma {:induction false} LossStops(s: State, e: Event)
    requires !s.flags.lost && Can(s, e) && Step(s, e).flags.lost && !s.inp.at.RDelivering?
    ensures Stopped(Step(s, e).inp) && Step(s, e).log.delivered == s.log.delivered
  {
  }

  /** Whatever loses the transport, nothing is delivered after it, in any run,
      unless it happens inside `data_received`. */
  lemma {:induction false} LossStopsReading(s: State, e: Event, es: seq<Event>)
    requires !s.flags.lost && Can(s, e) && Step(s, e).flags.lost && !s.inp.at.RDelivering?
    requires Legal(Transport, Step(s, e), es)
    ensures After(Transport, Step(s, e), es).log.delivered == s.log.delivered
  {
    LossStops(s, e);
    var inv := (t: State) => Stopped(t.inp) && t.log.delivered == s.log.delivered;
    forall t, e | inv(t) && Can(t, e) ensures inv(Step(t, e)) { StoppedStays(t, e); }
    Kept(Transport, inv, Step(s, e), es);
  }

  lemma {:induction false} LossSpares(s: State, e: Event)
    requires Inv(s) && !s.flags.lost && Can(s, e) && Step(s, e).flags.lost && s.inp.at.RDelivering?
    ensures var t := Step(s, e);
            t.inp.at.RDelivering? && !t.inp.cancel && !t.out.at.WResuming? && t.log.delivered == s.log.delivered
  {
    hide InOrder, Pressed, ReadInOrder;
  }

  /** And there it always can: the read loop is not cancelled, and goes on. */
  lemma {:induction false} LossInsideDelivery(s: State, e: Event, chunk: Bytes) returns (es: seq<Event>)
    requires Reachable(s) && !s.flags.lost && Can(s, e) && Step(s, e).flags.lost
    requires s.inp.at.RDelivering? && chunk != []
    ensures Legal(Transport, Step(s, e), es)
    ensures After(Transport, Step(s, e), es).log.delivered == s.log.delivered + [chunk]
  {
    ReachableInv(s);
    LossSpares(s, e);
    es := GoesOnReading(Step(s, e), chunk);
  }

  lemma {:induction false} GoesOnReading(s: State, chunk: Bytes) returns (es: seq<Event>)
    requires s.inp.at.RDelivering? && !s.inp.cancel && !s.out.at.WResuming? && chunk != []
    ensures Legal(Transport, s, es) && After(Transport, s, es).log.delivered == s.log.delivered + [chunk]
  {
    var s1 := Step(s, CallResumeReading);
    var s2 := Step(s1, DataReceivedReturns);
    var s3 := Step(s2, CarrierReads(chunk));
    var s4 := Step(s3, ReaderContinues);
    assert Can(s, CallResumeReading) && Can(s1, DataReceivedReturns);
    assert Can(s2, CarrierReads(chunk)) && Can(s3, ReaderContinues);
    assert s4.log.delivered == s.log.delivered + [chunk];
    hide Step, Can;
    es := [];
    Goes(Transport, s, es, CallResumeReading); es := es + [CallResumeReading];
    Goes(Transport, s, es, DataReceivedReturns); es := es + [DataReceivedReturns];
    Goes(Transport, s, es, CarrierReads(chunk)); es := es + [CarrierReads(chunk)];
    Goes(Transport, s, es, ReaderContinues); es := es + [ReaderContinues];
  }

  /** Such a loss is reached: `abort()` inside the first `data_received`. */
  lemma {:induction false} AbortInsideDelivery(s: State, chunk: Bytes) returns (es: seq<Event>)
    requires Initial(s) && chunk != []
    ensures Legal(Transport, s, es)
    ensures var t := After(Transport, s, es);
            !t.flags.lost && t.inp.at.RDelivering? && Can(t, CallAbort) && Step(t, CallAbort).flags.lost
  {
    var s1 := Step(s, ReaderRuns);
    var s2 := Step(s1, CarrierReads(chunk));
    var s3 := Step(s2, ReaderContinues);
    assert Can(s, ReaderRuns) && Can(s1, CarrierReads(chunk)) && Can(s2, ReaderContinues) && Can(s3, CallAbort);
    assert !s3.flags.lost && s3.inp.at.RDelivering? && Step(s3, CallAbort).flags.lost;
    hide Step, Can;
    es := [];
    Goes(Transport, s, es, ReaderRuns); es := es + [ReaderRuns];
    Goes(Transport, s, es, CarrierReads(chunk)); es := es + [CarrierReads(chunk)];
    Goes(Transport, s, es, ReaderContinues); es := es + [ReaderContinues];
  }
}
