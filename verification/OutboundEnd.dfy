/** How the way out ends: what the carrier has seen once the session has shut down
    and nothing is left to run, whoever closed the transport; that this comes; and
    the runs in which writes are lost. */
module OutboundEnd {
  import opened Octets
  import opened Runs
  import opened LayerChannel
  import opened Outbound
  import T = TransportMachine
  import S = TransportSafety
  import P = TransportTheorems

  // ---- completion ----------------------------------------------------------

  /** What the pipeline does by itself; the session's calls, what the carrier
      reads, and other callers' calls of the transport are not. */
  predicate IsWork(e: Event) {
    match e
    case SessionWrites(_) => false
    case SessionShutsDown => false
    case Transport(e) => P.IsWork(e) || P.IsReturn(e)
    case _ => true
  }

  /** Nothing is left to run. */
  ghost predicate Quiet(s: State) { forall e :: IsWork(e) ==> !Can(s, e) }

  lemma {:induction false} DueIsWork(s: State)
    requires S.Inv(s.tr) && !s.tr.flags.lost && (s.tr.flags.closing || s.tr.out.paused)
    ensures !Quiet(s)
  {
    P.SomethingIsDue(s.tr);
    var e := Transport(P.Due(s.tr));
    assert IsWork(e) && Can(s, e) by { hide S.Inv, T.Can; }
  }

  /** Once the session has shut down and nothing is left to run, the pump is over,
      the layer holds nothing, and the transport is lost, once. */
  lemma {:induction false} QuietIsOver(f: seq<Bytes> -> Bytes, s: State)
    requires Inv(f, s) && !s.open && Quiet(s)
    ensures s.pump.Ended? && s.layer.held == [] && s.layer.closed
    ensures s.tr.flags.lost && s.tr.log.losses == 1
  {
    assert !Can(s, PumpReads) && !Can(s, PumpWrites) && !Can(s, PumpDrained);
    assert !Can(s, LayerWrites) && !Can(s, LayerCloses);
    if !s.tr.flags.lost && (s.tr.flags.closing || s.tr.out.paused) { DueIsWork(s); }
    hide Flows, Consumed, S.InOrder, S.Pressed, S.ReadInOrder, S.Placed, Quiet;
  }

  // ---- without a failure ----------------------------------------------------

  /** The transport is lost only by the end of its write loop, or after it. */
  predicate Unhurt(tr: T.State) {
    && !tr.out.cancel
    && (tr.flags.lost ==> tr.out.at == T.WEnded(T.ShutdownOp(true), T.Returned) && tr.log.clean)
  }

  lemma {:induction false} StaysUnhurt(s: T.State, e: T.Event)
    requires S.Inv(s) && T.Can(s, e) && Unhurt(s) && IsCalm(Transport(e))
    ensures Unhurt(T.Step(s, e))
  {
    hide S.InOrder, S.Pressed, S.ReadInOrder;
  }

  lemma {:induction false} CloseUnhurt(s: T.State)
    requires S.Inv(s) && Unhurt(s)
    ensures Unhurt(T.DoClose(s, T.Current(s)))
  {
    hide S.InOrder, S.Pressed, S.ReadInOrder;
  }

  predicate CalmInv(f: seq<Bytes> -> Bytes, s: State) { Inv(f, s) && Unhurt(s.tr) }

  lemma {:induction false} CalmKeeps(f: seq<Bytes> -> Bytes, s: State, e: Event)
    requires OneForOne(f) && CalmInv(f, s) && CanCalm(s, e)
    ensures CalmInv(f, Step(f, s, e))
  {
    hide OneForOne;
    StepKeeps(f, s, e);
    hide S.Inv, Flows, Consumed, Whole;
    match e
    case Transport(x) => StaysUnhurt(s.tr, x); hide T.Step, T.Can, Unhurt;
    case LayerCloses => CloseUnhurt(s.tr); hide T.DoClose, Unhurt;
    case _ =>
  }

  lemma {:induction false} CalmRuns(f: seq<Bytes> -> Bytes, s: State, es: seq<Event>)
    requires OneForOne(f) && CalmInv(f, s) && Legal(Calm(f), s, es)
    ensures CalmInv(f, After(Calm(f), s, es))
  {
    hide OneForOne;
    var inv := (s: State) => CalmInv(f, s);
    forall s, e | inv(s) && Calm(f).can(s, e) ensures inv(Calm(f).step(s, e)) { CalmKeeps(f, s, e); }
    Kept(Calm(f), inv, s, es);
  }

  lemma {:induction false} EndedIsShut(s: T.State)
    requires S.Inv(s) && Unhurt(s) && s.flags.lost
    ensures S.EndsShut(s.log.carrier)
  {
    hide S.Writes, S.ShutIsLast, S.Pressed, S.ReadInOrder, S.Placed;
  }

  lemma {:induction false} QuietIsShut(f: seq<Bytes> -> Bytes, t: State)
    requires CalmInv(f, t) && !t.open && Quiet(t)
    ensures S.Writes(t.tr.log.carrier) == t.tr.log.accepted
    ensures S.EndsShut(t.tr.log.carrier) && S.ShutIsLast(t.tr.log.carrier)
    ensures t.tr.log.losses == 1 && t.tr.log.clean
  {
    QuietIsOver(f, t);
    EndedIsShut(t.tr);
    TransportPrefix(t.tr);
    hide S.Writes, S.EndsShut, S.ShutIsLast, S.Inv, Flows, Consumed, Whole, Quiet;
  }

  /** Once the session has shut down and nothing is left to run, and whoever closed
      the transport, the carrier has seen all that the transport accepted, and
      then one shutdown; `connection_lost` was scheduled once, without an
      error.  What is missing of the session's writes up to the first empty one
      is what the transport refused and what the pump never read. */
  lemma {:induction false} CarrierSeesAccepted(f: seq<Bytes> -> Bytes, s: State, es: seq<Event>)
    requires OneForOne(f) && Initial(s) && Legal(Calm(f), s, es)
    ensures var t := After(Calm(f), s, es);
            !t.open && Quiet(t) ==>
              && S.Writes(t.tr.log.carrier) == t.tr.log.accepted
              && S.EndsShut(t.tr.log.carrier) && S.ShutIsLast(t.tr.log.carrier)
              && t.tr.log.losses == 1 && t.tr.log.clean
              && S.Writes(t.tr.log.carrier) + t.layer.refused + MappedAfter(f, t.passed, Unread(t))
                 == Mapped(f, BeforeEmpty(t.sent))
  {
    hide OneForOne;
    InitialInv(f, s);
    CalmRuns(f, s, es);
    var t := After(Calm(f), s, es);
    if !t.open && Quiet(t) {
      QuietIsShut(f, t);
      QuietIsOver(f, t);
      PassedAndUnread(f, t);
      hide S.Writes, S.EndsShut, S.ShutIsLast, S.Inv, Consumed, Whole, Quiet, Unread, BeforeEmpty, Mapped, MappedAfter;
      assert t.tr.log.accepted + t.layer.refused + [] == t.tr.log.accepted + t.layer.refused;
    }
  }

  /** A closed transport accepts nothing more, in any run. */
  lemma {:induction false} ClosedStays(f: seq<Bytes> -> Bytes, s: State, es: seq<Event>)
    requires Closed(s.tr) && Legal(Calm(f), s, es)
    ensures var t := After(Calm(f), s, es); Closed(t.tr) && t.tr.log.accepted == s.tr.log.accepted
  {
    var inv := (t: State) => Closed(t.tr) && t.tr.log.accepted == s.tr.log.accepted;
    forall t, e | inv(t) && Calm(f).can(t, e) ensures inv(Calm(f).step(t, e)) { ClosedAccepts(f, t, e); }
    Kept(Calm(f), inv, s, es);
  }

  lemma {:induction false} ClosedAccepts(f: seq<Bytes> -> Bytes, s: State, e: Event)
    requires Closed(s.tr) && Can(s, e)
    ensures Closed(Step(f, s, e).tr) && Step(f, s, e).tr.log.accepted == s.tr.log.accepted
  {
    if e.Transport? {
      OthersAccept(s.tr, e.e);
      hide T.Step, T.Can, Closed;
    }
  }

  lemma {:induction false} ClosingAccepts(f: seq<Bytes> -> Bytes, s: State, e: Event)
    requires !Closed(s.tr) && Can(s, e) && Closed(Step(f, s, e).tr)
    ensures Step(f, s, e).tr.log.accepted == s.tr.log.accepted
  {
    if e.Transport? {
      OthersAccept(s.tr, e.e);
      hide T.Step, T.Can, Closed;
    }
  }

  /** Whoever closes the transport, the layer, its protocol at the carrier's end or
      anyone else: what it had accepted by then arrives, and nothing after.  So
      all the session's writes arrive exactly when it had accepted the last of
      them before it closed. */
  lemma {:induction false} ClosingCutsThere(f: seq<Bytes> -> Bytes, s: State, es: seq<Event>, e: Event, fs: seq<Event>)
    requires OneForOne(f) && Initial(s) && Legal(Calm(f), s, es)
    requires var u := After(Calm(f), s, es);
             !Closed(u.tr) && CanCalm(u, e) && Closed(Step(f, u, e).tr) && Legal(Calm(f), Step(f, u, e), fs)
    ensures var u := After(Calm(f), s, es);
            var t := After(Calm(f), Step(f, u, e), fs);
            !t.open && Quiet(t) ==>
              && S.Writes(t.tr.log.carrier) == u.tr.log.accepted
              && (S.Writes(t.tr.log.carrier) == Mapped(f, t.sent) <==> |u.tr.log.accepted| == |t.sent|)
  {
    hide OneForOne;
    InitialInv(f, s);
    CalmRuns(f, s, es);
    var u := After(Calm(f), s, es);
    CalmKeeps(f, u, e);
    CalmRuns(f, Step(f, u, e), fs);
    var t := After(Calm(f), Step(f, u, e), fs);
    ClosingAccepts(f, u, e);
    ClosedStays(f, Step(f, u, e), fs);
    if !t.open && Quiet(t) {
      QuietIsShut(f, t);
      PrefixOf(f, t);
      hide S.Writes, Inv, Quiet, Step, BeforeEmpty;
      assert |Mapped(f, t.sent)| == |t.sent|;
    }
  }

  // ---- when only the layer closes -------------------------------------------

  predicate OpenInv(f: seq<Bytes> -> Bytes, s: State) {
    && CalmInv(f, s)
    && (s.tr.flags.closing ==> s.layer.closed) && !s.tr.flags.eof
    && s.layer.refused == [] && s.pump != Ended(ByLoss)
  }

  /** Nobody else closes the transport. */
  lemma {:induction false} OthersLeaveOpen(s: T.State, e: T.Event)
    requires S.Inv(s) && T.Can(s, e) && LeavesOpen(Transport(e)) && Unhurt(s) && !s.flags.eof
    ensures T.Step(s, e).flags.closing == s.flags.closing && !T.Step(s, e).flags.eof
  {
    hide S.InOrder, S.Pressed, S.ReadInOrder;
  }

  lemma {:induction false} OpenKeeps(f: seq<Bytes> -> Bytes, s: State, e: Event)
    requires OneForOne(f) && OpenInv(f, s) && CanOpen(s, e)
    ensures OpenInv(f, Step(f, s, e))
  {
    hide OneForOne;
    CalmKeeps(f, s, e);
    assert s.tr.flags.lost ==> s.layer.closed && s.pump.Ended? by {
      hide S.InOrder, S.Pressed, S.ReadInOrder, Flows, Consumed;
    }
    hide S.Inv, Flows, Consumed;
    if e.Transport? {
      OthersLeaveOpen(s.tr, e.e);
      hide T.Step, T.Can, CalmInv;
    }
  }

  lemma {:induction false} OpenRuns(f: seq<Bytes> -> Bytes, s: State, es: seq<Event>)
    requires OneForOne(f) && Initial(s) && Legal(LeftOpen(f), s, es)
    ensures OpenInv(f, After(LeftOpen(f), s, es))
  {
    hide OneForOne;
    InitialInv(f, s);
    var inv := (s: State) => OpenInv(f, s);
    forall s, e | inv(s) && LeftOpen(f).can(s, e) ensures inv(LeftOpen(f).step(s, e)) { OpenKeeps(f, s, e); }
    Kept(LeftOpen(f), inv, s, es);
  }

  lemma {:induction false} AllIsPassed(f: seq<Bytes> -> Bytes, t: State)
    requires OpenInv(f, t) && t.pump.Ended? && t.layer.held == []
    ensures t.tr.log.accepted == Mapped(f, BeforeEmpty(t.sent))
  {
    PassedAndUnread(f, t);
    assert Unread(t) == [] by { hide S.Inv, Flows, Whole; BeforeEmptyStops(t.chan); }
    hide S.Inv, Consumed, Whole, BeforeEmpty, Unread;
    var a := t.tr.log.accepted;
    assert a + [] + [] == a && Mapped(f, t.passed) + MappedAfter(f, t.passed, []) == Mapped(f, t.passed);
  }

  /** When only the layer closes the transport, then once the session has shut
      down and nothing is left to run the carrier has seen the image of each
      write up to the first empty one, and then one shutdown. */
  lemma {:induction false} CarrierSeesAll(f: seq<Bytes> -> Bytes, s: State, es: seq<Event>)
    requires OneForOne(f) && Initial(s) && Legal(LeftOpen(f), s, es)
    ensures var t := After(LeftOpen(f), s, es);
            !t.open && Quiet(t) ==>
              && S.Writes(t.tr.log.carrier) == Mapped(f, BeforeEmpty(t.sent))
              && S.EndsShut(t.tr.log.carrier) && S.ShutIsLast(t.tr.log.carrier)
              && t.tr.log.losses == 1
  {
    hide OneForOne;
    OpenRuns(f, s, es);
    var t := After(LeftOpen(f), s, es);
    if !t.open && Quiet(t) {
      hide Inv, Unhurt, S.Writes, S.EndsShut, S.ShutIsLast, BeforeEmpty, Mapped, Quiet;
      QuietIsOver(f, t);
      QuietIsShut(f, t);
      AllIsPassed(f, t);
    }
  }

  /** So no write is lost just when none was empty. */
  lemma {:induction false} AllWritesArrive(f: seq<Bytes> -> Bytes, s: State, es: seq<Event>)
    requires OneForOne(f) && Initial(s) && Legal(LeftOpen(f), s, es)
    ensures var t := After(LeftOpen(f), s, es);
            !t.open && Quiet(t) ==>
              (S.Writes(t.tr.log.carrier) == Mapped(f, t.sent)
               <==> forall i :: 0 <= i < |t.sent| ==> t.sent[i] != [])
  {
    hide OneForOne;
    CarrierSeesAll(f, s, es);
    var t := After(LeftOpen(f), s, es);
    BeforeEmptyIsAll(t.sent);
    if |BeforeEmpty(t.sent)| < |t.sent| {
      assert |Mapped(f, BeforeEmpty(t.sent))| != |Mapped(f, t.sent)|;
    }
  }

  // ---- work is bounded ------------------------------------------------------

  function PumpCost(p: Pump): nat {
    match p
    case Ended(_) => 0
    case GotEnd => 2
    case Waiting => 3
    case Draining => 4
    case Got(_) => 10
  }

  /** What is left to do, an upper bound. */
  function Cost(s: State): nat {
    8 * |s.chan| + PumpCost(s.pump) + 5 * |s.layer.held| + (if s.layer.closed then 0 else 1)
    + P.Cost(s.tr) + ReaderCost(s.tr.inp.at)
  }

  /** A callback of the read loop that has yet to return. */
  function ReaderCost(r: T.ReaderAt): nat {
    if r.RDelivering? || r.REofCall? then 1 else 0
  }

  /** A write of the session brings eight pieces of work; a chunk the carrier
      read brings one, its callback. */
  function Price(e: Event): nat {
    match e
    case SessionWrites(_) => 8
    case Transport(ReaderContinues) => 1
    case _ => 0
  }

  lemma {:induction false} TransportIsPaid(s: T.State, e: T.Event)
    requires S.Inv(s) && T.Can(s, e) && !e.CallWrite?
    ensures var t := T.Step(s, e);
            P.Cost(t) + ReaderCost(t.inp.at) + (if P.IsWork(e) || P.IsReturn(e) then 1 else 0)
            <= P.Cost(s) + ReaderCost(s.inp.at) + Price(Transport(e))
  {
    P.WorkIsPaid(s, e);
    ReaderIsPaid(s, e);
    hide P.Cost, S.Inv;
  }

  lemma {:induction false} ReaderIsPaid(s: T.State, e: T.Event)
    requires T.Can(s, e)
    ensures var t := T.Step(s, e);
            ReaderCost(t.inp.at) + (if e.DataReceivedReturns? || e.EofReceivedReturns? then 1 else 0)
            <= ReaderCost(s.inp.at) + Price(Transport(e))
  {
  }

  lemma {:induction false} WriteIsPaid(s: T.State, m: Bytes)
    ensures P.Cost(T.DoWrite(s, m)) <= P.Cost(s) + 4
    ensures ReaderCost(T.DoWrite(s, m).inp.at) == ReaderCost(s.inp.at)
    ensures P.Cost(T.DoClose(s, T.Current(s))) == P.Cost(s)
    ensures ReaderCost(T.DoClose(s, T.Current(s)).inp.at) == ReaderCost(s.inp.at)
  {
  }

  lemma {:induction false} WorkIsPaid(f: seq<Bytes> -> Bytes, s: State, e: Event)
    requires Inv(f, s) && Can(s, e)
    ensures Cost(Step(f, s, e)) + (if IsWork(e) then 1 else 0) <= Cost(s) + Price(e)
  {
    hide S.Inv, P.Cost, Flows, Consumed, ReaderCost, T.Step, T.Can, T.DoWrite, T.DoClose;
    match e
    case Transport(e) => TransportIsPaid(s.tr, e);
    case LayerWrites => WriteIsPaid(s.tr, s.layer.held[0]);
    case LayerCloses => WriteIsPaid(s.tr, []);
    case _ =>
  }

  /** The work of a run is bounded by the session's writes and the carrier's
      chunks, so a pipeline left to itself comes to rest. */
  lemma {:induction false} WorkIsBounded(f: seq<Bytes> -> Bytes, s: State, es: seq<Event>)
    requires OneForOne(f) && Initial(s) && Legal(Pipeline(f), s, es)
    ensures Count(IsWork, es) <= 9 + Total(Price, es)
  {
    hide OneForOne;
    InitialInv(f, s);
    hide Inv;
    var inv := (s: State) => Inv(f, s);
    var m := Pipeline(f);
    forall s, e | inv(s) && m.can(s, e) ensures inv(m.step(s, e)) { StepKeeps(f, s, e); }
    forall s, e | inv(s) && m.can(s, e)
      ensures Cost(m.step(s, e)) + (if IsWork(e) then 1 else 0) <= Cost(s) + Price(e)
    {
      WorkIsPaid(f, s, e);
    }
    Budget(m, inv, Cost, IsWork, Price, s, es);
  }

  // ---- back pressure --------------------------------------------------------

  /** Runs over a layer that passes each write on at once, inside the pump's own
      call of it. */
  predicate CanAtOnce(s: State, e: Event) { Can(s, e) && (s.layer.held != [] ==> e.LayerWrites?) }

  function AtOnce(f: seq<Bytes> -> Bytes): Machine<State, Event> {
    Machine(CanAtOnce, (s, e) => Step(f, s, e))
  }

  /** The pump drains after each write: it writes only where the protocol is not
      paused, or the transport is lost. */
  predicate Drains(pump: Pump, held: seq<Bytes>, tr: T.State) {
    && (held != [] ==> |held| == 1 && pump.Draining? && (!tr.out.paused || tr.flags.lost))
    && (!pump.Draining? && !pump.Ended? ==> !tr.out.paused || tr.flags.lost)
  }

  predicate BoundedInv(f: seq<Bytes> -> Bytes, s: State) {
    Inv(f, s) && Drains(s.pump, s.layer.held, s.tr) && P.WithinOneWrite(s.tr)
  }

  /** Only a write pauses the protocol. */
  lemma {:induction false} OthersPause(s: T.State, e: T.Event)
    requires T.Can(s, e) && !e.CallWrite?
    ensures T.Step(s, e).out.paused ==> s.out.paused
    ensures s.flags.lost ==> T.Step(s, e).flags.lost
  {
  }

  lemma {:induction false} CallIsBounded(s: T.State, e: T.Event)
    requires S.Inv(s) && P.WithinOneWrite(s) && T.Can(s, e)
    requires e.CallWrite? ==> !s.out.paused || s.flags.lost
    ensures P.WithinOneWrite(T.Step(s, e))
  {
    if e.CallWrite? && s.flags.lost {
      assert s.flags.closing by { hide S.InOrder, S.Pressed, S.ReadInOrder; }
      hide S.Inv, P.WithinOneWrite;
    } else {
      hide S.Inv, P.WithinOneWrite, T.Step;
      P.DrainedKeeps(s, e);
    }
  }

  lemma {:induction false} AtOnceKeeps(f: seq<Bytes> -> Bytes, s: State, e: Event)
    requires OneForOne(f) && BoundedInv(f, s) && CanAtOnce(s, e)
    ensures BoundedInv(f, Step(f, s, e))
  {
    hide OneForOne;
    StepKeeps(f, s, e);
    hide S.Inv, Flows, Consumed, Whole, P.WithinOneWrite;
    match e
    case Transport(x) =>
      OthersPause(s.tr, x);
      CallIsBounded(s.tr, x);
      hide T.Step, T.Can, Inv;
    case LayerWrites =>
      CallIsBounded(s.tr, T.CallWrite(s.layer.held[0]));
      hide Inv, T.DoWrite;
    case LayerCloses =>
      CallIsBounded(s.tr, T.CallClose);
      OthersPause(s.tr, T.CallClose);
      hide Inv, T.DoClose;
    case _ => hide Inv, T.Step, T.Can;
  }

  /** So the pump over such a layer never has more queued in the transport than the
      high limit and one write, in any run. */
  lemma {:induction false} PumpIsBounded(f: seq<Bytes> -> Bytes, s: State, es: seq<Event>)
    requires OneForOne(f) && Initial(s) && Legal(AtOnce(f), s, es)
    ensures P.WithinOneWrite(After(AtOnce(f), s, es).tr)
  {
    InitialInv(f, s);
    assert BoundedInv(f, s) by { hide Inv; }
    hide OneForOne, BoundedInv, CanAtOnce;
    var inv := (s: State) => BoundedInv(f, s);
    forall s, e | inv(s) && AtOnce(f).can(s, e) ensures inv(AtOnce(f).step(s, e)) { AtOnceKeeps(f, s, e); }
    Kept(AtOnce(f), inv, s, es);
    BoundedIs(f, After(AtOnce(f), s, es));
  }

  lemma BoundedIs(f: seq<Bytes> -> Bytes, s: State)
    requires BoundedInv(f, s)
    ensures P.WithinOneWrite(s.tr)
  {
  }

  // ---- an empty write ------------------------------------------------------

  /** The session writes nothing, then `data`, and shuts down; the pump takes the
      empty write for the end. */
  lemma {:induction false} EmptyWriteEndsThePump(f: seq<Bytes> -> Bytes, s: State, data: Bytes) returns (es: seq<Event>)
    requires Initial(s)
    ensures Legal(LeftOpen(f), s, es)
    ensures After(LeftOpen(f), s, es) ==
            State(false, [data], Ended(AtEmpty), Layer([], [], true), T.DoClose(s.tr, T.Other), [[], data], [])
  {
    var s1 := Step(f, s, SessionWrites([]));
    var s2 := Step(f, s1, SessionWrites(data));
    assert s2.chan == [[], data] && s2.sent == [[], data];
    var s3 := Step(f, s2, SessionShutsDown);
    var s4 := Step(f, s3, PumpReads);
    assert s4.chan == [data] && s4.pump == Got([]);
    var s5 := Step(f, s4, PumpWrites);
    var s6 := Step(f, s5, LayerCloses);
    assert T.Current(s.tr).Other?;
    assert CanOpen(s, SessionWrites([])) && CanOpen(s1, SessionWrites(data)) && CanOpen(s2, SessionShutsDown);
    assert CanOpen(s3, PumpReads) && CanOpen(s4, PumpWrites) && CanOpen(s5, LayerCloses);
    assert s6 == State(false, [data], Ended(AtEmpty), Layer([], [], true), T.DoClose(s.tr, T.Other), [[], data], []);
    hide Step, CanOpen, T.DoClose;
    var m := LeftOpen(f);
    es := [];
    Goes(m, s, es, SessionWrites([])); es := es + [SessionWrites([])];
    Goes(m, s, es, SessionWrites(data)); es := es + [SessionWrites(data)];
    Goes(m, s, es, SessionShutsDown); es := es + [SessionShutsDown];
    Goes(m, s, es, PumpReads); es := es + [PumpReads];
    Goes(m, s, es, PumpWrites); es := es + [PumpWrites];
    Goes(m, s, es, LayerCloses); es := es + [LayerCloses];
  }

  lemma {:induction false} ShutsDown(s: T.State) returns (t: T.State)
    requires T.Initial(s.(flags := s.flags.(closing := false), out := s.out.(wake := false))) && s.flags.closing
    ensures var s1 := T.Step(s, T.WriterRuns);
            var s2 := T.Step(s1, T.CarrierPerforms);
            && T.Can(s, T.WriterRuns) && T.Can(s1, T.CarrierPerforms) && T.Can(s2, T.WriterContinues)
            && t == T.Step(s2, T.WriterContinues)
    ensures t.log.carrier == [T.Shut] && t.flags.lost && t.inp.at.RStart?
    ensures t.out.at == T.WEnded(T.ShutdownOp(true), T.Returned)
  {
    t := T.Step(T.Step(T.Step(s, T.WriterRuns), T.CarrierPerforms), T.WriterContinues);
  }

  lemma {:induction false} RestIsQuiet(s: State)
    requires s.pump.Ended? && s.layer == Layer([], [], true)
    requires s.tr.out.at == T.WEnded(T.ShutdownOp(true), T.Returned) && s.tr.inp.at.RStart?
    ensures Quiet(s)
  {
  }

  /** The transport, closed before its write loop ran, shuts the carrier down and
      comes to rest. */
  lemma {:induction false} ClosedTransportRests(f: seq<Bytes> -> Bytes, s: State) returns (es: seq<Event>)
    requires T.Initial(s.tr.(flags := s.tr.flags.(closing := false), out := s.tr.out.(wake := false)))
    requires s.tr.flags.closing && s.pump.Ended? && s.layer == Layer([], [], true)
    ensures Legal(LeftOpen(f), s, es)
    ensures var t := After(LeftOpen(f), s, es);
            t == s.(tr := t.tr) && Quiet(t) && t.tr.log.carrier == [T.Shut]
  {
    var t := ShutsDown(s.tr);
    RestIsQuiet(s.(tr := t));
    hide T.Step, T.Can, Quiet, T.Initial, Step, CanOpen;
    es := [];
    TransportGoes(f, s, es, T.WriterRuns); es := es + [Transport(T.WriterRuns)];
    TransportGoes(f, s, es, T.CarrierPerforms); es := es + [Transport(T.CarrierPerforms)];
    TransportGoes(f, s, es, T.WriterContinues); es := es + [Transport(T.WriterContinues)];
  }

  /** A run goes on with an event of the transport. */
  lemma {:induction false} TransportGoes(f: seq<Bytes> -> Bytes, s: State, es: seq<Event>, e: T.Event)
    requires Legal(LeftOpen(f), s, es) && LeavesOpen(Transport(e)) && !e.CallWrite?
    requires T.Can(After(LeftOpen(f), s, es).tr, e)
    ensures Legal(LeftOpen(f), s, es + [Transport(e)])
    ensures var u := After(LeftOpen(f), s, es);
            After(LeftOpen(f), s, es + [Transport(e)]) == u.(tr := T.Step(u.tr, e))
  {
    hide T.Step, T.Can;
    Goes(LeftOpen(f), s, es, Transport(e));
  }

  /** So a write that follows an empty one is lost: a run that ends at rest, with
      the carrier shut down and never written to. */
  lemma {:induction false} EmptyWriteLosesTheRest(f: seq<Bytes> -> Bytes, s: State, data: Bytes) returns (es: seq<Event>)
    requires Initial(s) && data != []
    ensures Legal(LeftOpen(f), s, es)
    ensures var t := After(LeftOpen(f), s, es);
            !t.open && Quiet(t) && t.sent == [[], data] && t.tr.log.carrier == [T.Shut]
  {
    var first := EmptyWriteEndsThePump(f, s, data);
    var last := ClosedTransportRests(f, After(LeftOpen(f), s, first));
    Joined(LeftOpen(f), s, first, last);
    es := first + last;
  }

  // ---- a protocol that closes ------------------------------------------------

  /** The carrier ends, and the protocol closes the transport. */
  lemma {:induction false} ClosedAtTheEnd(f: seq<Bytes> -> Bytes, s: State) returns (es: seq<Event>)
    requires Initial(s)
    ensures Legal(Calm(f), s, es)
    ensures var t := After(Calm(f), s, es);
            t == s.(tr := t.tr) && t.tr.flags.closing && t.tr.log.accepted == []
  {
    var s1 := Step(f, s, Transport(T.ReaderRuns));
    var s2 := Step(f, s1, Transport(T.CarrierReads([])));
    var s3 := Step(f, s2, Transport(T.ReaderContinues));
    var s4 := Step(f, s3, Transport(T.EofReceivedReturns(false)));
    assert CanCalm(s, Transport(T.ReaderRuns)) && CanCalm(s1, Transport(T.CarrierReads([])));
    assert CanCalm(s2, Transport(T.ReaderContinues)) && CanCalm(s3, Transport(T.EofReceivedReturns(false)));
    assert s4 == s.(tr := s4.tr) && s4.tr.flags.closing && s4.tr.log.accepted == [];
    hide Step, CanCalm;
    var m := Calm(f);
    es := [];
    Goes(m, s, es, Transport(T.ReaderRuns)); es := es + [Transport(T.ReaderRuns)];
    Goes(m, s, es, Transport(T.CarrierReads([]))); es := es + [Transport(T.CarrierReads([]))];
    Goes(m, s, es, Transport(T.ReaderContinues)); es := es + [Transport(T.ReaderContinues)];
    Goes(m, s, es, Transport(T.EofReceivedReturns(false))); es := es + [Transport(T.EofReceivedReturns(false))];
  }

  lemma {:induction false} WriteIsRefused(f: seq<Bytes> -> Bytes, s: State, data: Bytes) returns (es: seq<Event>)
    requires s == State(true, [], Waiting, Layer([], [], false), s.tr, [], [])
    requires s.tr.flags.closing && data != []
    ensures Legal(Calm(f), s, es)
    ensures var t := After(Calm(f), s, es);
            t.sent == [data] && t.layer.refused == [f([data])] && t.tr == s.tr
  {
    var s1 := Step(f, s, SessionWrites(data));
    var s2 := Step(f, s1, PumpReads);
    var s3 := Step(f, s2, PumpWrites);
    var s4 := Step(f, s3, LayerWrites);
    assert CanCalm(s, SessionWrites(data)) && CanCalm(s1, PumpReads);
    assert s3.layer.held == [f([data])] by { assert [] + [data] == [data]; }
    assert CanCalm(s2, PumpWrites) && CanCalm(s3, LayerWrites);
    assert s4.sent == [data] && s4.layer.refused == [f([data])] && s4.tr == s.tr;
    hide Step, CanCalm;
    var m := Calm(f);
    es := [];
    Goes(m, s, es, SessionWrites(data)); es := es + [SessionWrites(data)];
    Goes(m, s, es, PumpReads); es := es + [PumpReads];
    Goes(m, s, es, PumpWrites); es := es + [PumpWrites];
    Goes(m, s, es, LayerWrites); es := es + [LayerWrites];
  }

  /** Then a write the session makes is refused though nothing failed: a run. */
  lemma {:induction false} ClosingProtocolLosesWrites(f: seq<Bytes> -> Bytes, s: State, data: Bytes)
    returns (es: seq<Event>)
    requires Initial(s) && data != []
    ensures Legal(Calm(f), s, es)
    ensures var t := After(Calm(f), s, es);
            t.sent == [data] && t.layer.refused == [f([data])] && t.tr.log.accepted == []
  {
    var first := ClosedAtTheEnd(f, s);
    var last := WriteIsRefused(f, After(Calm(f), s, first), data);
    Joined(Calm(f), s, first, last);
    es := first + last;
  }
}
