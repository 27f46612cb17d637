/** A session's writes on their way to the carrier (src/layer.rs and `run` in
    python/zmux/_layer.py): the bounded channel, the pump `down`, the layer, and
    the transport with its queue and write loop, composed.

    The layer turns each write into one: its image `f` is of all the writes so
    far, the last of them being the one it stands for.  As the writes so far are
    never twice the same in a run, any image of each write is such an `f`, be it
    a cipher's, a counter's or one drawn at random.  The layer has a buffer of
    its own in which writes may wait; it gives them to the transport one for
    one, and closes the transport once it is closed and empty.  Anything
    else may happen to the transport at any time: it may be closed or aborted by
    anyone, its carrier may fail, and its protocol may close it at the carrier's
    end.  Only writes are the layer's alone. */
module Outbound {
  import opened Octets
  import opened Runs
  import opened LayerChannel
  import T = TransportMachine
  import S = TransportSafety

  datatype PumpEnd =
    | AtEmpty                    // read an empty write of the session
    | AtEnd                      // read b"" as the session side ended
    | ByLoss                     // `drain` raised, for the transport is lost

  /** Where `down` stands. */
  datatype Pump =
    | Waiting                    // in `await end.read()`
    | Got(msg: Bytes)            // it returned a write of the session
    | GotEnd                     // it returned b"" as the session side ended
    | Draining                   // in `await w2.drain()`
    | Ended(how: PumpEnd)        // the layer's writer is closed

  /** The writes the layer holds, and those it made to a transport that took no
      more. */
  datatype Layer = Layer(held: seq<Bytes>, refused: seq<Bytes>, closed: bool)

  datatype State = State(
    open: bool,                  // the session's sender is there
    chan: seq<Bytes>,
    pump: Pump,
    layer: Layer,
    tr: T.State,
    sent: seq<Bytes>,            // the session's writes, in order
    passed: seq<Bytes>           // those the pump wrote to the layer
  )

  ghost predicate Initial(s: State) {
    && s == State(true, [], Waiting, Layer([], [], false), s.tr, [], [])
    && T.Initial(s.tr)
  }

  datatype Event =
    | SessionWrites(data: Bytes)
    | SessionShutsDown
    | PumpReads
    | PumpWrites
    | PumpDrained
    | PumpFails
    | LayerWrites
    | LayerCloses
    | Transport(e: T.Event)

  /** The transport takes no more writes. */
  predicate Closed(tr: T.State) { tr.flags.closing || tr.flags.eof }

  predicate Can(s: State, e: Event) {
    match e
    case SessionWrites(_) => s.open && |s.chan| < DEPTH
    case SessionShutsDown => s.open
    case PumpReads => s.pump.Waiting? && (s.chan != [] || !s.open)
    case PumpWrites => s.pump.Got? || s.pump.GotEnd?
    case PumpDrained => s.pump.Draining? && (!s.tr.out.paused || s.tr.flags.lost)
    case PumpFails => s.pump.Draining? && s.tr.flags.lost
    case LayerWrites => s.layer.held != []
    case LayerCloses => s.pump.Ended? && s.layer.held == [] && !s.layer.closed
    case Transport(e) => !e.CallWrite? && T.Can(s.tr, e)
  }

  function Step(f: seq<Bytes> -> Bytes, s: State, e: Event): State {
    match e
    case SessionWrites(data) => s.(chan := s.chan + [data], sent := s.sent + [data])
    case SessionShutsDown => s.(open := false)
    case PumpReads =>
      if s.chan != [] then s.(chan := s.chan[1..], pump := Got(s.chan[0])) else s.(pump := GotEnd)
    case PumpWrites =>
      if s.pump.Got? && s.pump.msg != []
      then s.(pump := Draining, passed := s.passed + [s.pump.msg],
              layer := s.layer.(held := s.layer.held + [f(s.passed + [s.pump.msg])]))
      else s.(pump := Ended(if s.pump.Got? then AtEmpty else AtEnd))
    case PumpDrained => s.(pump := Waiting)
    case PumpFails => s.(pump := Ended(ByLoss))
    case LayerWrites => if s.layer.held == [] then s else s.(tr := T.DoWrite(s.tr, s.layer.held[0]), layer := Gave(s))
    case LayerCloses => s.(tr := T.DoClose(s.tr, T.Current(s.tr)), layer := s.layer.(closed := true))
    case Transport(e) => s.(tr := T.Step(s.tr, e))
  }

  /** The layer once it wrote the first write it holds. */
  function Gave(s: State): Layer
    requires s.layer.held != []
  {
    s.layer.(held := s.layer.held[1..],
             refused := if Closed(s.tr) then s.layer.refused + [s.layer.held[0]] else s.layer.refused)
  }

  function Pipeline(f: seq<Bytes> -> Bytes): Machine<State, Event> {
    Machine(Can, (s, e) => Step(f, s, e))
  }

  /** Runs without a failure of the carrier or an abort. */
  predicate IsCalm(e: Event) {
    match e
    case Transport(CallAbort) => false
    case Transport(WriterFails) => false
    case Transport(ReaderFails) => false
    case _ => true
  }

  predicate CanCalm(s: State, e: Event) { Can(s, e) && IsCalm(e) }

  function Calm(f: seq<Bytes> -> Bytes): Machine<State, Event> {
    Machine(CanCalm, (s, e) => Step(f, s, e))
  }

  /** Of these, the ones in which only the layer closes the transport: the
      protocol keeps it open at the carrier's end. */
  predicate LeavesOpen(e: Event) {
    match e
    case Transport(CallWriteEof) => false
    case Transport(CallClose) => false
    case Transport(EofReceivedReturns(keepOpen)) => keepOpen
    case _ => IsCalm(e)
  }

  predicate CanOpen(s: State, e: Event) { Can(s, e) && LeavesOpen(e) }

  function LeftOpen(f: seq<Bytes> -> Bytes): Machine<State, Event> {
    Machine(CanOpen, (s, e) => Step(f, s, e))
  }

  // ---- the words of the claims ---------------------------------------------

  /** The layer's images of a session's writes. */
  function Mapped(f: seq<Bytes> -> Bytes, ms: seq<Bytes>): (r: seq<Bytes>)
    ensures |r| == |ms| && forall i :: 0 <= i < |ms| ==> r[i] == f(ms[..i + 1])
  {
    seq(|ms|, i requires 0 <= i < |ms| => f(ms[..i + 1]))
  }

  /** The images of writes that come after others. */
  function MappedAfter(f: seq<Bytes> -> Bytes, before: seq<Bytes>, ms: seq<Bytes>): (r: seq<Bytes>)
    ensures |r| == |ms| && forall i :: 0 <= i < |ms| ==> r[i] == f(before + ms[..i + 1])
  {
    seq(|ms|, i requires 0 <= i < |ms| => f(before + ms[..i + 1]))
  }

  /** The messages before the first empty one. */
  function BeforeEmpty(ms: seq<Bytes>): seq<Bytes> {
    if ms == [] || ms[0] == [] then [] else [ms[0]] + BeforeEmpty(ms[1..])
  }

  lemma {:induction false} BeforeEmptyIsAll(ms: seq<Bytes>)
    ensures BeforeEmpty(ms) <= ms
    ensures BeforeEmpty(ms) == ms <==> (forall i :: 0 <= i < |ms| ==> ms[i] != [])
  {
    if ms != [] && ms[0] != [] {
      BeforeEmptyIsAll(ms[1..]);
      assert ms == [ms[0]] + ms[1..];
      assert forall i :: 0 <= i < |ms[1..]| ==> ms[1..][i] == ms[i + 1];
    }
  }

  // ---- the invariant -------------------------------------------------------

  function Hand(p: Pump): seq<Bytes> { if p.Got? then [p.msg] else [] }

  /** What the pump passed on was accepted by the transport, then refused, then
      is held. */
  predicate Flows(f: seq<Bytes> -> Bytes, passed: seq<Bytes>, accepted: seq<Bytes>, layer: Layer) {
    && accepted + layer.refused + layer.held == Mapped(f, passed)
    && forall i :: 0 <= i < |passed| ==> passed[i] != []
  }

  predicate Consumed(open: bool, sent: seq<Bytes>, passed: seq<Bytes>, pump: Pump, chan: seq<Bytes>) {
    && |chan| <= DEPTH
    && (!pump.Ended? ==> sent == passed + Hand(pump) + chan)
    && (pump.GotEnd? ==> !open && chan == [])
    && (pump == Ended(AtEmpty) ==> sent == passed + [[]] + chan)
    && (pump == Ended(AtEnd) ==> !open && sent == passed && chan == [])
    && (pump == Ended(ByLoss) ==> sent == passed + chan)
  }

  predicate Whole(pump: Pump, layer: Layer, tr: T.State) {
    && (layer.refused != [] ==> Closed(tr))
    && (layer.closed ==> tr.flags.closing && pump.Ended? && layer.held == [])
    && (pump == Ended(ByLoss) ==> tr.flags.lost)
  }

  predicate Inv(f: seq<Bytes> -> Bytes, s: State) {
    && S.Inv(s.tr)
    && Flows(f, s.passed, s.tr.log.accepted, s.layer)
    && Consumed(s.open, s.sent, s.passed, s.pump, s.chan)
    && Whole(s.pump, s.layer, s.tr)
  }

  /** A layer turns each write into one write, never into nothing. */
  ghost predicate OneForOne(f: seq<Bytes> -> Bytes) {
    forall ms: seq<Bytes> :: ms != [] && ms[|ms| - 1] != [] ==> f(ms) != []
  }

  lemma InitialInv(f: seq<Bytes> -> Bytes, s: State)
    requires Initial(s)
    ensures Inv(f, s)
  {
    S.InitialInv(s.tr);
  }

  /** Nothing but a write is accepted, and a closed or lost transport stays so. */
  lemma {:induction false} OthersAccept(s: T.State, e: T.Event)
    requires T.Can(s, e) && !e.CallWrite?
    ensures var t := T.Step(s, e);
            && t.log.accepted == s.log.accepted
            && (Closed(s) ==> Closed(t))
            && (s.flags.closing ==> t.flags.closing)
            && (s.flags.lost ==> t.flags.lost)
  {
  }

  lemma {:induction false} TransportKeeps(f: seq<Bytes> -> Bytes, s: State, e: T.Event)
    requires Inv(f, s) && Can(s, Transport(e))
    ensures Inv(f, Step(f, s, Transport(e)))
  {
    S.StepKeeps(s.tr, e);
    OthersAccept(s.tr, e);
    hide S.Inv, T.Step, T.Can, Flows, Consumed, Closed;
  }

  lemma {:induction false} LayerWriteKeeps(f: seq<Bytes> -> Bytes, s: State)
    requires OneForOne(f) && Inv(f, s) && Can(s, LayerWrites)
    ensures Inv(f, Step(f, s, LayerWrites))
  {
    hide OneForOne, S.Inv, Consumed, Flows, Mapped;
    var m := s.layer.held[0];
    S.WriteKeeps(s.tr, m);
    HeldIsThere(f, s);
    HeldGoes(f, s);
    var t := T.DoWrite(s.tr, m);
    assert t.flags == s.tr.flags;
  }

  /** The first write the layer holds is no empty one. */
  lemma {:induction false} HeldIsThere(f: seq<Bytes> -> Bytes, s: State)
    requires OneForOne(f) && Flows(f, s.passed, s.tr.log.accepted, s.layer) && s.layer.held != []
    ensures s.layer.held[0] != []
  {
    hide OneForOne, Mapped;
    var a, r, h := s.tr.log.accepted, s.layer.refused, s.layer.held;
    assert h[0] == (a + r + h)[|a| + |r|];
    ImageIsThere(f, s.passed, |a| + |r|);
  }

  lemma {:induction false} ImageIsThere(f: seq<Bytes> -> Bytes, ms: seq<Bytes>, k: nat)
    requires OneForOne(f) && k < |ms| && ms[k] != []
    ensures Mapped(f, ms)[k] != []
  {
    var sofar := ms[..k + 1];
    assert sofar[|sofar| - 1] == ms[k];
    assert f(sofar) != [];
    hide OneForOne;
  }

  /** It goes to the transport, which takes it or does not. */
  lemma {:induction false} HeldGoes(f: seq<Bytes> -> Bytes, s: State)
    requires Flows(f, s.passed, s.tr.log.accepted, s.layer) && s.layer.held != [] && s.layer.held[0] != []
    requires s.layer.refused != [] ==> Closed(s.tr)
    ensures Flows(f, s.passed, T.DoWrite(s.tr, s.layer.held[0]).log.accepted, Gave(s))
  {
    hide Mapped;
    var a, r, h := s.tr.log.accepted, s.layer.refused, s.layer.held;
    assert a + (r + [h[0]]) + h[1..] == a + r + h;
    if !Closed(s.tr) { assert (a + [h[0]]) + [] + h[1..] == a + [] + h; }
  }

  lemma {:induction false} LayerCloseKeeps(f: seq<Bytes> -> Bytes, s: State)
    requires Inv(f, s) && Can(s, LayerCloses)
    ensures Inv(f, Step(f, s, LayerCloses))
  {
    S.CloseKeeps(s.tr, T.Current(s.tr));
    hide S.Inv, Flows, Consumed;
  }

  lemma {:induction false} PumpWriteKeeps(f: seq<Bytes> -> Bytes, s: State)
    requires Inv(f, s) && Can(s, PumpWrites)
    ensures Inv(f, Step(f, s, PumpWrites))
  {
    hide S.Inv, Closed;
    if s.pump.Got? && s.pump.msg != [] {
      var m := s.pump.msg;
      var n := f(s.passed + [m]);
      MappedGrows(f, s.passed, m);
      hide Mapped;
      var a, r, h := s.tr.log.accepted, s.layer.refused, s.layer.held;
      assert a + r + (h + [n]) == a + r + h + [n];
    }
  }

  lemma {:induction false} ChannelKeeps(f: seq<Bytes> -> Bytes, s: State, e: Event)
    requires Inv(f, s) && Can(s, e)
    requires e.SessionWrites? || e.SessionShutsDown? || e.PumpReads? || e.PumpDrained? || e.PumpFails?
    ensures Inv(f, Step(f, s, e))
  {
    hide S.Inv, Flows, Closed;
    if e.PumpReads? && s.chan != [] {
      assert s.chan == [s.chan[0]] + s.chan[1..];
    }
  }

  lemma {:induction false} StepKeeps(f: seq<Bytes> -> Bytes, s: State, e: Event)
    requires OneForOne(f) && Inv(f, s) && Can(s, e)
    ensures Inv(f, Step(f, s, e))
  {
    hide Inv, OneForOne;
    match e
    case PumpWrites => PumpWriteKeeps(f, s);
    case LayerWrites => LayerWriteKeeps(f, s);
    case LayerCloses => LayerCloseKeeps(f, s);
    case Transport(e) => TransportKeeps(f, s, e);
    case _ => ChannelKeeps(f, s, e);
  }

  lemma {:induction false} Invariant(f: seq<Bytes> -> Bytes, s: State, es: seq<Event>)
    requires OneForOne(f) && Initial(s) && Legal(Pipeline(f), s, es)
    ensures Inv(f, After(Pipeline(f), s, es))
  {
    InitialInv(f, s);
    hide OneForOne, Inv;
    var inv := (s: State) => Inv(f, s);
    forall s, e | inv(s) && Pipeline(f).can(s, e) ensures inv(Pipeline(f).step(s, e)) { StepKeeps(f, s, e); }
    Kept(Pipeline(f), inv, s, es);
  }

  // ---- order, in every run --------------------------------------------------

  /** At every moment of every run, whatever fails or closes, the carrier's writes
      are the layer's images of the session's first writes, one for one and in
      order; all that the transport accepted are; and a shutdown comes only after
      every one it accepted. */
  lemma {:induction false} CarrierSeesAPrefix(f: seq<Bytes> -> Bytes, s: State, es: seq<Event>)
    requires OneForOne(f) && Initial(s) && Legal(Pipeline(f), s, es)
    ensures var t := After(Pipeline(f), s, es);
            && S.Writes(t.tr.log.carrier) <= t.tr.log.accepted
            && t.tr.log.accepted <= Mapped(f, BeforeEmpty(t.sent)) <= Mapped(f, t.sent)
            && S.ShutIsLast(t.tr.log.carrier)
            && (S.EndsShut(t.tr.log.carrier) ==> S.Writes(t.tr.log.carrier) == t.tr.log.accepted)
  {
    hide OneForOne;
    Invariant(f, s, es);
    PrefixOf(f, After(Pipeline(f), s, es));
  }

  /** The pump takes the session's writes in order, up to the first empty one. */
  lemma {:induction false} PumpedInOrder(f: seq<Bytes> -> Bytes, s: State)
    requires Inv(f, s)
    ensures s.passed + Unread(s) == BeforeEmpty(s.sent)
    ensures BeforeEmpty(s.sent) <= s.sent
  {
    hide S.Inv, Mapped, BeforeEmpty, Whole;
    BeforeEmptyIsAll(s.sent);
    var rest := Rest(s);
    assert s.sent == s.passed + rest;
    BeforeEmptyJoins(s.passed, rest);
    BeforeEmptyStops(s.chan);
  }

  /** The session's writes that the pump has not passed on. */
  function Rest(s: State): seq<Bytes> {
    match s.pump
    case Ended(AtEmpty) => [[]] + s.chan
    case Ended(_) => s.chan
    case _ => Hand(s.pump) + s.chan
  }

  /** Of these, the ones it would. */
  function Unread(s: State): seq<Bytes> { BeforeEmpty(Rest(s)) }

  lemma BeforeEmptyStops(ms: seq<Bytes>)
    ensures BeforeEmpty([[]] + ms) == []
  {
  }

  lemma {:induction false} PrefixOf(f: seq<Bytes> -> Bytes, s: State)
    requires Inv(f, s)
    ensures S.Writes(s.tr.log.carrier) <= s.tr.log.accepted
    ensures s.tr.log.accepted <= Mapped(f, BeforeEmpty(s.sent)) <= Mapped(f, s.sent)
    ensures S.ShutIsLast(s.tr.log.carrier)
    ensures S.EndsShut(s.tr.log.carrier) ==> S.Writes(s.tr.log.carrier) == s.tr.log.accepted
  {
    TransportPrefix(s.tr);
    AcceptedPrefix(f, s);
    BeforeEmptyIsAll(s.sent);
    MappedPrefix(f, BeforeEmpty(s.sent), s.sent);
    hide Inv, Mapped, S.Writes, BeforeEmpty, S.ShutIsLast, S.EndsShut;
  }

  lemma {:induction false} AcceptedPrefix(f: seq<Bytes> -> Bytes, s: State)
    requires Inv(f, s)
    ensures s.tr.log.accepted <= Mapped(f, BeforeEmpty(s.sent))
  {
    PassedAndUnread(f, s);
    var u := MappedAfter(f, s.passed, Unread(s));
    hide Mapped, MappedAfter, BeforeEmpty, S.Inv, Unread, Consumed, Whole;
    FirstOfFour(s.tr.log.accepted, s.layer.refused, s.layer.held, u);
  }

  lemma {:induction false} FirstOfFour(a: seq<Bytes>, r: seq<Bytes>, h: seq<Bytes>, u: seq<Bytes>)
    ensures a <= a + r + h + u
  {
    assert a + r + h + u == a + (r + h + u);
  }

  lemma {:induction false} TransportPrefix(s: T.State)
    requires S.Inv(s)
    ensures S.Writes(s.log.carrier) <= s.log.accepted
    ensures S.ShutIsLast(s.log.carrier)
    ensures S.EndsShut(s.log.carrier) ==> S.Writes(s.log.carrier) == s.log.accepted
  {
    hide S.Writes, S.Pressed, S.ReadInOrder, S.Placed, S.EndsShut, S.ShutIsLast;
    var w, i, q := S.Writes(s.log.carrier), S.InProgress(T.CurrentOp(s.out.at)), s.out.queue;
    assert w + i + q == w + (i + q);
  }

  lemma MappedPrefix(f: seq<Bytes> -> Bytes, a: seq<Bytes>, b: seq<Bytes>)
    requires a <= b
    ensures Mapped(f, a) <= Mapped(f, b)
  {
    forall i | 0 <= i < |a| ensures Mapped(f, a)[i] == Mapped(f, b)[i] { assert a[..i + 1] == b[..i + 1]; }
  }

  lemma {:induction false} MappedAppends(f: seq<Bytes> -> Bytes, a: seq<Bytes>, b: seq<Bytes>)
    ensures Mapped(f, a + b) == Mapped(f, a) + MappedAfter(f, a, b)
  {
    forall i | 0 <= i < |a| + |b| ensures Mapped(f, a + b)[i] == (Mapped(f, a) + MappedAfter(f, a, b))[i] {
      if i < |a| {
        assert (a + b)[..i + 1] == a[..i + 1];
      } else {
        assert (a + b)[..i + 1] == a + b[..i - |a| + 1];
      }
    }
  }

  lemma {:induction false} MappedGrows(f: seq<Bytes> -> Bytes, ms: seq<Bytes>, m: Bytes)
    ensures Mapped(f, ms + [m]) == Mapped(f, ms) + [f(ms + [m])]
  {
    MappedAppends(f, ms, [m]);
    assert [m][..1] == [m];
    assert MappedAfter(f, ms, [m]) == [f(ms + [m])];
  }

  // ---- one queue -----------------------------------------------------------

  /** The writes the transport accepted and the carrier has not done. */
  function OnTheWay(tr: T.State): seq<Bytes> { S.InProgress(T.CurrentOp(tr.out.at)) + tr.out.queue }

  /** All that is between the session and the carrier, as the carrier would see
      it, in order; what the transport refused, and what comes behind it, will
      not be seen. */
  function InTransit(f: seq<Bytes> -> Bytes, s: State): seq<Bytes> {
    OnTheWay(s.tr) + (s.layer.refused + s.layer.held + MappedAfter(f, s.passed, Unread(s)))
  }

  lemma {:induction false} AcceptedIs(s: T.State)
    requires S.Inv(s)
    ensures S.Writes(s.log.carrier) + OnTheWay(s) == s.log.accepted
  {
    hide S.Writes, S.Pressed, S.ReadInOrder, S.Placed, S.EndsShut, S.ShutIsLast;
    var w, i, q := S.Writes(s.log.carrier), S.InProgress(T.CurrentOp(s.out.at)), s.out.queue;
    assert w + i + q == w + (i + q);
  }

  lemma {:induction false} Regrouped(w: seq<Bytes>, o: seq<Bytes>, r: seq<Bytes>, h: seq<Bytes>, u: seq<Bytes>)
    ensures w + (o + (r + h + u)) == (w + o) + r + h + u
  {
  }

  lemma {:induction false} PassedAndUnread(f: seq<Bytes> -> Bytes, s: State)
    requires Inv(f, s)
    ensures Mapped(f, s.passed) + MappedAfter(f, s.passed, Unread(s)) == Mapped(f, BeforeEmpty(s.sent))
  {
    PumpedInOrder(f, s);
    MappedAppends(f, s.passed, Unread(s));
    hide Inv, Unread, BeforeEmpty, Mapped, MappedAfter;
  }

  /** In every reachable state the carrier's writes and what is in transit are the
      images of the session's writes up to the first empty one: no other is
      lost, none is repeated, none overtakes another. */
  lemma {:induction false} NothingIsLost(f: seq<Bytes> -> Bytes, s: State)
    requires Inv(f, s)
    ensures S.Writes(s.tr.log.carrier) + InTransit(f, s) == Mapped(f, BeforeEmpty(s.sent))
  {
    AcceptedIs(s.tr);
    PassedAndUnread(f, s);
    var u := MappedAfter(f, s.passed, Unread(s));
    hide S.Inv, S.Writes, OnTheWay, BeforeEmpty, Unread, Mapped, MappedAfter, Consumed, Whole;
    Regrouped(S.Writes(s.tr.log.carrier), OnTheWay(s.tr), s.layer.refused, s.layer.held, u);
  }

  /** The carrier write an event makes, if it makes one. */
  function Leaves(s: State, e: Event): seq<Bytes> {
    if e == Transport(T.CarrierPerforms) then S.InProgress(T.CurrentOp(s.tr.out.at)) else []
  }

  /** The image of the session write an event brings, if it counts. */
  function Enters(f: seq<Bytes> -> Bytes, s: State, e: Event): seq<Bytes> {
    if e.SessionWrites? && e.data != [] && BeforeEmpty(s.sent) == s.sent then [f(s.sent + [e.data])] else []
  }

  /** The whole chain is one queue: a session write enters at the back, a carrier
      write leaves at the front, and nothing else changes it. */
  lemma {:induction false} IsOneQueue(f: seq<Bytes> -> Bytes, s: State, e: Event)
    requires OneForOne(f) && Inv(f, s) && Can(s, e)
    ensures Leaves(s, e) + InTransit(f, Step(f, s, e)) == InTransit(f, s) + Enters(f, s, e)
  {
    hide OneForOne;
    var t := Step(f, s, e);
    StepKeeps(f, s, e);
    NothingIsLost(f, s);
    NothingIsLost(f, t);
    CarrierMoves(f, s, e);
    SessionMoves(f, s, e);
    hide Inv, Step, S.Writes, InTransit, Leaves, Enters, Mapped, BeforeEmpty;
    SameFront(S.Writes(s.tr.log.carrier), Leaves(s, e), InTransit(f, t), InTransit(f, s), Enters(f, s, e));
  }

  lemma {:induction false} SameFront(w: seq<Bytes>, l: seq<Bytes>, after: seq<Bytes>, before: seq<Bytes>, n: seq<Bytes>)
    requires w + l + after == w + before + n
    ensures l + after == before + n
  {
    assert l + after == (w + l + after)[|w|..];
    assert before + n == (w + before + n)[|w|..];
  }

  lemma {:induction false} CarrierMoves(f: seq<Bytes> -> Bytes, s: State, e: Event)
    requires Can(s, e)
    ensures S.Writes(Step(f, s, e).tr.log.carrier) == S.Writes(s.tr.log.carrier) + Leaves(s, e)
  {
    hide S.Writes;
    match e
    case Transport(x) => TransportMoves(s.tr, x); hide T.Step, T.Can;
    case LayerWrites =>
    case LayerCloses =>
    case _ =>
  }

  lemma {:induction false} TransportMoves(s: T.State, e: T.Event)
    requires T.Can(s, e)
    ensures S.Writes(T.Step(s, e).log.carrier) ==
            S.Writes(s.log.carrier) + (if e.CarrierPerforms? then S.InProgress(T.CurrentOp(s.out.at)) else [])
  {
    if e.CarrierPerforms? {
      PerformMoves(s);
    } else {
      hide S.Writes;
      OthersMove(s, e);
      hide T.Step;
    }
  }

  lemma {:induction false} PerformMoves(s: T.State)
    requires T.Can(s, T.CarrierPerforms)
    ensures S.Writes(T.Perform(s).log.carrier) == S.Writes(s.log.carrier) + S.InProgress(T.CurrentOp(s.out.at))
  {
    var op := T.CurrentOp(s.out.at);
    if op.ShutdownOp? {
      S.WritesAppends(s.log.carrier, T.Shut);
    } else {
      S.WritesAppends(s.log.carrier, T.Wrote(op.data));
    }
    hide S.Writes;
  }

  lemma OthersMove(s: T.State, e: T.Event)
    requires T.Can(s, e) && !e.CarrierPerforms?
    ensures T.Step(s, e).log.carrier == s.log.carrier
  {
  }

  lemma {:induction false} SessionMoves(f: seq<Bytes> -> Bytes, s: State, e: Event)
    requires Can(s, e)
    ensures Mapped(f, BeforeEmpty(Step(f, s, e).sent)) == Mapped(f, BeforeEmpty(s.sent)) + Enters(f, s, e)
  {
    hide T.Step, T.Can, T.DoWrite, T.DoClose;
    if e.SessionWrites? {
      BeforeEmptyGrows(s.sent, e.data);
      MappedGrows(f, s.sent, e.data);
      hide Mapped, BeforeEmpty;
      var b := BeforeEmpty(s.sent);
      assert b + [] == b && Mapped(f, b) + [] == Mapped(f, b);
    } else {
      assert Step(f, s, e).sent == s.sent;
    }
  }

  lemma {:induction false} BeforeEmptyGrows(ms: seq<Bytes>, m: Bytes)
    ensures BeforeEmpty(ms + [m]) ==
            BeforeEmpty(ms) + (if m != [] && BeforeEmpty(ms) == ms then [m] else [])
  {
    if ms == [] {
      assert ms + [m] == [m];
      BeforeEmptyJoins([], [m]);
    } else if ms[0] != [] {
      BeforeEmptyGrows(ms[1..], m);
      assert (ms + [m])[1..] == ms[1..] + [m];
      assert ms == [ms[0]] + ms[1..];
      assert BeforeEmpty(ms) == ms <==> BeforeEmpty(ms[1..]) == ms[1..];
    }
  }

  lemma {:induction false} BeforeEmptyJoins(ms: seq<Bytes>, rest: seq<Bytes>)
    requires forall i :: 0 <= i < |ms| ==> ms[i] != []
    ensures BeforeEmpty(ms + rest) == ms + BeforeEmpty(rest)
  {
    if ms == [] {
      assert ms + rest == rest;
    } else {
      BeforeEmptyJoins(ms[1..], rest);
      assert (ms + rest)[1..] == ms[1..] + rest;
      assert ms == [ms[0]] + ms[1..];
    }
  }
}
