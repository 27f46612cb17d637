/** Both ways of a layer over one transport (`run` in python/zmux/_layer.py): the
    way out and the way in share the carrier's transport, so what closes one way
    ends the other.  A write or a close by the layer is a call of the transport
    for the way in as well. */
module Duplex {
  import opened Octets
  import opened Runs
  import opened LayerChannel
  import T = TransportMachine
  import S = TransportSafety
  import O = Outbound
  import E = OutboundEnd
  import I = Inbound

  datatype State = State(o: O.State, i: I.State)

  ghost predicate Initial(s: State) { O.Initial(s.o) && I.Initial(s.i) && s.o.tr == s.i.tr }

  datatype Event =
    | Out(oe: O.Event)
    | In(ie: I.Event)
    | Transport(e: T.Event)

  predicate Can(g: Bytes -> Bytes, s: State, e: Event) {
    match e
    case Out(e) => !e.Transport? && O.Can(s.o, e)
    case In(e) => !e.Transport? && I.Can(g, s.i, e)
    case Transport(e) => O.Can(s.o, O.Transport(e)) && I.Can(g, s.i, I.Transport(e))
  }

  /** What the way in sees of an event of the way out. */
  function Seen(g: Bytes -> Bytes, s: State, e: O.Event): I.State {
    if e.LayerWrites? && s.o.layer.held != [] then I.Step(g, s.i, I.Transport(T.CallWrite(s.o.layer.held[0])))
    else if e.LayerCloses? then I.Step(g, s.i, I.Transport(T.CallClose))
    else s.i
  }

  function Step(f: seq<Bytes> -> Bytes, g: Bytes -> Bytes, s: State, e: Event): State {
    match e
    case Out(e) => State(O.Step(f, s.o, e), Seen(g, s, e))
    case In(e) => s.(i := I.Step(g, s.i, e))
    case Transport(e) => State(O.Step(f, s.o, O.Transport(e)), I.Step(g, s.i, I.Transport(e)))
  }

  /** Runs over a prompt layer, without a failure of the carrier or an abort. */
  predicate CanCalm(g: Bytes -> Bytes, s: State, e: Event) {
    && Can(g, s, e)
    && match e
       case Out(e) => !I.Behind(g, s.i)
       case In(e) => I.IsPrompt(g, s.i, e)
       case Transport(e) => O.IsCalm(O.Transport(e)) && I.IsPrompt(g, s.i, I.Transport(e))
  }

  function Both(f: seq<Bytes> -> Bytes, g: Bytes -> Bytes): Machine<State, Event> {
    Machine((s, e) => Can(g, s, e), (s, e) => Step(f, g, s, e))
  }

  function Calm(f: seq<Bytes> -> Bytes, g: Bytes -> Bytes): Machine<State, Event> {
    Machine((s, e) => CanCalm(g, s, e), (s, e) => Step(f, g, s, e))
  }

  // ---- the invariants of both ways hold together ----------------------------

  predicate Inv(f: seq<Bytes> -> Bytes, g: Bytes -> Bytes, s: State) {
    O.Inv(f, s.o) && I.Inv(g, s.i) && s.o.tr == s.i.tr
  }

  lemma {:induction false} SameTransport(f: seq<Bytes> -> Bytes, g: Bytes -> Bytes, s: State, e: Event)
    requires s.o.tr == s.i.tr && Can(g, s, e)
    ensures Step(f, g, s, e).o.tr == Step(f, g, s, e).i.tr
  {
    hide T.Can, Read;
    match e
    case Out(LayerWrites) => hide T.DoClose, T.DoWrite;
    case Out(LayerCloses) => hide T.DoClose, T.DoWrite;
    case Out(_) => hide I.Step, T.Step;
    case In(_) => hide T.Step, O.Step;
    case Transport(_) => hide T.Step;
  }

  lemma {:induction false} StepKeeps(f: seq<Bytes> -> Bytes, g: Bytes -> Bytes, s: State, e: Event)
    requires O.OneForOne(f) && I.Causal(g) && Inv(f, g, s) && Can(g, s, e)
    ensures Inv(f, g, Step(f, g, s, e))
  {
    hide O.OneForOne;
    SameTransport(f, g, s, e);
    hide O.Inv, I.Inv, O.Step, I.Step, T.Can, I.Causal;
    match e
    case Out(x) =>
      O.StepKeeps(f, s.o, x);
      if x.LayerWrites? && s.o.layer.held != [] { I.StepKeeps(g, s.i, CallOf(s, x)); }
      if x.LayerCloses? { I.StepKeeps(g, s.i, CallOf(s, x)); }
    case In(x) => I.StepKeeps(g, s.i, x);
    case Transport(x) => O.StepKeeps(f, s.o, O.Transport(x)); I.StepKeeps(g, s.i, I.Transport(x));
  }

  /** The call of the transport an event of the way out makes. */
  function CallOf(s: State, e: O.Event): (c: I.Event)
    requires (e.LayerWrites? && s.o.layer.held != []) || e.LayerCloses?
    ensures c.Transport? && T.Can(s.i.tr, c.e)
  {
    I.Transport(if e.LayerCloses? then T.CallClose else T.CallWrite(s.o.layer.held[0]))
  }

  lemma {:induction false} Invariant(f: seq<Bytes> -> Bytes, g: Bytes -> Bytes, s: State, es: seq<Event>)
    requires O.OneForOne(f) && I.Causal(g) && Initial(s) && Legal(Both(f, g), s, es)
    ensures Inv(f, g, After(Both(f, g), s, es))
  {
    hide O.OneForOne;
    O.InitialInv(f, s.o);
    I.InitialInv(g, s.i);
    var inv := (s: State) => Inv(f, g, s);
    var m := Both(f, g);
    forall s, e | inv(s) && m.can(s, e) ensures inv(m.step(s, e)) { StepKeeps(f, g, s, e); }
    Kept(m, inv, s, es);
  }

  // ---- the session's shutdown ends its reads ---------------------------------

  predicate CalmInv(f: seq<Bytes> -> Bytes, g: Bytes -> Bytes, s: State) {
    E.CalmInv(f, s.o) && I.PromptInv(g, s.i) && s.o.tr == s.i.tr
  }

  lemma {:induction false} CallIsPrompt(g: Bytes -> Bytes, s: State, e: O.Event)
    requires !I.Behind(g, s.i) && ((e.LayerWrites? && s.o.layer.held != []) || e.LayerCloses?)
    ensures I.Can(g, s.i, CallOf(s, e)) && I.IsPrompt(g, s.i, CallOf(s, e))
  {
  }

  lemma {:induction false} CalmKeeps(f: seq<Bytes> -> Bytes, g: Bytes -> Bytes, s: State, e: Event)
    requires O.OneForOne(f) && I.Causal(g) && CalmInv(f, g, s) && CanCalm(g, s, e)
    ensures CalmInv(f, g, Step(f, g, s, e))
  {
    hide O.OneForOne;
    SameTransport(f, g, s, e);
    hide E.CalmInv, I.PromptInv, O.Step, I.Step, T.Can, I.IsPrompt, I.Causal;
    match e
    case Out(x) =>
      E.CalmKeeps(f, s.o, x);
      if x.LayerWrites? && s.o.layer.held != [] {
        CallIsPrompt(g, s, x);
        I.PromptKeeps(g, s.i, CallOf(s, x));
      }
      if x.LayerCloses? {
        CallIsPrompt(g, s, x);
        I.PromptKeeps(g, s.i, CallOf(s, x));
      }
    case In(x) => I.PromptKeeps(g, s.i, x);
    case Transport(x) => E.CalmKeeps(f, s.o, O.Transport(x)); I.PromptKeeps(g, s.i, I.Transport(x));
  }

  lemma {:induction false} CalmRuns(f: seq<Bytes> -> Bytes, g: Bytes -> Bytes, s: State, es: seq<Event>)
    requires O.OneForOne(f) && I.Causal(g) && Initial(s) && Legal(Calm(f, g), s, es)
    ensures CalmInv(f, g, After(Calm(f, g), s, es))
  {
    hide O.OneForOne;
    O.InitialInv(f, s.o);
    I.InitialInv(g, s.i);
    var inv := (s: State) => CalmInv(f, g, s);
    var m := Calm(f, g);
    forall s, e | inv(s) && m.can(s, e) ensures inv(m.step(s, e)) { CalmKeeps(f, g, s, e); }
    Kept(m, inv, s, es);
  }

  /** Nothing is left to run either way. */
  ghost predicate Quiet(g: Bytes -> Bytes, s: State) {
    E.Quiet(s.o) && I.Quiet(g, s.i)
  }

  /** With the transport lost and nothing left to run, the layer's reader is at its
      end and the pump is over, or waits for the session to read on. */
  lemma {:induction false} LossEndsTheReader(g: Bytes -> Bytes, i: I.State)
    requires I.Inv(g, i) && i.tr.flags.lost && i.tr.log.clean
    requires I.Quiet(g, i)
    ensures i.told && !i.r2.end.Open?
    ensures i.up.Ended? || |i.source.items| >= DEPTH
  {
    hide I.Given, S.Inv, Content;
    assert !I.Can(g, i, I.ConnectionLost) && !I.Can(g, i, I.LayerFeedsEnd);
    assert !I.Can(g, i, I.UpReads(1)) && !I.Can(g, i, I.UpReadsEnd);
    assert !I.Can(g, i, I.UpWrites) && !I.Can(g, i, I.UpCloses);
  }

  /** With the pump over, a session that has read what there was finds the end. */
  lemma {:induction false} NextReadIsEmpty(g: Bytes -> Bytes, i: I.State, room: nat)
    requires I.Inv(g, i) && i.up.Ended? && Content(i.source) == [] && room > 0
    ensures I.Step(g, i, I.SessionReads(room)).sawEnd
  {
    ReadIsFaithful(i.source, room);
    hide I.Fed, Content, Read;
  }

  /** The session's shutdown ends its reads: once it has shut down and nothing is
      left to run, without any failure, the transport is lost, the layer's reader
      is at its end, and the pump is over, or waits only for the session to read
      on; a session that has read all there was finds the end.  And that end is
      the carrier's, with every byte, exactly if `eof_received` came before the
      loss. */
  lemma {:induction false} ShutdownEndsReads(f: seq<Bytes> -> Bytes, g: Bytes -> Bytes, s: State, es: seq<Event>, room: nat)
    requires O.OneForOne(f) && I.Causal(g) && Initial(s) && Legal(Calm(f, g), s, es) && room > 0
    ensures var t := After(Calm(f, g), s, es);
            !t.o.open && Quiet(g, t) ==>
              && t.i.tr.flags.lost && t.i.tr.log.clean && t.i.told && !t.i.r2.end.Open?
              && (t.i.up.Ended? || |t.i.source.items| >= DEPTH)
              && (t.i.up.Ended? && Content(t.i.source) == [] ==> I.Step(g, t.i, I.SessionReads(room)).sawEnd)
              && (t.i.r2.end.AtEof? && t.i.r2.fed == g(Flat(t.i.tr.log.received)) <==> t.i.eof.BeforeLoss?)
  {
    hide O.OneForOne;
    CalmRuns(f, g, s, es);
    var t := After(Calm(f, g), s, es);
    if !t.o.open && Quiet(g, t) {
      hide O.Inv, I.Inv, I.HurtStops;
      E.QuietIsOver(f, t.o);
      E.QuietIsShut(f, t.o);
      LossEndsTheReader(g, t.i);
      I.ReadSoFar(g, t.i);
      if t.i.up.Ended? && Content(t.i.source) == [] { NextReadIsEmpty(g, t.i, room); }
    }
  }

  // ---- a chunk that is cut off -----------------------------------------------

  /** The way in as it begins, but for the transport. */
  ghost predicate Fresh(i: I.State) {
    i == I.State(i.tr, I.NotYet, false, I.Reader([], I.Open, 0), I.Waiting, Source([], [], true), [], false)
  }

  lemma {:induction false} FreshIsPrompt(g: Bytes -> Bytes, i: I.State, e: T.Event)
    requires Fresh(i) && g([]) == [] && i.tr.log.delivered == [] && !e.ReaderContinues?
    ensures !I.Behind(g, i) && I.IsPrompt(g, i, I.Transport(e))
  {
  }

  /** A chunk comes in while the session shuts down, and the layer closes. */
  lemma {:induction false} ChunkThenShutdown(f: seq<Bytes> -> Bytes, g: Bytes -> Bytes, s: State, c: Bytes)
    returns (es: seq<Event>)
    requires Initial(s) && g([]) == [] && c != []
    ensures Legal(Calm(f, g), s, es)
    ensures var t := After(Calm(f, g), s, es);
            && t.o.tr == t.i.tr == Waiting(s.i.tr, c) && Fresh(t.i)
            && !t.o.open && t.o.sent == []
  {
    es := ChunkComes(f, g, s, c);
    var t := After(Calm(f, g), s, es);
    var last := SessionGoes(f, g, t);
    Joined(Calm(f, g), s, es, last);
    es := es + last;
  }

  /** The transport with a chunk read and not delivered, and closed. */
  function Waiting(tr: T.State, c: Bytes): T.State {
    Held(tr, c).(flags := tr.flags.(closing := true), out := tr.out.(wake := true))
  }

  function Held(tr: T.State, c: Bytes): T.State {
    tr.(inp := tr.inp.(at := T.RReading(Some(c))), log := tr.log.(received := tr.log.received + [c]))
  }

  lemma {:induction false} ChunkComes(f: seq<Bytes> -> Bytes, g: Bytes -> Bytes, s: State, c: Bytes)
    returns (es: seq<Event>)
    requires Initial(s) && g([]) == [] && c != []
    ensures Legal(Calm(f, g), s, es)
    ensures After(Calm(f, g), s, es) == State(s.o.(tr := Held(s.i.tr, c)), s.i.(tr := Held(s.i.tr, c)))
  {
    var e1, e2 := Transport(T.ReaderRuns), Transport(T.CarrierReads(c));
    var s1 := Step(f, g, s, e1);
    var s2 := Step(f, g, s1, e2);
    FreshIsPrompt(g, s.i, e1.e);
    FreshIsPrompt(g, s1.i, e2.e);
    assert CanCalm(g, s, e1) && CanCalm(g, s1, e2);
    assert s2.i.tr == Held(s.i.tr, c);
    hide Step, CanCalm, Held;
    es := [];
    Goes(Calm(f, g), s, es, e1); es := es + [e1];
    Goes(Calm(f, g), s, es, e2); es := es + [e2];
  }

  lemma {:induction false} SessionGoes(f: seq<Bytes> -> Bytes, g: Bytes -> Bytes, s: State) returns (es: seq<Event>)
    requires s.o == O.State(true, [], O.Waiting, O.Layer([], [], false), s.i.tr, [], [])
    requires Fresh(s.i) && g([]) == [] && s.i.tr.log.delivered == []
    requires !s.i.tr.flags.closing && !s.i.tr.out.at.WEnded? && !s.i.tr.inp.at.REofCall?
    ensures Legal(Calm(f, g), s, es)
    ensures var t := After(Calm(f, g), s, es);
            && t.o.tr == t.i.tr == s.i.tr.(flags := s.i.tr.flags.(closing := true), out := s.i.tr.out.(wake := true))
            && Fresh(t.i) && !t.o.open && t.o.sent == []
  {
    var e1, e2, e3, e4 := Out(O.SessionShutsDown), Out(O.PumpReads), Out(O.PumpWrites), Out(O.LayerCloses);
    var s1 := Step(f, g, s, e1);
    var s2 := Step(f, g, s1, e2);
    var s3 := Step(f, g, s2, e3);
    var s4 := Step(f, g, s3, e4);
    FreshIsPrompt(g, s.i, T.CallClose);
    assert CanCalm(g, s, e1) && CanCalm(g, s1, e2) && CanCalm(g, s2, e3) && CanCalm(g, s3, e4);
    assert s4.o.tr == s4.i.tr == s.i.tr.(flags := s.i.tr.flags.(closing := true), out := s.i.tr.out.(wake := true));
    assert Fresh(s4.i) && !s4.o.open && s4.o.sent == [];
    hide Step, CanCalm;
    es := [];
    Goes(Calm(f, g), s, es, e1); es := es + [e1];
    Goes(Calm(f, g), s, es, e2); es := es + [e2];
    Goes(Calm(f, g), s, es, e3); es := es + [e3];
    Goes(Calm(f, g), s, es, e4); es := es + [e4];
  }

  /** The write loop shuts the carrier down and loses the transport, which cancels
      the read loop with the chunk in its hands. */
  lemma {:induction false} CutOff(tr: T.State, c: Bytes) returns (a: T.State, b: T.State, d: T.State, t: T.State)
    requires T.Initial(tr) && c != []
    ensures T.Can(Waiting(tr, c), T.WriterRuns) && a == T.Step(Waiting(tr, c), T.WriterRuns)
    ensures T.Can(a, T.CarrierPerforms) && b == T.Step(a, T.CarrierPerforms)
    ensures T.Can(b, T.WriterContinues) && d == T.Step(b, T.WriterContinues)
    ensures T.Can(d, T.ReaderIsCancelled) && t == T.Step(d, T.ReaderIsCancelled)
    ensures a.log.delivered == b.log.delivered == d.log.delivered == t.log.delivered == []
    ensures a.inp.at == b.inp.at == d.inp.at == T.RReading(Some(c)) && t.inp.at == T.REnded([c])
    ensures t.flags.lost && t.log.clean && t.log.received == [c]
  {
    var w := Waiting(tr, c);
    assert w.log.received == [c];
    a := T.Step(w, T.WriterRuns);
    assert a == w.(out := w.out.(at := T.WBusy(T.ShutdownOp(false))));
    b := T.Step(a, T.CarrierPerforms);
    assert b == a.(out := a.out.(at := T.WBusy(T.ShutdownOp(true))), log := a.log.(carrier := [T.Shut]));
    d, t := LosesTheReader(b, c);
  }

  lemma {:induction false} LosesTheReader(b: T.State, c: Bytes) returns (d: T.State, t: T.State)
    requires b.out.at == T.WBusy(T.ShutdownOp(true)) && !b.out.cancel && b.inp == T.In(true, T.RReading(Some(c)), false)
    requires b.flags.closing && !b.flags.lost && c != []
    ensures T.Can(b, T.WriterContinues) && d == T.Step(b, T.WriterContinues)
    ensures T.Can(d, T.ReaderIsCancelled) && t == T.Step(d, T.ReaderIsCancelled)
    ensures b.log.delivered == d.log.delivered == t.log.delivered && t.log.received == b.log.received
    ensures d.inp.at == T.RReading(Some(c)) && t.inp.at == T.REnded([c])
    ensures t.flags.lost && t.log.clean
  {
    d := T.Step(b, T.WriterContinues);
    t := T.Step(d, T.ReaderIsCancelled);
  }

  /** An event of the transport before anything was delivered. */
  lemma {:induction false} FreshMoves(f: seq<Bytes> -> Bytes, g: Bytes -> Bytes, s: State, e: T.Event)
    requires s.o.tr == s.i.tr && Fresh(s.i) && g([]) == [] && s.i.tr.log.delivered == []
    requires T.Can(s.i.tr, e) && !e.ReaderContinues? && !e.CallWrite? && O.IsCalm(O.Transport(e))
    requires !T.Step(s.i.tr, e).inp.at.REofCall?
    ensures CanCalm(g, s, Transport(e))
    ensures var t := Step(f, g, s, Transport(e)); t.o.tr == t.i.tr == T.Step(s.i.tr, e) && Fresh(t.i)
  {
    hide T.Step, T.Can, I.IsPrompt, I.Behind, I.Given, Read;
    FreshIsPrompt(g, s.i, e);
    FreshStays(g, s.i, e);
    hide I.Step, Fresh;
  }

  lemma {:induction false} FreshStays(g: Bytes -> Bytes, i: I.State, e: T.Event)
    requires Fresh(i) && !T.Step(i.tr, e).inp.at.REofCall?
    ensures Fresh(I.Step(g, i, I.Transport(e))) && I.Step(g, i, I.Transport(e)).tr == T.Step(i.tr, e)
  {
    hide T.Step;
  }

  lemma {:induction false} LossCutsTheChunk(f: seq<Bytes> -> Bytes, g: Bytes -> Bytes, s: State, tr: T.State, c: Bytes)
    returns (es: seq<Event>)
    requires T.Initial(tr) && s.o.tr == s.i.tr == Waiting(tr, c) && Fresh(s.i) && g([]) == [] && c != []
    ensures Legal(Calm(f, g), s, es)
    ensures var t := After(Calm(f, g), s, es);
            && Fresh(t.i) && t.i.tr.flags.lost && t.i.tr.log.clean
            && t.i.tr.log.received == [c] && t.i.tr.log.delivered == [] && t.i.tr.inp.at == T.REnded([c])
  {
    var _, _, _, _ := CutOff(tr, c);
    assert Waiting(tr, c).log.delivered == [];
    var e1, e2 := Transport(T.WriterRuns), Transport(T.CarrierPerforms);
    var e3, e4 := Transport(T.WriterContinues), Transport(T.ReaderIsCancelled);
    hide T.Step, T.Can, Waiting, Fresh, Step, CanCalm;
    var s1 := Step(f, g, s, e1);
    FreshMoves(f, g, s, e1.e);
    var s2 := Step(f, g, s1, e2);
    FreshMoves(f, g, s1, e2.e);
    var s3 := Step(f, g, s2, e3);
    FreshMoves(f, g, s2, e3.e);
    FreshMoves(f, g, s3, e4.e);
    es := [];
    Goes(Calm(f, g), s, es, e1); es := es + [e1];
    Goes(Calm(f, g), s, es, e2); es := es + [e2];
    Goes(Calm(f, g), s, es, e3); es := es + [e3];
    Goes(Calm(f, g), s, es, e4); es := es + [e4];
  }

  /** `connection_lost` ends the layer's reader, and the session's read comes back
      empty. */
  lemma {:induction false} LossEndsTheRead(f: seq<Bytes> -> Bytes, g: Bytes -> Bytes, s: State) returns (es: seq<Event>)
    requires Fresh(s.i) && g([]) == [] && s.i.tr.log.delivered == [] && s.i.tr.flags.lost && s.i.tr.log.clean
    ensures Legal(Calm(f, g), s, es)
    ensures var t := After(Calm(f, g), s, es);
            t.i.tr == s.i.tr && t.i.sawEnd && t.i.up == I.Ended(false) && t.i.out == [] && t.i.eof.NotYet?
  {
    var e1, e2, e3 := In(I.ConnectionLost), In(I.LayerFeedsEnd), In(I.UpReadsEnd);
    var e4, e5 := In(I.UpCloses), In(I.SessionReads(1));
    var s1 := Step(f, g, s, e1);
    var s2 := Step(f, g, s1, e2);
    var s3 := Step(f, g, s2, e3);
    var s4 := Step(f, g, s3, e4);
    var s5 := Step(f, g, s4, e5);
    assert CanCalm(g, s, e1) && CanCalm(g, s1, e2) && CanCalm(g, s2, e3) && CanCalm(g, s3, e4) && CanCalm(g, s4, e5);
    assert s5.i.tr == s.i.tr && s5.i.sawEnd && s5.i.up == I.Ended(false) && s5.i.out == [] && s5.i.eof.NotYet?;
    hide Step, CanCalm, Fresh;
    es := [];
    Goes(Calm(f, g), s, es, e1); es := es + [e1];
    Goes(Calm(f, g), s, es, e2); es := es + [e2];
    Goes(Calm(f, g), s, es, e3); es := es + [e3];
    Goes(Calm(f, g), s, es, e4); es := es + [e4];
    Goes(Calm(f, g), s, es, e5); es := es + [e5];
  }

  /** So without any failure a session that shuts down can have its read come back
      empty, cleanly, though the carrier has not ended and a chunk it gave was
      never delivered: a run. */
  lemma {:induction false} ShutdownCutsReads(f: seq<Bytes> -> Bytes, g: Bytes -> Bytes, s: State, c: Bytes)
    returns (es: seq<Event>)
    requires Initial(s) && g([]) == [] && c != []
    ensures Legal(Calm(f, g), s, es)
    ensures var t := After(Calm(f, g), s, es);
            && t.i.sawEnd && t.i.up == I.Ended(false) && t.i.eof.NotYet?
            && t.i.tr.log.received == [c] && t.i.out == []
  {
    var m := Calm(f, g);
    var a := ChunkThenShutdown(f, g, s, c);
    var b := LossCutsTheChunk(f, g, After(m, s, a), s.i.tr, c);
    Joined(m, s, a, b);
    var d := LossEndsTheRead(f, g, After(m, s, a + b));
    Joined(m, s, a + b, d);
    es := a + b + d;
  }
}
