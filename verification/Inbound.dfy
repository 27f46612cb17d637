/** The carrier's bytes on their way to the session: the transport's read loop,
    the layer, the pump `up` (`run` in python/zmux/_layer.py), the bounded
    channel and the session's reads (src/layer.rs), composed.

    The layer is a function `g` of the bytes it was given, which more bytes never
    make take anything back; what it has fed its reader is a prefix of that.  Its
    reader ends when `eof_received` was called and all was fed; or, with whatever
    was fed by then, when `connection_lost` came without an error.  Any event of
    the transport may happen, failures included. */
module Inbound {
  import opened Octets
  import opened Runs
  import opened LayerChannel
  import T = TransportMachine
  import S = TransportSafety

  /** Where `up` stands. */
  datatype Up =
    | Waiting                    // in `await r2.read(65536)`
    | Got(data: Bytes)           // in `await end.write(data)`
    | GotEnd                     // r2 is at its end
    | Ended(failed: bool)        // the sender is dropped

  /** How the layer's reader ended. */
  datatype End =
    | Open
    | AtEof                      // the carrier had ended and all of it was fed
    | AtLoss                     // the transport was lost, without an error

  /** The layer's reader `r2`: the bytes fed to it, its end, what was read of it. */
  datatype Reader = Reader(fed: Bytes, end: End, taken: nat)

  /** Whether `eof_received` was called, and whether the transport was lost by
      then. */
  datatype Eof = NotYet | BeforeLoss | AfterLoss

  datatype State = State(
    tr: T.State,
    eof: Eof,
    told: bool,                  // connection_lost was called
    r2: Reader,
    up: Up,
    source: Source,              // the session's buffer and the channel
    out: Bytes,                  // the bytes the session has read
    sawEnd: bool                 // it had a read come back empty, with room
  )

  ghost predicate Initial(s: State) {
    && s == State(s.tr, NotYet, false, Reader([], Open, 0), Waiting, Source([], [], true), [], false)
    && T.Initial(s.tr)
  }

  datatype Event =
    | Transport(e: T.Event)
    | ConnectionLost             // the scheduled call
    | LayerFeeds(n: nat)         // up to n bytes in all
    | LayerFeedsEnd
    | UpReads(n: nat)
    | UpReadsEnd
    | UpFails
    | UpWrites
    | UpCloses
    | SessionReads(room: nat)

  /** All the bytes the layer's reader can have been given. */
  function Given(g: Bytes -> Bytes, tr: T.State): Bytes { g(Flat(tr.log.delivered)) }

  /** The carrier's end was reported, and every byte before it was fed. */
  predicate Complete(g: Bytes -> Bytes, s: State) { !s.eof.NotYet? && s.r2.fed == Given(g, s.tr) }

  predicate Can(g: Bytes -> Bytes, s: State, e: Event) {
    match e
    case Transport(e) => T.Can(s.tr, e)
    case ConnectionLost => s.tr.flags.lost && !s.told
    case LayerFeeds(n) => s.r2.end.Open? && |s.r2.fed| <= n <= |Given(g, s.tr)|
    case LayerFeedsEnd => s.r2.end.Open? && (Complete(g, s) || (s.told && s.tr.log.clean))
    case UpReads(n) => s.up.Waiting? && 0 < n <= 65536 && s.r2.taken + n <= |s.r2.fed|
    case UpReadsEnd => s.up.Waiting? && !s.r2.end.Open? && s.r2.taken == |s.r2.fed|
    case UpFails => s.up.Waiting?
    case UpWrites => s.up.Got? && |s.source.items| < DEPTH
    case UpCloses => s.up.GotEnd?
    case SessionReads(_) => true
  }

  /** `eof_received` is called as the read loop gets to it. */
  function Noted(eof: Eof, tr: T.State, e: T.Event): Eof {
    if !eof.NotYet? || !T.Step(tr, e).inp.at.REofCall? then eof
    else if tr.flags.lost then AfterLoss
    else BeforeLoss
  }

  function Step(g: Bytes -> Bytes, s: State, e: Event): State {
    match e
    case Transport(e) => s.(tr := T.Step(s.tr, e), eof := Noted(s.eof, s.tr, e))
    case ConnectionLost => s.(told := true)
    case LayerFeeds(n) =>
      if n <= |Given(g, s.tr)| then s.(r2 := s.r2.(fed := Given(g, s.tr)[..n])) else s
    case LayerFeedsEnd => s.(r2 := s.r2.(end := if Complete(g, s) then AtEof else AtLoss))
    case UpReads(n) =>
      if s.r2.taken + n <= |s.r2.fed|
      then s.(up := Got(s.r2.fed[s.r2.taken..s.r2.taken + n]), r2 := s.r2.(taken := s.r2.taken + n))
      else s
    case UpReadsEnd => s.(up := GotEnd)
    case UpFails => s.(up := Ended(true), source := s.source.(open := false))
    case UpWrites =>
      if s.up.Got?
      then s.(up := Waiting, source := s.source.(items := s.source.items + [s.up.data]))
      else s
    case UpCloses => s.(up := Ended(false), source := s.source.(open := false))
    case SessionReads(room) =>
      var (p, src) := Read(s.source, room);
      s.(source := src, out := s.out + (if p.Ready? then p.data else []),
         sawEnd := s.sawEnd || (p.Ready? && p.data == [] && room > 0))
  }

  function Pipeline(g: Bytes -> Bytes): Machine<State, Event> {
    Machine((s, e) => Can(g, s, e), (s, e) => Step(g, s, e))
  }

  // ---- the invariant -------------------------------------------------------

  function Hand(u: Up): Bytes { if u.Got? then u.data else [] }

  /** What was taken of the layer's reader is read, queued or in the pump's hand. */
  predicate Flows(r2: Reader, up: Up, source: Source, out: Bytes) {
    && r2.taken <= |r2.fed|
    && out + Content(source) + Hand(up) == r2.fed[..r2.taken]
  }

  predicate EndsLast(r2: Reader, up: Up, source: Source, sawEnd: bool) {
    && (source.open <==> !up.Ended?)
    && (up.GotEnd? || up == Ended(false) ==> !r2.end.Open? && r2.taken == |r2.fed|)
    && (sawEnd ==> up.Ended? && Content(source) == [])
    && (up.Got? ==> up.data != [])
  }

  /** The read loop is over with every chunk delivered, or about to be. */
  predicate AtItsEnd(r: T.ReaderAt) { r.REofCall? || r == T.REnded([]) }

  predicate Fed(g: Bytes -> Bytes, tr: T.State, eof: Eof, told: bool, r2: Reader) {
    && S.Inv(tr)
    && (!eof.NotYet? ==> AtItsEnd(tr.inp.at))
    && (eof.NotYet? ==> !tr.inp.at.REofCall?)
    && r2.fed <= Given(g, tr)
    && (r2.end.AtEof? ==> !eof.NotYet? && r2.fed == Given(g, tr))
    && (r2.end.AtLoss? ==> told && tr.log.clean)
    && (told ==> tr.flags.lost)
  }

  predicate Inv(g: Bytes -> Bytes, s: State) {
    && Flows(s.r2, s.up, s.source, s.out)
    && EndsLast(s.r2, s.up, s.source, s.sawEnd)
    && Fed(g, s.tr, s.eof, s.told, s.r2)
  }

  /** More bytes in never take bytes out back. */
  ghost predicate Causal(g: Bytes -> Bytes) { forall a, b :: a <= b ==> g(a) <= g(b) }

  lemma InitialInv(g: Bytes -> Bytes, s: State)
    requires Initial(s)
    ensures Inv(g, s)
  {
    S.InitialInv(s.tr);
  }

  lemma {:induction false} DeliveredGrows(s: T.State, e: T.Event)
    requires T.Can(s, e)
    ensures s.log.delivered <= T.Step(s, e).log.delivered
    ensures AtItsEnd(s.inp.at) ==> T.Step(s, e).log.delivered == s.log.delivered && AtItsEnd(T.Step(s, e).inp.at)
  {
  }

  lemma {:induction false} LossStays(s: T.State, e: T.Event)
    requires T.Can(s, e) && s.flags.lost
    ensures T.Step(s, e).flags.lost && T.Step(s, e).log.clean == s.log.clean
  {
  }

  lemma {:induction false} FlatMonotone(a: seq<Bytes>, b: seq<Bytes>)
    requires a <= b
    ensures Flat(a) <= Flat(b)
  {
    assert b == a + b[|a|..];
    FlatAppends(a, b[|a|..]);
  }

  lemma {:induction false} TransportKeeps(g: Bytes -> Bytes, s: State, e: T.Event)
    requires Causal(g) && Inv(g, s) && T.Can(s.tr, e)
    ensures Inv(g, Step(g, s, Transport(e)))
  {
    FedKept(g, s.tr, s.eof, s.told, s.r2, e);
    hide Fed, Flows, T.Step, T.Can;
  }

  lemma {:induction false} FedKept(g: Bytes -> Bytes, tr: T.State, eof: Eof, told: bool, r2: Reader, e: T.Event)
    requires Causal(g) && Fed(g, tr, eof, told, r2) && T.Can(tr, e)
    ensures Fed(g, T.Step(tr, e), Noted(eof, tr, e), told, r2)
  {
    S.StepKeeps(tr, e);
    DeliveredGrows(tr, e);
    if told { LossStays(tr, e); }
    var t := T.Step(tr, e);
    hide S.Inv, T.Step, T.Can, Flat;
    FlatMonotone(tr.log.delivered, t.log.delivered);
    EofIsNoted(tr, eof, e);
    hide AtItsEnd, Noted;
    assert Given(g, tr) <= Given(g, t);
  }

  lemma {:induction false} EofIsNoted(tr: T.State, eof: Eof, e: T.Event)
    requires !eof.NotYet? ==> AtItsEnd(T.Step(tr, e).inp.at)
    ensures !Noted(eof, tr, e).NotYet? ==> AtItsEnd(T.Step(tr, e).inp.at)
    ensures Noted(eof, tr, e).NotYet? ==> !T.Step(tr, e).inp.at.REofCall?
    ensures !eof.NotYet? ==> Noted(eof, tr, e) == eof
  {
    hide T.Step;
  }

  lemma {:induction false} UpKeeps(g: Bytes -> Bytes, s: State, e: Event)
    requires Inv(g, s) && Can(g, s, e)
    requires e.UpReads? || e.UpReadsEnd? || e.UpFails? || e.UpCloses?
    ensures Inv(g, Step(g, s, e))
  {
    hide Given, S.Inv, Content;
    if e.UpReads? {
      var n := s.r2.taken;
      assert s.r2.fed[..n] + s.r2.fed[n..n + e.n] == s.r2.fed[..n + e.n];
    } else {
      assert Content(Step(g, s, e).source) == Content(s.source) by { ContentOfItems(s.source, false); }
    }
  }

  lemma ContentOfItems(src: Source, open: bool)
    ensures Content(src.(open := open)) == Content(src)
  {
  }

  lemma {:induction false} LayerKeeps(g: Bytes -> Bytes, s: State, e: Event)
    requires Inv(g, s) && Can(g, s, e)
    requires e.ConnectionLost? || e.LayerFeeds? || e.LayerFeedsEnd?
    ensures Inv(g, Step(g, s, e))
  {
    hide S.Inv, Flat, Content;
    if e.LayerFeeds? {
      assert Given(g, s.tr)[..e.n][..s.r2.taken] == s.r2.fed[..s.r2.taken];
    }
  }

  lemma {:induction false} UpWriteKeeps(g: Bytes -> Bytes, s: State)
    requires Inv(g, s) && Can(g, s, UpWrites)
    ensures Inv(g, Step(g, s, UpWrites))
  {
    ContentGrows(s.source, s.up.data);
    hide Fed, Content;
    HandedOn(s.out, Content(s.source), s.up.data);
  }

  lemma {:induction false} HandedOn(a: Bytes, b: Bytes, c: Bytes)
    ensures a + (b + c) + [] == a + b + c
  {
  }

  lemma {:induction false} ContentGrows(src: Source, m: Bytes)
    ensures Content(src.(items := src.items + [m])) == Content(src) + m
  {
    FlatAppends(src.items, [m]);
    FlatOfOne(m);
    hide Flat;
    assert src.buf + (Flat(src.items) + m) == src.buf + Flat(src.items) + m;
  }

  lemma {:induction false} SessionReadKeeps(g: Bytes -> Bytes, s: State, room: nat)
    requires Inv(g, s)
    ensures Inv(g, Step(g, s, SessionReads(room)))
  {
    ReadIsFaithful(s.source, room);
    var (p, src) := Read(s.source, room);
    hide S.Inv, Content, Read;
    if p.Ready? {
      assert s.out + p.data + Content(src) == s.out + (p.data + Content(src));
    }
  }

  lemma {:induction false} StepKeeps(g: Bytes -> Bytes, s: State, e: Event)
    requires Causal(g) && Inv(g, s) && Can(g, s, e)
    ensures Inv(g, Step(g, s, e))
  {
    hide Inv;
    match e
    case Transport(e) => TransportKeeps(g, s, e);
    case UpWrites => UpWriteKeeps(g, s);
    case SessionReads(room) => SessionReadKeeps(g, s, room);
    case ConnectionLost => LayerKeeps(g, s, e);
    case LayerFeeds(_) => LayerKeeps(g, s, e);
    case LayerFeedsEnd => LayerKeeps(g, s, e);
    case _ => UpKeeps(g, s, e);
  }

  lemma {:induction false} Invariant(g: Bytes -> Bytes, s: State, es: seq<Event>)
    requires Causal(g) && Initial(s) && Legal(Pipeline(g), s, es)
    ensures Inv(g, After(Pipeline(g), s, es))
  {
    InitialInv(g, s);
    var inv := (s: State) => Inv(g, s);
    forall s, e | inv(s) && Pipeline(g).can(s, e) ensures inv(Pipeline(g).step(s, e)) { StepKeeps(g, s, e); }
    Kept(Pipeline(g), inv, s, es);
  }

  // ---- the claims ----------------------------------------------------------

  /** In every run, whatever the chunks, the read sizes and the failures, the
      session has read the layer's image of the carrier's bytes up to some
      point: in order, none lost or repeated on the way.  A read with room comes
      back empty only when the sender is gone and all it sent was read.  When the
      layer's reader did not fail, that is all it was fed: either the image of
      every byte up to the carrier's end, which had been reported; or what had
      come when the transport was lost without an error, by a close or an abort
      on this side. */
  lemma {:induction false} SessionReadsInOrder(g: Bytes -> Bytes, s: State, es: seq<Event>)
    requires Causal(g) && Initial(s) && Legal(Pipeline(g), s, es)
    ensures var t := After(Pipeline(g), s, es);
            && t.out <= g(Flat(t.tr.log.received))
            && (t.sawEnd ==> t.up.Ended? && t.r2.taken <= |t.r2.fed| && t.out == t.r2.fed[..t.r2.taken])
            && (t.sawEnd && t.up == Ended(false) ==>
                  && t.out == t.r2.fed
                  && ((t.r2.end.AtEof? && !t.eof.NotYet? && t.out == g(Flat(t.tr.log.received)))
                      || (t.r2.end.AtLoss? && t.told && t.tr.flags.lost && t.tr.log.clean)))
  {
    Invariant(g, s, es);
    ReadSoFar(g, After(Pipeline(g), s, es));
  }

  lemma {:induction false} ReceivedIs(s: T.State)
    requires S.Inv(s)
    ensures s.log.delivered <= s.log.received
    ensures AtItsEnd(s.inp.at) ==> s.log.delivered == s.log.received
  {
    hide S.InOrder, S.Pressed, S.Placed;
  }

  lemma {:induction false} ReadSoFar(g: Bytes -> Bytes, t: State)
    requires Causal(g) && Inv(g, t)
    ensures t.out <= g(Flat(t.tr.log.received))
    ensures t.sawEnd ==> t.up.Ended? && t.r2.taken <= |t.r2.fed| && t.out == t.r2.fed[..t.r2.taken]
    ensures t.sawEnd && t.up == Ended(false) ==> t.out == t.r2.fed
    ensures t.r2.end.AtEof? ==> !t.eof.NotYet? && t.r2.fed == g(Flat(t.tr.log.received))
    ensures t.up == Ended(false) ==> !t.r2.end.Open?
    ensures t.r2.end.AtLoss? ==> t.told && t.tr.flags.lost && t.tr.log.clean
  {
    ReceivedIs(t.tr);
    FlatMonotone(t.tr.log.delivered, t.tr.log.received);
    hide S.Inv, Flat, Content;
    assert t.out <= t.r2.fed;
    if t.sawEnd {
      assert t.out + [] + [] == t.out;
    }
  }

  /** A read that finds bytes in transit to the session gets some: there is no
      empty read before the end. */
  lemma {:induction false} NoEmptyReadBeforeTheEnd(g: Bytes -> Bytes, s: State, room: nat)
    requires Inv(g, s) && room > 0 && (Content(s.source) != [] || !s.up.Ended?)
    ensures Step(g, s, SessionReads(room)).sawEnd == s.sawEnd
    ensures Content(s.source) != [] ==> s.out < Step(g, s, SessionReads(room)).out
  {
    ReadIsFaithful(s.source, room);
    var (p, _) := Read(s.source, room);
    hide S.Inv, Content, Read;
    if p.Ready? && p.data != [] { assert s.out < s.out + p.data; }
  }

  // ---- conservation, rest and work -------------------------------------------

  /** What was fed to the layer's reader was read by the session, or is in its
      buffer or the channel, in the pump's hand, or not yet taken, in that order;
      and it is the image of the first bytes that were delivered. */
  lemma {:induction false} NothingIsLost(g: Bytes -> Bytes, s: State)
    requires Inv(g, s)
    ensures s.r2.taken <= |s.r2.fed|
    ensures s.out + Content(s.source) + Hand(s.up) + s.r2.fed[s.r2.taken..] == s.r2.fed
    ensures s.r2.fed <= g(Flat(s.tr.log.delivered))
  {
    hide S.Inv, Content, Flat;
    assert s.r2.fed[..s.r2.taken] + s.r2.fed[s.r2.taken..] == s.r2.fed;
  }

  /** What the pump and the end of the transport do by themselves. */
  predicate IsWork(e: Event) {
    e.ConnectionLost? || e.LayerFeedsEnd? || e.UpReads? || e.UpReadsEnd? || e.UpWrites? || e.UpCloses?
  }

  /** Nothing of it is left to run. */
  ghost predicate Quiet(g: Bytes -> Bytes, s: State) { forall e :: IsWork(e) ==> !Can(g, s, e) }

  /** The session has taken what there was for it. */
  predicate ReadOn(s: State) { s.source.buf == [] && s.source.items == [] }

  lemma {:induction false} RestIsRead(g: Bytes -> Bytes, s: State)
    requires Inv(g, s) && Quiet(g, s) && ReadOn(s) && s.up != Ended(true)
    ensures s.out == s.r2.fed
  {
    assert !Can(g, s, UpReads(1)) && !Can(g, s, UpWrites) && !Can(g, s, UpCloses);
    assert Content(s.source) == [];
    assert s.r2.taken == |s.r2.fed| && Hand(s.up) == [] by { hide Given, S.Inv, Content, Fed; }
    hide Fed, Content;
    assert s.out + [] + [] == s.out && s.r2.fed[..|s.r2.fed|] == s.r2.fed;
  }

  /** Once nothing is left to run, no read of the layer's reader failed and the
      session has read on, it has read all that was fed; and all that the carrier
      gave if the reader ended with it, or if the layer has fed all it was
      given and the read loop holds no chunk. */
  lemma {:induction false} SessionReadsAll(g: Bytes -> Bytes, s: State, es: seq<Event>)
    requires Causal(g) && Initial(s) && Legal(Pipeline(g), s, es)
    ensures var t := After(Pipeline(g), s, es);
            Quiet(g, t) && ReadOn(t) && t.up != Ended(true) ==>
              && t.out == t.r2.fed
              && (t.r2.end.AtEof? ==> t.out == g(Flat(t.tr.log.received)))
              && (t.r2.fed == Given(g, t.tr) && t.tr.log.delivered == t.tr.log.received ==>
                    t.out == g(Flat(t.tr.log.received)))
  {
    Invariant(g, s, es);
    var t := After(Pipeline(g), s, es);
    if Quiet(g, t) && ReadOn(t) && t.up != Ended(true) {
      RestIsRead(g, t);
      ReadSoFar(g, t);
    }
  }

  function UpGain(u: Up): nat {
    match u
    case Got(_) => 0
    case Waiting => 1
    case GotEnd => 2
    case Ended(_) => 3
  }

  function Gain(s: State): nat {
    2 * s.r2.taken + UpGain(s.up) + (if s.told then 1 else 0) + (if s.r2.end.Open? then 0 else 1)
  }

  lemma {:induction false} WorkEarns(g: Bytes -> Bytes, s: State, e: Event)
    requires Can(g, s, e)
    ensures Gain(s) + (if IsWork(e) then 1 else 0) <= Gain(Step(g, s, e))
  {
    hide T.Step, T.Can, Given, Read;
  }

  /** The work of a run is bounded by the bytes the carrier gave: two pieces for
      each byte of their image, and four more. */
  lemma {:induction false} WorkIsBounded(g: Bytes -> Bytes, s: State, es: seq<Event>)
    requires Causal(g) && Initial(s) && Legal(Pipeline(g), s, es)
    ensures Count(IsWork, es) <= 4 + 2 * |g(Flat(After(Pipeline(g), s, es).tr.log.received))|
  {
    var m := Pipeline(g);
    Invariant(g, s, es);
    var t := After(m, s, es);
    TakenIsGiven(g, t);
    assert Gain(s) == 1;
    hide Inv, Step, Can, Causal, Initial;
    forall s, e | m.can(s, e) ensures Gain(s) + (if IsWork(e) then 1 else 0) <= Gain(m.step(s, e)) {
      WorkEarns(g, s, e);
    }
    Gained(m, Gain, IsWork, s, es);
  }

  lemma {:induction false} TakenIsGiven(g: Bytes -> Bytes, t: State)
    requires Causal(g) && Inv(g, t)
    ensures t.r2.taken <= |g(Flat(t.tr.log.received))|
  {
    NothingIsLost(g, t);
    ReceivedIs(t.tr);
    FlatMonotone(t.tr.log.delivered, t.tr.log.received);
    hide Inv, Flat;
  }

  // ---- a prompt layer --------------------------------------------------------

  /** A layer such as asyncio's own stream protocol: it feeds its reader inside
      `data_received`, ends it inside `eof_received` or `connection_lost`, and so
      before anything else runs; and a scheduled `connection_lost` runs before
      the read loop gets another chunk. */
  predicate Behind(g: Bytes -> Bytes, s: State) {
    s.r2.end.Open? && (s.r2.fed != Given(g, s.tr) || !s.eof.NotYet? || (s.told && s.tr.log.clean))
  }

  predicate CatchesUp(g: Bytes -> Bytes, s: State, e: Event) {
    if s.r2.fed != Given(g, s.tr) then e == LayerFeeds(|Given(g, s.tr)|) else e == LayerFeedsEnd
  }

  predicate IsPrompt(g: Bytes -> Bytes, s: State, e: Event) {
    && (Behind(g, s) ==> CatchesUp(g, s, e))
    && (e.LayerFeedsEnd? ==> Behind(g, s))
    && (e == Transport(T.ReaderContinues) && s.tr.flags.lost ==> s.told)
  }

  function Prompt(g: Bytes -> Bytes): Machine<State, Event> {
    Machine((s, e) => Can(g, s, e) && IsPrompt(g, s, e), (s, e) => Step(g, s, e))
  }

  /** A transport lost by an error reads no more. */
  predicate HurtStops(tr: T.State) {
    tr.flags.lost && !tr.log.clean ==>
      tr.inp.at.REnded? || (tr.inp.cancel && !tr.inp.at.REofCall? && !tr.inp.at.RDelivering?)
  }

  /** `eof_received` before the loss ends the reader, and after it comes too late. */
  predicate EofDecides(eof: Eof, end: End) {
    && (eof.BeforeLoss? ==> !end.AtLoss?)
    && (eof.AfterLoss? ==> end.AtLoss?)
  }

  predicate PromptInv(g: Bytes -> Bytes, s: State) {
    Inv(g, s) && HurtStops(s.tr) && EofDecides(s.eof, s.r2.end)
  }

  lemma {:induction false} HurtStopsStays(s: T.State, e: T.Event)
    requires S.Inv(s) && HurtStops(s) && T.Can(s, e)
    ensures HurtStops(T.Step(s, e))
  {
    hide S.InOrder, S.Pressed, S.ReadInOrder, S.Placed;
  }

  /** Where `eof_received` is called. */
  lemma {:induction false} EofCalled(s: T.State, e: T.Event)
    requires T.Can(s, e) && HurtStops(s) && !s.inp.at.REofCall? && T.Step(s, e).inp.at.REofCall?
    ensures e.ReaderContinues? && (s.flags.lost ==> s.log.clean)
  {
  }

  lemma {:induction false} PromptKeeps(g: Bytes -> Bytes, s: State, e: Event)
    requires Causal(g) && PromptInv(g, s) && Can(g, s, e) && IsPrompt(g, s, e)
    ensures PromptInv(g, Step(g, s, e))
  {
    StepKeeps(g, s, e);
    hide S.Inv, Flows, EndsLast, Given;
    match e
    case Transport(x) =>
      HurtStopsStays(s.tr, x);
      if s.eof.NotYet? && T.Step(s.tr, x).inp.at.REofCall? {
        EofCalled(s.tr, x);
        hide T.Step, T.Can, HurtStops;
      } else {
        hide T.Step, T.Can, HurtStops;
      }
    case _ => hide HurtStops;
  }

  lemma {:induction false} PromptRuns(g: Bytes -> Bytes, s: State, es: seq<Event>)
    requires Causal(g) && Initial(s) && Legal(Prompt(g), s, es)
    ensures PromptInv(g, After(Prompt(g), s, es))
  {
    InitialInv(g, s);
    var inv := (s: State) => PromptInv(g, s);
    var m := Prompt(g);
    forall s, e | inv(s) && m.can(s, e) ensures inv(m.step(s, e)) { PromptKeeps(g, s, e); }
    Kept(m, inv, s, es);
  }

  /** Over a prompt layer whose reader did not fail, an empty read means that the
      carrier had ended and every byte of it was read exactly when `eof_received`
      was called before the transport was lost. */
  lemma {:induction false} EveryByteIfEofFirst(g: Bytes -> Bytes, s: State, es: seq<Event>)
    requires Causal(g) && Initial(s) && Legal(Prompt(g), s, es)
    ensures var t := After(Prompt(g), s, es);
            t.sawEnd && t.up == Ended(false) ==>
              (t.r2.end.AtEof? && t.out == g(Flat(t.tr.log.received)) <==> t.eof.BeforeLoss?)
  {
    PromptRuns(g, s, es);
    var t := After(Prompt(g), s, es);
    ReadSoFar(g, t);
    hide Inv;
  }

  /** A layer that is behind can catch up, and then it has fed all it was given. */
  lemma {:induction false} CatchesUpThere(g: Bytes -> Bytes, s: State)
    requires Inv(g, s) && Behind(g, s) && s.r2.fed != Given(g, s.tr)
    ensures var e := LayerFeeds(|Given(g, s.tr)|);
            && Can(g, s, e) && IsPrompt(g, s, e)
            && Step(g, s, e) == s.(r2 := s.r2.(fed := Given(g, s.tr)))
  {
    var all := Given(g, s.tr);
    assert all[..|all|] == all;
    assert s.r2.fed <= all by { hide S.Inv, Given; }
    hide Inv, Given, Flat;
  }

  /** Over a prompt layer, once nothing is left to run, the layer is not behind, its
      reader did not fail and the session has read on, the session has the image of
      every byte delivered, as long as the reader has not ended at a loss. */
  lemma {:induction false} PromptReadsAll(g: Bytes -> Bytes, s: State, es: seq<Event>)
    requires Causal(g) && Initial(s) && Legal(Prompt(g), s, es)
    ensures var t := After(Prompt(g), s, es);
            Quiet(g, t) && !Behind(g, t) && ReadOn(t) && t.up != Ended(true) && !t.r2.end.AtLoss? ==>
              t.out == g(Flat(t.tr.log.delivered))
  {
    PromptRuns(g, s, es);
    var t := After(Prompt(g), s, es);
    if Quiet(g, t) && ReadOn(t) && t.up != Ended(true) { RestIsRead(g, t); }
    assert t.r2.end.AtEof? ==> t.r2.fed == Given(g, t.tr) by { hide S.Inv, Flows, EndsLast, Given; }
    hide Inv, Flat, Quiet;
  }
}
