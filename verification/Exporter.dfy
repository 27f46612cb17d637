/** Exporter requests (src/admission.rs, `with_info` and `CarrierInfo::export`):
    a call runs on a thread of its own while the thread that holds the carrier
    answers its requests, until the call's Done.  The view the call was given may
    outlive it, and any number of Python threads may ask through it, at any time.

    The channel is the sequence of messages ever sent and the number taken of
    them; dropping it drops the rest, with the reply senders inside. */
module Exporter {
  import opened Octets
  import opened Runs

  datatype Query = Query(name: Bytes, context: Bytes, length: nat)

  datatype Ask = Export(id: nat) | Done

  datatype Reply = Waiting | Answer(value: Option<Bytes>)

  /** One call of `export`; `at` is where its message is, if it was sent. */
  datatype Request = Request(query: Query, byCall: bool, at: Option<nat>, reply: Reply)

  datatype Call = Running | Finished | Panicked

  datatype Server = Serving | Joining | Returned

  datatype State = State(
    server: Server, call: Call,
    view: bool,                  // the view, with its sender, is held by someone
    sent: seq<Ask>, taken: nat,
    requests: seq<Request>
  )

  ghost predicate Initial(s: State) { s == State(Serving, Running, true, [], 0, []) }

  datatype Event =
    | Asks(query: Query, byCall: bool)
    | ServerAnswers
    | ServerTakesDone
    | ServerSeesNoSender
    | CallReturns                // the closure returns, and Done is sent
    | CallPanics
    | ViewIsDropped
    | ServerReturns              // joined: the receiver is dropped with what is in it

  predicate IsWaiting(r: Request) { r.reply.Waiting? }

  predicate CallIsWaiting(s: State) { exists i :: 0 <= i < |s.requests| && s.requests[i].byCall && IsWaiting(s.requests[i]) }

  predicate AnyWaiting(s: State) { exists i :: 0 <= i < |s.requests| && IsWaiting(s.requests[i]) }

  predicate Can(s: State, e: Event) {
    match e
    case Asks(_, byCall) => s.view && (byCall ==> s.call.Running? && !CallIsWaiting(s))
    case ServerAnswers => s.server.Serving? && s.taken < |s.sent| && s.sent[s.taken].Export?
    case ServerTakesDone => s.server.Serving? && s.taken < |s.sent| && s.sent[s.taken].Done?
    case ServerSeesNoSender => s.server.Serving? && s.taken == |s.sent| && !s.view && !s.call.Running?
    case CallReturns => s.call.Running? && !CallIsWaiting(s)
    case CallPanics => s.call.Running? && !CallIsWaiting(s)
    case ViewIsDropped => s.view && !AnyWaiting(s)
    case ServerReturns => s.server.Joining? && !s.call.Running?
  }

  /** A request whose reply sender was dropped unanswered. */
  function Dropped(r: Request): Request { if IsWaiting(r) then r.(reply := Answer(None)) else r }

  function Step(x: Query -> Option<Bytes>, s: State, e: Event): State {
    match e
    case Asks(query, byCall) =>
      if s.server.Returned?
      then s.(requests := s.requests + [Request(query, byCall, None, Answer(None))])
      else s.(requests := s.requests + [Request(query, byCall, Some(|s.sent|), Waiting)],
              sent := s.sent + [Export(|s.requests|)])
    case ServerAnswers =>
      if s.taken < |s.sent| && s.sent[s.taken].Export? && s.sent[s.taken].id < |s.requests| then
        var id := s.sent[s.taken].id;
        s.(taken := s.taken + 1,
           requests := s.requests[id := s.requests[id].(reply := Answer(x(s.requests[id].query)))])
      else s
    case ServerTakesDone => s.(taken := s.taken + 1, server := Joining)
    case ServerSeesNoSender => s.(server := Joining)
    case CallReturns => s.(call := Finished, sent := s.sent + [Done])
    case CallPanics => s.(call := Panicked)
    case ViewIsDropped => s.(view := false)
    case ServerReturns =>
      s.(server := Returned, requests := seq(|s.requests|, i requires 0 <= i < |s.requests| => Dropped(s.requests[i])))
  }

  function WithInfo(x: Query -> Option<Bytes>): Machine<State, Event> {
    Machine(Can, (s, e) => Step(x, s, e))
  }

  // ---- the invariant -------------------------------------------------------

  /** What a request's reply is, from where its message is. */
  predicate Fits(x: Query -> Option<Bytes>, s: State, i: nat)
    requires i < |s.requests|
  {
    var r := s.requests[i];
    match r.at
    case None => s.server.Returned? && r.reply == Answer(None)
    case Some(n) =>
      && n < |s.sent| && s.sent[n] == Export(i)
      && (n < s.taken ==> r.reply == Answer(x(r.query)))
      && (n >= s.taken ==> r.reply == if s.server.Returned? then Answer(None) else Waiting)
  }

  /** Done is sent once at most, by a call that finished, and is the last message
      taken. */
  predicate DoneIsLast(s: State) {
    && s.taken <= |s.sent|
    && (forall n :: 0 <= n < |s.sent| && s.sent[n].Done? ==> s.call.Finished?)
    && (forall m, n :: 0 <= m < n < |s.sent| && s.sent[m].Done? ==> s.sent[n].Export?)
    && (s.call.Finished? ==> exists n :: 0 <= n < |s.sent| && s.sent[n].Done?)
    && (forall n :: 0 <= n < s.taken && s.sent[n].Done? ==> n == s.taken - 1 && !s.server.Serving?)
    && (!s.server.Serving? ==> (s.taken > 0 && s.sent[s.taken - 1].Done?) || (s.call.Panicked? && s.taken == |s.sent|))
    && (forall n :: 0 <= n < |s.sent| && s.sent[n].Export? ==>
          s.sent[n].id < |s.requests| && s.requests[s.sent[n].id].at == Some(n))
  }

  predicate Inv(x: Query -> Option<Bytes>, s: State) {
    && (forall i :: 0 <= i < |s.requests| ==> Fits(x, s, i))
    && DoneIsLast(s)
    && (s.call.Panicked? && !s.server.Serving? ==> !s.view)
    && (s.server.Returned? ==> !s.call.Running?)
  }

  lemma {:induction false} AskKeeps(x: Query -> Option<Bytes>, s: State, e: Event)
    requires Inv(x, s) && Can(s, e) && e.Asks?
    ensures Inv(x, Step(x, s, e))
  {
    var t := Step(x, s, e);
    AskFits(x, s, e);
    AskDone(s, x, e);
    hide Fits, DoneIsLast;
  }

  /** Where a request stands is not changed by what is sent behind it. */
  lemma {:induction false} FitsStays(x: Query -> Option<Bytes>, s: State, t: State, i: nat)
    requires i < |s.requests| < |t.requests| && Fits(x, s, i) && t.requests[i] == s.requests[i]
    requires s.sent <= t.sent && t.taken == s.taken && t.server == s.server
    ensures Fits(x, t, i)
  {
  }

  lemma {:induction false} AskFits(x: Query -> Option<Bytes>, s: State, e: Event)
    requires Inv(x, s) && e.Asks?
    ensures var t := Step(x, s, e); forall i :: 0 <= i < |t.requests| ==> Fits(x, t, i)
  {
    var t := Step(x, s, e);
    assert s.taken <= |s.sent|;
    assert Fits(x, t, |s.requests|) by { hide DoneIsLast; }
    hide DoneIsLast, Fits;
    forall i | 0 <= i < |t.requests| ensures Fits(x, t, i) {
      if i < |s.requests| { FitsStays(x, s, t, i); }
    }
  }

  lemma {:induction false} AskDone(s: State, x: Query -> Option<Bytes>, e: Event)
    requires DoneIsLast(s) && e.Asks? && (s.call.Panicked? && !s.server.Serving? ==> !s.view) && Can(s, e)
    ensures DoneIsLast(Step(x, s, e))
  {
    var t := Step(x, s, e);
    assert forall i :: 0 <= i < |s.requests| ==> t.requests[i] == s.requests[i];
    assert forall n :: 0 <= n < |s.sent| ==> t.sent[n] == s.sent[n];
  }

  lemma {:induction false} AnswerKeeps(x: Query -> Option<Bytes>, s: State)
    requires Inv(x, s) && Can(s, ServerAnswers)
    ensures Inv(x, Step(x, s, ServerAnswers))
  {
    var t := Step(x, s, ServerAnswers);
    var id := s.sent[s.taken].id;
    forall i | 0 <= i < |t.requests| ensures Fits(x, t, i) { assert Fits(x, s, i); }
  }

  lemma {:induction false} ServerKeeps(x: Query -> Option<Bytes>, s: State, e: Event)
    requires Inv(x, s) && Can(s, e)
    requires e.ServerTakesDone? || e.ServerSeesNoSender?
    ensures Inv(x, Step(x, s, e))
  {
    var t := Step(x, s, e);
    forall i | 0 <= i < |t.requests| ensures Fits(x, t, i) { assert Fits(x, s, i); }
  }

  lemma {:induction false} ReturnKeeps(x: Query -> Option<Bytes>, s: State)
    requires Inv(x, s) && Can(s, ServerReturns)
    ensures Inv(x, Step(x, s, ServerReturns))
  {
    var t := Step(x, s, ServerReturns);
    assert forall i :: 0 <= i < |s.requests| ==> t.requests[i].at == s.requests[i].at;
    forall i | 0 <= i < |t.requests| ensures Fits(x, t, i) { assert Fits(x, s, i); }
  }

  lemma {:induction false} CallKeeps(x: Query -> Option<Bytes>, s: State, e: Event)
    requires Inv(x, s) && Can(s, e) && (e.CallReturns? || e.CallPanics? || e.ViewIsDropped?)
    ensures Inv(x, Step(x, s, e))
  {
    var t := Step(x, s, e);
    assert forall n :: 0 <= n < |s.sent| ==> t.sent[n] == s.sent[n];
    forall i | 0 <= i < |t.requests| ensures Fits(x, t, i) { assert Fits(x, s, i); }
    if e.CallReturns? { assert t.sent[|s.sent|].Done?; }
  }

  lemma {:induction false} StepKeeps(x: Query -> Option<Bytes>, s: State, e: Event)
    requires Inv(x, s) && Can(s, e)
    ensures Inv(x, Step(x, s, e))
  {
    hide Inv;
    match e
    case Asks(_, _) => AskKeeps(x, s, e);
    case ServerAnswers => AnswerKeeps(x, s);
    case ServerTakesDone => ServerKeeps(x, s, e);
    case ServerSeesNoSender => ServerKeeps(x, s, e);
    case ServerReturns => ReturnKeeps(x, s);
    case _ => CallKeeps(x, s, e);
  }

  lemma {:induction false} Invariant(x: Query -> Option<Bytes>, s: State, es: seq<Event>)
    requires Initial(s) && Legal(WithInfo(x), s, es)
    ensures Inv(x, After(WithInfo(x), s, es))
  {
    var inv := (s: State) => Inv(x, s);
    forall s, e | inv(s) && WithInfo(x).can(s, e) ensures inv(WithInfo(x).step(s, e)) { StepKeeps(x, s, e); }
    Kept(WithInfo(x), inv, s, es);
  }

  ghost predicate Reachable(x: Query -> Option<Bytes>, s: State) {
    exists s0, es :: Initial(s0) && Legal(WithInfo(x), s0, es) && After(WithInfo(x), s0, es) == s
  }

  lemma {:induction false} ReachableInv(x: Query -> Option<Bytes>, s: State)
    requires Reachable(x, s)
    ensures Inv(x, s)
  {
    var s0, es :| Initial(s0) && Legal(WithInfo(x), s0, es) && After(WithInfo(x), s0, es) == s;
    Invariant(x, s0, es);
  }

  // ---- nobody waits for ever ------------------------------------------------

  predicate IsServer(e: Event) {
    e.ServerAnswers? || e.ServerTakesDone? || e.ServerSeesNoSender? || e.ServerReturns?
  }

  /** What the server has to do next. */
  function Due(s: State): Event {
    if s.server.Joining? then ServerReturns
    else if s.taken < |s.sent| then (if s.sent[s.taken].Export? then ServerAnswers else ServerTakesDone)
    else ServerSeesNoSender
  }

  /** The server has something to do whenever a request waits.  Else it waits
      only for the call to return, or has returned; or the call panicked while
      the view is still held, when it waits until the view is dropped. */
  lemma {:induction false} NobodyIsStuck(x: Query -> Option<Bytes>, s: State)
    requires Reachable(x, s)
    ensures AnyWaiting(s) ==> Can(s, Due(s))
    ensures s.server.Returned? ==> !AnyWaiting(s)
    ensures !s.server.Returned? && !Can(s, Due(s)) <==>
            s.server.Serving? && s.taken == |s.sent| && (s.call.Running? || (s.call.Panicked? && s.view))
    ensures s.call.Finished? ==> s.server.Returned? || Can(s, Due(s))
  {
    ReachableInv(x, s);
    if AnyWaiting(s) {
      var i :| 0 <= i < |s.requests| && IsWaiting(s.requests[i]);
      assert Fits(x, s, i);
    }
  }

  /** That state is reached, and lasts while the view is held: a call that
      panics while someone holds its view, and nobody asks. */
  lemma {:induction false} PanicHoldsTheServer(x: Query -> Option<Bytes>, s: State)
    requires Initial(s)
    ensures Legal(WithInfo(x), s, [CallPanics])
    ensures var t := After(WithInfo(x), s, [CallPanics]);
            !t.server.Returned? && (forall e :: IsServer(e) ==> !Can(t, e)) && !t.call.Running?
  {
    var es: seq<Event> := [];
    assert !CallIsWaiting(s) && WithInfo(x).can(After(WithInfo(x), s, es), CallPanics);
    Goes(WithInfo(x), s, es, CallPanics);
    assert es + [CallPanics] == [CallPanics];
  }

  lemma {:induction false} OneTells(x: Query -> Option<Bytes>, s: State, es: seq<Event>, a: Event, mark: State -> bool)
    requires Initial(s) && Legal(WithInfo(x), s, es) && !mark(s)
    requires forall t, e :: Can(t, e) ==> (mark(Step(x, t, e)) <==> mark(t) || e == a)
    ensures mark(After(WithInfo(x), s, es)) <==> a in es
  {
    var any := (t: State) => true;
    var kind := (e: Event) => e == a;
    hide Can, Step;
    Tells(WithInfo(x), any, mark, kind, s, es);
    HasOne(kind, es, a);
  }

  lemma {:induction false} RunTells(x: Query -> Option<Bytes>, s: State, es: seq<Event>)
    requires Initial(s) && Legal(WithInfo(x), s, es)
    ensures var t := After(WithInfo(x), s, es);
            && (t.view <==> ViewIsDropped !in es)
            && (t.call.Finished? <==> CallReturns in es)
            && (t.call.Panicked? <==> CallPanics in es)
            && (t.server.Returned? <==> ServerReturns in es)
  {
    forall t, e | Can(t, e)
      ensures !Step(x, t, e).view <==> !t.view || e == ViewIsDropped
      ensures Step(x, t, e).call.Finished? <==> t.call.Finished? || e == CallReturns
      ensures Step(x, t, e).call.Panicked? <==> t.call.Panicked? || e == CallPanics
      ensures Step(x, t, e).server.Returned? <==> t.server.Returned? || e == ServerReturns
    {
    }
    OneTells(x, s, es, ViewIsDropped, (t: State) => !t.view);
    OneTells(x, s, es, CallReturns, (t: State) => t.call.Finished?);
    OneTells(x, s, es, CallPanics, (t: State) => t.call.Panicked?);
    OneTells(x, s, es, ServerReturns, (t: State) => t.server.Returned?);
  }

  /** `with_info` returns: once the server has nothing to do it has returned, exactly
      if the call returned, or panicked and its view was dropped. */
  lemma {:induction false} ServerComesBack(x: Query -> Option<Bytes>, s: State, es: seq<Event>)
    requires Initial(s) && Legal(WithInfo(x), s, es)
    ensures var t := After(WithInfo(x), s, es);
            (forall e :: IsServer(e) ==> !Can(t, e)) ==>
              (ServerReturns in es <==> CallReturns in es || (CallPanics in es && ViewIsDropped in es))
  {
    RunTells(x, s, es);
    var t := After(WithInfo(x), s, es);
    assert Reachable(x, t);
    NobodyIsStuck(x, t);
    ReachableInv(x, t);
    assert IsServer(Due(t));
    hide Fits;
  }

  function Cost(s: State): nat {
    (if s.taken <= |s.sent| then |s.sent| - s.taken else 0)
    + (match s.server case Serving => 2 case Joining => 1 case Returned => 0)
  }

  function Price(e: Event): nat { if e.Asks? || e.CallReturns? then 1 else 0 }

  lemma {:induction false} ServingIsPaid(x: Query -> Option<Bytes>, s: State, e: Event)
    requires Inv(x, s) && Can(s, e)
    ensures Cost(Step(x, s, e)) + (if IsServer(e) then 1 else 0) <= Cost(s) + Price(e)
  {
    hide Fits;
    if e.ServerAnswers? { assert s.sent[s.taken].id < |s.requests|; }
  }

  /** The server does one thing for each message and two more. */
  lemma {:induction false} ServingIsBounded(x: Query -> Option<Bytes>, s: State, es: seq<Event>)
    requires Initial(s) && Legal(WithInfo(x), s, es)
    ensures Count(IsServer, es) <= 2 + Total(Price, es)
  {
    var inv := (s: State) => Inv(x, s);
    var m := WithInfo(x);
    forall s, e | inv(s) && m.can(s, e) ensures inv(m.step(s, e)) { StepKeeps(x, s, e); }
    forall s, e | inv(s) && m.can(s, e)
      ensures Cost(m.step(s, e)) + (if IsServer(e) then 1 else 0) <= Cost(s) + Price(e)
    {
      ServingIsPaid(x, s, e);
    }
    Budget(m, inv, Cost, IsServer, Price, s, es);
  }

  // ---- what a request gets --------------------------------------------------

  /** Where the call's Done is among the messages. */
  predicate IsDoneAt(s: State, d: nat) { d < |s.sent| && s.sent[d].Done? }

  /** Once a call that finished has had its server return, each request ended:
      with the exporter's answer exactly when it was sent before Done, else with
      None. */
  lemma {:induction false} AnsweredIfBeforeDone(x: Query -> Option<Bytes>, s: State, d: nat, i: nat)
    requires Reachable(x, s) && s.server.Returned? && IsDoneAt(s, d) && i < |s.requests|
    ensures var r := s.requests[i];
            r.reply == Answer(if r.at.Some? && r.at.value < d then x(r.query) else None)
  {
    ReachableInv(x, s);
    assert Fits(x, s, i);
    assert s.taken > 0 && s.sent[s.taken - 1].Done?;
    assert d == s.taken - 1;
  }

  /** A value is computed only while the server serves: what waits when it stops
      never gets one. */
  lemma {:induction false} NoValueAfterDone(x: Query -> Option<Bytes>, s: State, es: seq<Event>, i: nat)
    requires Reachable(x, s) && !s.server.Serving? && Legal(WithInfo(x), s, es)
    requires i < |s.requests| && IsWaiting(s.requests[i])
    ensures i < |After(WithInfo(x), s, es).requests|
    ensures var r := After(WithInfo(x), s, es).requests[i]; IsWaiting(r) || r.reply == Answer(None)
  {
    var inv := (t: State) => !t.server.Serving? && i < |t.requests|
                             && (IsWaiting(t.requests[i]) || t.requests[i].reply == Answer(None));
    forall t, e | inv(t) && WithInfo(x).can(t, e) ensures inv(WithInfo(x).step(t, e)) { }
    Kept(WithInfo(x), inv, s, es);
  }

  /** Every request made after `with_info` returned gets None, and at once. */
  lemma {:induction false} NoneAfterReturn(x: Query -> Option<Bytes>, s: State, es: seq<Event>, i: nat)
    requires s.server.Returned? && Legal(WithInfo(x), s, es)
    requires |s.requests| <= i < |After(WithInfo(x), s, es).requests|
    ensures After(WithInfo(x), s, es).requests[i].reply == Answer(None)
  {
    var inv := (t: State) => t.server.Returned? && |s.requests| <= |t.requests|
                             && forall i :: |s.requests| <= i < |t.requests| ==> t.requests[i].reply == Answer(None);
    forall t, e | inv(t) && WithInfo(x).can(t, e) ensures inv(WithInfo(x).step(t, e)) { }
    Kept(WithInfo(x), inv, s, es);
  }

  // ---- the loop -------------------------------------------------------------

  /** The messages before the first Done. */
  function BeforeDone(asks: seq<Ask>): seq<Ask> {
    if asks == [] || asks[0].Done? then [] else [asks[0]] + BeforeDone(asks[1..])
  }

  /** The receive loop of `with_info` over the messages it is given: it answers
      each export up to Done, in order, and takes Done and nothing after it. */
  method Serve(asks: seq<Ask>, queries: seq<Query>, x: Query -> Option<Bytes>)
    returns (replies: seq<Option<Bytes>>, taken: nat)
    requires forall n :: 0 <= n < |asks| && asks[n].Export? ==> asks[n].id < |queries|
    ensures |replies| == |BeforeDone(asks)| <= taken <= |asks|
    ensures asks[..|replies|] == BeforeDone(asks)
    ensures forall n :: 0 <= n < |replies| ==> asks[n].Export? && replies[n] == x(queries[asks[n].id])
    ensures taken == if |replies| < |asks| then |replies| + 1 else |asks|
  {
    replies, taken := [], 0;
    while taken < |asks|
      invariant 0 <= taken == |replies| <= |asks|
      invariant BeforeDone(asks) == asks[..taken] + BeforeDone(asks[taken..])
      invariant forall n :: 0 <= n < taken ==> asks[n].Export? && replies[n] == x(queries[asks[n].id])
    {
      var ask := asks[taken];
      BeforeDoneGoesOn(asks, taken);
      hide BeforeDone;
      taken := taken + 1;
      if ask.Done? {
        return;
      }
      replies := replies + [x(queries[ask.id])];
    }
  }

  lemma {:induction false} BeforeDoneGoesOn(asks: seq<Ask>, n: nat)
    requires n < |asks| && BeforeDone(asks) == asks[..n] + BeforeDone(asks[n..])
    ensures asks[n].Done? ==> BeforeDone(asks) == asks[..n]
    ensures asks[n].Export? ==> BeforeDone(asks) == asks[..n + 1] + BeforeDone(asks[n + 1..])
  {
    assert asks[n..][1..] == asks[n + 1..] && asks[n..][0] == asks[n];
    assert asks[..n + 1] == asks[..n] + [asks[n]];
    var rest := BeforeDone(asks[n + 1..]);
    assert asks[..n] + ([asks[n]] + rest) == asks[..n] + [asks[n]] + rest;
  }
}
