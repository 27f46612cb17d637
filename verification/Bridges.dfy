/** The two bridges together (src/rt.rs): an asyncio future of a Rust future
    (`future_into_py`) whose Rust future awaits a Python awaitable
    (`into_future`), the interpreter's exit gate and the loop's closing between
    them.

    The runtime task selects between the cancellation and the Rust future.  One
    poll looks at the cancellation first, but a cancel may come between its two
    looks, so a finished future can win over one that was sent.  A finished future's outcome is posted to the loop from
    inside the gate, and `Complete` sets it there unless the asyncio future is
    done.  Every interleaving of loop, runtime and environment is a run. */
module Bridges {
  import opened Runs
  import I = TaskBridge

  type Outcome = I.Outcome

  datatype Target =
    | Pending
    | Cancelled
    | Set(o: Outcome)                    // by `Complete`
    | SetByOthers(o: Outcome)            // by other Python code that has it

  /** The sender in the future's done-callback `OnCancel`: held by it, used, or
      dropped with it. */
  datatype CancelTx = Held | Sent | Gone

  /** The runtime task behind the asyncio future. */
  datatype Rust =
    | Selecting
    | Abandoned                          // saw the sender used or gone, dropped the future
    | Ready(r: Outcome)                  // the future finished first
    | Posted(o: Outcome)                 // Complete is on the loop
    | Completed(o: Outcome, discarded: bool)
    | Parked                             // the gate is closed
    | GaveUp                             // the loop is closed

  datatype Env = Env(gate: bool, loop: bool)

  datatype State = State(
    target: Target, cancelTx: CancelTx, rust: Rust,
    sets: nat,                           // calls of set_result or set_exception by `Complete`
    inner: I.State, env: Env,
    held: bool)                          // some Python code has the asyncio future

  ghost predicate Initial(s: State) {
    s == State(Pending, Held, Selecting, 0, s.inner, Env(true, true), true) && I.Initial(s.inner)
  }

  datatype Event =
    | TargetIsCancelled
    | TargetIsSet(o: Outcome)            // by other Python code
    | PythonLetsGo                       // no Python code has it any more
    | OnCancelRuns                       // the done-callback, on the loop
    | OnCancelFreed                      // the loop lets go of the done-callback
    | RustSeesCancel
    | RustIsReady
    | RustPosts(o: Outcome)
    | RustParks
    | RustGivesUp
    | CompleteRuns
    | Inner(e: I.Event)
    | GateCloses
    | LoopCloses

  /** An outcome as Python gets it: a value that does not convert is raised. */
  predicate Converts(r: Outcome, o: Outcome) { o == r || (r.Value? && o.Raised?) }

  /** What the other bridge may do here: its future is polled and dropped only by
      the runtime task, the loop lets callbacks go unrun only once closed, and
      a cancel is asked for inside the gate. */
  predicate InnerMay(s: State, e: I.Event) {
    match e
    case FutReturns => false
    case FutDrops => false
    case FutAsksCancel => s.env.gate && s.env.loop
    case FutParks => !s.env.gate
    case FutGivesUp => s.env.gate && !s.env.loop
    case StartFreed => s.inner.awaitable ==> !s.env.loop
    case DoneFreed => s.inner.tx.InDone? ==> !s.env.loop
    case _ => true
  }

  predicate Can(s: State, e: Event) {
    match e
    case TargetIsCancelled => s.target.Pending? && s.held
    case TargetIsSet(_) => s.target.Pending? && s.held
    case PythonLetsGo => true
    case OnCancelRuns => !s.target.Pending?
    case OnCancelFreed => !s.target.Pending? && (s.target.Cancelled? && s.cancelTx.Held? ==> !s.env.loop)
    case RustSeesCancel => s.rust.Selecting? && !s.cancelTx.Held?
    case RustIsReady => s.rust.Selecting? && I.Can(s.inner, I.FutReturns)
    case RustPosts(o) => s.rust.Ready? && s.env.gate && s.env.loop && Converts(s.rust.r, o)
    case RustParks => s.rust.Ready? && !s.env.gate
    case RustGivesUp => s.rust.Ready? && s.env.gate && !s.env.loop
    case CompleteRuns => s.rust.Posted?
    case Inner(e) => InnerMay(s, e) && I.Can(s.inner, e)
    case GateCloses => true
    case LoopCloses => true
  }

  function Step(s: State, e: Event): State {
    match e
    case TargetIsCancelled => s.(target := Cancelled)
    case TargetIsSet(o) => s.(target := SetByOthers(o))
    case PythonLetsGo => s.(held := false)
    case OnCancelRuns => if s.target.Cancelled? && s.cancelTx.Held? then s.(cancelTx := Sent) else s
    case OnCancelFreed => if s.cancelTx.Held? then s.(cancelTx := Gone) else s
    case RustSeesCancel => s.(rust := Abandoned, inner := I.Step(s.inner, I.FutDrops))
    case RustIsReady =>
      var i := I.Step(s.inner, I.FutReturns);
      s.(rust := Ready(if i.fut.Returned? then i.fut.r else I.TaskWasDropped), inner := i)
    case RustPosts(o) => s.(rust := Posted(o))
    case RustParks => s.(rust := Parked)
    case RustGivesUp => s.(rust := GaveUp)
    case CompleteRuns =>
      if !s.rust.Posted? then s
      else if s.target.Pending?
      then s.(target := Set(s.rust.o), sets := s.sets + 1, rust := Completed(s.rust.o, false))
      else s.(rust := Completed(s.rust.o, true))
    case Inner(e) => s.(inner := I.Step(s.inner, e))
    case GateCloses => s.(env := s.env.(gate := false))
    case LoopCloses => s.(env := s.env.(loop := false))
  }

  const Both := Machine(Can, Step)

  // ---- the invariant -------------------------------------------------------

  predicate Told(target: Target, cancelTx: CancelTx, rust: Rust, sets: nat) {
    && (cancelTx.Sent? ==> target.Cancelled?)
    && (cancelTx.Gone? ==> !target.Pending?)
    && (rust.Abandoned? ==> !cancelTx.Held? && !target.Set?)
    && (rust.Completed? ==> if rust.discarded then target.Cancelled? || target.SetByOthers? else target == Set(rust.o))
    && (target.Set? ==> rust == Completed(target.o, false))
    && sets == (if target.Set? then 1 else 0)
  }

  predicate Joined(rust: Rust, fut: I.Fut) {
    && (rust.Selecting? <==> fut.Waiting?)
    && (rust.Abandoned? <==> !fut.Waiting? && !fut.Returned?)
    && (rust.Ready? ==> fut == I.Returned(rust.r))
    && (rust.Posted? || rust.Completed? ==> fut.Returned? && Converts(fut.r, rust.o))
  }

  /** While the loop is open a sender goes only with an awaitable that never
      became a task, or with a Rust future that was dropped; and an open gate or
      loop turned nobody away. */
  predicate Open(rust: Rust, inner: I.State, env: Env) {
    && (env.loop && inner.tx.Gone? ==> inner.calls.spoiled == 1 || inner.slot.dropped)
    && (rust.Parked? || inner.fut.Parked? ==> !env.gate)
    && (rust.GaveUp? || inner.fut == I.Dropped(I.LoopClosed) ==> !env.loop)
  }

  predicate Inv(s: State) {
    && I.Inv(s.inner)
    && Told(s.target, s.cancelTx, s.rust, s.sets)
    && Joined(s.rust, s.inner.fut)
    && Open(s.rust, s.inner, s.env)
  }

  lemma {:induction false} InnerMoves(s: I.State, e: I.Event)
    requires I.Can(s, e) && !e.FutReturns? && !e.FutDrops?
    ensures var t := I.Step(s, e);
            && (t.fut.Waiting? <==> s.fut.Waiting?)
            && (t.fut.Returned? <==> s.fut.Returned?)
            && (s.fut.Returned? ==> t.fut == s.fut)
            && (t.fut.Parked? ==> s.fut.Parked? || e.FutParks?)
            && (t.fut == I.Dropped(I.LoopClosed) ==> s.fut == t.fut || e.FutGivesUp?)
  {
  }

  lemma {:induction false} SenderGoes(s: I.State, e: I.Event)
    requires I.Inv(s) && I.Can(s, e) && !e.FutReturns? && !e.FutDrops?
    requires e.StartFreed? ==> !s.awaitable
    requires e.DoneFreed? ==> !s.tx.InDone?
    requires s.tx.Gone? ==> s.calls.spoiled == 1 || s.slot.dropped
    ensures var t := I.Step(s, e); t.tx.Gone? ==> t.calls.spoiled == 1 || t.slot.dropped
  {
  }

  lemma {:induction false} StepKeeps(s: State, e: Event)
    requires Inv(s) && Can(s, e)
    ensures Inv(Step(s, e))
  {
    match e
    case Inner(x) =>
      I.StepKeeps(s.inner, x);
      InnerMoves(s.inner, x);
      if s.env.loop { SenderGoes(s.inner, x); }
      hide I.Inv, I.Step, I.Can, Told;
    case RustSeesCancel => PollKeeps(s, e);
    case RustIsReady => PollKeeps(s, e);
    case _ => OuterKeeps(s, e);
  }

  lemma {:induction false} PollKeeps(s: State, e: Event)
    requires Inv(s) && Can(s, e) && (e.RustSeesCancel? || e.RustIsReady?)
    ensures Inv(Step(s, e))
  {
    I.StepKeeps(s.inner, if e.RustSeesCancel? then I.FutDrops else I.FutReturns);
    hide I.Inv;
  }

  lemma {:induction false} OuterKeeps(s: State, e: Event)
    requires Inv(s) && Can(s, e) && !e.Inner? && !e.RustSeesCancel? && !e.RustIsReady?
    ensures Inv(Step(s, e))
  {
    hide I.Inv, I.Step, I.Can;
  }

  lemma {:induction false} InvIsInductive()
    ensures Inductive(Both, Inv)
  {
    forall s, e | Inv(s) && Can(s, e) ensures Inv(Step(s, e)) { StepKeeps(s, e); }
  }

  ghost predicate Reachable(s: State) {
    exists s0, es :: Initial(s0) && Legal(Both, s0, es) && After(Both, s0, es) == s
  }

  lemma {:induction false} ReachableInv(s: State)
    requires Reachable(s)
    ensures Inv(s)
  {
    var s0, es :| Initial(s0) && Legal(Both, s0, es) && After(Both, s0, es) == s;
    InvIsInductive();
    Kept(Both, Inv, s0, es);
  }

  // ---- the claims ----------------------------------------------------------

  /** The asyncio future is set at most once, and never when it is done: once
      cancelled or set it stays so in every run. */
  lemma {:induction false} SetOnce(s: State, es: seq<Event>)
    requires Reachable(s) && Legal(Both, s, es)
    ensures s.sets <= 1
    ensures !s.target.Pending? ==> After(Both, s, es).target == s.target && After(Both, s, es).sets == s.sets
  {
    ReachableInv(s);
    if !s.target.Pending? {
      var inv := (t: State) => t.target == s.target && t.sets == s.sets;
      forall t, e | inv(t) && Can(t, e) ensures inv(Step(t, e)) { }
      Kept(Both, inv, s, es);
    }
  }

  /** What the loop and the runtime do by themselves and have yet to do. */
  predicate Due(s: State, e: Event) {
    && Can(s, e)
    && match e
       case OnCancelRuns => s.target.Cancelled? && s.cancelTx.Held?
       case OnCancelFreed => s.cancelTx.Held?
       case RustSeesCancel => true
       case RustIsReady => true
       case RustPosts(o) => o == s.rust.r
       case CompleteRuns => true
       case Inner(StartTakes) => s.inner.awaitable
       case Inner(StartLocked(raises)) => !raises
       case Inner(StartFreed) => s.inner.tx.InStart?
       case Inner(DoneRuns) => s.inner.tx.InDone?
       case Inner(FutAsksCancel) => true
       case Inner(FutIsDropped) => true
       case Inner(CancelRuns) => true
       case _ => false
  }

  ghost predicate Quiet(s: State) { forall e :: !Due(s, e) }

  /** The awaitable came to its end: closed before it was started, or its task
      finished or was told to cancel, or it never became a task at all. */
  predicate PutToRest(i: I.State) {
    || (i.calls.closes == 1 && i.calls.starts == 0)
    || (i.calls.starts == 1 && i.cancelRuns == 1 && (i.task == I.Running(true) || i.task.Finished?))
    || i.calls.spoiled == 1
  }

  /** When the asyncio future was cancelled, or set by others, and nothing is left
      to do, with gate and loop open, then either the Rust future was dropped
      unfinished and the awaitable put to rest, or it had finished and its
      outcome was discarded. */
  lemma {:induction false} CancelIsPassedOn(s: State)
    requires Reachable(s) && Quiet(s) && s.env == Env(true, true)
    requires s.target.Cancelled? || s.target.SetByOthers?
    ensures (s.rust.Abandoned? && s.inner.slot.dropped && PutToRest(s.inner))
            || (s.rust.Completed? && s.rust.discarded && s.inner.fut.Returned?)
  {
    ReachableInv(s);
    if s.rust.Abandoned? {
      AbandonedRests(s);
    } else {
      hide I.Inv, I.Step;
      assert !Due(s, OnCancelRuns) && !Due(s, OnCancelFreed) && !Due(s, RustSeesCancel) && !Due(s, CompleteRuns);
      assert s.rust.Ready? ==> !Due(s, RustPosts(s.rust.r));
    }
  }

  lemma {:induction false} AbandonedRests(s: State)
    requires Inv(s) && Quiet(s) && s.env == Env(true, true) && s.rust.Abandoned?
    ensures s.inner.slot.dropped && PutToRest(s.inner)
  {
    assert !Due(s, Inner(I.StartTakes)) && !Due(s, Inner(I.StartLocked(false)));
    assert !Due(s, Inner(I.FutAsksCancel)) && !Due(s, Inner(I.FutIsDropped)) && !Due(s, Inner(I.CancelRuns));
    hide I.Inv, PutToRest, Quiet, Told;
    RestedWhenDropped(s.inner);
  }

  lemma {:induction false} RestedWhenDropped(i: I.State)
    requires I.Inv(i) && !i.fut.Waiting? && !i.fut.Returned? && !i.fut.Parked? && !i.fut.Dropping?
    requires i.fut != I.Dropped(I.LoopClosed)
    requires !i.awaitable && i.holders == 0 && i.cancelRuns >= i.cancels
    ensures i.slot.dropped && PutToRest(i)
  {
    match i.fut
    case Dropped(Asked) =>
    case Dropped(LoopClosed) =>
    case Dropped(NothingToCancel) =>
    case _ =>
  }

  /** When it was never cancelled and nothing is left to do, with gate and loop
      open, it is still pending because the task is still running; or it was set
      to the outcome the Rust future returned: the task's own, or an error when
      the awaitable never became a task. */
  lemma {:induction false} OutcomeIsSet(s: State)
    requires Reachable(s) && Quiet(s) && s.env == Env(true, true) && !s.target.Cancelled?
    ensures s.target.Pending? ==> s.rust.Selecting? && s.inner.task.Running?
    ensures s.target.Set? ==>
              && s.inner.fut.Returned? && Converts(s.inner.fut.r, s.target.o)
              && (s.inner.task == I.Finished(s.inner.fut.r)
                  || (s.inner.fut.r.TaskWasDropped? && s.inner.calls.spoiled == 1))
  {
    ReachableInv(s);
    if s.target.Pending? { StillRunning(s); }
    if s.target.Set? { OutcomeIsTheTasks(s); }
    hide Inv;
  }

  lemma {:induction false} StillRunning(s: State)
    requires Inv(s) && Quiet(s) && s.env == Env(true, true) && s.target.Pending?
    ensures s.rust.Selecting? && s.inner.task.Running?
  {
    assert !Due(s, CompleteRuns) && !Due(s, RustIsReady);
    assert s.rust.Ready? ==> !Due(s, RustPosts(s.rust.r));
    assert s.rust.Selecting? by { hide I.Inv, I.Step; }
    assert !Due(s, Inner(I.StartTakes)) && !Due(s, Inner(I.StartLocked(false)));
    assert !Due(s, Inner(I.StartFreed)) && !Due(s, Inner(I.DoneRuns));
    hide Quiet, I.Guarded, Told;
  }

  lemma {:induction false} OutcomeIsTheTasks(s: State)
    requires Inv(s) && s.env == Env(true, true) && s.target.Set?
    ensures s.inner.fut.Returned? && Converts(s.inner.fut.r, s.target.o)
    ensures s.inner.task == I.Finished(s.inner.fut.r)
            || (s.inner.fut.r.TaskWasDropped? && s.inner.calls.spoiled == 1)
  {
    hide I.Once;
  }

  /** The awaitable is lost to the run: `ensure_future` raises, a dropped one has no
      `close`, or the loop lets go of it unrun. */
  predicate Spoils(s: State, e: Event) { e.Inner? && I.Spoils(s.inner, e.e) }

  lemma {:induction false} SpoiledIfSpoils(s: State, es: seq<Event>)
    requires Initial(s) && Legal(Both, s, es)
    ensures After(Both, s, es).inner.calls.spoiled == 1 <==> Any(Both, Spoils, s, es)
  {
    InvIsInductive();
    Kept(Both, Inv, s, es);
    var mark := (t: State) => t.inner.calls.spoiled > 0;
    forall t, e | Inv(t) && Can(t, e) ensures mark(Step(t, e)) <==> mark(t) || Spoils(t, e) {
      SpoilsGrow(t, e);
    }
    Remembered(Both, Inv, mark, Spoils, s, es);
  }

  lemma {:induction false} SpoilsGrow(s: State, e: Event)
    requires Can(s, e)
    ensures Step(s, e).inner.calls.spoiled == s.inner.calls.spoiled + (if Spoils(s, e) then 1 else 0)
  {
    if e.Inner? {
      I.CallsGrow(s.inner, e.e);
      hide I.Step, I.Can, I.Spoils;
    }
  }

  /** In a run that loses no awaitable, a future that was set has the outcome of the
      task, converted: the same, or for a value that does not convert an
      exception. */
  lemma {:induction false} TasksOutcomeIsSet(s: State, es: seq<Event>)
    requires Initial(s) && Legal(Both, s, es) && !Any(Both, Spoils, s, es)
    ensures var t := After(Both, s, es);
            t.env == Env(true, true) && t.target.Set? ==>
              && t.inner.task.Finished?
              && (t.target.o == t.inner.task.r || (t.inner.task.r.Value? && t.target.o.Raised?))
  {
    SpoiledIfSpoils(s, es);
    InvIsInductive();
    Kept(Both, Inv, s, es);
    var t := After(Both, s, es);
    if t.env == Env(true, true) && t.target.Set? { OutcomeIsTheTasks(t); }
  }

  /** What the environment and Python did is what the run has. */
  lemma {:induction false} OneTells(s: State, es: seq<Event>, x: Event, mark: State -> bool)
    requires Initial(s) && Legal(Both, s, es) && !mark(s)
    requires forall t, e :: Inv(t) && Can(t, e) ==> (mark(Step(t, e)) <==> mark(t) || e == x)
    ensures mark(After(Both, s, es)) <==> x in es
  {
    InvIsInductive();
    var kind := (e: Event) => e == x;
    assert Inv(s);
    hide Inv, Can, Step;
    Tells(Both, Inv, mark, kind, s, es);
    HasOne(kind, es, x);
  }

  lemma {:induction false} TargetMoves(s: State, e: Event, o: Outcome)
    requires Can(s, e)
    ensures Step(s, e).target.Cancelled? <==> s.target.Cancelled? || e == TargetIsCancelled
    ensures Step(s, e).target == SetByOthers(o) <==> s.target == SetByOthers(o) || e == TargetIsSet(o)
    ensures !Step(s, e).held <==> !s.held || e == PythonLetsGo
  {
    hide I.Step, I.Can;
  }

  lemma {:induction false} EnvMoves(s: State, e: Event)
    requires Can(s, e)
    ensures !Step(s, e).env.gate <==> !s.env.gate || e == GateCloses
    ensures !Step(s, e).env.loop <==> !s.env.loop || e == LoopCloses
  {
    hide I.Step, I.Can;
  }

  lemma {:induction false} RustMoves(s: State, e: Event)
    requires Can(s, e)
    ensures Step(s, e).rust.Parked? <==> s.rust.Parked? || e == RustParks
    ensures Step(s, e).rust.GaveUp? <==> s.rust.GaveUp? || e == RustGivesUp
    ensures Step(s, e).rust.Abandoned? <==> s.rust.Abandoned? || e == RustSeesCancel
  {
    hide I.Step, I.Can;
  }

  lemma {:induction false} TargetTells(s: State, es: seq<Event>, o: Outcome)
    requires Initial(s) && Legal(Both, s, es)
    ensures var t := After(Both, s, es);
            && (t.target.Cancelled? <==> TargetIsCancelled in es)
            && (t.target == SetByOthers(o) <==> TargetIsSet(o) in es)
            && (t.held <==> PythonLetsGo !in es)
  {
    forall t, e | Inv(t) && Can(t, e)
      ensures Step(t, e).target.Cancelled? <==> t.target.Cancelled? || e == TargetIsCancelled
      ensures Step(t, e).target == SetByOthers(o) <==> t.target == SetByOthers(o) || e == TargetIsSet(o)
      ensures !Step(t, e).held <==> !t.held || e == PythonLetsGo
    {
      TargetMoves(t, e, o);
    }
    hide Inv, Step, Can;
    OneTells(s, es, TargetIsCancelled, (t: State) => t.target.Cancelled?);
    OneTells(s, es, TargetIsSet(o), (t: State) => t.target == SetByOthers(o));
    OneTells(s, es, PythonLetsGo, (t: State) => !t.held);
  }

  lemma {:induction false} EnvTells(s: State, es: seq<Event>)
    requires Initial(s) && Legal(Both, s, es)
    ensures var t := After(Both, s, es);
            && (t.env.gate <==> GateCloses !in es)
            && (t.env.loop <==> LoopCloses !in es)
            && (t.rust.Parked? <==> RustParks in es)
            && (t.rust.GaveUp? <==> RustGivesUp in es)
            && (t.rust.Abandoned? <==> RustSeesCancel in es)
  {
    forall t, e | Inv(t) && Can(t, e)
      ensures !Step(t, e).env.gate <==> !t.env.gate || e == GateCloses
      ensures !Step(t, e).env.loop <==> !t.env.loop || e == LoopCloses
      ensures Step(t, e).rust.Parked? <==> t.rust.Parked? || e == RustParks
      ensures Step(t, e).rust.GaveUp? <==> t.rust.GaveUp? || e == RustGivesUp
      ensures Step(t, e).rust.Abandoned? <==> t.rust.Abandoned? || e == RustSeesCancel
    {
      EnvMoves(t, e);
      RustMoves(t, e);
    }
    hide Inv, Step, Can;
    OneTells(s, es, GateCloses, (t: State) => !t.env.gate);
    OneTells(s, es, LoopCloses, (t: State) => !t.env.loop);
    OneTells(s, es, RustParks, (t: State) => t.rust.Parked?);
    OneTells(s, es, RustGivesUp, (t: State) => t.rust.GaveUp?);
    OneTells(s, es, RustSeesCancel, (t: State) => t.rust.Abandoned?);
  }

  lemma {:induction false} TaskTells(s: State, es: seq<Event>, r: Outcome)
    requires Initial(s) && Legal(Both, s, es)
    ensures After(Both, s, es).inner.task == I.Finished(r) <==> Inner(I.TaskEnds(r)) in es
  {
    forall t, e | Inv(t) && Can(t, e)
      ensures Step(t, e).inner.task == I.Finished(r) <==> t.inner.task == I.Finished(r) || e == Inner(I.TaskEnds(r))
    {
      match e
      case Inner(x) => I.StepTells(t.inner, x, r); hide I.Step, I.Can, I.Inv;
      case _ => hide Inv;
    }
    hide Inv, Step, Can;
    OneTells(s, es, Inner(I.TaskEnds(r)), (t: State) => t.inner.task == I.Finished(r));
  }

  /** The whole way: when the gate and the loop stay open, nobody cancels or sets the
      asyncio future, no awaitable is lost, and the task ends, then once nothing is
      left to do the asyncio future is set to the task's outcome, or, if that is a
      value that does not convert, to an exception. */
  lemma {:induction false} OutcomeArrives(s: State, es: seq<Event>, r: Outcome)
    requires Initial(s) && Legal(Both, s, es) && Quiet(After(Both, s, es))
    requires GateCloses !in es && LoopCloses !in es && !Any(Both, Spoils, s, es)
    requires TargetIsCancelled !in es && forall o :: TargetIsSet(o) !in es
    requires Inner(I.TaskEnds(r)) in es
    ensures var t := After(Both, s, es);
            t.target == Set(r) || (r.Value? && t.target.Set? && t.target.o.Raised?)
  {
    var t := After(Both, s, es);
    TaskTells(s, es, r);
    EnvTells(s, es);
    NotDoneByOthers(s, es);
    TasksOutcomeIsSet(s, es);
    InvIsInductive();
    Kept(Both, Inv, s, es);
    if t.target.Pending? { StillRunning(t); }
  }

  lemma {:induction false} NotDoneByOthers(s: State, es: seq<Event>)
    requires Initial(s) && Legal(Both, s, es)
    requires TargetIsCancelled !in es && forall o :: TargetIsSet(o) !in es
    ensures After(Both, s, es).target.Pending? || After(Both, s, es).target.Set?
  {
    var t := After(Both, s, es);
    TargetTells(s, es, if t.target.SetByOthers? then t.target.o else I.TaskWasDropped);
  }

  /** Such a run, up to the outcome in the runtime task's hands; nobody has the asyncio
      future any more. */
  lemma {:induction false} OutcomeIsReady(s: State, r: Outcome) returns (es: seq<Event>)
    requires Initial(s) && !r.TaskWasDropped?
    ensures Legal(Both, s, es)
    ensures var t := After(Both, s, es);
            t.rust == Ready(r) && t.target.Pending? && !t.held && t.env == Env(true, true)
  {
    var e1, e2, e3 := Inner(I.StartTakes), Inner(I.StartLocked(false)), Inner(I.TaskEnds(r));
    var s1 := Step(s, PythonLetsGo);
    var s2 := Step(s1, e1);
    var s3 := Step(s2, e2);
    var s4 := Step(s3, e3);
    var s5 := Step(s4, Inner(I.DoneRuns));
    var s6 := Step(s5, RustIsReady);
    assert Can(s, PythonLetsGo) && Can(s1, e1) && Can(s2, e2) && Can(s3, e3);
    assert Can(s4, Inner(I.DoneRuns)) && Can(s5, RustIsReady);
    assert s6.rust == Ready(r) && s6.target.Pending? && !s6.held && s6.env == Env(true, true);
    hide Step, Can;
    es := [];
    Goes(Both, s, es, PythonLetsGo); es := es + [PythonLetsGo];
    Goes(Both, s, es, e1); es := es + [e1];
    Goes(Both, s, es, e2); es := es + [e2];
    Goes(Both, s, es, e3); es := es + [e3];
    Goes(Both, s, es, Inner(I.DoneRuns)); es := es + [Inner(I.DoneRuns)];
    Goes(Both, s, es, RustIsReady); es := es + [RustIsReady];
  }

  /** From there it is set; or, the gate or the loop closing first, it never is. */
  lemma {:induction false} ReadyGoesOn(s: State, r: Outcome, x: Event, y: Event) returns (es: seq<Event>)
    requires s.rust == Ready(r) && s.target.Pending? && s.env == Env(true, true)
    requires (x, y) == (RustPosts(r), CompleteRuns) || (x, y) == (GateCloses, RustParks)
             || (x, y) == (LoopCloses, RustGivesUp)
    ensures Legal(Both, s, es) && es == [x, y]
    ensures var t := After(Both, s, es);
            match y
            case CompleteRuns => t.target == Set(r)
            case RustParks => t.rust.Parked? && t.target.Pending?
            case _ => t.rust.GaveUp? && t.target.Pending?
  {
    var s1 := Step(s, x);
    var s2 := Step(s1, y);
    assert Can(s, x) && Can(s1, y);
    assert y.CompleteRuns? ==> s2.target == Set(r);
    assert y.RustParks? ==> s2.rust.Parked? && s2.target.Pending?;
    assert y.RustGivesUp? ==> s2.rust.GaveUp? && s2.target.Pending?;
    hide Step, Can;
    es := [];
    Goes(Both, s, es, x); es := es + [x];
    Goes(Both, s, es, y); es := es + [y];
  }

  // ---- when the Rust future is dropped ---------------------------------------

  /** At rest, with gate and loop open, the Rust future was dropped unfinished
      exactly when the asyncio future is done and the Rust one never finished. */
  lemma {:induction false} DroppedIfDoneFirst(s: State)
    requires Reachable(s) && Quiet(s) && s.env == Env(true, true)
    ensures s.rust.Abandoned? <==> !s.target.Pending? && !s.inner.fut.Returned?
    ensures s.rust.Abandoned? <==> s.inner.slot.dropped
  {
    ReachableInv(s);
    assert s.inner.slot.dropped <==> !s.inner.fut.Waiting? && !s.inner.fut.Returned? by { hide I.Once, I.Handed; }
    if s.target.Cancelled? || s.target.SetByOthers? { CancelIsPassedOn(s); }
    hide I.Inv, Quiet;
  }

  /** Letting go of the asyncio future does not drop the Rust one: the runtime task
      has it too.  Once nobody else has it and it is not done, the Rust future
      is not dropped in any run. */
  lemma {:induction false} LetGoDropsNothing(s: State, es: seq<Event>)
    requires Reachable(s) && s.target.Pending? && !s.held && Legal(Both, s, es)
    ensures var t := After(Both, s, es); !t.rust.Abandoned? && (t.target.Pending? || t.target.Set?)
    ensures !After(Both, s, es).inner.slot.dropped
  {
    ReachableInv(s);
    var inv := (t: State) => Inv(t) && !t.held && NotAbandoned(t);
    assert inv(s) by { hide I.Inv; }
    forall t, e | inv(t) && Can(t, e) ensures inv(Step(t, e)) {
      StepKeeps(t, e);
      StaysKept(t, e);
      hide Inv, Step, NotAbandoned;
    }
    Kept(Both, inv, s, es);
    var t := After(Both, s, es);
    assert Inv(t) && NotAbandoned(t);
    assert t.inner.slot.dropped <==> !t.inner.fut.Waiting? && !t.inner.fut.Returned? by { hide I.Once, I.Handed; }
    hide I.Inv;
  }

  /** The future is pending with the runtime task's sender unused, or set by
      `Complete`. */
  predicate NotAbandoned(s: State) {
    (s.target.Pending? && s.cancelTx.Held? && !s.rust.Abandoned?) || (s.target.Set? && !s.rust.Abandoned?)
  }

  lemma {:induction false} StaysKept(s: State, e: Event)
    requires Inv(s) && !s.held && NotAbandoned(s) && Can(s, e)
    ensures !Step(s, e).held && NotAbandoned(Step(s, e))
  {
    hide I.Inv, I.Step;
  }

  /** And it can be dropped though nothing was cancelled: other code sets the
      asyncio future, and the sender goes with its callback. */
  lemma {:induction false} SetByOthersDrops(s: State, o: Outcome) returns (es: seq<Event>)
    requires Initial(s)
    ensures Legal(Both, s, es)
    ensures var t := After(Both, s, es);
            t.target == SetByOthers(o) && t.rust.Abandoned? && t.inner.slot.dropped
  {
    var s1 := Step(s, TargetIsSet(o));
    var s2 := Step(s1, OnCancelFreed);
    var s3 := Step(s2, RustSeesCancel);
    assert Can(s, TargetIsSet(o)) && Can(s1, OnCancelFreed) && Can(s2, RustSeesCancel);
    assert s3.target == SetByOthers(o) && s3.rust.Abandoned? && s3.inner.slot.dropped;
    hide Step, Can;
    es := [];
    Goes(Both, s, es, TargetIsSet(o)); es := es + [TargetIsSet(o)];
    Goes(Both, s, es, OnCancelFreed); es := es + [OnCancelFreed];
    Goes(Both, s, es, RustSeesCancel); es := es + [RustSeesCancel];
  }

  // ---- it comes to rest ----------------------------------------------------

  function RustCost(r: Rust): nat {
    match r
    case Selecting => 3
    case Ready(_) => 2
    case Posted(_) => 1
    case _ => 0
  }

  function InnerCost(i: I.State): nat {
    (if i.awaitable then 2 else 0) + i.holders
    + (match i.tx case InStart => 2 case InDone => 1 case _ => 0)
    + (match i.fut case Waiting => 3 case Dropping(_) => 2 case _ => 0)
    + (if i.cancelRuns < i.cancels then i.cancels - i.cancelRuns else 0)
  }

  function Cost(s: State): nat {
    RustCost(s.rust) + InnerCost(s.inner) + (if s.cancelTx.Held? then 1 else 0)
  }

  lemma {:induction false} InnerIsPaid(i: I.State, e: I.Event)
    requires I.Inv(i) && I.Can(i, e)
    ensures InnerCost(I.Step(i, e)) <= InnerCost(i)
    ensures (e.StartTakes? && i.awaitable) || e.StartLocked? ==> InnerCost(I.Step(i, e)) < InnerCost(i)
    ensures (e.StartFreed? && i.tx.InStart?) || (e.DoneRuns? && i.tx.InDone?) ==> InnerCost(I.Step(i, e)) < InnerCost(i)
    ensures e.FutAsksCancel? || e.FutIsDropped? || e.CancelRuns? ==> InnerCost(I.Step(i, e)) < InnerCost(i)
  {
  }

  /** Whatever is due uses up some of what is left, which nothing adds to. */
  lemma {:induction false} DueIsPaid(s: State, e: Event)
    requires Inv(s) && Can(s, e)
    ensures Cost(Step(s, e)) <= Cost(s)
    ensures Due(s, e) ==> Cost(Step(s, e)) < Cost(s)
  {
    match e
    case Inner(x) => InnerIsPaid(s.inner, x); hide I.Inv, I.Step, InnerCost;
    case RustSeesCancel => InnerIsPaid(s.inner, I.FutDrops); hide I.Inv, I.Step, InnerCost;
    case RustIsReady => InnerIsPaid(s.inner, I.FutReturns); hide I.Inv, I.Step, InnerCost;
    case _ => hide I.Inv;
  }

  /** The events of a run that were due where they happened. */
  ghost function Dues(s: State, es: seq<Event>): nat
    decreases |es|
  {
    if es == [] then 0 else (if Due(s, es[0]) then 1 else 0) + Dues(Step(s, es[0]), es[1..])
  }

  lemma {:induction false} DuesArePaid(s: State, es: seq<Event>)
    requires Inv(s) && Legal(Both, s, es)
    ensures Dues(s, es) + Cost(After(Both, s, es)) <= Cost(s)
    decreases |es|
  {
    if es != [] {
      StepKeeps(s, es[0]);
      DueIsPaid(s, es[0]);
      hide Inv, Due, Step, Cost;
      DuesArePaid(Step(s, es[0]), es[1..]);
    }
  }

  /** The bridges come to rest: whatever else happens, and in whatever order, no
      run has more than 11 things that were due. */
  lemma {:induction false} ComesToRest(s: State, es: seq<Event>)
    requires Initial(s) && Legal(Both, s, es)
    ensures Dues(s, es) <= 11
  {
    assert Cost(s) == 11 && Inv(s);
    hide Inv, Cost;
    DuesArePaid(s, es);
  }
}
