/** The gate at interpreter exit (src/rt.rs, `attach` and `_shutdown`).

    Any number of runtime threads enter `attach`, one inside another included:
    each level adds one to INFLIGHT, reads EXITING, and takes one off again when
    its closure returned, or when it was refused, after which the thread parks
    for good.  The exit hook stores EXITING and polls INFLIGHT until it reads 0
    or its time is up.  The atomics are sequentially consistent, so an event is
    one access. */
module Gate {
  import opened Runs

  /** One level of `attach` on a thread, after it added to INFLIGHT. */
  datatype Level =
    | Entered                    // before it reads EXITING
    | Attached                   // read false: inside the closure
    | Refused                    // read true: about to take off and park

  datatype Thread = Thread(levels: seq<Level>, parked: bool)

  datatype Hook = NotRun | Polling | Drained | TimedOut

  datatype State = State(exiting: bool, inflight: int, hook: Hook, threads: seq<Thread>)

  ghost predicate Initial(s: State) { s == State(false, 0, NotRun, []) }

  datatype Event =
    | Spawn                      // a thread is made and marked the runtime's
    | Enter(t: nat)              // INFLIGHT.fetch_add
    | LoadExiting(t: nat)        // EXITING.load
    | Leave(t: nat)              // the closure returned: INFLIGHT.fetch_sub
    | Park(t: nat)               // refused: INFLIGHT.fetch_sub, then park
    | StoreExiting               // the hook: EXITING.store
    | LoadInflight               // the hook: INFLIGHT.load
    | TimeIsUp                   // the hook: EXIT_WAIT has passed

  function Top(th: Thread): Level
    requires th.levels != []
  {
    th.levels[|th.levels| - 1]
  }

  predicate On(s: State, t: nat, l: Level) {
    t < |s.threads| && !s.threads[t].parked && s.threads[t].levels != [] && Top(s.threads[t]) == l
  }

  /** Code of the thread's own runs, in no closure or in one. */
  predicate MayEnter(th: Thread) { !th.parked && (th.levels == [] || Top(th).Attached?) }

  predicate Can(s: State, e: Event) {
    match e
    case Spawn => true
    case Enter(t) => t < |s.threads| && MayEnter(s.threads[t])
    case LoadExiting(t) => On(s, t, Entered)
    case Leave(t) => On(s, t, Attached)
    case Park(t) => On(s, t, Refused)
    case StoreExiting => s.hook.NotRun?
    case LoadInflight => s.hook.Polling?
    case TimeIsUp => s.hook.Polling?
  }

  function With(s: State, t: nat, th: Thread, d: int): State {
    if t < |s.threads| then s.(threads := s.threads[t := th], inflight := s.inflight + d) else s
  }

  function Popped(th: Thread): Thread {
    if th.levels == [] then th else th.(levels := th.levels[..|th.levels| - 1])
  }

  function Answered(th: Thread, l: Level): Thread {
    Popped(th).(levels := Popped(th).levels + [l])
  }

  function Step(s: State, e: Event): State {
    match e
    case Spawn => s.(threads := s.threads + [Thread([], false)])
    case Enter(t) =>
      if t < |s.threads| then With(s, t, s.threads[t].(levels := s.threads[t].levels + [Entered]), 1) else s
    case LoadExiting(t) =>
      if t < |s.threads| then With(s, t, Answered(s.threads[t], if s.exiting then Refused else Attached), 0) else s
    case Leave(t) => if t < |s.threads| then With(s, t, Popped(s.threads[t]), -1) else s
    case Park(t) => if t < |s.threads| then With(s, t, Popped(s.threads[t]).(parked := true), -1) else s
    case StoreExiting => s.(exiting := true, hook := Polling)
    case LoadInflight => if s.inflight > 0 then s else s.(hook := Drained)
    case TimeIsUp => s.(hook := TimedOut)
  }

  const Process := Machine(Can, Step)

  // ---- counting levels -----------------------------------------------------

  /** The open levels of all threads. */
  function Levels(ts: seq<Thread>): nat {
    if ts == [] then 0 else |ts[0].levels| + Levels(ts[1..])
  }

  lemma {:induction false} LevelsUpdate(ts: seq<Thread>, t: nat, th: Thread)
    requires t < |ts|
    ensures Levels(ts[t := th]) == Levels(ts) - |ts[t].levels| + |th.levels|
  {
    if t > 0 {
      LevelsUpdate(ts[1..], t - 1, th);
      assert ts[t := th][1..] == ts[1..][t - 1 := th];
    } else {
      assert ts[t := th][1..] == ts[1..];
    }
  }

  lemma {:induction false} LevelsAppend(ts: seq<Thread>, th: Thread)
    ensures Levels(ts + [th]) == Levels(ts) + |th.levels|
  {
    if ts == [] {
      assert ts + [th] == [th] && [th][1..] == [];
    } else {
      LevelsAppend(ts[1..], th);
      assert (ts + [th])[1..] == ts[1..] + [th];
    }
  }

  lemma {:induction false} LevelsNone(ts: seq<Thread>)
    ensures Levels(ts) == 0 <==> forall t :: 0 <= t < |ts| ==> ts[t].levels == []
  {
    if ts != [] {
      LevelsNone(ts[1..]);
      assert forall t :: 0 <= t < |ts[1..]| ==> ts[1..][t] == ts[t + 1];
    }
  }

  // ---- safety --------------------------------------------------------------

  /** Only the innermost level can be anything but attached. */
  predicate Nested(th: Thread) {
    && (forall i :: 0 <= i < |th.levels| - 1 ==> th.levels[i].Attached?)
    && (th.parked && th.levels != [] ==> Top(th).Attached?)
  }

  predicate AnyAttached(th: Thread) { exists i :: 0 <= i < |th.levels| && th.levels[i].Attached? }

  predicate NoneAttached(s: State) { forall t :: 0 <= t < |s.threads| ==> !AnyAttached(s.threads[t]) }

  predicate Inv(s: State) {
    && s.inflight == Levels(s.threads)
    && (forall t :: 0 <= t < |s.threads| ==> Nested(s.threads[t]))
    && (s.exiting <==> !s.hook.NotRun?)
    && (s.hook.Drained? ==> NoneAttached(s))
  }

  lemma {:induction false} ThreadKeeps(s: State, t: nat, th: Thread, d: int)
    requires Inv(s) && t < |s.threads| && Nested(th) && d == |th.levels| - |s.threads[t].levels|
    requires s.hook.Drained? ==> !AnyAttached(th)
    ensures Inv(With(s, t, th, d))
  {
    LevelsUpdate(s.threads, t, th);
    hide Levels, Nested, AnyAttached;
  }

  lemma {:induction false} StepKeeps(s: State, e: Event)
    requires Inv(s) && Can(s, e)
    ensures Inv(Step(s, e))
  {
    match e
    case Spawn => LevelsAppend(s.threads, Thread([], false)); hide Levels;
    case Enter(t) =>
      hide Levels;
      var th := s.threads[t];
      ThreadKeeps(s, t, th.(levels := th.levels + [Entered]), 1);
    case LoadExiting(t) =>
      hide Levels;
      ThreadKeeps(s, t, Answered(s.threads[t], if s.exiting then Refused else Attached), 0);
    case Leave(t) => hide Levels; ThreadKeeps(s, t, Popped(s.threads[t]), -1);
    case Park(t) => hide Levels; ThreadKeeps(s, t, Popped(s.threads[t]).(parked := true), -1);
    case LoadInflight => LevelsNone(s.threads); hide Levels;
    case _ => hide Levels;
  }

  ghost predicate Reachable(s: State) {
    exists s0, es :: Initial(s0) && Legal(Process, s0, es) && After(Process, s0, es) == s
  }

  lemma {:induction false} ReachableInv(s: State)
    requires Reachable(s)
    ensures Inv(s)
  {
    var s0, es :| Initial(s0) && Legal(Process, s0, es) && After(Process, s0, es) == s;
    InvIsInductive();
    Kept(Process, Inv, s0, es);
  }

  lemma {:induction false} InvIsInductive()
    ensures Inductive(Process, Inv)
  {
    forall s, e | Inv(s) && Can(s, e) ensures Inv(Step(s, e)) { StepKeeps(s, e); }
  }

  /** INFLIGHT is always the number of open levels, so no level takes one off
      that was not added, and once the hook has read 0 no runtime thread is attached, then or ever
      after. */
  lemma {:induction false} GateIsSafe(s: State, es: seq<Event>)
    requires Reachable(s) && Legal(Process, s, es)
    ensures s.inflight == Levels(s.threads)
    ensures forall t :: 0 <= t < |s.threads| && s.threads[t].levels != [] ==> s.inflight > 0
    ensures s.hook.Drained? ==> NoneAttached(s) && NoneAttached(After(Process, s, es))
  {
    ReachableInv(s);
    LevelsNone(s.threads);
    InvIsInductive();
    var inv := (t: State) => Inv(t) && (s.hook.Drained? ==> t.hook.Drained?);
    forall s, e | inv(s) && Can(s, e) ensures inv(Step(s, e)) { StepKeeps(s, e); }
    Kept(Process, inv, s, es);
  }

  /** Whenever the hook returns: no level is attached after EXITING was stored
      that was not attached then. */
  predicate NoMore(s: State, t: State) {
    && |s.threads| <= |t.threads|
    && (forall i :: 0 <= i < |s.threads| ==> Attachments(t.threads[i]) <= Attachments(s.threads[i]))
    && (forall i :: |s.threads| <= i < |t.threads| ==> Attachments(t.threads[i]) == 0)
  }

  /** The attached levels of a thread, all but an innermost one that is not. */
  function Attachments(th: Thread): nat {
    if th.levels == [] then 0 else if Top(th).Attached? then |th.levels| else |th.levels| - 1
  }

  lemma {:induction false} ExitAttachesNothing(s: State, t: State, e: Event)
    requires Inv(t) && t.exiting && Can(t, e) && NoMore(s, t)
    ensures NoMore(s, Step(t, e))
  {
    hide Levels;
  }

  lemma {:induction false} NothingAttachesAfterExit(s: State, es: seq<Event>)
    requires Reachable(s) && s.exiting && Legal(Process, s, es)
    ensures NoMore(s, After(Process, s, es))
  {
    ReachableInv(s);
    InvIsInductive();
    var inv := (t: State) => Inv(t) && t.exiting && NoMore(s, t);
    forall t, e | inv(t) && Can(t, e) ensures inv(Step(t, e)) {
      StepKeeps(t, e);
      ExitAttachesNothing(s, t, e);
    }
    Kept(Process, inv, s, es);
  }

  /** One level that nothing interrupts: with the gate open everything is as it
      was; with the gate closed the thread is parked, and all else as it was. */
  lemma {:induction false} LevelAlone(s: State, t: nat, u: State, v: State)
    requires Can(s, Enter(t)) && u == Step(s, Enter(t)) && v == Step(u, LoadExiting(t))
    ensures Can(u, LoadExiting(t)) && u.exiting == v.exiting == s.exiting
    ensures !s.exiting ==> Can(v, Leave(t)) && Step(v, Leave(t)) == s
    ensures s.exiting ==> Can(v, Park(t)) && Step(v, Park(t)) == With(s, t, s.threads[t].(parked := true), 0)
  {
    var ls := s.threads[t].levels;
    assert (ls + [Entered])[..|ls|] == ls && (ls + [Attached])[..|ls|] == ls && (ls + [Refused])[..|ls|] == ls;
    assert u.threads[t].levels == ls + [Entered];
    assert v.threads[t].levels == ls + [if s.exiting then Refused else Attached];
    var w := Step(v, if s.exiting then Park(t) else Leave(t));
    assert w.threads[t].levels == ls;
    assert w.threads == if s.exiting then s.threads[t := s.threads[t].(parked := true)] else s.threads;
  }

  // ---- draining ------------------------------------------------------------

  predicate IsThreadStep(e: Event) { e.Enter? || e.LoadExiting? || e.Leave? || e.Park? }

  /** The steps a thread can still take once EXITING is set: from its own code it
      can leave its levels, and enter one more, which is refused. */
  function ThreadCost(th: Thread): nat {
    if th.parked then 0
    else if th.levels == [] || Top(th).Attached? then |th.levels| + 3
    else if Top(th).Entered? then 2
    else 1
  }

  function Cost(ts: seq<Thread>): nat {
    if ts == [] then 0 else ThreadCost(ts[0]) + Cost(ts[1..])
  }

  lemma {:induction false} CostUpdate(ts: seq<Thread>, t: nat, th: Thread)
    requires t < |ts|
    ensures Cost(ts[t := th]) == Cost(ts) - ThreadCost(ts[t]) + ThreadCost(th)
  {
    hide ThreadCost;
    if t > 0 {
      CostUpdate(ts[1..], t - 1, th);
      assert ts[t := th][1..] == ts[1..][t - 1 := th];
    } else {
      assert ts[t := th][1..] == ts[1..];
    }
  }

  lemma {:induction false} CostAppend(ts: seq<Thread>, th: Thread)
    ensures Cost(ts + [th]) == Cost(ts) + ThreadCost(th)
  {
    hide ThreadCost;
    if ts == [] {
      assert ts + [th] == [th] && [th][1..] == [];
    } else {
      CostAppend(ts[1..], th);
      assert (ts + [th])[1..] == ts[1..] + [th];
    }
  }

  lemma {:induction false} StepIsPaid(s: State, e: Event)
    requires Inv(s) && s.exiting && Can(s, e)
    ensures Cost(Step(s, e).threads) + (if IsThreadStep(e) then 1 else 0)
            <= Cost(s.threads) + (if e.Spawn? then 3 else 0)
  {
    hide Cost, Levels;
    match e
    case Spawn => CostAppend(s.threads, Thread([], false));
    case Enter(t) => CostUpdate(s.threads, t, Step(s, e).threads[t]);
    case LoadExiting(t) => CostUpdate(s.threads, t, Step(s, e).threads[t]);
    case Leave(t) =>
      CostUpdate(s.threads, t, Popped(s.threads[t]));
      assert ThreadCost(Popped(s.threads[t])) < ThreadCost(s.threads[t]);
    case Park(t) => CostUpdate(s.threads, t, Step(s, e).threads[t]);
    case _ =>
  }

  function StateCost(s: State): nat { Cost(s.threads) }

  function SpawnPrice(e: Event): nat { if e.Spawn? then 3 else 0 }

  predicate Closing(s: State) { Inv(s) && s.exiting }

  /** Once EXITING is set the threads there are take a bounded number of steps,
      nested or not, and late entries included. */
  lemma {:induction false} ExitIsBounded(s: State, es: seq<Event>)
    requires Reachable(s) && s.exiting && Legal(Process, s, es)
    ensures Count(IsThreadStep, es) + StateCost(After(Process, s, es)) <= StateCost(s) + Total(SpawnPrice, es)
  {
    ReachableInv(s);
    forall s, e | Closing(s) && Can(s, e) ensures Closing(Step(s, e)) { StepKeeps(s, e); }
    forall s, e | Closing(s) && Can(s, e)
      ensures StateCost(Step(s, e)) + (if IsThreadStep(e) then 1 else 0) <= StateCost(s) + SpawnPrice(e)
    {
      StepIsPaid(s, e);
    }
    Budget(Process, Closing, StateCost, IsThreadStep, SpawnPrice, s, es);
  }

  /** No `attach` is under way: every level entered was left or its thread parked. */
  predicate AtRest(s: State) {
    forall t :: 0 <= t < |s.threads| ==> s.threads[t].parked || s.threads[t].levels == []
  }

  /** A thread refused inside a closure of its own. */
  predicate ParkedInside(th: Thread) { th.parked && th.levels != [] }

  /** A state that is not at rest has a thread step to take other than an entry. */
  lemma {:induction false} NotAtRest(s: State)
    requires !AtRest(s)
    ensures exists t :: Can(s, LoadExiting(t)) || Can(s, Leave(t)) || Can(s, Park(t))
  {
    var t :| 0 <= t < |s.threads| && !s.threads[t].parked && s.threads[t].levels != [];
    match Top(s.threads[t])
    case Entered => assert Can(s, LoadExiting(t));
    case Attached => assert Can(s, Leave(t));
    case Refused => assert Can(s, Park(t));
  }

  /** A level inside another reads EXITING as set. */
  predicate RefusesInside(s: State, e: Event) {
    e.LoadExiting? && s.exiting && e.t < |s.threads| && |s.threads[e.t].levels| > 1
  }

  /** Some level of a run does. */
  ghost predicate AnyRefusedInside(s: State, es: seq<Event>)
    decreases |es|
  {
    es != [] && (RefusesInside(s, es[0]) || AnyRefusedInside(Step(s, es[0]), es[1..]))
  }

  /** A thread that was refused inside a closure of its own. */
  predicate CaughtInside(th: Thread) {
    ParkedInside(th) || (!th.parked && |th.levels| > 1 && Top(th).Refused?)
  }

  predicate AnyCaught(s: State) { exists t :: 0 <= t < |s.threads| && CaughtInside(s.threads[t]) }

  lemma {:induction false} CaughtIfRefused(s: State, e: Event)
    requires Inv(s) && Can(s, e)
    ensures AnyCaught(Step(s, e)) <==> AnyCaught(s) || RefusesInside(s, e)
  {
    hide Levels, NoneAttached;
    var u := Step(s, e);
    if t :| 0 <= t < |s.threads| && CaughtInside(s.threads[t]) {
      assert CaughtInside(u.threads[t]);
    }
    if RefusesInside(s, e) { assert CaughtInside(u.threads[e.t]); }
    if t :| 0 <= t < |u.threads| && CaughtInside(u.threads[t]) {
      if t < |s.threads| && !CaughtInside(s.threads[t]) { CaughtNow(s, e, t); }
    }
  }

  lemma {:induction false} CaughtNow(s: State, e: Event, t: nat)
    requires Can(s, e) && t < |s.threads| && Nested(s.threads[t]) && !CaughtInside(s.threads[t])
    requires t < |Step(s, e).threads| && CaughtInside(Step(s, e).threads[t])
    ensures RefusesInside(s, e)
  {
  }

  lemma {:induction false} CaughtIfAnyRefused(s: State, es: seq<Event>)
    requires Inv(s) && Legal(Process, s, es)
    ensures Inv(After(Process, s, es))
    ensures AnyCaught(After(Process, s, es)) <==> AnyCaught(s) || AnyRefusedInside(s, es)
    decreases |es|
  {
    if es != [] {
      StepKeeps(s, es[0]);
      CaughtIfRefused(s, es[0]);
      hide Inv, AnyCaught, RefusesInside, Step;
      CaughtIfAnyRefused(Step(s, es[0]), es[1..]);
    }
  }

  /** With no `attach` under way INFLIGHT is 0 exactly when no level inside
      another has read EXITING as set, in all the run. */
  lemma {:induction false} DrainsUnlessNested(s: State, es: seq<Event>)
    requires Initial(s) && Legal(Process, s, es) && AtRest(After(Process, s, es))
    ensures After(Process, s, es).inflight == 0 <==> !AnyRefusedInside(s, es)
  {
    CaughtIfAnyRefused(s, es);
    var u := After(Process, s, es);
    LevelsNone(u.threads);
    hide Levels;
    assert AnyCaught(u) <==> exists t :: 0 <= t < |u.threads| && u.threads[t].levels != [];
  }

  /** A poll of the hook ends it exactly when no thread has an open level. */
  lemma {:induction false} PollDrains(s: State)
    requires Reachable(s) && Can(s, LoadInflight)
    ensures Step(s, LoadInflight).hook.Drained? <==> forall t :: 0 <= t < |s.threads| ==> s.threads[t].levels == []
    ensures !Step(s, LoadInflight).hook.Drained? ==> Step(s, LoadInflight) == s
  {
    ReachableInv(s);
    LevelsNone(s.threads);
  }

  /** The gate is closed once the hook has stored EXITING, and the hook gave up
      exactly if its time was up. */
  lemma {:induction false} HookIs(s: State, es: seq<Event>)
    requires Initial(s) && Legal(Process, s, es)
    ensures After(Process, s, es).exiting <==> StoreExiting in es
    ensures After(Process, s, es).hook.TimedOut? <==> TimeIsUp in es
  {
    InvIsInductive();
    var closed := (t: State) => t.exiting;
    var stores := (e: Event) => e == StoreExiting;
    var over := (t: State) => t.hook.TimedOut?;
    var ends := (e: Event) => e == TimeIsUp;
    forall t, e | Inv(t) && Can(t, e)
      ensures closed(Step(t, e)) <==> closed(t) || stores(e)
      ensures over(Step(t, e)) <==> over(t) || ends(e)
    {
      hide Inv;
    }
    Tells(Process, Inv, closed, stores, s, es);
    Tells(Process, Inv, over, ends, s, es);
    HasOne(stores, es, StoreExiting);
    HasOne(ends, es, TimeIsUp);
  }

  /** Runs in which no closure enters `attach` again. */
  predicate CanFlat(s: State, e: Event) {
    Can(s, e) && (e.Enter? ==> s.threads[e.t].levels == [])
  }

  const FlatProcess := Machine(CanFlat, Step)

  predicate FlatInv(s: State) {
    && Inv(s)
    && forall t :: 0 <= t < |s.threads| ==>
         |s.threads[t].levels| <= 1 && (s.threads[t].parked ==> s.threads[t].levels == [])
  }

  lemma {:induction false} FlatKeeps(s: State, e: Event)
    requires FlatInv(s) && CanFlat(s, e)
    ensures FlatInv(Step(s, e))
  {
    StepKeeps(s, e);
    hide Inv, Levels;
  }

  /** Without re-entry INFLIGHT reaches 0 for good: after EXITING is set the
      threads take a bounded number of steps, and whenever none has an `attach`
      under way it is 0. */
  lemma {:induction false} FlatDrains(s: State, es: seq<Event>, u: State, fs: seq<Event>)
    requires Initial(s) && Legal(FlatProcess, s, es)
    requires u == After(FlatProcess, s, es) && u.exiting && Legal(FlatProcess, u, fs)
    ensures Count(IsThreadStep, fs) <= 4 * |u.threads| + Total(SpawnPrice, fs)
    ensures AtRest(After(FlatProcess, u, fs)) ==> After(FlatProcess, u, fs).inflight == 0
    ensures var v := After(FlatProcess, u, fs);
            AtRest(v) && Can(v, LoadInflight) ==> Step(v, LoadInflight).hook.Drained?
  {
    forall s, e | FlatInv(s) && CanFlat(s, e) ensures FlatInv(Step(s, e)) { FlatKeeps(s, e); }
    Kept(FlatProcess, FlatInv, s, es);
    Kept(FlatProcess, FlatInv, u, fs);
    var closing := (s: State) => FlatInv(s) && s.exiting;
    forall s, e | closing(s) && CanFlat(s, e) ensures closing(Step(s, e)) { FlatKeeps(s, e); }
    forall s, e | closing(s) && CanFlat(s, e)
      ensures StateCost(Step(s, e)) + (if IsThreadStep(e) then 1 else 0) <= StateCost(s) + SpawnPrice(e)
    {
      StepIsPaid(s, e);
    }
    Budget(FlatProcess, closing, StateCost, IsThreadStep, SpawnPrice, u, fs);
    FlatCost(u.threads);
    LevelsNone(After(FlatProcess, u, fs).threads);
  }

  lemma {:induction false} FlatCost(ts: seq<Thread>)
    requires forall t :: 0 <= t < |ts| ==> |ts[t].levels| <= 1
    ensures Cost(ts) <= 4 * |ts|
  {
    if ts != [] { FlatCost(ts[1..]); }
  }

  predicate Stuck(s: State, t: nat) { Inv(s) && t < |s.threads| && ParkedInside(s.threads[t]) && !s.hook.Drained? }

  lemma {:induction false} StuckStays(s: State, t: nat, e: Event)
    requires Stuck(s, t) && Can(s, e)
    ensures Stuck(Step(s, e), t)
  {
    StepKeeps(s, e);
    LevelsNone(s.threads);
    hide Levels;
  }

  /** With re-entry it need not: a thread refused inside a closure of its own
      keeps INFLIGHT above 0, so the hook can only wait its whole time. */
  lemma {:induction false} NestedNeverDrains(s: State, t: nat, es: seq<Event>)
    requires Reachable(s) && t < |s.threads| && ParkedInside(s.threads[t]) && !s.hook.Drained?
    requires Legal(Process, s, es)
    ensures After(Process, s, es).inflight > 0 && !After(Process, s, es).hook.Drained?
  {
    ReachableInv(s);
    var inv := (s: State) => Stuck(s, t);
    forall s, e | inv(s) && Can(s, e) ensures inv(Step(s, e)) { StuckStays(s, t, e); }
    Kept(Process, inv, s, es);
    LevelsNone(After(Process, s, es).threads);
  }

  /** And such a state is reached. */
  lemma {:induction false} NestedIsReached(s: State) returns (es: seq<Event>)
    requires Initial(s)
    ensures Legal(Process, s, es)
    ensures var u := After(Process, s, es); |u.threads| == 1 && ParkedInside(u.threads[0]) && !u.hook.Drained?
  {
    var s1 := Step(s, Spawn);
    var s2 := Step(s1, Enter(0));
    var s3 := Step(s2, LoadExiting(0));
    var s4 := Step(s3, StoreExiting);
    var s5 := Step(s4, Enter(0));
    var s6 := Step(s5, LoadExiting(0));
    var s7 := Step(s6, Park(0));
    assert s2.threads == [Thread([Entered], false)];
    assert s3.threads[0].levels == [Attached];
    assert s5.threads[0].levels == [Attached, Entered];
    assert s6.threads[0].levels == [Attached, Refused];
    assert s7.threads[0].levels == [Attached];
    assert Can(s1, Enter(0)) && Can(s2, LoadExiting(0)) && Can(s4, Enter(0)) && Can(s5, LoadExiting(0)) && Can(s6, Park(0));
    assert s7.hook.Polling? && ParkedInside(s7.threads[0]) && Can(s3, StoreExiting) && Can(s, Spawn);
    hide Step, Can, ParkedInside;
    es := [];
    Goes(Process, s, es, Spawn); es := es + [Spawn];
    Goes(Process, s, es, Enter(0)); es := es + [Enter(0)];
    Goes(Process, s, es, LoadExiting(0)); es := es + [LoadExiting(0)];
    Goes(Process, s, es, StoreExiting); es := es + [StoreExiting];
    Goes(Process, s, es, Enter(0)); es := es + [Enter(0)];
    Goes(Process, s, es, LoadExiting(0)); es := es + [LoadExiting(0)];
    Goes(Process, s, es, Park(0)); es := es + [Park(0)];
  }
}
