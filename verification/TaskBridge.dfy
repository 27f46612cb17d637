/** A Python awaitable as a Rust future (src/rt.rs, `into_future`): the callback
    `Start`, the task's callback `Done`, the locked `Slot`, the one-shot channel
    and the guard `CancelOnDrop`, run by an event loop and a runtime thread in
    any order.

    The slot's lock makes the rest of `Start` after it one event, and the locked
    part of the guard's drop another.  `Start` and `Done` are objects Python
    holds, so each may be called any number of times. */
module TaskBridge {
  import opened Runs

  datatype Outcome =
    | Value(v: int)
    | Raised(e: int)
    | TaskWasDropped             // CancelledError("the task was dropped")

  /** The sender of the one-shot channel. */
  datatype Tx = InStart | InDone | Sent(r: Outcome) | Gone

  datatype Task = NoTask | Running(cancelled: bool) | Finished(r: Outcome)

  datatype Slot = Slot(task: bool, dropped: bool)

  /** How the guard's drop ended: the loop was given the task's `cancel`, or was
      closed and took no call, or there was no task yet. */
  datatype Ask = Asked | LoopClosed | NothingToCancel

  /** The Rust future, with the guard inside it. */
  datatype Fut =
    | Waiting
    | Returned(r: Outcome)
    | Dropping(had: bool)        // marked dropped; it took a task out of the slot
    | Dropped(how: Ask)          // done
    | Parked                     // the gate is closed: the thread never goes on

  /** What was done with the awaitable. */
  datatype Calls = Calls(
    starts: nat,                 // ensure_future made a task of it
    closes: nat,                 // closed without being started
    spoiled: nat                 // ensure_future raised, it has no close, or the loop never ran `Start`
  )

  datatype State = State(
    awaitable: bool,             // still in `Start`
    holders: nat,                // calls of `Start` that took it, before the lock
    closable: bool,              // it has a `close` method
    calls: Calls,
    tx: Tx, sends: nat,
    task: Task,
    slot: Slot,
    fut: Fut,
    cancels: nat,                // calls of the task's `cancel` given to the loop
    cancelRuns: nat              // of those, run
  )

  ghost predicate Initial(s: State) {
    s == State(true, 0, s.closable, Calls(0, 0, 0), InStart, 0, NoTask, Slot(false, false), Waiting, 0, 0)
  }

  datatype Event =
    | StartTakes                 // Start.__call__ up to the slot's lock
    | StartLocked(raises: bool)  // the rest of it; ensure_future may raise
    | StartFreed                 // the loop lets go of `Start`
    | TaskEnds(r: Outcome)
    | DoneRuns                   // Done.__call__
    | DoneFreed                  // the task's callbacks are let go
    | FutReturns                 // the future is polled and is ready
    | FutDrops                   // the future is dropped: the guard, under the lock
    | FutAsksCancel              // the guard's drop, inside the gate
    | FutParks                   // the guard's drop finds the gate closed
    | FutGivesUp                 // the loop is closed and takes no call
    | FutIsDropped               // the guard had no task to cancel
    | CancelRuns                 // the loop runs the task's cancel

  predicate Can(s: State, e: Event) {
    match e
    case StartTakes => true
    case StartLocked(_) => s.holders > 0
    case StartFreed => s.holders == 0
    case TaskEnds(r) => s.task.Running? && !r.TaskWasDropped?
    case DoneRuns => s.task.Finished?
    case DoneFreed => !s.task.NoTask?
    case FutReturns => s.fut.Waiting? && (s.tx.Sent? || s.tx.Gone?)
    case FutDrops => s.fut.Waiting?
    case FutAsksCancel => s.fut == Dropping(true)
    case FutParks => s.fut == Dropping(true)
    case FutGivesUp => s.fut == Dropping(true)
    case FutIsDropped => s.fut == Dropping(false)
    case CancelRuns => s.cancelRuns < s.cancels
  }

  /** `Start` under the slot's lock. */
  function Started(s: State, raises: bool): State {
    var t := s.(holders := if s.holders > 0 then s.holders - 1 else 0);
    if t.slot.dropped then
      if t.closable then t.(calls := t.calls.(closes := t.calls.closes + 1))
      else t.(calls := t.calls.(spoiled := t.calls.spoiled + 1))
    else if raises then t.(calls := t.calls.(spoiled := t.calls.spoiled + 1))
    else t.(calls := t.calls.(starts := t.calls.starts + 1), task := Running(false),
            tx := if t.tx.InStart? then InDone else t.tx, slot := t.slot.(task := true))
  }

  function Step(s: State, e: Event): State {
    match e
    case StartTakes => if s.awaitable then s.(awaitable := false, holders := s.holders + 1) else s
    case StartLocked(raises) => Started(s, raises)
    case StartFreed =>
      s.(awaitable := false, calls := if s.awaitable then s.calls.(spoiled := s.calls.spoiled + 1) else s.calls,
         tx := if s.tx.InStart? then Gone else s.tx)
    case TaskEnds(r) => s.(task := Finished(r))
    case DoneRuns =>
      if s.tx.InDone? && s.task.Finished?
      then if s.fut.Waiting? then s.(tx := Sent(s.task.r), sends := s.sends + 1) else s.(tx := Gone)
      else s
    case DoneFreed => s.(tx := if s.tx.InDone? then Gone else s.tx)
    case FutReturns => s.(fut := Returned(if s.tx.Sent? then s.tx.r else TaskWasDropped))
    case FutDrops => s.(fut := Dropping(s.slot.task), slot := Slot(false, true))
    case FutAsksCancel => s.(fut := Dropped(Asked), cancels := s.cancels + 1)
    case FutParks => s.(fut := Parked)
    case FutGivesUp => s.(fut := Dropped(LoopClosed))
    case FutIsDropped => s.(fut := Dropped(NothingToCancel))
    case CancelRuns =>
      s.(cancelRuns := s.cancelRuns + 1, task := if s.task.Running? then Running(true) else s.task)
  }

  const Bridge := Machine(Can, Step)

  // ---- the invariant -------------------------------------------------------

  predicate Once(s: State) {
    && (if s.awaitable then 1 else 0) + s.holders + s.calls.starts + s.calls.closes + s.calls.spoiled == 1
    && (s.calls.starts == 1 <==> !s.task.NoTask?)
    && (s.calls.closes == 1 ==> s.slot.dropped && s.closable)
  }

  predicate Handed(s: State) {
    && s.sends <= 1
    && (s.tx.Sent? <==> s.sends == 1)
    && (s.tx.InStart? ==> s.task.NoTask?)
    && (s.tx.InDone? ==> !s.task.NoTask?)
    && (s.tx.Sent? ==> s.task == Finished(s.tx.r) && !s.tx.r.TaskWasDropped?)
    && (s.fut.Returned? ==> s.fut.r == if s.tx.Sent? then s.tx.r else TaskWasDropped)
    && (s.fut.Returned? ==> s.tx.Sent? || s.tx.Gone?)
    && (s.task.Finished? ==> !s.task.r.TaskWasDropped?)
  }

  predicate Guarded(s: State) {
    && (s.slot.dropped <==> !s.fut.Waiting? && !s.fut.Returned?)
    && (s.slot.task ==> !s.slot.dropped)
    && (!s.slot.dropped ==> (s.slot.task <==> s.calls.starts == 1))
    && (s.calls.starts == 1 ==> s.fut != Dropping(false) && s.fut != Dropped(NothingToCancel))
    && (s.calls.starts == 0 ==> s.fut != Dropping(true) && !s.fut.Parked? && (s.fut.Dropped? ==> s.fut.how.NothingToCancel?))
    && s.cancels == (if s.fut == Dropped(Asked) then 1 else 0)
    && s.cancelRuns <= s.cancels
    && (s.cancelRuns == 1 ==> s.task == Running(true) || s.task.Finished?)
    && (s.task == Running(true) ==> s.cancelRuns == 1)
  }

  predicate Inv(s: State) { Once(s) && Handed(s) && Guarded(s) }

  lemma {:induction false} StepKeeps(s: State, e: Event)
    requires Inv(s) && Can(s, e)
    ensures Inv(Step(s, e))
  {
  }

  lemma {:induction false} InvIsInductive()
    ensures Inductive(Bridge, Inv)
  {
    forall s, e | Inv(s) && Can(s, e) ensures Inv(Step(s, e)) { StepKeeps(s, e); }
  }

  ghost predicate Reachable(s: State) {
    exists s0, es :: Initial(s0) && Legal(Bridge, s0, es) && After(Bridge, s0, es) == s
  }

  lemma {:induction false} ReachableInv(s: State)
    requires Reachable(s)
    ensures Inv(s)
  {
    var s0, es :| Initial(s0) && Legal(Bridge, s0, es) && After(Bridge, s0, es) == s;
    InvIsInductive();
    Kept(Bridge, Inv, s0, es);
  }

  // ---- what becomes of the awaitable ----------------------------------------

  /** The lock is had by a call that took the awaitable: of a slot that is not
      dropped it makes a task, unless `ensure_future` raises; of a dropped one it
      closes the awaitable, if that has a `close`. */
  predicate Starts(s: State, e: Event) { e == StartLocked(false) && !s.slot.dropped }

  predicate Closes(s: State, e: Event) { e.StartLocked? && s.slot.dropped && s.closable }

  predicate Spoils(s: State, e: Event) {
    || (e == StartLocked(true) && !s.slot.dropped)
    || (e.StartLocked? && s.slot.dropped && !s.closable)
    || (e.StartFreed? && s.awaitable)
  }

  lemma {:induction false} CallsGrow(s: State, e: Event)
    requires Can(s, e)
    ensures Step(s, e).calls.starts == s.calls.starts + (if Starts(s, e) then 1 else 0)
    ensures Step(s, e).calls.closes == s.calls.closes + (if Closes(s, e) then 1 else 0)
    ensures Step(s, e).calls.spoiled == s.calls.spoiled + (if Spoils(s, e) then 1 else 0)
  {
  }

  /** So the awaitable became a task, was closed, or was neither, exactly as the
      run has an event of that kind. */
  lemma {:induction false} CallsAre(s: State, es: seq<Event>)
    requires Initial(s) && Legal(Bridge, s, es)
    ensures var t := After(Bridge, s, es);
            && (t.calls.starts == 1 <==> Any(Bridge, Starts, s, es))
            && (t.calls.closes == 1 <==> Any(Bridge, Closes, s, es))
            && (t.calls.spoiled == 1 <==> Any(Bridge, Spoils, s, es))
  {
    InvIsInductive();
    Kept(Bridge, Inv, s, es);
    var started := (t: State) => t.calls.starts > 0;
    var closed := (t: State) => t.calls.closes > 0;
    var spoiled := (t: State) => t.calls.spoiled > 0;
    forall t, e | Inv(t) && Can(t, e)
      ensures started(Step(t, e)) <==> started(t) || Starts(t, e)
      ensures closed(Step(t, e)) <==> closed(t) || Closes(t, e)
      ensures spoiled(Step(t, e)) <==> spoiled(t) || Spoils(t, e)
    {
      CallsGrow(t, e);
    }
    Remembered(Bridge, Inv, started, Starts, s, es);
    Remembered(Bridge, Inv, closed, Closes, s, es);
    Remembered(Bridge, Inv, spoiled, Spoils, s, es);
  }

  /** The sender is used for a future that waits, or goes unused: with a `Start` that
      never had a task, with callbacks that never ran, or for a future that does
      not wait. */
  predicate Hands(s: State, e: Event) { e.DoneRuns? && s.tx.InDone? && s.fut.Waiting? }

  predicate DropsSender(s: State, e: Event) {
    || (e.StartFreed? && s.tx.InStart?)
    || (e.DoneFreed? && s.tx.InDone?)
    || (e.DoneRuns? && s.tx.InDone? && !s.fut.Waiting?)
  }

  lemma {:induction false} SenderMoves(s: State, e: Event)
    requires Inv(s) && Can(s, e)
    ensures Step(s, e).tx.Sent? <==> s.tx.Sent? || Hands(s, e)
    ensures Step(s, e).tx.Gone? <==> s.tx.Gone? || DropsSender(s, e)
  {
    hide Guarded;
  }

  lemma {:induction false} SenderIs(s: State, es: seq<Event>)
    requires Initial(s) && Legal(Bridge, s, es)
    ensures After(Bridge, s, es).tx.Sent? <==> Any(Bridge, Hands, s, es)
    ensures After(Bridge, s, es).tx.Gone? <==> Any(Bridge, DropsSender, s, es)
  {
    InvIsInductive();
    var sent := (t: State) => t.tx.Sent?;
    var gone := (t: State) => t.tx.Gone?;
    forall t, e | Inv(t) && Can(t, e)
      ensures sent(Step(t, e)) <==> sent(t) || Hands(t, e)
      ensures gone(Step(t, e)) <==> gone(t) || DropsSender(t, e)
    {
      SenderMoves(t, e);
    }
    Remembered(Bridge, Inv, sent, Hands, s, es);
    Remembered(Bridge, Inv, gone, DropsSender, s, es);
  }

  /** The Rust future is never left waiting for a sender that nobody has: once the
      loop let go of `Start`, and of the callbacks of the task if there is one, a
      poll is ready. */
  lemma {:induction false} NeverLeftWaiting(s: State, es: seq<Event>)
    requires Initial(s) && Legal(Bridge, s, es)
    ensures var t := After(Bridge, s, es);
            StartFreed in es && (t.task.NoTask? || DoneFreed in es) && t.fut.Waiting? ==> Can(t, FutReturns)
  {
    InvIsInductive();
    var noStart := (t: State) => !t.awaitable && t.holders == 0 && !t.tx.InStart?;
    var freed := (e: Event) => e == StartFreed;
    var noDone := (t: State) => !t.task.NoTask? && !t.tx.InDone?;
    var doneFreed := (e: Event) => e == DoneFreed;
    forall t, e | Inv(t) && Can(t, e)
      ensures noStart(t) || freed(e) ==> noStart(Step(t, e))
      ensures noDone(t) || doneFreed(e) ==> noDone(Step(t, e))
    {
      hide Guarded;
    }
    Lasts(Bridge, Inv, noStart, freed, s, es);
    Lasts(Bridge, Inv, noDone, doneFreed, s, es);
    HasOne(freed, es, StartFreed);
    HasOne(doneFreed, es, DoneFreed);
    Kept(Bridge, Inv, s, es);
  }

  /** What ended the task, and what became of the future, is what the run has. */
  lemma {:induction false} StepTells(s: State, e: Event, r: Outcome)
    requires Inv(s) && Can(s, e)
    ensures Step(s, e).task == Finished(r) <==> s.task == Finished(r) || e == TaskEnds(r)
    ensures Step(s, e).slot.dropped <==> s.slot.dropped || e == FutDrops
    ensures Step(s, e).fut.Returned? <==> s.fut.Returned? || e == FutReturns
    ensures Step(s, e).fut.Parked? <==> s.fut.Parked? || e == FutParks
    ensures Step(s, e).fut == Dropped(Asked) <==> s.fut == Dropped(Asked) || e == FutAsksCancel
    ensures Step(s, e).fut == Dropped(LoopClosed) <==> s.fut == Dropped(LoopClosed) || e == FutGivesUp
  {
  }

  lemma {:induction false} RunTells(s: State, es: seq<Event>, r: Outcome)
    requires Initial(s) && Legal(Bridge, s, es)
    ensures var t := After(Bridge, s, es);
            && (t.task == Finished(r) <==> TaskEnds(r) in es)
            && (t.slot.dropped <==> FutDrops in es)
            && (t.fut.Returned? <==> FutReturns in es)
            && (t.fut.Parked? <==> FutParks in es)
            && (t.fut == Dropped(Asked) <==> FutAsksCancel in es)
            && (t.fut == Dropped(LoopClosed) <==> FutGivesUp in es)
  {
    forall t, e | Inv(t) && Can(t, e)
      ensures Step(t, e).task == Finished(r) <==> t.task == Finished(r) || e == TaskEnds(r)
      ensures Step(t, e).slot.dropped <==> t.slot.dropped || e == FutDrops
      ensures Step(t, e).fut.Returned? <==> t.fut.Returned? || e == FutReturns
      ensures Step(t, e).fut.Parked? <==> t.fut.Parked? || e == FutParks
      ensures Step(t, e).fut == Dropped(Asked) <==> t.fut == Dropped(Asked) || e == FutAsksCancel
      ensures Step(t, e).fut == Dropped(LoopClosed) <==> t.fut == Dropped(LoopClosed) || e == FutGivesUp
    {
      StepTells(t, e, r);
    }
    hide Step, Can, Inv;
    OneTells(s, es, TaskEnds(r), (t: State) => t.task == Finished(r));
    OneTells(s, es, FutDrops, (t: State) => t.slot.dropped);
    OneTells(s, es, FutReturns, (t: State) => t.fut.Returned?);
    OneTells(s, es, FutParks, (t: State) => t.fut.Parked?);
    OneTells(s, es, FutAsksCancel, (t: State) => t.fut == Dropped(Asked));
    OneTells(s, es, FutGivesUp, (t: State) => t.fut == Dropped(LoopClosed));
  }

  lemma {:induction false} OneTells(s: State, es: seq<Event>, x: Event, mark: State -> bool)
    requires Initial(s) && Legal(Bridge, s, es) && !mark(s)
    requires forall t, e :: Inv(t) && Can(t, e) ==> (mark(Step(t, e)) <==> mark(t) || e == x)
    ensures mark(After(Bridge, s, es)) <==> x in es
  {
    InvIsInductive();
    var kind := (e: Event) => e == x;
    assert Inv(s);
    hide Inv, Can, Step;
    Tells(Bridge, Inv, mark, kind, s, es);
    HasOne(kind, es, x);
  }

  // ---- the claims ----------------------------------------------------------

  /** However often `Start` is called, the awaitable becomes a task at most once,
      or is closed unstarted at most once, never both; a closed one was dropped
      by the Rust side first. */
  lemma {:induction false} StartedOrClosed(s: State)
    requires Reachable(s)
    ensures s.calls.starts + s.calls.closes <= 1
    ensures s.calls.closes == 1 ==> s.slot.dropped
  {
    ReachableInv(s);
  }

  /** The Rust future was dropped before it had a result, and `Start` was called
      through and did not fail: the awaitable was closed; or it was started, and a cancel
      of its task is given to the loop, unless the interpreter exits or the loop
      is closed. */
  lemma {:induction false} DropReachesTheTask(s: State)
    requires Reachable(s) && s.slot.dropped
    requires !s.awaitable && s.holders == 0 && s.calls.spoiled == 0
    ensures s.calls.starts == 0 ==> s.calls.closes == 1 && s.cancels == 0
    ensures s.calls.starts == 1 ==>
              || s.fut == Dropping(true)
              || s.fut.Parked?
              || (s.fut == Dropped(Asked) && s.cancels == 1)
              || s.fut == Dropped(LoopClosed)
  {
    ReachableInv(s);
    match s.fut
    case Dropped(Asked) =>
    case Dropped(LoopClosed) =>
    case Dropped(NothingToCancel) =>
    case _ =>
  }

  /** The result is sent at most once, and what the future returns is the task's
      own result, or the error for a task that was dropped. */
  lemma {:induction false} ResultHandedOnce(s: State)
    requires Reachable(s)
    ensures s.sends <= 1
    ensures s.fut.Returned? && !s.fut.r.TaskWasDropped? ==> s.task == Finished(s.fut.r) && s.sends == 1
  {
    ReachableInv(s);
  }

  /** After the future returned no cancel is ever asked for. */
  lemma {:induction false} NoCancelAfterResult(s: State, es: seq<Event>)
    requires Reachable(s) && s.fut.Returned? && Legal(Bridge, s, es)
    ensures After(Bridge, s, es).cancels == 0 && After(Bridge, s, es).fut == s.fut
  {
    ReachableInv(s);
    InvIsInductive();
    var inv := (t: State) => Inv(t) && t.fut == s.fut;
    forall t, e | inv(t) && Can(t, e) ensures inv(Step(t, e)) { StepKeeps(t, e); }
    Kept(Bridge, inv, s, es);
  }
}
