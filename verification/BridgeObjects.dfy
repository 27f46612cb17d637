/** The bridges' objects (src/rt.rs): `Start`, `Done`, `CancelOnDrop` with the
    `Slot` they share, and `OnCancel` and `Complete`, with the fields each call
    takes from or changes.  Every piece is proved to be the machine's event. */
module BridgeObjects {
  import I = TaskBridge
  import B = Bridges

  class TaskBridgeCell {
    var awaitable: bool          // Start.awaitable
    var holders: nat
    const closable: bool
    var tx: I.Tx                 // the sender: in Start.tx, then in Done
    var slot: I.Slot
    var fut: I.Fut               // with the guard's `armed` inside
    ghost var calls: I.Calls
    ghost var sends: nat
    var task: I.Task
    ghost var cancels: nat
    ghost var cancelRuns: nat

    ghost function View(): I.State
      reads this
    {
      I.State(awaitable, holders, closable, calls, tx, sends, task, slot, fut, cancels, cancelRuns)
    }

    ghost predicate Valid()
      reads this
    {
      I.Inv(View())
    }

    constructor (closable: bool)
      ensures I.Initial(View()) && Valid() && this.closable == closable
    {
      this.closable := closable;
      awaitable, holders, tx := true, 0, I.InStart;
      slot, fut, task := I.Slot(false, false), I.Waiting, I.NoTask;
      calls, sends, cancels, cancelRuns := I.Calls(0, 0, 0), 0, 0, 0;
    }

    /** `Start.__call__` up to the slot's lock; it goes on only if it took the
        awaitable. */
    method StartTakes() returns (took: bool)
      requires Valid()
      modifies this
      ensures View() == I.Step(old(View()), I.StartTakes) && Valid()
      ensures took == old(awaitable) && (took ==> holders == old(holders) + 1)
    {
      I.StepKeeps(View(), I.StartTakes);
      took := awaitable;
      if took {
        awaitable := false;
        holders := holders + 1;
      }
    }

    /** The rest of it, under the lock. */
    method StartUnderLock(raises: bool)
      requires Valid() && holders > 0
      modifies this
      ensures View() == I.Step(old(View()), I.StartLocked(raises)) && Valid()
    {
      I.StepKeeps(View(), I.StartLocked(raises));
      holders := holders - 1;
      if slot.dropped {
        if closable {
          calls := calls.(closes := calls.closes + 1);
        } else {
          calls := calls.(spoiled := calls.spoiled + 1);
        }
        return;
      }
      if raises {
        calls := calls.(spoiled := calls.spoiled + 1);
        return;
      }
      task := I.Running(false);
      calls := calls.(starts := calls.starts + 1);
      if tx.InStart? {
        tx := I.InDone;
      }
      slot := slot.(task := true);
    }

    /** `Done.__call__`. */
    method DoneRuns()
      requires Valid() && task.Finished?
      modifies this
      ensures View() == I.Step(old(View()), I.DoneRuns) && Valid()
    {
      I.StepKeeps(View(), I.DoneRuns);
      if tx.InDone? {
        if fut.Waiting? {
          tx := I.Sent(task.r);
          sends := sends + 1;
        } else {
          tx := I.Gone;
        }
      }
    }

    /** The future is polled: pending, or its result, with the guard disarmed. */
    method PollFuture() returns (ready: bool)
      requires Valid() && fut.Waiting?
      modifies this
      ensures ready == (old(tx).Sent? || old(tx).Gone?) && Valid()
      ensures View() == if ready then I.Step(old(View()), I.FutReturns) else old(View())
    {
      ready := tx.Sent? || tx.Gone?;
      if ready {
        I.StepKeeps(View(), I.FutReturns);
        fut := I.Returned(if tx.Sent? then tx.r else I.TaskWasDropped);
      }
    }

    /** The guard's drop: the locked part, which says whether there is a task to
        cancel.  A disarmed guard does nothing. */
    method DropFuture() returns (had: bool)
      requires Valid() && (fut.Waiting? || fut.Returned?)
      modifies this
      ensures Valid()
      ensures View() == if old(fut).Returned? then old(View()) else I.Step(old(View()), I.FutDrops)
      ensures had == (old(fut).Waiting? && old(slot).task)
    {
      if fut.Returned? {
        return false;
      }
      I.StepKeeps(View(), I.FutDrops);
      had := slot.task;
      slot := I.Slot(false, true);
      fut := I.Dropping(had);
    }

    /** The guard's drop inside the gate: the loop is asked to cancel the task. */
    method AskCancel()
      requires Valid() && fut == I.Dropping(true)
      modifies this
      ensures View() == I.Step(old(View()), I.FutAsksCancel) && Valid()
    {
      I.StepKeeps(View(), I.FutAsksCancel);
      fut := I.Dropped(I.Asked);
      cancels := cancels + 1;
    }
  }

  class AsyncioFuture {
    var target: B.Target
    var cancelTx: B.CancelTx
    ghost var sets: nat
    ghost var rust: B.Rust
    ghost var inner: I.State
    ghost var env: B.Env
    ghost var held: bool

    ghost function View(): B.State
      reads this
    {
      B.State(target, cancelTx, rust, sets, inner, env, held)
    }

    ghost predicate Valid()
      reads this
    {
      B.Inv(View())
    }

    constructor (ghost inner: I.State)
      requires I.Initial(inner)
      ensures B.Initial(View()) && Valid()
    {
      target, cancelTx, sets, rust := B.Pending, B.Held, 0, B.Selecting;
      this.inner, env, held := inner, B.Env(true, true), true;
    }

    /** `OnCancel.__call__`: of a future that is done. */
    method OnCancel()
      requires Valid() && !target.Pending?
      modifies this
      ensures View() == B.Step(old(View()), B.OnCancelRuns) && Valid()
    {
      B.StepKeeps(View(), B.OnCancelRuns);
      hide B.Inv;
      if target.Cancelled? && cancelTx.Held? {
        cancelTx := B.Sent;
      }
    }

    /** The done-callback is let go of, with the sender inside it if it is unused. */
    method DropOnCancel()
      requires Valid() && B.Can(View(), B.OnCancelFreed)
      modifies this
      ensures View() == B.Step(old(View()), B.OnCancelFreed) && Valid()
      ensures !cancelTx.Held?
    {
      B.StepKeeps(View(), B.OnCancelFreed);
      hide B.Inv;
      if cancelTx.Held? {
        cancelTx := B.Gone;
      }
    }

    /** `Complete.__call__`: it sets a future that is not done, and no other. */
    method Complete(o: B.Outcome) returns (changed: bool)
      requires Valid() && rust == B.Posted(o)
      modifies this
      ensures View() == B.Step(old(View()), B.CompleteRuns) && Valid()
      ensures changed == old(target).Pending? && (changed ==> target == B.Set(o))
    {
      B.StepKeeps(View(), B.CompleteRuns);
      hide B.Inv;
      changed := target.Pending?;
      if changed {
        target := B.Set(o);
        sets := sets + 1;
      }
      rust := B.Completed(o, !changed);
    }
  }
}
