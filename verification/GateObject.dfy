/** The gate's two atomics, and the accesses `attach` and `_shutdown` make of
    them (src/rt.rs), each proved to be the machine's event. */
module GateObject {
  import opened Gate

  class Interpreter {
    var exiting: bool            // EXITING
    var inflight: int            // INFLIGHT
    ghost var hook: Hook
    ghost var threads: seq<Thread>

    ghost function View(): State
      reads this
    {
      State(exiting, inflight, hook, threads)
    }

    ghost predicate Valid()
      reads this
    {
      Inv(View())
    }

    constructor ()
      ensures Initial(View()) && Valid()
    {
      exiting, inflight, hook, threads := false, 0, NotRun, [];
    }

    method EnterLevel(ghost t: nat)
      requires Valid() && Can(View(), Enter(t))
      modifies this
      ensures View() == Step(old(View()), Enter(t)) && Valid()
    {
      StepKeeps(View(), Enter(t));
      hide Inv;
      inflight := inflight + 1;
      threads := threads[t := threads[t].(levels := threads[t].levels + [Entered])];
    }

    method ReadGate(ghost t: nat) returns (refused: bool)
      requires Valid() && Can(View(), LoadExiting(t))
      modifies this`threads
      ensures View() == Step(old(View()), LoadExiting(t)) && Valid()
      ensures refused == exiting
    {
      StepKeeps(View(), LoadExiting(t));
      hide Inv;
      refused := exiting;
      threads := threads[t := Answered(threads[t], if refused then Refused else Attached)];
    }

    /** `drop(leave)`. */
    method LeaveLevel(ghost t: nat, refused: bool)
      requires Valid() && Can(View(), if refused then Park(t) else Leave(t))
      modifies this
      ensures View() == Step(old(View()), if refused then Park(t) else Leave(t)) && Valid()
      ensures inflight >= 0
    {
      StepKeeps(View(), if refused then Park(t) else Leave(t));
      ghost var th := Popped(threads[t]);
      inflight := inflight - 1;
      threads := threads[t := if refused then th.(parked := true) else th];
    }

    /** `attach` of a thread that nothing interrupts: with the gate open all is
        as it was when it returns; with the gate closed it does not run the
        closure, and INFLIGHT is as it was too.  A thread of Python itself is
        never held. */
    method Attach(runtime: bool, ghost t: nat) returns (runs: bool)
      requires Valid() && (runtime ==> Can(View(), Enter(t)))
      modifies this
      ensures Valid() && exiting == old(exiting) && inflight == old(inflight) && hook == old(hook)
      ensures runs <==> !runtime || !exiting
      ensures runs ==> threads == old(threads)
      ensures !runs ==> threads == old(threads[t := threads[t].(parked := true)])
    {
      if !runtime {
        return true;
      }
      ghost var s := View();
      ghost var u := Step(s, Enter(t));
      LevelAlone(s, t, u, Step(u, LoadExiting(t)));
      hide Inv, Step, Can;
      EnterLevel(t);
      var refused := ReadGate(t);
      LeaveLevel(t, refused);
      runs := !refused;
    }

    /** The hook closes the gate. */
    method StoreExitingFlag()
      requires Valid() && Can(View(), StoreExiting)
      modifies this
      ensures View() == Step(old(View()), StoreExiting) && Valid()
    {
      StepKeeps(View(), StoreExiting);
      hide Inv;
      exiting := true;
      hook := Polling;
    }

    /** The hook looks once; it may return when this is true. */
    method PollInflight() returns (drained: bool)
      requires Valid() && Can(View(), LoadInflight)
      modifies this`hook
      ensures View() == Step(old(View()), LoadInflight) && Valid()
      ensures drained <==> hook.Drained?
      ensures drained <==> old(inflight) == 0
      ensures drained ==> NoneAttached(View())
    {
      StepKeeps(View(), LoadInflight);
      drained := inflight <= 0;
      if drained {
        hook := Drained;
      }
    }
  }
}
