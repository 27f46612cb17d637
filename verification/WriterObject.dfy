/** `StreamWriter` (python/zmux/__init__.py) as an object whose methods, and the
    pieces of whose tasks, update its fields; each is proved to be the machine's
    event, and to keep the machine's invariant. */
module WriterObject {
  import opened Octets
  import opened WriterMachine

  class StreamWriter {
    const highWater: int
    var buf: Bytes
    var queued: int
    var task: Flush              // _task
    var made: nat
    var closing: Closing         // _closing
    var drains: seq<Drain>
    var log: Log

    function View(): State
      reads this
    {
      State(highWater, Queue(buf, queued, task, made), closing, log, drains)
    }

    ghost predicate Valid()
      reads this
    {
      Inv(View())
    }

    constructor (highWater: int)
      ensures Initial(View()) && Valid() && this.highWater == highWater
    {
      this.highWater := highWater;
      buf, queued, task, made := [], 0, NoTask, 0;
      closing, drains, log := NotAsked, [], WriterMachine.Log([], [], [], [], [], 0, false);
    }

    /** `write`; false is the RuntimeError after `close` or `write_eof`. */
    method Write(data: Bytes) returns (ok: bool)
      requires Valid()
      modifies this
      ensures View() == Step(old(View()), WriterMachine.Write(data)) && Valid()
      ensures ok == old(closing).NotAsked? && (ok ==> Live(task))
    {
      StepKeeps(View(), WriterMachine.Write(data));
      hide Inv;
      if !closing.NotAsked? {
        return false;
      }
      buf := buf + data;
      queued := queued + |data|;
      log := log.(written := log.written + data);
      if task.NoTask? || task.Over? {
        task := Made;
        made := made + 1;
      }
      ok := true;
    }

    /** `_flush` from the head of its loop to the next stream write, or its end:
        all that was buffered is in flight, and the task ends only with nothing
        left. */
    method FlushLoopHead()
      modifies this
      ensures View() == FlushHead(old(View()))
      ensures InFlight(task) == old(buf) && buf == []
      ensures task.Over? <==> old(buf) == []
    {
      if buf == [] {
        task := Over(false);
        log := Ended(log, false);
        return;
      }
      var data := buf;
      buf := [];
      task := Sending(data, false);
    }

    method FlushTaskRuns()
      requires Valid() && task.Made?
      modifies this
      ensures View() == Step(old(View()), FlushRuns) && Valid()
    {
      StepKeeps(View(), FlushRuns);
      hide Inv;
      FlushLoopHead();
    }

    /** The `finally` after a stream write. */
    method Account(data: Bytes, taken: bool)
      modifies this
      ensures View() == Accounted(old(View()), data, taken)
    {
      queued := queued - |data|;
      log := log.(chunks := log.chunks + [Chunk(data, taken)]);
    }

    /** The stream write returned: the `finally`, and the loop again. */
    method FlushTaskContinues()
      requires Valid() && Can(View(), FlushContinues)
      modifies this
      ensures View() == Step(old(View()), FlushContinues) && Valid()
    {
      StepKeeps(View(), FlushContinues);
      hide Inv, FlushHead, Accounted;
      Account(task.data, true);
      FlushLoopHead();
    }

    /** The stream write raised: the `finally`, and the task is over. */
    method FlushTaskFails()
      requires Valid() && Can(View(), FlushFails)
      modifies this
      ensures View() == Step(old(View()), FlushFails) && Valid()
    {
      StepKeeps(View(), FlushFails);
      hide Inv, Accounted, OverWithError;
      Account(task.data, task.done);
      EndWithError();
    }

    /** The error of the stream write leaves the task. */
    method EndWithError()
      modifies this
      ensures View() == OverWithError(old(View()))
      ensures task == Over(true) && buf == old(buf)
    {
      task := Over(true);
      log := Ended(log, true);
    }

    /** `drain` up to where it waits, if it does. */
    method DrainStarts() returns (waits: bool)
      requires Valid()
      modifies this
      ensures View() == Step(old(View()), DrainBegins) && Valid()
      ensures waits <==> Live(task) && queued > highWater
    {
      StepKeeps(View(), DrainBegins);
      hide Inv;
      waits := Live(task) && queued > highWater;
      if waits {
        drains := drains + [Drain(made)];
      }
    }

    /** `_finishing`: the closing task is made once. */
    method Finishing()
      requires Valid()
      modifies this
      ensures View() == Step(old(View()), AskClose) && Valid()
    {
      StepKeeps(View(), AskClose);
      hide Inv;
      if closing.NotAsked? {
        closing := Asked;
      }
    }

    /** `_finish` once the flush task is over. */
    method FinishAfterFlush()
      modifies this
      ensures View() == FlushIsOver(old(View()))
    {
      closing := if task == Over(true) then Closed(true) else WriterMachine.Finishing;
    }

    method FinishTaskRuns()
      requires Valid() && closing.Asked?
      modifies this
      ensures View() == Step(old(View()), CloseRuns) && Valid()
    {
      StepKeeps(View(), CloseRuns);
      hide Inv, FlushIsOver;
      if Live(task) {
        closing := Awaiting;
      } else {
        FinishAfterFlush();
      }
    }

    method FinishTaskContinues()
      requires Valid() && Can(View(), CloseContinues)
      modifies this
      ensures View() == Step(old(View()), CloseContinues) && Valid()
    {
      StepKeeps(View(), CloseContinues);
      hide Inv, FlushIsOver;
      FinishAfterFlush();
    }
  }
}
