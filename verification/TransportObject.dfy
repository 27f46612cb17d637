/** `_CarrierTransport` (python/zmux/_layer.py) as the object it is: fields that
    its methods and the pieces of its two loops update in place.  Each is proved
    to do what the machine's event of that name does, and so to keep the
    machine's invariant. */
module TransportObject {
  import opened Octets
  import opened TransportMachine
  import opened TransportSafety

  class CarrierTransport {
    const high: nat
    const low: nat
    var queue: seq<Bytes>
    var queued: int
    var paused: bool
    var wake: bool
    var reading: bool
    var eof: bool
    var closing: bool
    var lost: bool
    var reader: ReaderAt
    var readerCancel: bool
    var writer: WriterAt
    var writerCancel: bool
    var log: Log

    function View(): State
      reads this
    {
      State(high, low,
            Out(queue, queued, paused, wake, writer, writerCancel),
            In(reading, reader, readerCancel),
            Flags(eof, closing, lost), log)
    }

    ghost predicate Valid()
      reads this
    {
      Inv(View())
    }

    constructor (high: nat, low: nat)
      requires low <= high
      ensures Initial(View()) && Valid()
      ensures this.high == high && this.low == low
    {
      this.high, this.low := high, low;
      queue, queued := [], 0;
      paused := false;
      wake := false;
      reading := true;
      eof, closing, lost := false, false, false;
      reader, readerCancel := RStart, false;
      writer, writerCancel := WStart, false;
      log := TransportMachine.Log([], [], [], 0, [], [], false);
      new;
      InitialInv(View());
    }

    // ---- calls of the transport --------------------------------------------

    method Write(data: Bytes)
      requires Valid()
      modifies this
      ensures View() == Step(old(View()), CallWrite(data)) && Valid()
    {
      StepKeeps(View(), CallWrite(data));
      hide Inv;
      if closing || eof || data == [] {
        return;
      }
      queue := queue + [data];
      queued := queued + |data|;
      log := log.(accepted := log.accepted + [data]);
      wake := true;
      if !paused && queued > high {
        paused := true;
        log := log.(signals := log.signals + [PauseWriting]);
      }
    }

    method WriteEof()
      requires Valid()
      modifies this
      ensures View() == Step(old(View()), CallWriteEof) && Valid()
    {
      StepKeeps(View(), CallWriteEof);
      hide Inv;
      eof := true;
      wake := true;
    }

    /** `_lose`, on the task that runs, with None as the reason or an error: the
        loss is scheduled once, for the reason that came first, nothing is
        written or delivered by it, and every other loop that is not over will
        be cancelled. */
    method Lose(runner: Task, clean: bool)
      modifies this
      ensures View() == TransportMachine.Lose(old(View()), runner, clean)
      ensures lost && (closing || old(lost))
      ensures log.losses == old(log.losses) + (if old(lost) then 0 else 1)
      ensures log.clean == if old(lost) then old(log.clean) else clean
      ensures log.carrier == old(log.carrier) && log.delivered == old(log.delivered) && queue == old(queue)
      ensures !old(lost) && runner != Reader ==> reader.REnded? || readerCancel
      ensures !old(lost) && runner != Writer ==> writer.WEnded? || writerCancel
    {
      if lost {
        return;
      }
      lost := true;
      closing := true;
      if runner != Reader && !reader.REnded? {
        readerCancel := true;
      }
      if runner != Writer && !writer.WEnded? {
        writerCancel := true;
      }
      log := log.(losses := log.losses + 1, clean := clean);
    }

    /** `close`, on the task that runs: a loop that is over cannot lose the
        transport, so the call does. */
    method CloseBy(runner: Task)
      modifies this
      ensures View() == DoClose(old(View()), runner)
      ensures closing && (!old(closing) && writer.WEnded? ==> lost)
    {
      if !closing {
        closing := true;
        wake := true;
        if writer.WEnded? {
          Lose(runner, true);
        }
      }
    }

    method Close()
      requires Valid()
      modifies this
      ensures View() == Step(old(View()), CallClose) && Valid()
    {
      StepKeeps(View(), CallClose);
      hide Inv;
      CloseBy(Current(View()));
    }

    method Abort()
      requires Valid()
      modifies this
      ensures View() == Step(old(View()), CallAbort) && Valid()
    {
      StepKeeps(View(), CallAbort);
      hide Inv;
      Lose(Current(View()), true);
    }

    method PauseReading()
      requires Valid()
      modifies this
      ensures View() == Step(old(View()), CallPauseReading) && Valid()
    {
      StepKeeps(View(), CallPauseReading);
      hide Inv;
      reading := false;
    }

    method ResumeReading()
      requires Valid()
      modifies this
      ensures View() == Step(old(View()), CallResumeReading) && Valid()
    {
      StepKeeps(View(), CallResumeReading);
      hide Inv;
      reading := true;
      if reader.RGate? {
        reader := RGate(true);
      }
    }

    // ---- the write loop, from one await to the next --------------------------

    /** From the loop's head to its next `await`: no write is lost or overtaken,
        and the loop parks just when there is nothing to do. */
    method WriteLoopHead()
      modifies this
      ensures View() == WriterHead(old(View()))
      ensures Charged(CurrentOp(writer)) + queue == old(queue)
      ensures writer.WParked? <==> old(queue) == [] && !eof && !closing
    {
      if queue == [] {
        if eof || closing {
          writer := WBusy(ShutdownOp(false));
          return;
        }
        wake := false;
        writer := WParked;
        return;
      }
      var data := queue[0];
      queue := queue[1..];
      writer := WBusy(WriteOp(data, false));
    }

    method WriteLoopRuns()
      requires Valid() && Can(View(), WriterRuns)
      modifies this
      ensures View() == Step(old(View()), WriterRuns) && Valid()
    {
      StepKeeps(View(), WriterRuns);
      hide Inv;
      WriteLoopHead();
    }

    /** The lines after the carrier's write returned: a protocol that is still
        paused has more than the low limit queued. */
    method WriteLoopWrote(data: Bytes)
      modifies this
      ensures View() == WriterWrote(old(View()), data)
      ensures paused ==> queued > low
      ensures Charged(CurrentOp(writer)) + queue == old(queue)
    {
      queued := queued - |data|;
      if paused && queued <= low {
        paused := false;
        log := log.(signals := log.signals + [ResumeWriting]);
        writer := WResuming;
      } else {
        WriteLoopHead();
      }
    }

    /** The lines after the carrier's shutdown returned: a closed transport is
        lost by then. */
    method WriteLoopShut()
      modifies this
      ensures View() == WriterShut(old(View()))
      ensures writer.WEnded? && (closing ==> lost)
    {
      if closing {
        Lose(Writer, true);
      }
      writer := WEnded(ShutdownOp(true), Returned);
    }

    method WriteLoopContinues()
      requires Valid() && Can(View(), WriterContinues)
      modifies this
      ensures View() == Step(old(View()), WriterContinues) && Valid()
    {
      StepKeeps(View(), WriterContinues);
      hide Inv, WriterWrote, WriterShut;
      match writer.op
      case NoOp =>
      case WriteOp(data, _) => WriteLoopWrote(data);
      case ShutdownOp(_) => WriteLoopShut();
    }

    method WriteLoopFails()
      requires Valid() && Can(View(), WriterFails)
      modifies this
      ensures View() == Step(old(View()), WriterFails) && Valid()
    {
      StepKeeps(View(), WriterFails);
      hide Inv;
      var op := writer.op;
      Lose(Writer, false);
      writer := WEnded(op, Failed);
    }

    /** `resume_writing` returns into the loop. */
    method WriteLoopResumes()
      requires Valid() && Can(View(), ResumeWritingReturns)
      modifies this
      ensures View() == Step(old(View()), ResumeWritingReturns) && Valid()
    {
      StepKeeps(View(), ResumeWritingReturns);
      hide Inv;
      WriteLoopHead();
    }

    // ---- the read loop --------------------------------------------------------

    /** From the loop's head to its next `await`: no read begins while reading is
        paused. */
    method ReadLoopHead()
      modifies this
      ensures View() == ReaderHead(old(View()))
      ensures reader.RReading? <==> reading
    {
      reader := if reading then RReading(None) else RGate(false);
    }

    method ReadLoopRuns()
      requires Valid() && Can(View(), ReaderRuns)
      modifies this
      ensures View() == Step(old(View()), ReaderRuns) && Valid()
    {
      StepKeeps(View(), ReaderRuns);
      hide Inv;
      if reader.RStart? {
        ReadLoopHead();
      } else {
        reader := RReading(None);
      }
    }

    /** A chunk returns from the carrier; an empty one is its end. */
    method ReadLoopContinues()
      requires Valid() && Can(View(), ReaderContinues)
      modifies this
      ensures View() == Step(old(View()), ReaderContinues) && Valid()
    {
      StepKeeps(View(), ReaderContinues);
      hide Inv;
      var data := reader.got.value;
      if data == [] {
        reader := REofCall;
      } else {
        reader := RDelivering;
        log := log.(delivered := log.delivered + [data]);
      }
    }

    method ReadLoopDelivered()
      requires Valid() && Can(View(), DataReceivedReturns)
      modifies this
      ensures View() == Step(old(View()), DataReceivedReturns) && Valid()
    {
      StepKeeps(View(), DataReceivedReturns);
      hide Inv;
      ReadLoopHead();
    }

    /** `eof_received` returns into the loop, which ends. */
    method ReadLoopEnds(keepOpen: bool)
      requires Valid() && Can(View(), EofReceivedReturns(keepOpen))
      modifies this
      ensures View() == Step(old(View()), EofReceivedReturns(keepOpen)) && Valid()
    {
      StepKeeps(View(), EofReceivedReturns(keepOpen));
      hide Inv;
      if !keepOpen {
        CloseBy(Reader);
      }
      reader := REnded([]);
    }

    method ReadLoopFails()
      requires Valid() && Can(View(), ReaderFails)
      modifies this
      ensures View() == Step(old(View()), ReaderFails) && Valid()
    {
      StepKeeps(View(), ReaderFails);
      hide Inv;
      Lose(Reader, false);
      reader := REnded([]);
    }
  }

  /** `_deliver` to a buffered protocol: a chunk cut into pieces as the
      protocol's buffers are, of `room(i)` bytes the `i`th time. */
  method Deliver(data: Bytes, room: nat -> nat) returns (pieces: seq<Bytes>)
    requires forall i :: room(i) > 0
    ensures Flat(pieces) == data
    ensures forall i :: 0 <= i < |pieces| ==> 0 < |pieces[i]| <= room(i)
    ensures forall i :: 0 <= i < |pieces| - 1 ==> |pieces[i]| == room(i)
  {
    pieces := [];
    var view := data;
    while view != []
      invariant Flat(pieces) + view == data
      invariant forall i :: 0 <= i < |pieces| ==> 0 < |pieces[i]| <= room(i)
      invariant forall i :: 0 <= i < |pieces| ==> i < |pieces| - 1 || view != [] ==> |pieces[i]| == room(i)
      decreases |view|
    {
      var n := room(|pieces|);
      if |view| < n { n := |view|; }
      PieceCut(pieces, view, n);
      hide Flat;
      pieces := pieces + [view[..n]];
      view := view[n..];
    }
  }

  lemma {:induction false} PieceCut(pieces: seq<Bytes>, view: Bytes, n: nat)
    requires n <= |view|
    ensures Flat(pieces + [view[..n]]) + view[n..] == Flat(pieces) + view
  {
    FlatAppends(pieces, [view[..n]]);
    FlatOfOne(view[..n]);
    hide Flat;
    assert Flat(pieces) + view[..n] + view[n..] == Flat(pieces) + view;
  }
}
