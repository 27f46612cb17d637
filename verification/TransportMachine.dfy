/** The asyncio transport over a carrier (python/zmux/_layer.py,
    `_CarrierTransport`) as a machine.

    A state holds the object's fields, where its read and write loops stand,
    and what happened so far.  asyncio runs one piece of code at a time, from
    one `await` to the next, so an event is: a call of the transport by other
    code, one such piece of a loop, or something the carrier does.  A protocol
    callback made from inside a loop (`resume_writing`, `data_received`,
    `eof_received`) may call the transport again before it returns, so it is a
    position of its own, from which only calls and its return can follow. */
module TransportMachine {
  import opened Octets
  import opened Runs

  // ---- positions -----------------------------------------------------------

  /** What the write loop asked of the carrier; `performed` once the carrier
      did it, which the loop learns later or, cancelled, never. */
  datatype Op = NoOp | WriteOp(data: Bytes, performed: bool) | ShutdownOp(performed: bool)

  datatype Ending = Returned | Failed | Cancelled

  datatype WriterAt =
    | WStart                          // made, not run yet
    | WParked                         // in `await self._wake.wait()`
    | WBusy(op: Op)                   // in `await` of a carrier call
    | WResuming                       // inside the protocol's `resume_writing`
    | WEnded(op: Op, how: Ending)     // done, with the carrier call it was in

  datatype ReaderAt =
    | RStart
    | RGate(woken: bool)              // in `await self._reading.wait()`
    | RReading(got: Option<Bytes>)    // in `await self._stream.read()`
    | RDelivering                     // inside the protocol's `data_received`
    | REofCall                        // inside the protocol's `eof_received`
    | REnded(dropped: seq<Bytes>)     // done, with the chunk it did not deliver

  datatype Task = Reader | Writer | Other

  // ---- what can be observed ------------------------------------------------

  datatype CarrierEvent = Wrote(data: Bytes) | Shut

  datatype Signal = PauseWriting | ResumeWriting

  /** The write half: `_queue`, `_queued`, `_paused`, `_wake` and the loop. */
  datatype Out = Out(queue: seq<Bytes>, queued: int, paused: bool, wake: bool,
                     at: WriterAt, cancel: bool)

  /** The read half: `_reading` and the loop. */
  datatype In = In(open: bool, at: ReaderAt, cancel: bool)

  /** `_eof`, `_closing` and `_lost`. */
  datatype Flags = Flags(eof: bool, closing: bool, lost: bool)

  /** What happened so far. */
  datatype Log = Log(
    accepted: seq<Bytes>,             // the writes taken, in order
    carrier: seq<CarrierEvent>,       // what the carrier did
    signals: seq<Signal>,             // calls of pause_writing and resume_writing
    losses: nat,                      // calls of connection_lost scheduled
    received: seq<Bytes>,             // chunks the carrier's reads returned
    delivered: seq<Bytes>,            // chunks given to the protocol
    clean: bool                       // connection_lost was scheduled with None, no error
  )

  datatype State = State(high: nat, low: nat, out: Out, inp: In, flags: Flags, log: Log)

  ghost predicate Initial(s: State) {
    && s.low <= s.high
    && s.out == Out([], 0, false, false, WStart, false)
    && s.inp == In(true, RStart, false)
    && s.flags == Flags(false, false, false)
    && s.log == Log([], [], [], 0, [], [], false)
  }

  /** The task whose code runs now: `asyncio.current_task()`. */
  function Current(s: State): Task {
    if s.out.at.WResuming? then Writer
    else if s.inp.at.RDelivering? || s.inp.at.REofCall? then Reader
    else Other
  }

  // ---- the code ------------------------------------------------------------

  /** `_lose`, run by the task `runner`, with None as the reason or an error. */
  function Lose(s: State, runner: Task, clean: bool): State {
    if s.flags.lost then s
    else s.(flags := s.flags.(lost := true, closing := true),
            inp := s.inp.(cancel := s.inp.cancel || (runner != Reader && !s.inp.at.REnded?)),
            out := s.out.(cancel := s.out.cancel || (runner != Writer && !s.out.at.WEnded?)),
            log := s.log.(losses := s.log.losses + 1, clean := clean))
  }

  /** `write`. */
  function DoWrite(s: State, data: Bytes): State {
    if s.flags.closing || s.flags.eof || data == [] then s
    else
      var o := s.out.(queue := s.out.queue + [data], queued := s.out.queued + |data|, wake := true);
      var l := s.log.(accepted := s.log.accepted + [data]);
      if !o.paused && o.queued > s.high
      then s.(out := o.(paused := true), log := l.(signals := l.signals + [PauseWriting]))
      else s.(out := o, log := l)
  }

  /** `write_eof`. */
  function DoWriteEof(s: State): State {
    s.(flags := s.flags.(eof := true), out := s.out.(wake := true))
  }

  /** `close`, run by the task `runner`. */
  function DoClose(s: State, runner: Task): State {
    if s.flags.closing then s
    else
      var t := s.(flags := s.flags.(closing := true), out := s.out.(wake := true));
      if t.out.at.WEnded? then Lose(t, runner, true) else t
  }

  /** The write loop from its head to its next `await`. */
  function WriterHead(s: State): State {
    if s.out.queue != [] then
      s.(out := s.out.(queue := s.out.queue[1..], at := WBusy(WriteOp(s.out.queue[0], false))))
    else if s.flags.eof || s.flags.closing then s.(out := s.out.(at := WBusy(ShutdownOp(false))))
    else s.(out := s.out.(wake := false, at := WParked))
  }

  /** The write loop after a carrier write returned. */
  function WriterWrote(s: State, data: Bytes): State {
    var o := s.out.(queued := s.out.queued - |data|);
    if o.paused && o.queued <= s.low
    then s.(out := o.(paused := false, at := WResuming),
            log := s.log.(signals := s.log.signals + [ResumeWriting]))
    else WriterHead(s.(out := o))
  }

  /** The write loop after the carrier's shutdown returned. */
  function WriterShut(s: State): State {
    var t := if s.flags.closing then Lose(s, Writer, true) else s;
    t.(out := t.out.(at := WEnded(ShutdownOp(true), Returned)))
  }

  /** The write loop's carrier call raised. */
  function WriterFailed(s: State): State {
    var t := Lose(s, Writer, false);
    t.(out := t.out.(at := WEnded(CurrentOp(s.out.at), Failed)))
  }

  function ReaderGoes(s: State, r: ReaderAt): State { s.(inp := s.inp.(at := r)) }

  /** The read loop from its head to its next `await`. */
  function ReaderHead(s: State): State {
    ReaderGoes(s, if s.inp.open then RReading(None) else RGate(false))
  }

  /** The read loop with a chunk, empty at the carrier's end. */
  function ReaderGot(s: State, data: Bytes): State {
    if data == [] then ReaderGoes(s, REofCall)
    else ReaderGoes(s, RDelivering).(log := s.log.(delivered := s.log.delivered + [data]))
  }

  // ---- events --------------------------------------------------------------

  datatype Event =
    | CallWrite(data: Bytes)
    | CallWriteEof
    | CallClose
    | CallAbort
    | CallPauseReading
    | CallResumeReading
    | WriterRuns                 // first run, or woken
    | CarrierPerforms            // the carrier does what it was asked
    | WriterContinues            // the carrier call returns to the loop
    | WriterFails                // the carrier call raises in the loop
    | ResumeWritingReturns
    | WriterIsCancelled
    | ReaderRuns
    | CarrierReads(chunk: Bytes)
    | ReaderContinues
    | ReaderFails
    | DataReceivedReturns
    | EofReceivedReturns(keepOpen: bool)
    | ReaderIsCancelled

  predicate Unperformed(op: Op) {
    match op
    case NoOp => false
    case WriteOp(_, done) => !done
    case ShutdownOp(done) => !done
  }

  function CurrentOp(w: WriterAt): Op {
    match w
    case WBusy(op) => op
    case WEnded(op, _) => op
    case _ => NoOp
  }

  predicate WriterAwaits(w: WriterAt) { w.WStart? || w.WParked? || w.WBusy? }

  predicate ReaderAwaits(r: ReaderAt) { r.RStart? || r.RGate? || r.RReading? }

  predicate Can(s: State, e: Event) {
    match e
    case CallWrite(_) => true
    case CallWriteEof => true
    case CallClose => true
    case CallAbort => true
    case CallPauseReading => true
    case CallResumeReading => true
    case WriterRuns =>
      Current(s).Other? && !s.out.cancel && (s.out.at.WStart? || (s.out.at.WParked? && s.out.wake))
    case CarrierPerforms =>
      Unperformed(CurrentOp(s.out.at)) && (s.out.at.WBusy? || s.out.at.how.Cancelled?)
    case WriterContinues =>
      Current(s).Other? && !s.out.cancel && s.out.at.WBusy? && !Unperformed(s.out.at.op)
    case WriterFails => Current(s).Other? && !s.out.cancel && s.out.at.WBusy?
    case ResumeWritingReturns => s.out.at.WResuming?
    case WriterIsCancelled => Current(s).Other? && s.out.cancel && WriterAwaits(s.out.at)
    case ReaderRuns =>
      Current(s).Other? && !s.inp.cancel && (s.inp.at.RStart? || s.inp.at == RGate(true))
    case CarrierReads(_) => s.inp.at == RReading(None)
    case ReaderContinues =>
      Current(s).Other? && !s.inp.cancel && s.inp.at.RReading? && s.inp.at.got.Some?
    case ReaderFails => Current(s).Other? && !s.inp.cancel && s.inp.at == RReading(None)
    case DataReceivedReturns => s.inp.at.RDelivering?
    case EofReceivedReturns(_) => s.inp.at.REofCall?
    case ReaderIsCancelled => Current(s).Other? && s.inp.cancel && ReaderAwaits(s.inp.at)
  }

  function DoneOp(op: Op): Op {
    match op
    case NoOp => NoOp
    case WriteOp(data, _) => WriteOp(data, true)
    case ShutdownOp(_) => ShutdownOp(true)
  }

  function Trace(op: Op): seq<CarrierEvent> {
    match op
    case NoOp => []
    case WriteOp(data, _) => [Wrote(data)]
    case ShutdownOp(_) => [Shut]
  }

  /** The carrier does what the loop asked. */
  function Perform(s: State): State {
    var op := CurrentOp(s.out.at);
    s.(log := s.log.(carrier := s.log.carrier + Trace(op)),
       out := s.out.(at := match s.out.at
                           case WBusy(_) => WBusy(DoneOp(op))
                           case WEnded(_, how) => WEnded(DoneOp(op), how)
                           case w => w))
  }

  /** The chunk the read loop holds and has not delivered. */
  function Chunks(r: ReaderAt): seq<Bytes> {
    match r
    case RReading(Some(data)) => if data == [] then [] else [data]
    case REnded(dropped) => dropped
    case _ => []
  }

  function Step(s: State, e: Event): State {
    match e
    case CallWrite(data) => DoWrite(s, data)
    case CallWriteEof => DoWriteEof(s)
    case CallClose => DoClose(s, Current(s))
    case CallAbort => Lose(s, Current(s), true)
    case CallPauseReading => s.(inp := s.inp.(open := false))
    case CallResumeReading =>
      s.(inp := s.inp.(open := true, at := if s.inp.at.RGate? then RGate(true) else s.inp.at))
    case WriterRuns => WriterHead(s)
    case CarrierPerforms => Perform(s)
    case WriterContinues =>
      (match CurrentOp(s.out.at)
       case NoOp => s
       case WriteOp(data, _) => WriterWrote(s, data)
       case ShutdownOp(_) => WriterShut(s))
    case WriterFails => WriterFailed(s)
    case ResumeWritingReturns => WriterHead(s)
    case WriterIsCancelled => s.(out := s.out.(at := WEnded(CurrentOp(s.out.at), Cancelled)))
    case ReaderRuns => if s.inp.at.RStart? then ReaderHead(s) else ReaderGoes(s, RReading(None))
    case CarrierReads(chunk) =>
      ReaderGoes(s, RReading(Some(chunk))).(
        log := s.log.(received := s.log.received + Chunks(RReading(Some(chunk)))))
    case ReaderContinues =>
      if s.inp.at.RReading? && s.inp.at.got.Some? then ReaderGot(s, s.inp.at.got.value) else s
    case ReaderFails => ReaderGoes(Lose(s, Reader, false), REnded([]))
    case DataReceivedReturns => ReaderHead(s)
    case EofReceivedReturns(keepOpen) =>
      ReaderGoes(if keepOpen then s else DoClose(s, Reader), REnded([]))
    case ReaderIsCancelled => ReaderGoes(s, REnded(Chunks(s.inp.at)))
  }

  const Transport := Machine(Can, Step)
}
