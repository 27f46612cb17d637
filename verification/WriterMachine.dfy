/** `StreamWriter` (python/zmux/__init__.py): `write` queues, a background task
    flushes, `drain` waits for a task that is behind, and closing finishes the
    stream after the task.  All run on one event loop, from one `await` to the
    next.  A stream write may fail; no task is cancelled. */
module WriterMachine {
  import opened Octets
  import opened Runs

  /** The flush task made last. */
  datatype Flush =
    | NoTask
    | Made                               // made, not run yet
    | Sending(data: Bytes, done: bool)   // in `await self.stream.write(data)`
    | Over(failed: bool)

  /** The task of `_finish`. */
  datatype Closing =
    | NotAsked
    | Asked                              // made, not run yet
    | Awaiting                           // in `await self._task`
    | Finishing                          // in `await self.stream.finish()`
    | Closed(failed: bool)

  /** A buffer handed to the stream, and whether the stream took it. */
  datatype Chunk = Chunk(data: Bytes, taken: bool)

  /** How many bytes were written, and how many buffers were done with, when a
      flush task was over. */
  datatype Mark = Mark(written: nat, chunks: nat)

  /** A call of `drain` that waits, for the flush task of that number. */
  datatype Drain = Drain(task: nat)

  datatype Queue = Queue(buf: Bytes, queued: int, flush: Flush, made: nat)

  datatype Log = Log(
    written: Bytes,                      // all bytes `write` took
    chunks: seq<Chunk>,                  // the buffers whose stream write ended
    sent: Bytes,                         // what the stream took
    failed: seq<bool>,                   // of each flush task that is over, by number
    marks: seq<Mark>,                    // where each of them ended
    finishes: nat,                       // calls of the stream's finish that ended well
    finishFailed: bool                   // one raised
  )

  datatype State = State(high: int, q: Queue, closing: Closing, log: Log, drains: seq<Drain>)

  ghost predicate Initial(s: State) {
    s == State(s.high, Queue([], 0, NoTask, 0), NotAsked, Log([], [], [], [], [], 0, false), [])
  }

  datatype Event =
    | Write(data: Bytes)
    | FlushRuns
    | StreamTakes                        // the stream takes the data
    | FlushContinues                     // its write returns
    | FlushFails                         // its write raises
    | AskClose                           // write_eof, close or wait_closed
    | CloseRuns
    | CloseContinues                     // the flush task it awaited is over
    | StreamFinishes
    | FinishFails
    | DrainBegins
    | DrainEnds(i: nat)                  // the task a drain waits for is over

  predicate Live(f: Flush) { f.Made? || f.Sending? }

  /** Whether flush task `k` (from 1) is over. */
  predicate IsOver(q: Queue, k: nat) { k < q.made || (k == q.made && q.flush.Over?) }

  /** A drain that would wait. */
  predicate Waits(s: State) { Live(s.q.flush) && s.q.queued > s.high }

  predicate Can(s: State, e: Event) {
    match e
    case Write(_) => true
    case FlushRuns => s.q.flush.Made?
    case StreamTakes => s.q.flush.Sending? && !s.q.flush.done
    case FlushContinues => s.q.flush.Sending? && s.q.flush.done
    case FlushFails => s.q.flush.Sending?
    case AskClose => true
    case CloseRuns => s.closing.Asked?
    case CloseContinues => s.closing.Awaiting? && s.q.flush.Over?
    case StreamFinishes => s.closing.Finishing?
    case FinishFails => s.closing.Finishing?
    case DrainBegins => true
    case DrainEnds(i) => i < |s.drains| && IsOver(s.q, s.drains[i].task)
  }

  /** `write`; after closing it raises and changes nothing. */
  function DoWrite(s: State, data: Bytes): State {
    if !s.closing.NotAsked? then s
    else
      var q := s.q.(buf := s.q.buf + data, queued := s.q.queued + |data|);
      s.(q := if Live(q.flush) then q else q.(flush := Made, made := q.made + 1),
         log := s.log.(written := s.log.written + data))
  }

  /** A flush task is over. */
  function Ended(log: Log, failed: bool): Log {
    log.(failed := log.failed + [failed], marks := log.marks + [Mark(|log.written|, |log.chunks|)])
  }

  /** The loop of `_flush` from its head to its next `await`, or its end. */
  function FlushHead(s: State): State {
    if s.q.buf != []
    then s.(q := s.q.(buf := [], flush := Sending(s.q.buf, false)))
    else s.(q := s.q.(flush := Over(false)), log := Ended(s.log, false))
  }

  /** The `finally` of a stream write. */
  function Accounted(s: State, data: Bytes, taken: bool): State {
    s.(q := s.q.(queued := s.q.queued - |data|), log := s.log.(chunks := s.log.chunks + [Chunk(data, taken)]))
  }

  function FlushFailed(s: State, data: Bytes, done: bool): State {
    OverWithError(Accounted(s, data, done))
  }

  /** The flush task ends with the error of its stream write. */
  function OverWithError(s: State): State {
    s.(q := s.q.(flush := Over(true)), log := Ended(s.log, true))
  }

  /** `_finish` once the flush task, if there is one, is over. */
  function FlushIsOver(s: State): State {
    s.(closing := if s.q.flush == Over(true) then Closed(true) else Finishing)
  }

  function Step(s: State, e: Event): State {
    match e
    case Write(data) => DoWrite(s, data)
    case FlushRuns => FlushHead(s)
    case StreamTakes =>
      if s.q.flush.Sending?
      then s.(q := s.q.(flush := Sending(s.q.flush.data, true)), log := s.log.(sent := s.log.sent + s.q.flush.data))
      else s
    case FlushContinues => if s.q.flush.Sending? then FlushHead(Accounted(s, s.q.flush.data, true)) else s
    case FlushFails => if s.q.flush.Sending? then FlushFailed(s, s.q.flush.data, s.q.flush.done) else s
    case AskClose => if s.closing.NotAsked? then s.(closing := Asked) else s
    case CloseRuns => if Live(s.q.flush) then s.(closing := Awaiting) else FlushIsOver(s)
    case CloseContinues => FlushIsOver(s)
    case StreamFinishes => s.(closing := Closed(false), log := s.log.(finishes := s.log.finishes + 1))
    case FinishFails => s.(closing := Closed(true), log := s.log.(finishFailed := true))
    case DrainBegins => if Waits(s) then s.(drains := s.drains + [Drain(s.q.made)]) else s
    case DrainEnds(i) => if i < |s.drains| then s.(drains := s.drains[..i] + s.drains[i + 1..]) else s
  }

  const Writer := Machine(Can, Step)

  // ---- the invariant -------------------------------------------------------

  function Datas(cs: seq<Chunk>): Bytes { if cs == [] then [] else Datas(cs[..|cs| - 1]) + cs[|cs| - 1].data }

  function Taken(cs: seq<Chunk>): Bytes {
    if cs == [] then []
    else Taken(cs[..|cs| - 1]) + (if cs[|cs| - 1].taken then cs[|cs| - 1].data else [])
  }

  lemma {:induction false} Appended(cs: seq<Chunk>, c: Chunk)
    ensures Datas(cs + [c]) == Datas(cs) + c.data
    ensures Taken(cs + [c]) == Taken(cs) + (if c.taken then c.data else [])
  {
    assert (cs + [c])[..|cs|] == cs;
  }

  function InFlight(f: Flush): Bytes { if f.Sending? then f.data else [] }

  function JustTaken(f: Flush): Bytes { if f.Sending? && f.done then f.data else [] }

  /** Every byte written was handed to the stream, or is in flight or buffered,
      in that order; what the stream took is what it was handed and took. */
  predicate Accounts(q: Queue, log: Log) {
    && Datas(log.chunks) + InFlight(q.flush) + q.buf == log.written
    && Taken(log.chunks) + JustTaken(q.flush) == log.sent
    && q.queued == |InFlight(q.flush)| + |q.buf|
    && (q.flush.Sending? ==> q.flush.data != [])
  }

  predicate Tasks(q: Queue, log: Log) {
    && (q.flush.NoTask? <==> q.made == 0)
    && |log.failed| == (if Live(q.flush) then q.made - 1 else q.made)
    && (q.flush.Over? ==> log.failed != [] && log.failed[|log.failed| - 1] == q.flush.failed)
    && (q.buf != [] ==> Live(q.flush) || q.flush == Over(true))
    && (forall i :: 0 <= i < |log.chunks| ==> log.chunks[i].data != [])
    && ((forall i :: 0 <= i < |log.failed| ==> !log.failed[i]) ==>
          forall i :: 0 <= i < |log.chunks| ==> log.chunks[i].taken)
  }

  /** A flush task that did not fail ended with every byte written by then handed
      to the stream and done with. */
  predicate MarkIsMet(log: Log, k: nat)
    requires k < |log.marks| && k < |log.failed|
  {
    && log.marks[k].written <= |log.written|
    && log.marks[k].chunks <= |log.chunks|
    && (!log.failed[k] ==> |Datas(log.chunks[..log.marks[k].chunks])| == log.marks[k].written)
  }

  predicate Marks(log: Log) {
    |log.marks| == |log.failed| && forall k :: 0 <= k < |log.marks| ==> MarkIsMet(log, k)
  }

  /** A buffer the stream did not take was the last of a flush task that failed. */
  predicate BlamedAt(log: Log, i: int) {
    exists k :: 0 <= k < |log.failed| && k < |log.marks| && log.failed[k] && log.marks[k].chunks == i + 1
  }

  predicate Blamed(log: Log) { forall i :: 0 <= i < |log.chunks| && !log.chunks[i].taken ==> BlamedAt(log, i) }

  predicate Closes(s: State) {
    && s.log.finishes == (if s.closing == Closed(false) then 1 else 0)
    && (s.closing.Awaiting? ==> !s.q.flush.NoTask?)
    && (s.closing.Finishing? || s.closing == Closed(false) ==> s.q.flush.NoTask? || s.q.flush == Over(false))
    && (s.closing == Closed(true) ==> s.q.flush == Over(true) || s.log.finishFailed)
    && (s.log.finishFailed ==> s.closing == Closed(true))
    && (forall i :: 0 <= i < |s.drains| ==> 0 < s.drains[i].task <= s.q.made)
  }

  predicate Inv(s: State) { Accounts(s.q, s.log) && Tasks(s.q, s.log) && Marks(s.log) && Blamed(s.log) && Closes(s) }

  lemma {:induction false} HeadAccounts(s: State)
    requires Accounts(s.q.(flush := NoTask), s.log)
    ensures Accounts(FlushHead(s).q, FlushHead(s).log)
  {
    hide Datas, Taken;
    var d := Datas(s.log.chunks);
    assert d + [] + s.q.buf == d + s.q.buf + [];
  }

  lemma {:induction false} EndAccounts(s: State, data: Bytes, done: bool)
    requires Accounts(s.q, s.log) && s.q.flush == Sending(data, done)
    ensures Accounts(Accounted(s, data, done).q.(flush := NoTask), Accounted(s, data, done).log)
  {
    Appended(s.log.chunks, Chunk(data, done));
    hide Datas, Taken;
    var d, t := Datas(s.log.chunks), Taken(s.log.chunks);
    assert d + data + [] + s.q.buf == d + data + s.q.buf;
    assert t + (if done then data else []) + [] == t + (if done then data else []);
  }

  lemma {:induction false} WriteAccounts(s: State, data: Bytes)
    requires Accounts(s.q, s.log)
    ensures Accounts(DoWrite(s, data).q, DoWrite(s, data).log)
  {
    hide Datas, Taken;
    var d, i := Datas(s.log.chunks), InFlight(s.q.flush);
    assert d + i + (s.q.buf + data) == d + i + s.q.buf + data;
  }

  lemma {:induction false} TakeAccounts(s: State)
    requires Accounts(s.q, s.log) && Can(s, StreamTakes)
    ensures Accounts(Step(s, StreamTakes).q, Step(s, StreamTakes).log)
  {
    hide Datas, Taken;
    assert Taken(s.log.chunks) + [] == Taken(s.log.chunks);
  }

  lemma {:induction false} AccountsKept(s: State, e: Event)
    requires Inv(s) && Can(s, e)
    ensures Accounts(Step(s, e).q, Step(s, e).log)
  {
    assert s.q.flush.Made? ==> Accounts(s.q.(flush := NoTask), s.log) by { hide Datas, Taken, Tasks, Closes; }
    hide Accounts, Tasks, Closes;
    match e
    case Write(data) => WriteAccounts(s, data);
    case StreamTakes => TakeAccounts(s);
    case FlushRuns => HeadAccounts(s);
    case FlushContinues =>
      EndAccounts(s, s.q.flush.data, true);
      HeadAccounts(Accounted(s, s.q.flush.data, true));
    case FlushFails =>
      EndAccounts(s, s.q.flush.data, s.q.flush.done);
      OverAccounts(Accounted(s, s.q.flush.data, s.q.flush.done), true);
    case _ =>
  }

  lemma OverAccounts(s: State, failed: bool)
    requires Accounts(s.q.(flush := NoTask), s.log)
    ensures Accounts(s.q.(flush := Over(failed)), Ended(s.log, failed))
  {
    hide Datas, Taken;
  }

  /** The flush task at its head, with a live task before. */
  lemma {:induction false} HeadTasks(s: State)
    requires Tasks(s.q, s.log) && Live(s.q.flush)
    ensures Tasks(FlushHead(s).q, FlushHead(s).log)
  {
    var t := FlushHead(s);
    assert forall i :: 0 <= i < |s.log.failed| ==> t.log.failed[i] == s.log.failed[i];
  }

  lemma {:induction false} TakenTasks(s: State)
    requires Tasks(s.q, s.log) && s.q.flush.Sending? && s.q.flush.data != []
    ensures Tasks(Accounted(s, s.q.flush.data, true).q, Accounted(s, s.q.flush.data, true).log)
  {
  }

  lemma {:induction false} FailedTasks(s: State)
    requires Tasks(s.q, s.log) && s.q.flush.Sending? && s.q.flush.data != []
    ensures var t := FlushFailed(s, s.q.flush.data, s.q.flush.done); Tasks(t.q, t.log)
  {
    var t := FlushFailed(s, s.q.flush.data, s.q.flush.done);
    assert t.log.failed[|t.log.failed| - 1];
  }

  lemma {:induction false} OtherTasks(s: State, e: Event)
    requires Tasks(s.q, s.log) && Can(s, e) && !e.FlushRuns? && !e.FlushContinues? && !e.FlushFails?
    ensures Tasks(Step(s, e).q, Step(s, e).log)
  {
  }

  lemma {:induction false} TasksKept(s: State, e: Event)
    requires Inv(s) && Can(s, e)
    ensures Tasks(Step(s, e).q, Step(s, e).log)
  {
    hide Datas, Taken, Tasks, Closes;
    match e
    case FlushRuns => HeadTasks(s);
    case FlushContinues =>
      TakenTasks(s);
      HeadTasks(Accounted(s, s.q.flush.data, true));
    case FlushFails => FailedTasks(s);
    case _ => OtherTasks(s, e);
  }

  lemma {:induction false} MarkStays(log: Log, next: Log, k: nat)
    requires k < |log.marks| == |log.failed| && MarkIsMet(log, k)
    requires log.chunks <= next.chunks && |log.written| <= |next.written|
    requires log.marks <= next.marks && log.failed <= next.failed
    ensures MarkIsMet(next, k)
  {
    hide Datas;
    assert next.chunks[..log.marks[k].chunks] == log.chunks[..log.marks[k].chunks];
  }

  lemma {:induction false} MarksStay(log: Log, next: Log)
    requires Marks(log) && log.chunks <= next.chunks && |log.written| <= |next.written|
    requires next.marks == log.marks && next.failed == log.failed
    ensures Marks(next)
  {
    hide MarkIsMet;
    forall k | 0 <= k < |next.marks| ensures MarkIsMet(next, k) { MarkStays(log, next, k); }
  }

  /** A mark is made where nothing is in flight, nor buffered unless the task
      failed. */
  lemma {:induction false} MarkMade(log: Log, failed: bool)
    requires Marks(log) && |Datas(log.chunks)| <= |log.written|
    requires !failed ==> Datas(log.chunks) == log.written
    ensures Marks(Ended(log, failed))
  {
    var next := Ended(log, failed);
    assert log.chunks[..|log.chunks|] == log.chunks;
    assert MarkIsMet(next, |log.marks|) by { hide Datas; }
    hide MarkIsMet;
    forall k | 0 <= k < |log.marks| ensures MarkIsMet(next, k) { MarkStays(log, next, k); }
  }

  /** The flush task at its head, with nothing in flight. */
  lemma {:induction false} HeadMarks(s: State)
    requires Marks(s.log) && Accounts(s.q.(flush := NoTask), s.log)
    ensures Marks(FlushHead(s).log)
  {
    hide Datas, Taken, Marks;
    if s.q.buf == [] {
      assert Datas(s.log.chunks) + [] + [] == Datas(s.log.chunks);
      MarkMade(s.log, false);
    }
  }

  lemma {:induction false} MarksKept(s: State, e: Event)
    requires Inv(s) && Can(s, e)
    ensures Marks(Step(s, e).log)
  {
    assert s.q.flush.Made? ==> Accounts(s.q.(flush := NoTask), s.log) by { hide Datas, Taken, Tasks, Closes, Marks; }
    hide Accounts, Tasks, Closes, Marks, FlushHead, FlushFailed, Accounted;
    match e
    case FlushRuns => HeadMarks(s);
    case FlushContinues =>
      DoneMarks(s, true);
      HeadMarks(Accounted(s, s.q.flush.data, true));
    case FlushFails => FailMarks(s);
    case _ => OtherMarks(s, e);
  }

  lemma {:induction false} OtherMarks(s: State, e: Event)
    requires Marks(s.log) && Can(s, e) && !e.FlushRuns? && !e.FlushContinues? && !e.FlushFails?
    ensures Marks(Step(s, e).log)
  {
    hide Marks, FlushHead;
    MarksStay(s.log, Step(s, e).log);
  }

  /** The stream write in flight has ended. */
  lemma {:induction false} DoneMarks(s: State, taken: bool)
    requires Marks(s.log) && Accounts(s.q, s.log) && s.q.flush.Sending?
    requires taken == s.q.flush.done
    ensures var t := Accounted(s, s.q.flush.data, taken); Marks(t.log) && Accounts(t.q.(flush := NoTask), t.log)
  {
    hide Marks, Accounts;
    EndAccounts(s, s.q.flush.data, taken);
    MarksStay(s.log, Accounted(s, s.q.flush.data, taken).log);
  }

  lemma {:induction false} FailMarks(s: State)
    requires Marks(s.log) && Accounts(s.q, s.log) && s.q.flush.Sending?
    ensures Marks(FlushFailed(s, s.q.flush.data, s.q.flush.done).log)
  {
    DoneMarks(s, s.q.flush.done);
    hide Datas, Taken, Marks;
    MarkMade(Accounted(s, s.q.flush.data, s.q.flush.done).log, true);
  }

  lemma {:induction false} BlameStays(log: Log, next: Log, i: int)
    requires BlamedAt(log, i) && log.failed <= next.failed && log.marks <= next.marks
    ensures BlamedAt(next, i)
  {
    var k :| 0 <= k < |log.failed| && k < |log.marks| && log.failed[k] && log.marks[k].chunks == i + 1;
    assert next.failed[k] && next.marks[k] == log.marks[k];
  }

  lemma {:induction false} BlamedGrows(log: Log, next: Log)
    requires Blamed(log) && log.failed <= next.failed && log.marks <= next.marks && log.chunks <= next.chunks
    requires forall i :: |log.chunks| <= i < |next.chunks| ==> next.chunks[i].taken || BlamedAt(next, i)
    ensures Blamed(next)
  {
    forall i | 0 <= i < |next.chunks| && !next.chunks[i].taken ensures BlamedAt(next, i) {
      if i < |log.chunks| {
        assert next.chunks[i] == log.chunks[i];
        BlameStays(log, next, i);
      }
    }
  }

  lemma {:induction false} FailIsBlamed(s: State)
    requires Blamed(s.log) && |s.log.marks| == |s.log.failed| && s.q.flush.Sending?
    ensures Blamed(FlushFailed(s, s.q.flush.data, s.q.flush.done).log)
  {
    var next := FlushFailed(s, s.q.flush.data, s.q.flush.done).log;
    var k := |s.log.failed|;
    assert next.failed[k] && next.marks[k].chunks == |s.log.chunks| + 1;
    assert BlamedAt(next, |s.log.chunks|);
    hide BlamedAt, Blamed;
    BlamedGrows(s.log, next);
  }

  lemma {:induction false} BlamedKept(s: State, e: Event)
    requires Blamed(s.log) && |s.log.marks| == |s.log.failed| && Can(s, e)
    ensures Blamed(Step(s, e).log)
  {
    hide Blamed, BlamedAt;
    if e.FlushFails? { FailIsBlamed(s); } else { BlamedGrows(s.log, Step(s, e).log); }
  }

  lemma {:induction false} ClosesKept(s: State, e: Event)
    requires Inv(s) && Can(s, e)
    ensures Closes(Step(s, e))
  {
    hide Accounts;
  }

  lemma {:induction false} StepKeeps(s: State, e: Event)
    requires Inv(s) && Can(s, e)
    ensures Inv(Step(s, e))
  {
    AccountsKept(s, e);
    TasksKept(s, e);
    MarksKept(s, e);
    assert |s.log.marks| == |s.log.failed|;
    BlamedKept(s, e);
    ClosesKept(s, e);
    hide Step, Accounts, Tasks, Marks, Blamed, Closes;
  }

  lemma {:induction false} InvIsInductive()
    ensures Inductive(Writer, Inv)
  {
    forall s, e | Inv(s) && Can(s, e) ensures Inv(Step(s, e)) { StepKeeps(s, e); }
  }

  ghost predicate Reachable(s: State) {
    exists s0, es :: Initial(s0) && Legal(Writer, s0, es) && After(Writer, s0, es) == s
  }

  lemma {:induction false} ReachableInv(s: State)
    requires Reachable(s)
    ensures Inv(s)
  {
    var s0, es :| Initial(s0) && Legal(Writer, s0, es) && After(Writer, s0, es) == s;
    InvIsInductive();
    Kept(Writer, Inv, s0, es);
  }
}
