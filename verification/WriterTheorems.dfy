/** What holds of every run of the stream writer. */
module WriterTheorems {
  import opened Octets
  import opened Runs
  import opened WriterMachine

  ghost predicate NoFailure(s: State) { forall i :: 0 <= i < |s.log.failed| ==> !s.log.failed[i] }

  /** The count is what is in flight and buffered, and bytes go out in order:
      what the stream was handed, what is in flight and what is buffered make up
      all that was written.  Buffered bytes have a live flush task, unless the
      last one failed. */
  lemma {:induction false} BytesInOrder(s: State)
    requires Reachable(s)
    ensures s.q.queued == |InFlight(s.q.flush)| + |s.q.buf|
    ensures Datas(s.log.chunks) + InFlight(s.q.flush) + s.q.buf == s.log.written
    ensures Taken(s.log.chunks) + JustTaken(s.q.flush) == s.log.sent
    ensures s.q.buf != [] ==> Live(s.q.flush) || s.q.flush == Over(true)
  {
    ReachableInv(s);
  }

  lemma {:induction false} TakenIsAll(cs: seq<Chunk>)
    requires forall i :: 0 <= i < |cs| ==> cs[i].data != []
    ensures |Taken(cs)| <= |Datas(cs)|
    ensures |Taken(cs)| == |Datas(cs)| <==> (forall i :: 0 <= i < |cs| ==> cs[i].taken)
    ensures (forall i :: 0 <= i < |cs| ==> cs[i].taken) ==> Taken(cs) == Datas(cs)
  {
    if cs != [] {
      TakenIsAll(cs[..|cs| - 1]);
      assert cs == cs[..|cs| - 1] + [cs[|cs| - 1]];
    }
  }

  /** While no stream write failed, the bytes sent are a prefix of those written,
      and no byte is missing between. */
  lemma {:induction false} SentIsAPrefix(s: State)
    requires Reachable(s) && NoFailure(s)
    ensures s.log.sent <= s.log.written
    ensures s.q.flush.Over? || s.q.flush.NoTask? ==> s.log.sent == s.log.written
  {
    ReachableInv(s);
    TakenIsAll(s.log.chunks);
    hide Datas, Taken;
  }

  /** The stream is finished at most once, when nothing is in flight or buffered;
      and then every byte written was sent exactly when the stream took every
      buffer it was handed, as it did if no write failed. */
  lemma {:induction false} FinishIsLast(s: State)
    requires Reachable(s)
    ensures s.log.finishes <= 1
    ensures s.log.finishes == 1 ==> s.q.buf == [] && InFlight(s.q.flush) == []
    ensures s.log.finishes == 1 ==>
              (s.log.sent == s.log.written <==> forall i :: 0 <= i < |s.log.chunks| ==> s.log.chunks[i].taken)
    ensures s.log.finishes == 1 && NoFailure(s) ==> s.log.sent == s.log.written
  {
    ReachableInv(s);
    TakenIsAll(s.log.chunks);
    hide Datas, Taken;
  }

  /** A flush task failed with its last buffer not taken, and another was made
      after it. */
  predicate FailedUntaken(log: Log, k: nat) {
    && k + 1 < |log.failed| && k < |log.marks| && log.failed[k]
    && 0 < log.marks[k].chunks <= |log.chunks| && !log.chunks[log.marks[k].chunks - 1].taken
  }

  /** So a finished stream misses bytes exactly when a flush task failed before the
      stream had taken its buffer, and a later write made another task. */
  lemma {:induction false} FinishMisses(s: State)
    requires Reachable(s) && s.log.finishes == 1
    ensures s.log.sent != s.log.written <==> exists k: nat :: FailedUntaken(s.log, k)
  {
    FinishIsLast(s);
    ReachableInv(s);
    if k: nat :| FailedUntaken(s.log, k) {
      hide Inv;
      assert !s.log.chunks[s.log.marks[k].chunks - 1].taken;
    }
    if i :| 0 <= i < |s.log.chunks| && !s.log.chunks[i].taken { Blames(s, i); }
  }

  lemma {:induction false} Blames(s: State, i: int)
    requires Inv(s) && s.log.finishes == 1 && 0 <= i < |s.log.chunks| && !s.log.chunks[i].taken
    ensures exists k: nat :: FailedUntaken(s.log, k)
  {
    assert s.q.flush == Over(false) || s.log.failed == [] by { hide Accounts, Marks, Blamed; }
    assert s.log.failed != [] ==> !s.log.failed[|s.log.failed| - 1] by { hide Accounts, Marks, Blamed; }
    assert BlamedAt(s.log, i) by { hide Accounts, Tasks, Marks, Closes; }
    hide Inv;
    var k :| 0 <= k < |s.log.failed| && k < |s.log.marks| && s.log.failed[k] && s.log.marks[k].chunks == i + 1;
    assert FailedUntaken(s.log, k);
  }

  /** A failed write does not keep the stream from being finished: the stream
      refuses the first buffer and takes the second, and closing finishes it. */
  lemma {:induction false} FinishAfterFailure(s: State, a: Bytes, b: Bytes) returns (es: seq<Event>)
    requires Initial(s) && a != [] && b != []
    ensures Legal(Writer, s, es)
    ensures var t := After(Writer, s, es);
            t.log.finishes == 1 && t.log.written == a + b && t.log.sent == b
  {
    hide Step, Can;
    var es1, s1 := FirstFails(s, a);
    var es2, s2 := SecondIsTaken(s1, b);
    Joined(Writer, s, es1, es2);
    var es3, s3 := ThenFinished(s2);
    Joined(Writer, s, es1 + es2, es3);
    es := es1 + es2 + es3;
  }

  lemma {:induction false} SecondIsTaken(s: State, b: Bytes) returns (es: seq<Event>, t: State)
    requires s.q == Queue([], 0, Over(true), 1) && s.closing.NotAsked? && b != []
    requires s.log.sent == [] && s.log.finishes == 0
    ensures Legal(Writer, s, es) && t == After(Writer, s, es)
    ensures t.q.flush == Over(false) && t.closing.NotAsked? && t.log.finishes == 0
    ensures t.log.written == s.log.written + b && t.log.sent == b
  {
    var s1 := Step(s, Write(b));
    assert s1.q == Queue(b, |b|, Made, 2) by { assert [] + b == b; }
    var s2 := Step(s1, FlushRuns);
    var s3 := Step(s2, StreamTakes);
    assert s3.log.sent == b by { assert [] + b == b; }
    t := Step(s3, FlushContinues);
    assert Can(s, Write(b)) && Can(s1, FlushRuns) && Can(s2, StreamTakes) && Can(s3, FlushContinues);
    assert t.q.flush == Over(false) && t.log.written == s.log.written + b && t.log.sent == b;
    hide Step, Can;
    es := [];
    Goes(Writer, s, es, Write(b)); es := es + [Write(b)];
    Goes(Writer, s, es, FlushRuns); es := es + [FlushRuns];
    Goes(Writer, s, es, StreamTakes); es := es + [StreamTakes];
    Goes(Writer, s, es, FlushContinues); es := es + [FlushContinues];
  }

  lemma {:induction false} ThenFinished(s: State) returns (es: seq<Event>, t: State)
    requires s.q.flush == Over(false) && s.closing.NotAsked? && s.log.finishes == 0
    ensures Legal(Writer, s, es) && t == After(Writer, s, es)
    ensures t.log.finishes == 1 && t.log.written == s.log.written && t.log.sent == s.log.sent
  {
    var s1 := Step(s, AskClose);
    var s2 := Step(s1, CloseRuns);
    t := Step(s2, StreamFinishes);
    assert Can(s, AskClose) && Can(s1, CloseRuns) && Can(s2, StreamFinishes);
    assert t.log.finishes == 1 && t.log.written == s.log.written && t.log.sent == s.log.sent;
    hide Step, Can;
    es := [];
    Goes(Writer, s, es, AskClose); es := es + [AskClose];
    Goes(Writer, s, es, CloseRuns); es := es + [CloseRuns];
    Goes(Writer, s, es, StreamFinishes); es := es + [StreamFinishes];
  }

  lemma {:induction false} FirstFails(s: State, a: Bytes) returns (es: seq<Event>, t: State)
    requires Initial(s) && a != []
    ensures Legal(Writer, s, es) && t == After(Writer, s, es)
    ensures t.q == Queue([], 0, Over(true), 1) && t.closing.NotAsked?
    ensures t.log.written == a && t.log.sent == [] && t.log.finishes == 0
  {
    var s1 := Step(s, Write(a));
    assert s1.q == Queue(a, |a|, Made, 1) && s1.log.written == a by { assert [] + a == a; }
    var s2 := Step(s1, FlushRuns);
    t := Step(s2, FlushFails);
    assert Can(s, Write(a)) && Can(s1, FlushRuns) && Can(s2, FlushFails);
    assert t.q == Queue([], 0, Over(true), 1);
    hide Step, Can;
    es := [];
    Goes(Writer, s, es, Write(a)); es := es + [Write(a)];
    Goes(Writer, s, es, FlushRuns); es := es + [FlushRuns];
    Goes(Writer, s, es, FlushFails); es := es + [FlushFails];
  }

  /** A finished stream takes no more: `write` raises. */
  lemma {:induction false} NothingAfterClose(s: State, es: seq<Event>)
    requires !s.closing.NotAsked? && Legal(Writer, s, es)
    ensures After(Writer, s, es).log.written == s.log.written
  {
    var inv := (t: State) => !t.closing.NotAsked? && t.log.written == s.log.written;
    forall t, e | inv(t) && Can(t, e) ensures inv(Step(t, e)) { }
    Kept(Writer, inv, s, es);
  }

  // ---- drain ---------------------------------------------------------------

  function Limit(s: State): int { if s.high < 0 then 0 else s.high }

  /** Whether flush task `k` failed, which `drain` then raises. */
  predicate Raises(s: State, k: nat) { 0 < k <= |s.log.failed| && s.log.failed[k - 1] }

  /** A drain that returns leaves more than the limit queued only if another
      flush task was made since it began: someone wrote meanwhile. */
  lemma {:induction false} DrainReturnsLow(s: State, i: nat)
    requires Reachable(s) && Can(s, DrainEnds(i)) && !Raises(s, s.drains[i].task)
    ensures s.q.queued <= Limit(s) || s.drains[i].task < s.q.made
  {
    ReachableInv(s);
    hide Datas, Taken;
  }

  /** The bytes written after flush task `k`, from 1, was over. */
  function WrittenSince(log: Log, k: nat): int
    requires 0 < k <= |log.marks|
  {
    |log.written| - log.marks[k - 1].written
  }

  /** Of these, the bytes whose stream write has ended. */
  function EndedSince(log: Log, k: nat): nat
    requires 0 < k <= |log.marks| && log.marks[k - 1].chunks <= |log.chunks|
  {
    |Datas(log.chunks[log.marks[k - 1].chunks..])|
  }

  lemma {:induction false} DatasSplit(cs: seq<Chunk>, n: nat)
    requires n <= |cs|
    ensures Datas(cs) == Datas(cs[..n]) + Datas(cs[n..])
    decreases |cs|
  {
    if n == |cs| {
      assert cs[..n] == cs && cs[n..] == [];
    } else {
      var last := cs[|cs| - 1];
      DatasSplit(cs[..|cs| - 1], n);
      assert cs[..|cs| - 1][..n] == cs[..n] && cs[n..][..|cs| - 1 - n] == cs[..|cs| - 1][n..];
      assert Datas(cs[..n]) + Datas(cs[..|cs| - 1][n..]) + last.data
          == Datas(cs[..n]) + (Datas(cs[..|cs| - 1][n..]) + last.data);
    }
  }

  /** What a drain leaves queued when it returns is exactly what was written since
      the flush task it waited for was over, less what was sent off of that; so
      it leaves more than the limit exactly when that is more. */
  lemma {:induction false} DrainLeaves(s: State, i: nat)
    requires Reachable(s) && Can(s, DrainEnds(i)) && !Raises(s, s.drains[i].task)
    ensures var k := s.drains[i].task;
            && 0 < k <= |s.log.marks| && s.log.marks[k - 1].chunks <= |s.log.chunks|
            && s.q.queued == WrittenSince(s.log, k) - EndedSince(s.log, k)
            && (s.q.queued > s.high <==> WrittenSince(s.log, k) - EndedSince(s.log, k) > s.high)
  {
    ReachableInv(s);
    var k := s.drains[i].task;
    assert 0 < k <= |s.log.failed| by { hide Datas, Taken, Accounts, Marks; }
    assert |s.log.marks| == |s.log.failed| && MarkIsMet(s.log, k - 1) by { hide Datas, Taken, Accounts, Tasks; }
    DatasSplit(s.log.chunks, s.log.marks[k - 1].chunks);
    QueuedIs(s);
    hide Inv, Datas;
  }

  lemma {:induction false} QueuedIs(s: State)
    requires Inv(s)
    ensures s.q.queued == |s.log.written| - |Datas(s.log.chunks)|
  {
    hide Datas, Taken, Tasks, Marks, Closes;
  }

  /** A drain that does not wait at all finds no more than the limit queued, or
      raises the failure of the last flush task. */
  lemma {:induction false} DrainThatDoesNotWait(s: State)
    requires Reachable(s) && !Waits(s)
    ensures s.q.queued <= Limit(s) || s.q.flush == Over(true)
  {
    ReachableInv(s);
    hide Datas, Taken;
  }

  /** One producer: it does not write while its drain waits. */
  predicate CanAlone(s: State, e: Event) { Can(s, e) && (e.Write? || e.DrainBegins? ==> s.drains == []) }

  const OneProducer := Machine(CanAlone, Step)

  /** A drain that waits does so for the last flush task. */
  predicate WaitsForLast(s: State) { s.drains == [] || s.drains == [Drain(s.q.made)] }

  predicate AloneInv(s: State) { Inv(s) && WaitsForLast(s) }

  lemma {:induction false} StillWaitsForLast(s: State, e: Event)
    requires WaitsForLast(s) && CanAlone(s, e)
    ensures WaitsForLast(Step(s, e))
  {
    if s.drains == [] || e.DrainEnds? {
      assert e.DrainEnds? ==> Step(s, e).drains == [];
    } else {
      assert Step(s, e).drains == s.drains && Step(s, e).q.made == s.q.made;
    }
  }

  lemma {:induction false} AloneKeeps(s: State, e: Event)
    requires AloneInv(s) && CanAlone(s, e)
    ensures AloneInv(Step(s, e))
  {
    StillWaitsForLast(s, e);
    hide Inv, WaitsForLast, Step, Can;
    StepKeeps(s, e);
  }

  /** Then every drain that returns leaves no more than the limit queued. */
  lemma {:induction false} DrainAlone(s: State, es: seq<Event>, t: State, i: nat)
    requires Initial(s) && Legal(OneProducer, s, es) && t == After(OneProducer, s, es)
    requires Can(t, DrainEnds(i)) && !Raises(t, t.drains[i].task)
    ensures t.q.queued <= Limit(s)
  {
    AloneRuns(s, es);
    hide AloneInv, Can, Raises;
    LowWhenAlone(t, i);
  }

  lemma {:induction false} AloneRuns(s: State, es: seq<Event>)
    requires Initial(s) && Legal(OneProducer, s, es)
    ensures AloneInv(After(OneProducer, s, es)) && After(OneProducer, s, es).high == s.high
  {
    AloneStarts(s);
    hide AloneInv, CanAlone, Step;
    var inv := (t: State) => AloneInv(t) && t.high == s.high;
    forall t, e | inv(t) && CanAlone(t, e) ensures inv(Step(t, e)) {
      AloneKeeps(t, e);
      HighStays(t, e);
    }
    Kept(OneProducer, inv, s, es);
  }

  lemma AloneStarts(s: State)
    requires Initial(s)
    ensures AloneInv(s)
  {
  }

  lemma HighStays(s: State, e: Event)
    ensures Step(s, e).high == s.high
  {
  }

  lemma {:induction false} LowWhenAlone(t: State, i: nat)
    requires AloneInv(t) && Can(t, DrainEnds(i)) && !Raises(t, t.drains[i].task)
    ensures t.q.queued <= Limit(t)
  {
    hide Datas, Taken, Closes;
    assert t.drains[i].task == t.q.made;
  }

  /** With two producers it can: one writes more between the end of the flush
      task and the return of the other's drain. */
  lemma {:induction false} DrainWithTwo(s: State, data: Bytes) returns (es: seq<Event>)
    requires Initial(s) && s.high >= 0 && |data| > s.high
    ensures Legal(Writer, s, es)
    ensures var t := After(Writer, s, es);
            Can(t, DrainEnds(0)) && !Raises(t, t.drains[0].task) && t.q.queued > t.high
  {
    var s5 := FirstFlush(s, data);
    var s6 := Step(s5, Write(data));
    assert s6.q == Queue(data, |data|, Made, 2) by { assert [] + data == data; }
    assert Can(s5, Write(data)) && Can(s6, DrainEnds(0)) && !Raises(s6, 1);
    es := [Write(data), DrainBegins, FlushRuns, StreamTakes, FlushContinues];
    hide Step, Can, Raises;
    Goes(Writer, s, es, Write(data));
    es := es + [Write(data)];
  }

  /** A write, a drain that waits, and the flush to its end. */
  lemma {:induction false} FirstFlush(s: State, data: Bytes) returns (s5: State)
    requires Initial(s) && s.high >= 0 && |data| > s.high
    ensures var es := [Write(data), DrainBegins, FlushRuns, StreamTakes, FlushContinues];
            Legal(Writer, s, es) && s5 == After(Writer, s, es)
    ensures s5.q == Queue([], 0, Over(false), 1) && s5.log.failed == [false] && s5.drains == [Drain(1)]
    ensures s5.closing.NotAsked? && s5.high == s.high
  {
    var s1 := Step(s, Write(data));
    assert s1.q == Queue(data, |data|, Made, 1) by { assert [] + data == data; }
    var s2 := Step(s1, DrainBegins);
    var s3 := Step(s2, FlushRuns);
    var s4 := Step(s3, StreamTakes);
    s5 := Step(s4, FlushContinues);
    assert Can(s1, DrainBegins) && Can(s2, FlushRuns) && Can(s3, StreamTakes) && Can(s4, FlushContinues);
    assert s3.q == Queue([], |data|, Sending(data, false), 1);
    assert s5.q == Queue([], 0, Over(false), 1) && s5.log.failed == [false] && s5.drains == [Drain(1)];
    hide Step, Can;
    var es: seq<Event> := [];
    Goes(Writer, s, es, Write(data)); es := es + [Write(data)];
    Goes(Writer, s, es, DrainBegins); es := es + [DrainBegins];
    Goes(Writer, s, es, FlushRuns); es := es + [FlushRuns];
    Goes(Writer, s, es, StreamTakes); es := es + [StreamTakes];
    Goes(Writer, s, es, FlushContinues); es := es + [FlushContinues];
    assert es == [Write(data), DrainBegins, FlushRuns, StreamTakes, FlushContinues];
  }

  // ---- completion ----------------------------------------------------------

  predicate IsWork(e: Event) {
    e.FlushRuns? || e.StreamTakes? || e.FlushContinues? || e.CloseRuns? || e.CloseContinues? || e.StreamFinishes?
  }

  ghost predicate Quiet(s: State) { forall e :: IsWork(e) ==> !Can(s, e) }

  /** Once nothing is left to run and no stream write failed, every byte written
      was sent; and if closing was asked for, the stream was finished after it,
      unless that failed. */
  lemma {:induction false} AllIsSent(s: State)
    requires Reachable(s) && Quiet(s) && NoFailure(s)
    ensures s.log.sent == s.log.written && s.q.queued == 0
    ensures s.closing.NotAsked? || (s.closing == Closed(false) && s.log.finishes == 1) || s.closing == Closed(true)
  {
    ReachableInv(s);
    assert !Can(s, FlushRuns) && !Can(s, StreamTakes) && !Can(s, FlushContinues);
    assert !Can(s, CloseRuns) && !Can(s, CloseContinues) && !Can(s, StreamFinishes);
    SentIsAPrefix(s);
    hide Datas, Taken;
  }

  predicate IsFinishFailure(s: State, e: Event) { e.FinishFails? }

  lemma {:induction false} FailureIsKnown(s: State, es: seq<Event>)
    requires Initial(s) && Legal(Writer, s, es)
    ensures After(Writer, s, es).log.finishFailed <==> FinishFails in es
  {
    var mark := (t: State) => t.log.finishFailed;
    var any := (t: State) => true;
    forall t, e | Can(t, e) ensures mark(Step(t, e)) <==> mark(t) || IsFinishFailure(t, e) { }
    Remembered(Writer, any, mark, IsFinishFailure, s, es);
    AnyFails(s, es);
  }

  lemma {:induction false} AnyFails(s: State, es: seq<Event>)
    ensures Any(Writer, IsFinishFailure, s, es) <==> FinishFails in es
    decreases |es|
  {
    if es != [] {
      AnyFails(Step(s, es[0]), es[1..]);
      assert es == [es[0]] + es[1..];
    }
  }

  /** A stream asked to close is finished, exactly once, unless the last flush task
      failed or the stream's own finish did: then, and only then, closing fails. */
  lemma {:induction false} CloseFinishes(s: State, es: seq<Event>)
    requires Initial(s) && Legal(Writer, s, es)
    ensures var t := After(Writer, s, es);
            Quiet(t) && !t.closing.NotAsked? ==>
              && (t.closing == Closed(true) <==> t.q.flush == Over(true) || FinishFails in es)
              && (t.closing == Closed(false) <==> t.log.finishes == 1)
              && (t.q.flush != Over(true) && FinishFails !in es ==> t.log.finishes == 1)
  {
    FailureIsKnown(s, es);
    var t := After(Writer, s, es);
    assert Reachable(t);
    ReachableInv(t);
    if Quiet(t) {
      assert !Can(t, FlushRuns) && !Can(t, StreamTakes) && !Can(t, FlushContinues);
      assert !Can(t, CloseRuns) && !Can(t, CloseContinues) && !Can(t, StreamFinishes);
    }
    hide Accounts, Marks, Blamed;
  }

  function FlushCost(f: Flush): nat {
    match f
    case Made => 4
    case Sending(_, done) => if done then 2 else 3
    case _ => 0
  }

  function CloseCost(c: Closing): nat {
    match c
    case NotAsked => 4
    case Asked => 3
    case Awaiting => 2
    case Finishing => 1
    case Closed(_) => 0
  }

  function Cost(s: State): nat {
    FlushCost(s.q.flush) + (if s.q.buf != [] then 2 else 0) + CloseCost(s.closing)
  }

  function Price(e: Event): nat { if e.Write? then 6 else 0 }

  /** A write brings at most six pieces of work. */
  lemma {:induction false} WorkIsPaid(s: State, e: Event)
    requires Inv(s) && Can(s, e)
    ensures Cost(Step(s, e)) + (if IsWork(e) then 1 else 0) <= Cost(s) + Price(e)
  {
    hide Accounts, Tasks, Closes;
  }

  lemma {:induction false} WorkIsBounded(s: State, es: seq<Event>)
    requires Initial(s) && Legal(Writer, s, es)
    ensures Count(IsWork, es) <= 4 + Total(Price, es)
  {
    InvIsInductive();
    forall s, e | Inv(s) && Can(s, e)
      ensures Cost(Step(s, e)) + (if IsWork(e) then 1 else 0) <= Cost(s) + Price(e)
    {
      WorkIsPaid(s, e);
    }
    Budget(Writer, Inv, Cost, IsWork, Price, s, es);
  }
}
