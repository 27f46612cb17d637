/** Stream handles that can be used up (src/lib.rs, `Part`, `held`, `held_now`,
    `take_now`; src/helpers.rs, `pair` and `splice`).

    A handle holds a native stream part behind a lock.  Operations hold the lock
    while they run; `take_now` and `pair` take the part out, only when they get
    the lock at once.  Any number of handles and operations run interleaved. */
module Handles {
  import opened Octets
  import opened Runs

  /** A native part: its own number, and its stream's, once that is known. */
  datatype Part = Part(num: nat, stream: Option<nat>)

  datatype Cell = Cell(part: Option<Part>, lock: Option<nat>)

  /** An operation, by its number the holder of its locks. */
  datatype Op =
    | Holds(c: nat)                      // an operation in progress on the part
    | PairSend(s: nat, r: nat)           // `pair` has the sender's lock
    | PairBoth(s: nat, r: nat)           // and the receiver's, and found both fit
    | PairHalf(s: nat, r: nat, got: Part)  // and took the sender's part
    | Ended(took: seq<Part>)

  datatype State = State(cells: seq<Cell>, ops: seq<Op>, left: seq<Part>)

  ghost predicate Initial(s: State) {
    && s.ops == [] && s.left == []
    && (forall c :: 0 <= c < |s.cells| ==> s.cells[c].part.Some? && s.cells[c].lock.None?)
    && (forall c, d :: 0 <= c < d < |s.cells| ==> s.cells[c].part.value.num != s.cells[d].part.value.num)
  }

  datatype Event =
    | HoldBegins(c: nat)
    | HoldEnds(k: nat)
    | TakeNow(c: nat)
    | PairBegins(c: nat, d: nat)
    | PairLocksRecv(k: nat)
    | PairIsBusy(k: nat)
    | PairTakesSend(k: nat)
    | PairTakesRecv(k: nat)

  predicate IsFree(s: State, c: nat) { c < |s.cells| && s.cells[c].lock.None? }

  predicate IsPairSend(s: State, k: nat) { k < |s.ops| && s.ops[k].PairSend? }

  predicate Can(s: State, e: Event) {
    match e
    case HoldBegins(c) => IsFree(s, c) && s.cells[c].part.Some?
    case HoldEnds(k) => k < |s.ops| && s.ops[k].Holds?
    case TakeNow(c) => IsFree(s, c) && s.cells[c].part.Some?
    case PairBegins(c, d) => IsFree(s, c) && d < |s.cells| && c != d
    case PairLocksRecv(k) => IsPairSend(s, k) && IsFree(s, s.ops[k].r)
    case PairIsBusy(k) => IsPairSend(s, k) && !IsFree(s, s.ops[k].r)
    case PairTakesSend(k) => k < |s.ops| && s.ops[k].PairBoth?
    case PairTakesRecv(k) => k < |s.ops| && s.ops[k].PairHalf?
  }

  /** Both parts are there, and not of two streams known to differ. */
  predicate Fit(a: Option<Part>, b: Option<Part>) {
    && a.Some? && b.Some?
    && (a.value.stream.Some? && b.value.stream.Some? ==> a.value.stream == b.value.stream)
  }

  function Locked(s: State, c: nat, k: Option<nat>): State {
    if c < |s.cells| then s.(cells := s.cells[c := s.cells[c].(lock := k)]) else s
  }

  function Emptied(s: State, c: nat): State {
    if c < |s.cells| && s.cells[c].part.Some?
    then s.(cells := s.cells[c := s.cells[c].(part := None)], left := s.left + [s.cells[c].part.value])
    else s
  }

  function Now(s: State, k: nat, op: Op): State {
    if k < |s.ops| then s.(ops := s.ops[k := op]) else s
  }

  function Step(s: State, e: Event): State {
    match e
    case HoldBegins(c) => Locked(s, c, Some(|s.ops|)).(ops := s.ops + [Holds(c)])
    case HoldEnds(k) =>
      if k < |s.ops| && s.ops[k].Holds? then Now(Locked(s, s.ops[k].c, None), k, Ended([])) else s
    case TakeNow(c) => Emptied(s, c)
    case PairBegins(c, d) => Locked(s, c, Some(|s.ops|)).(ops := s.ops + [PairSend(c, d)])
    case PairLocksRecv(k) =>
      if !IsPairSend(s, k) then s
      else
        var (c, d) := (s.ops[k].s, s.ops[k].r);
        if c < |s.cells| && d < |s.cells| && Fit(s.cells[c].part, s.cells[d].part)
        then Now(Locked(s, d, Some(k)), k, PairBoth(c, d))
        else Now(Locked(s, c, None), k, Ended([]))
    case PairIsBusy(k) =>
      if !IsPairSend(s, k) then s else Now(Locked(s, s.ops[k].s, None), k, Ended([]))
    case PairTakesSend(k) =>
      if k < |s.ops| && s.ops[k].PairBoth? && s.ops[k].s < |s.cells| && s.cells[s.ops[k].s].part.Some? then
        var (c, d) := (s.ops[k].s, s.ops[k].r);
        Now(Emptied(s, c), k, PairHalf(c, d, s.cells[c].part.value))
      else s
    case PairTakesRecv(k) =>
      if k < |s.ops| && s.ops[k].PairHalf? && s.ops[k].r < |s.cells| && s.cells[s.ops[k].r].part.Some? then
        var (c, d) := (s.ops[k].s, s.ops[k].r);
        Now(Locked(Locked(Emptied(s, d), c, None), d, None), k, Ended([s.ops[k].got, s.cells[d].part.value]))
      else s
  }

  const Process := Machine(Can, Step)

  // ---- the invariant -------------------------------------------------------

  function Locks(op: Op): set<nat> {
    match op
    case Holds(c) => {c}
    case PairSend(c, _) => {c}
    case PairBoth(c, d) => {c, d}
    case PairHalf(c, d, _) => {c, d}
    case Ended(_) => {}
  }

  /** A lock names its holder, and an operation holds the locks of where it is. */
  predicate LocksAgree(cells: seq<Cell>, ops: seq<Op>) {
    && (forall c :: 0 <= c < |cells| && cells[c].lock.Some? ==>
          cells[c].lock.value < |ops| && c in Locks(ops[cells[c].lock.value]))
    && (forall k :: 0 <= k < |ops| ==> forall c :: c in Locks(ops[k]) ==> c < |cells| && cells[c].lock == Some(k))
  }

  predicate OpFits(cells: seq<Cell>, op: Op) {
    match op
    case Holds(c) => c < |cells| && cells[c].part.Some?
    case PairSend(c, d) => c < |cells| && d < |cells| && c != d
    case PairBoth(c, d) => c < |cells| && d < |cells| && c != d && Fit(cells[c].part, cells[d].part)
    case PairHalf(c, d, got) =>
      c < |cells| && d < |cells| && c != d && cells[c].part.None? && Fit(Some(got), cells[d].part)
    case Ended(took) => took == [] || (|took| == 2 && Fit(Some(took[0]), Some(took[1])))
  }

  /** A part is in one cell, or has left once. */
  predicate OnePlace(cells: seq<Cell>, left: seq<Part>) {
    && (forall c, d :: 0 <= c < d < |cells| && cells[c].part.Some? && cells[d].part.Some? ==>
          cells[c].part.value.num != cells[d].part.value.num)
    && (forall i, j :: 0 <= i < j < |left| ==> left[i].num != left[j].num)
    && (forall c, i :: 0 <= c < |cells| && 0 <= i < |left| && cells[c].part.Some? ==>
          cells[c].part.value.num != left[i].num)
  }

  predicate Inv(s: State) {
    && LocksAgree(s.cells, s.ops)
    && (forall k :: 0 <= k < |s.ops| ==> OpFits(s.cells, s.ops[k]))
    && OnePlace(s.cells, s.left)
  }

  lemma {:induction false} EmptiedKeepsPlace(s: State, c: nat)
    requires OnePlace(s.cells, s.left)
    ensures OnePlace(Emptied(s, c).cells, Emptied(s, c).left)
  {
  }

  lemma {:induction false} PlacesKept(s: State, e: Event)
    requires Inv(s) && Can(s, e)
    ensures OnePlace(Step(s, e).cells, Step(s, e).left)
  {
    hide LocksAgree, OpFits;
    match e
    case TakeNow(c) => EmptiedKeepsPlace(s, c); hide OnePlace;
    case PairTakesSend(k) => EmptiedKeepsPlace(s, s.ops[k].s); hide OnePlace;
    case PairTakesRecv(k) =>
      var c, d := s.ops[k].s, s.ops[k].r;
      EmptiedKeepsPlace(s, d);
      hide OnePlace;
      LockingKeepsPlace(Emptied(s, d), c, None);
      LockingKeepsPlace(Locked(Emptied(s, d), c, None), d, None);
    case HoldBegins(c) => hide OnePlace; LockingKeepsPlace(s, c, Some(|s.ops|));
    case PairBegins(c, _) => hide OnePlace; LockingKeepsPlace(s, c, Some(|s.ops|));
    case HoldEnds(k) => hide OnePlace; LockingKeepsPlace(s, s.ops[k].c, None);
    case PairIsBusy(k) => hide OnePlace; LockingKeepsPlace(s, s.ops[k].s, None);
    case PairLocksRecv(k) =>
      hide OnePlace;
      var c, d := s.ops[k].s, s.ops[k].r;
      LockingKeepsPlace(s, d, Some(k));
      LockingKeepsPlace(s, c, None);
  }

  lemma {:induction false} LockingKeepsPlace(s: State, c: nat, l: Option<nat>)
    requires OnePlace(s.cells, s.left)
    ensures OnePlace(Locked(s, c, l).cells, Locked(s, c, l).left)
  {
  }

  lemma {:induction false} LockTaken(s: State, c: nat, op: Op)
    requires LocksAgree(s.cells, s.ops) && IsFree(s, c) && Locks(op) == {c}
    ensures LocksAgree(Locked(s, c, Some(|s.ops|)).cells, s.ops + [op])
  {
  }

  lemma {:induction false} LocksReleased(s: State, k: nat, t: State)
    requires LocksAgree(s.cells, s.ops) && k < |s.ops| && |t.cells| == |s.cells|
    requires forall c :: 0 <= c < |s.cells| ==>
      t.cells[c].lock == if c in Locks(s.ops[k]) then None else s.cells[c].lock
    requires exists took :: t.ops == s.ops[k := Ended(took)]
    ensures LocksAgree(t.cells, t.ops)
  {
  }

  lemma {:induction false} LockAdded(s: State, k: nat, c: nat, d: nat)
    requires LocksAgree(s.cells, s.ops) && k < |s.ops| && s.ops[k] == PairSend(c, d) && IsFree(s, d)
    ensures LocksAgree(Locked(s, d, Some(k)).cells, s.ops[k := PairBoth(c, d)])
  {
  }

  lemma {:induction false} LocksKept(s: State, e: Event)
    requires Inv(s) && Can(s, e)
    ensures LocksAgree(Step(s, e).cells, Step(s, e).ops)
  {
    hide OnePlace;
    match e
    case HoldBegins(c) => LockTaken(s, c, Holds(c)); hide LocksAgree;
    case PairBegins(c, d) => LockTaken(s, c, PairSend(c, d)); hide LocksAgree;
    case HoldEnds(k) => hide LocksAgree; OneReleased(s, k, s.ops[k].c);
    case PairIsBusy(k) => hide LocksAgree; OneReleased(s, k, s.ops[k].s);
    case PairLocksRecv(k) => hide LocksAgree; RecvLocked(s, k);
    case PairTakesRecv(k) =>
      assert OpFits(s.cells, s.ops[k]);
      hide LocksAgree;
      PairReleased(s, k);
    case TakeNow(_) => hide LocksAgree; LocksSame(s, Step(s, e));
    case PairTakesSend(k) => hide LocksAgree; LocksSame(s, Step(s, e));
  }

  lemma {:induction false} RecvLocked(s: State, k: nat)
    requires LocksAgree(s.cells, s.ops) && Can(s, PairLocksRecv(k))
    ensures LocksAgree(Step(s, PairLocksRecv(k)).cells, Step(s, PairLocksRecv(k)).ops)
  {
    hide LocksAgree;
    var c, d := s.ops[k].s, s.ops[k].r;
    if c < |s.cells| && Fit(s.cells[c].part, s.cells[d].part) {
      LockAdded(s, k, c, d);
    } else {
      OneReleased(s, k, c);
    }
  }

  lemma {:induction false} PairReleased(s: State, k: nat)
    requires LocksAgree(s.cells, s.ops) && Can(s, PairTakesRecv(k)) && OpFits(s.cells, s.ops[k])
    ensures LocksAgree(Step(s, PairTakesRecv(k)).cells, Step(s, PairTakesRecv(k)).ops)
  {
    hide LocksAgree;
    LocksReleased(s, k, Step(s, PairTakesRecv(k)));
  }

  lemma {:induction false} OneReleased(s: State, k: nat, c: nat)
    requires LocksAgree(s.cells, s.ops) && k < |s.ops| && Locks(s.ops[k]) == {c}
    ensures LocksAgree(Locked(s, c, None).cells, s.ops[k := Ended([])])
  {
    assert c < |s.cells|;
    hide LocksAgree;
    LocksReleased(s, k, Now(Locked(s, c, None), k, Ended([])));
  }

  lemma {:induction false} LocksSame(s: State, t: State)
    requires LocksAgree(s.cells, s.ops) && |t.cells| == |s.cells| && |t.ops| == |s.ops|
    requires forall c :: 0 <= c < |s.cells| ==> t.cells[c].lock == s.cells[c].lock
    requires forall k :: 0 <= k < |s.ops| ==> Locks(t.ops[k]) == Locks(s.ops[k])
    ensures LocksAgree(t.cells, t.ops)
  {
  }

  /** Only the holder of a cell's lock, or `take_now` of a free cell, changes
      what is in it. */
  predicate Owner(s: State, e: Event, c: nat) {
    match e
    case TakeNow(d) => c == d
    case PairTakesSend(k) => k < |s.ops| && s.ops[k].PairBoth? && c == s.ops[k].s
    case PairTakesRecv(k) => k < |s.ops| && s.ops[k].PairHalf? && c == s.ops[k].r
    case _ => false
  }

  lemma {:induction false} PartsStay(s: State, e: Event, c: nat)
    requires Can(s, e) && c < |s.cells|
    ensures |Step(s, e).cells| == |s.cells|
    ensures !Owner(s, e, c) ==> Step(s, e).cells[c].part == s.cells[c].part
  {
  }

  lemma {:induction false} OwnerHolds(s: State, e: Event, c: nat, k: nat)
    requires Inv(s) && Can(s, e) && c < |s.cells| && k < |s.ops| && c in Locks(s.ops[k])
    ensures Owner(s, e, c) ==> e == PairTakesSend(k) || e == PairTakesRecv(k)
  {
    hide OnePlace, OpFits;
    assert s.cells[c].lock == Some(k);
    match e
    case PairTakesSend(j) =>
      if Owner(s, e, c) { assert c in Locks(s.ops[j]); }
    case PairTakesRecv(j) =>
      if Owner(s, e, c) { assert c in Locks(s.ops[j]); }
    case _ =>
  }

  /** Cell `c`, which operation `k` has locked, is as it was unless the event is
      that operation's own. */
  predicate Untouched(s: State, t: State, e: Event, k: nat, c: nat) {
    && c < |s.cells| && |t.cells| == |s.cells|
    && (e == PairTakesSend(k) || e == PairTakesRecv(k) || t.cells[c].part == s.cells[c].part)
  }

  lemma {:induction false} OpsKept(s: State, e: Event, k: nat)
    requires Inv(s) && Can(s, e) && k < |Step(s, e).ops|
    ensures OpFits(Step(s, e).cells, Step(s, e).ops[k])
  {
    var t := Step(s, e);
    if k < |s.ops| {
      assert OpFits(s.cells, s.ops[k]);
      forall c | c in Locks(s.ops[k]) ensures Untouched(s, t, e, k, c) {
        OwnerHolds(s, e, c, k);
        PartsStay(s, e, c);
      }
      OpKept(s, e, k, t);
    } else {
      hide LocksAgree, OnePlace;
    }
  }

  lemma {:induction false} OpKept(s: State, e: Event, k: nat, t: State)
    requires Inv(s) && Can(s, e) && t == Step(s, e) && k < |s.ops| && OpFits(s.cells, s.ops[k])
    requires forall c :: c in Locks(s.ops[k]) ==> Untouched(s, t, e, k, c)
    ensures k < |t.ops| && OpFits(t.cells, t.ops[k])
  {
    LocksOf(s.ops[k]);
    if IsOwn(e, k) {
      assert s.ops[k].PairBoth? || s.ops[k].PairHalf? || s.ops[k].PairSend? || s.ops[k].Holds?;
      hide LocksAgree, OnePlace;
    } else {
      OthersLeave(s, k, e);
      hide Inv, Step, Can;
      match s.ops[k]
      case PairSend(c, _) => assert Untouched(s, t, e, k, c);
      case Ended(_) =>
      case Holds(c) => assert Untouched(s, t, e, k, c);
      case PairBoth(c, d) => assert Untouched(s, t, e, k, c) && Untouched(s, t, e, k, d);
      case PairHalf(c, d, _) => assert Untouched(s, t, e, k, c) && Untouched(s, t, e, k, d);
    }
  }

  /** The events of operation `k`. */
  predicate IsOwn(e: Event, k: nat) {
    || e == HoldEnds(k) || e == PairLocksRecv(k) || e == PairIsBusy(k)
    || e == PairTakesSend(k) || e == PairTakesRecv(k)
  }

  lemma {:induction false} OthersLeave(s: State, k: nat, e: Event)
    requires Can(s, e) && k < |s.ops| && !IsOwn(e, k)
    ensures k < |Step(s, e).ops| && Step(s, e).ops[k] == s.ops[k]
  {
  }

  lemma LocksOf(op: Op)
    ensures op.Holds? ==> op.c in Locks(op)
    ensures op.PairSend? || op.PairBoth? || op.PairHalf? ==> op.s in Locks(op)
    ensures op.PairBoth? || op.PairHalf? ==> op.r in Locks(op)
  {
  }

  lemma {:induction false} StepKeeps(s: State, e: Event)
    requires Inv(s) && Can(s, e)
    ensures Inv(Step(s, e))
  {
    PlacesKept(s, e);
    LocksKept(s, e);
    forall k | 0 <= k < |Step(s, e).ops| ensures OpFits(Step(s, e).cells, Step(s, e).ops[k]) {
      OpsKept(s, e, k);
    }
    hide Step, OnePlace, LocksAgree, OpFits;
  }

  lemma {:induction false} InvIsInductive()
    ensures Inductive(Process, Inv)
  {
    forall s, e | Inv(s) && Can(s, e) ensures Inv(Step(s, e)) { StepKeeps(s, e); }
  }

  ghost predicate Reachable(s: State) {
    exists s0, es :: Initial(s0) && Legal(Process, s0, es) && After(Process, s0, es) == s
  }

  lemma {:induction false} ReachableInv(s: State)
    requires Reachable(s)
    ensures Inv(s)
  {
    var s0, es :| Initial(s0) && Legal(Process, s0, es) && After(Process, s0, es) == s;
    InvIsInductive();
    Kept(Process, Inv, s0, es);
  }

  // ---- the claims ----------------------------------------------------------

  /** A native part leaves its handle at most once: none is twice among those
      that left, and none of those is still in a handle. */
  lemma {:induction false} LeavesOnce(s: State)
    requires Reachable(s)
    ensures forall i, j :: 0 <= i < j < |s.left| ==> s.left[i].num != s.left[j].num
    ensures forall c, i :: 0 <= c < |s.cells| && 0 <= i < |s.left| && s.cells[c].part.Some? ==>
              s.cells[c].part.value.num != s.left[i].num
  {
    ReachableInv(s);
  }

  /** A part an operation holds does not leave: it is where it was for as long
      as the operation lasts, whatever else happens. */
  lemma {:induction false} HeldStays(s: State, k: nat, es: seq<Event>)
    requires Reachable(s) && k < |s.ops| && s.ops[k].Holds? && s.ops[k].c < |s.cells|
    requires Legal(Process, s, es) && HoldEnds(k) !in es
    ensures s.ops[k].c < |After(Process, s, es).cells|
    ensures After(Process, s, es).cells[s.ops[k].c].part == s.cells[s.ops[k].c].part
  {
    ReachableInv(s);
    HeldAlong(s, k, es);
  }

  lemma {:induction false} HeldAlong(s: State, k: nat, es: seq<Event>)
    requires Inv(s) && k < |s.ops| && s.ops[k].Holds? && s.ops[k].c < |s.cells|
    requires Legal(Process, s, es) && HoldEnds(k) !in es
    ensures s.ops[k].c < |After(Process, s, es).cells|
    ensures After(Process, s, es).cells[s.ops[k].c].part == s.cells[s.ops[k].c].part
    decreases |es|
  {
    if es != [] {
      var c, e := s.ops[k].c, es[0];
      OwnerHolds(s, e, c, k);
      PartsStay(s, e, c);
      StepKeeps(s, e);
      OthersLeave(s, k, e);
      hide Inv, Step;
      HeldAlong(Process.step(s, e), k, es[1..]);
    }
  }

  /** `pair` takes both parts of a stream or neither, and the two it found when
      it had both locks: whatever happens meanwhile, it ends with just those. */
  predicate Pairing(t: State, k: nat, c: nat, d: nat, a: Part, b: Part) {
    && Inv(t) && k < |t.ops|
    && match t.ops[k]
       case PairBoth(x, y) => x == c && y == d && c < |t.cells| && d < |t.cells|
                              && t.cells[c].part == Some(a) && t.cells[d].part == Some(b)
       case PairHalf(x, y, got) => x == c && y == d && got == a && d < |t.cells| && t.cells[d].part == Some(b)
       case Ended(took) => took == [a, b]
       case _ => false
  }

  lemma {:induction false} PairingKept(t: State, e: Event, k: nat, c: nat, d: nat, a: Part, b: Part)
    requires Pairing(t, k, c, d, a, b) && Can(t, e)
    ensures Pairing(Step(t, e), k, c, d, a, b)
  {
    StepKeeps(t, e);
    forall x | x in Locks(t.ops[k]) ensures Untouched(t, Step(t, e), e, k, x) {
      OwnerHolds(t, e, x, k);
      PartsStay(t, e, x);
    }
    assert OpFits(t.cells, t.ops[k]);
    hide Inv;
    PairingMoves(t, e, k, c, d, a, b);
  }

  lemma {:induction false} PairingMoves(t: State, e: Event, k: nat, c: nat, d: nat, a: Part, b: Part)
    requires Pairing(t, k, c, d, a, b) && Can(t, e) && Inv(Step(t, e)) && OpFits(t.cells, t.ops[k])
    requires forall x :: x in Locks(t.ops[k]) ==> Untouched(t, Step(t, e), e, k, x)
    ensures Pairing(Step(t, e), k, c, d, a, b)
  {
    hide Inv;
    LocksOf(t.ops[k]);
    var u := Step(t, e);
    if !t.ops[k].Ended? { assert Untouched(t, u, e, k, c) && Untouched(t, u, e, k, d); }
  }

  lemma {:induction false} PairTakesBothOrNeither(s: State, k: nat, es: seq<Event>, a: Part, b: Part)
    requires Reachable(s) && k < |s.ops|
    requires s.ops[k].PairBoth? && s.ops[k].s < |s.cells| && s.ops[k].r < |s.cells|
    requires s.cells[s.ops[k].s].part == Some(a) && s.cells[s.ops[k].r].part == Some(b)
    requires Legal(Process, s, es)
    ensures Fit(Some(a), Some(b))
    ensures Pairing(After(Process, s, es), k, s.ops[k].s, s.ops[k].r, a, b)
  {
    ReachableInv(s);
    var c, d := s.ops[k].s, s.ops[k].r;
    assert OpFits(s.cells, s.ops[k]);
    var inv := (t: State) => Pairing(t, k, c, d, a, b);
    forall t, e | inv(t) && Can(t, e) ensures inv(Step(t, e)) { PairingKept(t, e, k, c, d, a, b); }
    Kept(Process, inv, s, es);
  }

  /** Every operation that ended took two parts that fit, or none. */
  lemma {:induction false} TwoOrNone(s: State, k: nat)
    requires Reachable(s) && k < |s.ops| && s.ops[k].Ended?
    ensures s.ops[k].took == [] || (|s.ops[k].took| == 2 && Fit(Some(s.ops[k].took[0]), Some(s.ops[k].took[1])))
  {
    ReachableInv(s);
    assert OpFits(s.cells, s.ops[k]);
  }

  // ---- nothing is lost -------------------------------------------------------

  function One(p: Option<Part>): multiset<Part> { if p.Some? then multiset{p.value} else multiset{} }

  /** The parts in the handles. */
  function InCells(cells: seq<Cell>): multiset<Part> {
    if cells == [] then multiset{} else InCells(cells[..|cells| - 1]) + One(cells[|cells| - 1].part)
  }

  lemma {:induction false} InCellsUpdate(cells: seq<Cell>, c: nat, x: Cell)
    requires c < |cells|
    ensures InCells(cells[c := x]) + One(cells[c].part) == InCells(cells) + One(x.part)
    decreases |cells|
  {
    hide InCells, One;
    var n := |cells| - 1;
    LastCell(cells);
    LastCell(cells[c := x]);
    if c < n {
      InCellsUpdate(cells[..n], c, x);
      assert cells[c := x][..n] == cells[..n][c := x];
      OneMore(InCells(cells[..n][c := x]), One(cells[c].part), InCells(cells[..n]), One(x.part), One(cells[n].part));
    } else {
      assert cells[c := x][..n] == cells[..n];
      TwoMore(InCells(cells[..n]), One(x.part), One(cells[n].part));
    }
  }

  lemma LastCell(cells: seq<Cell>)
    requires cells != []
    ensures InCells(cells) == InCells(cells[..|cells| - 1]) + One(cells[|cells| - 1].part)
  {
    hide One;
  }

  lemma TwoMore(a: multiset<Part>, p: multiset<Part>, q: multiset<Part>)
    ensures (a + p) + q == (a + q) + p
  {
  }

  lemma OneMore(a: multiset<Part>, p: multiset<Part>, b: multiset<Part>, q: multiset<Part>, r: multiset<Part>)
    requires a + p == b + q
    ensures (a + r) + p == (b + r) + q
  {
    assert (a + r) + p == (a + p) + r;
    assert (b + r) + q == (b + q) + r;
  }

  lemma OneLess(a: multiset<Part>, b: multiset<Part>, p: multiset<Part>)
    requires a + p == b + p
    ensures a == b
  {
    assert a == (a + p) - p && b == (b + p) - p;
  }

  /** All the parts there are: in the handles, or taken out of them. */
  function Parts(s: State): multiset<Part> { InCells(s.cells) + multiset(s.left) }

  lemma {:induction false} LockingMovesNothing(s: State, c: nat, l: Option<nat>)
    ensures Parts(Locked(s, c, l)) == Parts(s)
  {
    hide InCells;
    if c < |s.cells| {
      var x := s.cells[c].(lock := l);
      InCellsUpdate(s.cells, c, x);
      OneLess(InCells(s.cells[c := x]), InCells(s.cells), One(x.part));
    }
  }

  lemma {:induction false} EmptyingMovesOne(s: State, c: nat)
    ensures Parts(Emptied(s, c)) == Parts(s)
  {
    hide InCells;
    if c < |s.cells| && s.cells[c].part.Some? {
      var p := s.cells[c].part.value;
      InCellsUpdate(s.cells, c, s.cells[c].(part := None));
      var t := InCells(s.cells[c := s.cells[c].(part := None)]);
      assert t + multiset{p} == InCells(s.cells);
      assert multiset(s.left + [p]) == multiset(s.left) + multiset{p};
      assert t + (multiset(s.left) + multiset{p}) == (t + multiset{p}) + multiset(s.left);
    }
  }

  /** No event makes a part or loses one. */
  lemma {:induction false} PartsAreKept(s: State, e: Event)
    requires Can(s, e)
    ensures Parts(Step(s, e)) == Parts(s)
  {
    hide InCells, Parts;
    match e
    case TakeNow(c) => EmptyingMovesOne(s, c);
    case HoldBegins(c) => LockingMovesNothing(s, c, Some(|s.ops|)); OpsAside(Locked(s, c, Some(|s.ops|)), s.ops + [Holds(c)]);
    case PairBegins(c, d) =>
      LockingMovesNothing(s, c, Some(|s.ops|));
      OpsAside(Locked(s, c, Some(|s.ops|)), s.ops + [PairSend(c, d)]);
    case HoldEnds(k) => Released(s, s.ops[k].c, k);
    case PairIsBusy(k) => Released(s, s.ops[k].s, k);
    case PairLocksRecv(k) =>
      var c, d := s.ops[k].s, s.ops[k].r;
      LockingMovesNothing(s, d, Some(k));
      OpsAside(Locked(s, d, Some(k)), s.ops[k := PairBoth(c, d)]);
      Released(s, c, k);
    case PairTakesSend(k) =>
      var c := s.ops[k].s;
      EmptyingMovesOne(s, c);
      if c < |s.cells| && s.cells[c].part.Some? {
        OpsAside(Emptied(s, c), s.ops[k := PairHalf(c, s.ops[k].r, s.cells[c].part.value)]);
      }
    case PairTakesRecv(k) =>
      var c, d := s.ops[k].s, s.ops[k].r;
      EmptyingMovesOne(s, d);
      LockingMovesNothing(Emptied(s, d), c, None);
      LockingMovesNothing(Locked(Emptied(s, d), c, None), d, None);
      if d < |s.cells| && s.cells[d].part.Some? {
        OpsAside(Locked(Locked(Emptied(s, d), c, None), d, None),
                 s.ops[k := Ended([s.ops[k].got, s.cells[d].part.value])]);
      }
  }

  lemma OpsAside(s: State, ops: seq<Op>)
    ensures Parts(s.(ops := ops)) == Parts(s)
  {
  }

  lemma {:induction false} Released(s: State, c: nat, k: nat)
    requires k < |s.ops|
    ensures Parts(Now(Locked(s, c, None), k, Ended([]))) == Parts(s)
  {
    LockingMovesNothing(s, c, None);
    OpsAside(Locked(s, c, None), s.ops[k := Ended([])]);
  }

  /** So in every run each part is in its handle or was taken out of it, and no other
      part appears. */
  lemma {:induction false} NothingIsLost(s: State, es: seq<Event>)
    requires Initial(s) && Legal(Process, s, es)
    ensures InCells(After(Process, s, es).cells) + multiset(After(Process, s, es).left) == InCells(s.cells)
  {
    var inv := (t: State) => Parts(t) == Parts(s);
    forall t, e | inv(t) && Can(t, e) ensures inv(Step(t, e)) { PartsAreKept(t, e); }
    Kept(Process, inv, s, es);
    assert multiset(s.left) == multiset{};
  }

  // ---- an operation that nothing interrupts ----------------------------------

  predicate Stands(s: State, k: nat, op: Op) { k < |s.ops| && s.ops[k] == op }

  /** `take_now` of a free handle takes its part out. */
  lemma {:induction false} TakeNowAlone(s: State, c: nat)
    requires Can(s, TakeNow(c))
    ensures var t := Step(s, TakeNow(c));
            && t.cells == s.cells[c := Cell(None, None)]
            && t.left == s.left + [s.cells[c].part.value] && t.ops == s.ops
  {
  }

  /** An operation has its handle's lock while it lasts, and leaves it as it was. */
  lemma {:induction false} HoldAlone(s: State, c: nat)
    requires Can(s, HoldBegins(c))
    ensures var k := |s.ops|;
            var u := Step(s, HoldBegins(c));
            && u.cells[c].lock == Some(k) && Stands(u, k, Holds(c)) && !IsFree(u, c) && Can(u, HoldEnds(k))
            && Step(u, HoldEnds(k)) == s.(ops := s.ops + [Ended([])])
  {
    var k := |s.ops|;
    var t := Step(Step(s, HoldBegins(c)), HoldEnds(k));
    assert t.cells == s.cells && t.ops == s.ops + [Ended([])];
  }

  /** `pair` that finds the receiver busy, or two parts that do not fit, leaves both
      handles as they were. */
  lemma {:induction false} PairAloneRefused(s: State, c: nat, d: nat)
    requires Can(s, PairBegins(c, d))
    ensures var k := |s.ops|;
            var u := Step(s, PairBegins(c, d));
            && Stands(u, k, PairSend(c, d)) && u.cells[c].lock == Some(k)
            && (!IsFree(s, d) ==> Can(u, PairIsBusy(k)) && Step(u, PairIsBusy(k)) == s.(ops := s.ops + [Ended([])]))
            && (IsFree(s, d) && !Fit(s.cells[c].part, s.cells[d].part) ==>
                  Can(u, PairLocksRecv(k)) && Step(u, PairLocksRecv(k)) == s.(ops := s.ops + [Ended([])]))
  {
    var k := |s.ops|;
    var u := Step(s, PairBegins(c, d));
    assert u.cells[c := u.cells[c].(lock := None)] == s.cells;
    assert u.ops[k := Ended([])] == s.ops + [Ended([])];
  }

  /** `pair` of two free handles whose parts fit takes both out, and frees the
      handles. */
  lemma {:induction false} PairAlone(s: State, c: nat, d: nat)
    requires Can(s, PairBegins(c, d)) && IsFree(s, d) && Fit(s.cells[c].part, s.cells[d].part)
    ensures var k := |s.ops|;
            var a, b := s.cells[c].part.value, s.cells[d].part.value;
            var u := Step(s, PairBegins(c, d));
            var v := Step(u, PairLocksRecv(k));
            var w := Step(v, PairTakesSend(k));
            && Can(u, PairLocksRecv(k)) && Can(v, PairTakesSend(k)) && Can(w, PairTakesRecv(k))
            && Step(w, PairTakesRecv(k)) ==
               State(s.cells[c := Cell(None, None)][d := Cell(None, None)], s.ops + [Ended([a, b])], s.left + [a, b])
  {
    var k := |s.ops|;
    var a, b := s.cells[c].part.value, s.cells[d].part.value;
    var u := Step(s, PairBegins(c, d));
    assert u.cells == s.cells[c := Cell(Some(a), Some(k))] && u.ops == s.ops + [PairSend(c, d)];
    var v := Step(u, PairLocksRecv(k));
    assert v.cells == s.cells[c := Cell(Some(a), Some(k))][d := Cell(Some(b), Some(k))];
    assert v.ops == s.ops + [PairBoth(c, d)];
    var w := Step(v, PairTakesSend(k));
    assert w.cells == s.cells[c := Cell(None, Some(k))][d := Cell(Some(b), Some(k))];
    assert w.ops == s.ops + [PairHalf(c, d, a)] && w.left == s.left + [a];
    var t := Step(w, PairTakesRecv(k));
    assert t.cells == s.cells[c := Cell(None, None)][d := Cell(None, None)];
    assert t.ops == s.ops + [Ended([a, b])] && t.left == s.left + [a, b];
  }

  // ---- the calls -----------------------------------------------------------

  datatype Error = Busy | ClosedLocally | DifferentStreams

  datatype Result<T> = Ok(value: T) | Err(error: Error)

  class Handle {
    var part: Option<Part>
    var busy: bool

    constructor (p: Part)
      ensures part == Some(p) && !busy
    {
      part, busy := Some(p), false;
    }

    /** `take_now`. */
    method TakeNow() returns (r: Result<Part>)
      modifies this`part
      ensures busy ==> r == Err(Busy) && part == old(part)
      ensures !busy && old(part).None? ==> r == Err(ClosedLocally) && part.None?
      ensures !busy && old(part).Some? ==> r == Ok(old(part).value) && part.None?
    {
      if busy {
        return Err(Busy);
      }
      if part.None? {
        return Err(ClosedLocally);
      }
      r := Ok(part.value);
      part := None;
    }
  }

  /** What `pair` answers for two handles as they are. */
  function PairResult(sb: bool, rb: bool, a: Option<Part>, b: Option<Part>): Result<(Part, Part)> {
    if sb || rb then Err(Busy)
    else if a.None? || b.None? then Err(ClosedLocally)
    else if !Fit(a, b) then Err(DifferentStreams)
    else Ok((a.value, b.value))
  }

  /** `pair`: both locks first, so that a failure takes neither part. */
  method Pair(send: Handle, recv: Handle) returns (r: Result<(Part, Part)>)
    requires send != recv
    modifies send`part, recv`part
    ensures r == PairResult(send.busy, recv.busy, old(send.part), old(recv.part))
    ensures r == Err(DifferentStreams) <==>
              && !send.busy && !recv.busy && old(send.part).Some? && old(recv.part).Some?
              && old(send.part).value.stream.Some? && old(recv.part).value.stream.Some?
              && old(send.part).value.stream != old(recv.part).value.stream
    ensures r == Err(Busy) <==> send.busy || recv.busy
    ensures r == Err(ClosedLocally) <==> !send.busy && !recv.busy && (old(send.part).None? || old(recv.part).None?)
    ensures r.Ok? ==> old(send.part) == Some(r.value.0) && old(recv.part) == Some(r.value.1)
    ensures r.Ok? ==> send.part.None? && recv.part.None?
    ensures r.Err? ==> send.part == old(send.part) && recv.part == old(recv.part)
  {
    if send.busy {
      return Err(Busy);
    }
    if recv.busy {
      return Err(Busy);
    }
    match (send.part, recv.part)
    case (Some(a), Some(b)) =>
      if a.stream.Some? && b.stream.Some? && a.stream != b.stream {
        return Err(DifferentStreams);
      }
      send.part := None;
      recv.part := None;
      r := Ok((a, b));
    case _ => r := Err(ClosedLocally);
  }

  /** `splice`, uninterrupted, takes its two streams one after the other.  All four parts leave,
      or none, exactly unless the first stream was taken and the second refused:
      then the first is used up, though the call failed.  A sender's handle is
      never a receiver's. */
  method SpliceTakes(a: (Handle, Handle), b: (Handle, Handle), chunk: nat) returns (ok: bool)
    requires a.0 != a.1 && b.0 != b.1 && a.0 != b.1 && a.1 != b.0
    modifies a.0`part, a.1`part, b.0`part, b.1`part
    ensures var valid := chunk > 0 && a.0 != b.0 && a.1 != b.1;
            var ra := PairResult(a.0.busy, a.1.busy, old(a.0.part), old(a.1.part));
            var rb := PairResult(b.0.busy, b.1.busy, old(b.0.part), old(b.1.part));
            && ok == (valid && ra.Ok? && rb.Ok?)
            && (ok ==> a.0.part.None? && a.1.part.None? && b.0.part.None? && b.1.part.None?)
            && (!ok && valid && ra.Ok? ==> a.0.part.None? && a.1.part.None?)
            && (!ok && valid && ra.Ok? ==> b.0.part == old(b.0.part) && b.1.part == old(b.1.part))
            && (!ok && !(valid && ra.Ok?) ==> unchanged(a.0, a.1, b.0, b.1))
  {
    if chunk == 0 {
      return false;
    }
    if a.0 == b.0 || a.1 == b.1 {
      return false;
    }
    var ra := Pair(a.0, a.1);
    if ra.Err? {
      return false;
    }
    var rb := Pair(b.0, b.1);
    ok := rb.Ok?;
  }

  /** That case: the second stream's receiver was taken before, the call fails, and
      the first stream is used up. */
  method SpliceUsesUpTheFirst(p: Part, q: Part, x: Part, y: Part) returns (a: (Handle, Handle), b: (Handle, Handle), ok: bool)
    requires Fit(Some(p), Some(q))
    ensures !ok && fresh(a.0) && fresh(a.1) && fresh(b.0) && fresh(b.1)
    ensures a.0.part.None? && a.1.part.None? && b.0.part == Some(x)
  {
    var a0 := new Handle(p);
    var a1 := new Handle(q);
    var b0 := new Handle(x);
    var b1 := new Handle(y);
    a, b := (a0, a1), (b0, b1);
    var _ := b.1.TakeNow();
    ok := SpliceTakes(a, b, 65536);
  }
}
