/** Runs of a machine: an event may happen in some states and takes the machine
    to one next state, and a run is a sequence of events each of which may
    happen where it does.  Every protocol of the binding is such a machine; an
    interleaving is a run. */
module Runs {

  datatype Machine<!S, !E> = Machine(can: (S, E) -> bool, step: (S, E) -> S)

  ghost predicate Legal<S, E>(m: Machine<S, E>, s: S, es: seq<E>)
    decreases |es|
  {
    es == [] || (m.can(s, es[0]) && Legal(m, m.step(s, es[0]), es[1..]))
  }

  ghost function After<S, E>(m: Machine<S, E>, s: S, es: seq<E>): S
    decreases |es|
  {
    if es == [] then s else After(m, m.step(s, es[0]), es[1..])
  }

  /** Every event keeps `inv`. */
  ghost predicate Inductive<S(!new), E(!new)>(m: Machine<S, E>, inv: S -> bool) {
    forall s, e :: inv(s) && m.can(s, e) ==> inv(m.step(s, e))
  }

  /** What every event keeps, every run keeps. */
  lemma {:induction false} Kept<S(!new), E(!new)>(m: Machine<S, E>, inv: S -> bool, s: S, es: seq<E>)
    requires Inductive(m, inv) && inv(s) && Legal(m, s, es)
    ensures inv(After(m, s, es))
    decreases |es|
  {
    if es != [] { Kept(m, inv, m.step(s, es[0]), es[1..]); }
  }

  /** The number of events of a run that `work` picks out. */
  ghost function Count<E>(work: E -> bool, es: seq<E>): nat
    decreases |es|
  {
    if es == [] then 0 else (if work(es[0]) then 1 else 0) + Count(work, es[1..])
  }

  /** The sum of `price` over a run. */
  ghost function Total<E>(price: E -> nat, es: seq<E>): nat
    decreases |es|
  {
    if es == [] then 0 else price(es[0]) + Total(price, es[1..])
  }

  /** Every event of `work` lowers `cost`; any other raises it by its price at
      most. */
  ghost predicate Spends<S(!new), E(!new)>(m: Machine<S, E>, inv: S -> bool, cost: S -> nat,
                                           work: E -> bool, price: E -> nat) {
    forall s, e :: inv(s) && m.can(s, e) ==>
      cost(m.step(s, e)) + (if work(e) then 1 else 0) <= cost(s) + price(e)
  }

  /** A run has no more work events than its first state and its prices pay for. */
  lemma {:induction false} Budget<S(!new), E(!new)>(m: Machine<S, E>, inv: S -> bool, cost: S -> nat,
                                                    work: E -> bool, price: E -> nat, s: S, es: seq<E>)
    requires Inductive(m, inv) && Spends(m, inv, cost, work, price)
    requires inv(s) && Legal(m, s, es)
    ensures Count(work, es) + cost(After(m, s, es)) <= cost(s) + Total(price, es)
    decreases |es|
  {
    if es != [] { Budget(m, inv, cost, work, price, m.step(s, es[0]), es[1..]); }
  }

  /** Every event of `work` adds to `gain`, and none takes from it. */
  ghost predicate Earns<S(!new), E(!new)>(m: Machine<S, E>, gain: S -> nat, work: E -> bool) {
    forall s, e :: m.can(s, e) ==> gain(s) + (if work(e) then 1 else 0) <= gain(m.step(s, e))
  }

  /** A run has no more work events than it gained. */
  lemma {:induction false} Gained<S(!new), E(!new)>(m: Machine<S, E>, gain: S -> nat, work: E -> bool,
                                                    s: S, es: seq<E>)
    requires Earns(m, gain, work) && Legal(m, s, es)
    ensures Count(work, es) + gain(s) <= gain(After(m, s, es))
    decreases |es|
  {
    if es != [] { Gained(m, gain, work, m.step(s, es[0]), es[1..]); }
  }

  /** A state tells whether an event of `work` has happened. */
  ghost predicate Remembers<S(!new), E(!new)>(m: Machine<S, E>, inv: S -> bool, mark: S -> bool, work: (S, E) -> bool) {
    forall s, e :: inv(s) && m.can(s, e) ==> (mark(m.step(s, e)) <==> mark(s) || work(s, e))
  }

  /** Some event of a run is of `work`, where it happens. */
  ghost predicate Any<S, E>(m: Machine<S, E>, work: (S, E) -> bool, s: S, es: seq<E>)
    decreases |es|
  {
    es != [] && (work(s, es[0]) || Any(m, work, m.step(s, es[0]), es[1..]))
  }

  lemma {:induction false} Remembered<S(!new), E(!new)>(m: Machine<S, E>, inv: S -> bool, mark: S -> bool,
                                                        work: (S, E) -> bool, s: S, es: seq<E>)
    requires Inductive(m, inv) && Remembers(m, inv, mark, work)
    requires inv(s) && Legal(m, s, es)
    ensures mark(After(m, s, es)) <==> mark(s) || Any(m, work, s, es)
    decreases |es|
  {
    if es != [] { Remembered(m, inv, mark, work, m.step(s, es[0]), es[1..]); }
  }

  /** A run has an event of a kind. */
  ghost predicate Has<E>(kind: E -> bool, es: seq<E>)
    decreases |es|
  {
    es != [] && (kind(es[0]) || Has(kind, es[1..]))
  }

  lemma {:induction false} HasOne<E>(kind: E -> bool, es: seq<E>, e: E)
    requires forall x :: kind(x) <==> x == e
    ensures Has(kind, es) <==> e in es
    decreases |es|
  {
    if es != [] {
      HasOne(kind, es[1..], e);
      assert es == [es[0]] + es[1..];
    }
  }

  /** A state tells whether an event of the kind has happened. */
  lemma {:induction false} Tells<S(!new), E(!new)>(m: Machine<S, E>, inv: S -> bool, mark: S -> bool,
                                                   kind: E -> bool, s: S, es: seq<E>)
    requires Inductive(m, inv) && inv(s) && Legal(m, s, es)
    requires forall s, e :: inv(s) && m.can(s, e) ==> (mark(m.step(s, e)) <==> mark(s) || kind(e))
    ensures mark(After(m, s, es)) <==> mark(s) || Has(kind, es)
    decreases |es|
  {
    if es != [] { Tells(m, inv, mark, kind, m.step(s, es[0]), es[1..]); }
  }

  /** What an event of the kind brings about, and nothing undoes, lasts. */
  lemma {:induction false} Lasts<S(!new), E(!new)>(m: Machine<S, E>, inv: S -> bool, mark: S -> bool,
                                                   kind: E -> bool, s: S, es: seq<E>)
    requires Inductive(m, inv) && inv(s) && Legal(m, s, es)
    requires forall s, e :: inv(s) && m.can(s, e) && (mark(s) || kind(e)) ==> mark(m.step(s, e))
    ensures mark(s) || Has(kind, es) ==> mark(After(m, s, es))
    decreases |es|
  {
    if es != [] { Lasts(m, inv, mark, kind, m.step(s, es[0]), es[1..]); }
  }

  lemma {:induction false} Joined<S, E>(m: Machine<S, E>, s: S, es: seq<E>, fs: seq<E>)
    requires Legal(m, s, es)
    ensures Legal(m, s, es + fs) <==> Legal(m, After(m, s, es), fs)
    ensures After(m, s, es + fs) == After(m, After(m, s, es), fs)
    decreases |es|
  {
    if es == [] {
      assert es + fs == fs;
    } else {
      Joined(m, m.step(s, es[0]), es[1..], fs);
      assert (es + fs)[1..] == es[1..] + fs;
    }
  }

  /** A run goes on with an event that may happen where it got to. */
  lemma {:induction false} Goes<S, E>(m: Machine<S, E>, s: S, es: seq<E>, e: E)
    requires Legal(m, s, es) && m.can(After(m, s, es), e)
    ensures Legal(m, s, es + [e])
    ensures After(m, s, es + [e]) == m.step(After(m, s, es), e)
  {
    Joined(m, s, es, [e]);
    var t := After(m, s, es);
    assert Legal(m, m.step(t, e), []) && After(m, m.step(t, e), []) == m.step(t, e);
    assert [e][1..] == [];
  }
}
