/** Machines that make one call at a time, and the histories of answered calls they produce. */
module Histories {
  import opened Wrappers

  datatype Event<C, A> = Event(call: C, answer: A)

  /** `next` is the call that is due, `observe` what its answer leads to. */
  datatype Machine<!S, !C, !A> = Machine(
    start: S, next: S -> Option<C>, fits: (C, A) -> bool, observe: (S, A) -> S)

  /** The state reached after a history. */
  function Replay<S, C, A>(m: Machine<S, C, A>, d: seq<Event<C, A>>): S {
    if d == [] then m.start else m.observe(Replay(m, d[..|d| - 1]), d[|d| - 1].answer)
  }

  /** The call at position `k` was due when it was made, and its answer is of the right kind. */
  ghost predicate Fitting<S, C, A>(m: Machine<S, C, A>, d: seq<Event<C, A>>, k: nat)
    requires k < |d|
  {
    m.next(Replay(m, d[..k])) == Some(d[k].call) && m.fits(d[k].call, d[k].answer)
  }

  ghost predicate Legal<S, C, A>(m: Machine<S, C, A>, d: seq<Event<C, A>>) {
    forall k: nat :: k < |d| ==> Fitting(m, d, k)
  }

  /** A history that ran to the end. */
  ghost predicate Complete<S, C, A>(m: Machine<S, C, A>, d: seq<Event<C, A>>) {
    Legal(m, d) && m.next(Replay(m, d)).None?
  }

  lemma LegalPrefix<S, C, A>(m: Machine<S, C, A>, d: seq<Event<C, A>>, k: nat)
    requires Legal(m, d) && k <= |d|
    ensures Legal(m, d[..k])
  {
    forall j: nat | j < k ensures Fitting(m, d[..k], j) {
      assert Fitting(m, d, j) && d[..k][..j] == d[..j];
    }
  }

  /** One step of a history. */
  lemma Step<S, C, A>(m: Machine<S, C, A>, d: seq<Event<C, A>>, i: nat)
    requires Legal(m, d) && i < |d|
    ensures Legal(m, d[..i])
    ensures m.next(Replay(m, d[..i])) == Some(d[i].call) && m.fits(d[i].call, d[i].answer)
    ensures Replay(m, d[..i + 1]) == m.observe(Replay(m, d[..i]), d[i].answer)
  {
    LegalPrefix(m, d, i);
    assert Fitting(m, d, i) && d[..i + 1][..i] == d[..i];
  }

  /** Appending the due call keeps a history legal. */
  lemma Extend<S, C, A>(m: Machine<S, C, A>, d: seq<Event<C, A>>, e: Event<C, A>)
    requires Legal(m, d) && m.next(Replay(m, d)) == Some(e.call) && m.fits(e.call, e.answer)
    ensures Legal(m, d + [e]) && Replay(m, d + [e]) == m.observe(Replay(m, d), e.answer)
  {
    var longer := d + [e];
    assert longer[..|d|] == d;
    forall j: nat | j < |longer| ensures Fitting(m, longer, j) {
      if j < |d| {
        assert Fitting(m, d, j) && longer[..j] == d[..j];
      }
    }
  }

  /** The last step of a history. */
  lemma Last<S, C, A>(m: Machine<S, C, A>, d: seq<Event<C, A>>)
    requires Legal(m, d) && d != []
    ensures var before, last := d[..|d| - 1], d[|d| - 1];
            && Legal(m, before) && m.next(Replay(m, before)) == Some(last.call) && m.fits(last.call, last.answer)
            && Replay(m, d) == m.observe(Replay(m, before), last.answer)
  {
    Step(m, d, |d| - 1);
    assert d[..|d|] == d;
  }

  /** A property of history and state that every step keeps holds after every legal history. */
  lemma {:induction false} Invariant<S(!new), C(!new), A(!new)>(
    m: Machine<S, C, A>, d: seq<Event<C, A>>, inv: (seq<Event<C, A>>, S) -> bool)
    requires Legal(m, d)
    requires inv([], m.start)
    requires forall h, st, e: Event<C, A> :: inv(h, st) && m.next(st) == Some(e.call) && m.fits(e.call, e.answer)
                                ==> inv(h + [e], m.observe(st, e.answer))
    ensures inv(d, Replay(m, d))
  {
    if d != [] {
      Last(m, d);
      Invariant(m, d[..|d| - 1], inv);
      assert d == d[..|d| - 1] + [d[|d| - 1]];
    }
  }

  /** A transitive relation between neighbouring states relates any earlier state to any later one. */
  lemma {:induction false} Along<S(!new), C(!new), A(!new)>(
    m: Machine<S, C, A>, d: seq<Event<C, A>>, i: nat, j: nat, rel: (S, S) -> bool)
    requires Legal(m, d) && i < j <= |d|
    requires forall x, y, z :: rel(x, y) && rel(y, z) ==> rel(x, z)
    requires forall k :: 0 <= k < |d| ==> rel(Replay(m, d[..k]), Replay(m, d[..k + 1]))
    ensures rel(Replay(m, d[..i]), Replay(m, d[..j]))
    decreases j
  {
    assert rel(Replay(m, d[..j - 1]), Replay(m, d[..j - 1 + 1]));
    if i < j - 1 {
      Along(m, d, i, j - 1, rel);
    }
  }

}
