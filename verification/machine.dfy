/**
  The two machines the translator deals with: the two-track source machine it
  reads, and the one-track transition table it writes.
 */
module Machines {

  type State = string
  type Letter = string

  /** Head moves, shared by the source and the result machine. */
  datatype Move = Left | Right | Stay

  /** The value of a source transition: target state, the two letters written on
      the top and bottom track, and the two head moves (`TransitionTarget`). */
  datatype TransitionTarget = TransitionTarget(
    target: State, top: Letter, bottom: Letter, topMove: Move, bottomMove: Move)

  /** The two-track source machine, as far as the translator reads it. */
  datatype TwoTrackMachine = TwoTrackMachine(
    states: seq<State>,
    working: seq<Letter>,       // Γ, including the blank
    input: seq<Letter>,         // the input alphabet
    blank: Letter,
    initial: State,
    accepting: State,
    rejecting: State,
    delta: map<(State, Letter, Letter), TransitionTarget>)

  predicate NoDup<T(==)>(s: seq<T>)
  {
    forall i, j | 0 <= i < j < |s| :: s[i] != s[j]
  }

  /** What the translator takes for granted about its input machine. */
  predicate WellFormed(m: TwoTrackMachine)
  {
    && NoDup(m.states) && NoDup(m.working) && NoDup(m.input)
    && m.blank in m.working && m.blank !in m.input
    && (forall l | l in m.input :: l in m.working)
    && m.initial in m.states
    && (forall k | k in m.delta ::
          && k.0 in m.states && k.1 in m.working && k.2 in m.working
          && m.delta[k].target in m.states
          && m.delta[k].top in m.working && m.delta[k].bottom in m.working)
  }

  /** The states that get an alias: every state that is not accepting or
      rejecting, the initial state always. */
  predicate Simulated(m: TwoTrackMachine, q: State)
  {
    q == m.initial || (q != m.accepting && q != m.rejecting)
  }

  /** One entry of the result table. */
  datatype Action = Action(next: State, write: Letter, move: Move)

  /** The result transition table: (state, read symbol) -> action. */
  type Table = map<(State, Letter), Action>

  /** `new_transition_`: the key must be new; afterwards the table is the old
      table plus exactly that entry, every old entry unchanged. */
  function NewTransition(t: Table, from: State, read: Letter, next: State, write: Letter, move: Move): (t': Table)
    requires (from, read) !in t
    ensures forall k | k in t' :: k in t || k == (from, read)
    ensures Maps(t', from, read, Action(next, write, move))
    ensures Extends(t, t')
  {
    t[(from, read) := Action(next, write, move)]
  }

  /** t holds the entry (from, read) -> a. */
  predicate Maps(t: Table, from: State, read: Letter, a: Action)
  {
    (from, read) in t && t[(from, read)] == a
  }

  /** t' keeps every entry of t. */
  predicate Extends(t: Table, t': Table)
  {
    forall k | k in t :: k in t' && t'[k] == t[k]
  }

  lemma ExtendsTrans(t1: Table, t2: Table, t3: Table)
    requires Extends(t1, t2) && Extends(t2, t3)
    ensures Extends(t1, t3)
  {
  }

  /** No entry of t leaves state s. */
  predicate Untouched(t: Table, s: State)
  {
    forall k | k in t :: k.0 != s
  }

  /** Every state with an outgoing entry is a name the generator knows. */
  predicate Known(t: Table, used: set<State>)
  {
    forall k | k in t :: k.0 in used
  }

  /** `names` are distinct, none was known before and all are known after. */
  predicate FreshList(names: seq<State>, before: set<State>, after: set<State>)
  {
    && before <= after && NoDup(names)
    && (forall i | 0 <= i < |names| :: names[i] !in before && names[i] in after)
  }

  /** A state not yet in use has no entries. */
  lemma KnownUntouched(t: Table, used: set<State>, s: State)
    requires Known(t, used) && s !in used
    ensures Untouched(t, s)
  {
  }

  /** Appending a name that was not known yet keeps the list fresh. */
  lemma FreshListSnoc(names: seq<State>, before: set<State>, after: set<State>, next: State)
    requires FreshList(names, before, after) && next !in after
    ensures FreshList(names + [next], before, after + {next})
  {
  }

  /** One entry to be emitted from a fixed state: the symbol read and the action. */
  datatype Entry = Entry(read: Letter, act: Action)

  /** The symbols read by a list of entries. */
  function Reads(es: seq<Entry>): set<Letter>
  {
    set e | e in es :: e.read
  }

  /** No two entries of the list read the same symbol. */
  predicate DistinctReads(es: seq<Entry>)
  {
    forall i, j | 0 <= i < j < |es| :: es[i].read != es[j].read
  }

  /** No entry of a reads what an entry of b reads. */
  predicate ReadsApart(a: seq<Entry>, b: seq<Entry>)
  {
    forall i, j | 0 <= i < |a| && 0 <= j < |b| :: a[i].read != b[j].read
  }

  /** A run of `new_transition_` calls from one state, in list order: each key
      must be new, so the list reads distinct symbols none of which `from`
      already reads.  Afterwards `from` reads exactly the listed symbols more. */
  method Emit(t: Table, from: State, es: seq<Entry>) returns (t': Table)
    requires DistinctReads(es)
    requires forall e | e in es :: (from, e.read) !in t
    ensures forall k | k in t' :: k in t || (k.0 == from && k.1 in Reads(es))
    ensures Extends(t, t')
    ensures forall e | e in es :: Maps(t', from, e.read, e.act)
  {
    t' := t;
    var i := 0;
    while i < |es|
      invariant 0 <= i <= |es|
      invariant forall k | k in t' :: k in t || (k.0 == from && exists j | 0 <= j < i :: k.1 == es[j].read)
      invariant Extends(t, t')
      invariant forall j | 0 <= j < i :: Maps(t', from, es[j].read, es[j].act)
    {
      t' := NewTransition(t', from, es[i].read, es[i].act.next, es[i].act.write, es[i].act.move);
      i := i + 1;
    }
  }

  /** The entries f(x) for every x of xs, in order: a loop of the source whose
      body emits a fixed handful of entries per item. */
  function FlatMap<X>(xs: seq<X>, f: X -> seq<Entry>): (r: seq<Entry>)
    ensures forall x, e | x in xs && e in f(x) :: e in r
    ensures forall e | e in r :: exists x | x in xs :: e in f(x)
    decreases |xs|
  {
    if |xs| == 0 then []
    else
      var rest := FlatMap(xs[1..], f);
      assert forall x | x in xs :: x == xs[0] || x in xs[1..];
      f(xs[0]) + rest
  }

  /** Once every entry of the list is in the table, so is every entry of each
      item. */
  lemma FlatMapMaps<X>(t: Table, from: State, xs: seq<X>, f: X -> seq<Entry>, x: X)
    requires (forall e | e in FlatMap(xs, f) :: Maps(t, from, e.read, e.act)) && x in xs
    ensures forall e | e in f(x) :: Maps(t, from, e.read, e.act)
  {
  }

  /** Items with distinct reads each, and pairwise disjoint reads, give a list
      with distinct reads. */
  lemma {:induction false} FlatMapDistinct<X>(xs: seq<X>, f: X -> seq<Entry>)
    requires NoDup(xs)
    requires forall x | x in xs :: DistinctReads(f(x))
    requires forall x, y | x in xs && y in xs && x != y :: ReadsApart(f(x), f(y))
    ensures DistinctReads(FlatMap(xs, f))
    decreases |xs|
  {
    if |xs| > 0 {
      var head: seq<Entry>, rest: seq<Entry> := f(xs[0]), FlatMap(xs[1..], f);
      FlatMapDistinct(xs[1..], f);
      assert FlatMap(xs, f) == head + rest;
      forall i, j | 0 <= i < j < |head + rest|
        ensures (head + rest)[i].read != (head + rest)[j].read
      {
        if j < |head| {
        } else if i < |head| {
          var e := rest[j - |head|];
          assert e in rest;
          var y :| y in xs[1..] && e in f(y);
          assert xs[0] !in xs[1..];
          assert ReadsApart(head, f(y));
          var k :| 0 <= k < |f(y)| && f(y)[k] == e;
        }
      }
    }
  }

  /** Lists built item by item read apart when every pair of items does. */
  lemma FlatMapApart<X, Y>(xs: seq<X>, f: X -> seq<Entry>, ys: seq<Y>, g: Y -> seq<Entry>)
    requires forall x, y | x in xs && y in ys :: ReadsApart(f(x), g(y))
    ensures ReadsApart(FlatMap(xs, f), FlatMap(ys, g))
  {
    var a, b := FlatMap(xs, f), FlatMap(ys, g);
    forall i, j | 0 <= i < |a| && 0 <= j < |b|
      ensures a[i].read != b[j].read
    {
      assert a[i] in a && b[j] in b;
      var x :| x in xs && a[i] in f(x);
      var y :| y in ys && b[j] in g(y);
      var i', j' :| 0 <= i' < |f(x)| && f(x)[i'] == a[i] && 0 <= j' < |g(y)| && g(y)[j'] == b[j];
      assert ReadsApart(f(x), g(y));
    }
  }

  /** Two lists with distinct reads and no common read concatenate into one. */
  lemma DistinctAppend(a: seq<Entry>, b: seq<Entry>)
    requires DistinctReads(a) && DistinctReads(b) && ReadsApart(a, b)
    ensures DistinctReads(a + b)
  {
    forall i, j | 0 <= i < j < |a + b|
      ensures (a + b)[i].read != (a + b)[j].read
    {
      if i < |a| <= j {
        assert (a + b)[j] == b[j - |a|];
      }
    }
  }
}
