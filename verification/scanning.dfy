/**
  The scanning phase, `program_scanning_for_letters_` (translator.cpp:115-193).
  From its scanning entry a simulated state q sweeps right over the encoded
  word.  The first marker it meets sends it to a state that remembers the
  letter under that head (`<q>-T-<a>` or `<q>-B-<b>`), and the second marker
  sends it to the state `<q>-<a>-<b>` that stands for q reading a and b.

  The source emits, per pair, seven entries from three different states.  The
  model emits the same entries grouped by the state they leave: first the
  scanning entry's, then each top-found state's, then each bottom-found
  state's.  No key repeats, so the resulting table is the same; the state
  names are the same too, as the source generates all names of one state
  (found states first, then one simulated state per pair in `letters_map_`
  order) before it emits anything that depends on them.
 */
module Scanning {
  import opened Machines
  import opened Encodings
  import opened SymbolSets
  import opened Context
  import opened Alphabet

  /** `FoundLetterEncodig`: the states that remember a letter seen under the
      top head and under the bottom head. */
  datatype FoundLetter = FoundLetter(topFound: State, bottomFound: State)

  /** The source's `found_letter_encoding`, keyed by (source state, letter). */
  type FoundMap = map<(State, Letter), FoundLetter>

  /** The simulated-state aliases of one source state, by letter pair. */
  type SimMap = map<(Letter, Letter), State>

  /** The source's `simulated_states_aliases_`, in push order. */
  type SimList = seq<(SimulatedState, State)>

  function TopFound(found: FoundMap, q: State, a: Letter): State
  {
    if (q, a) in found then found[(q, a)].topFound else ""
  }

  function BottomFound(found: FoundMap, q: State, b: Letter): State
  {
    if (q, b) in found then found[(q, b)].bottomFound else ""
  }

  function SimOf(sims: SimMap, p: (Letter, Letter)): State
  {
    if p in sims then sims[p] else ""
  }

  /** The found states of q that the first j letters of Γ got: fresh with
      respect to `before`, known in `after`, and pairwise distinct. */
  ghost predicate FoundUpTo(c: Ctx, found: FoundMap, q: State, before: set<State>, after: set<State>, n: nat)
    requires n <= |c.m.working|
  {
    && (forall j | 0 <= j < n ::
          && (q, c.m.working[j]) in found
          && TopFound(found, q, c.m.working[j]) !in before && TopFound(found, q, c.m.working[j]) in after
          && BottomFound(found, q, c.m.working[j]) !in before && BottomFound(found, q, c.m.working[j]) in after)
    && (forall i, j | 0 <= i < n && 0 <= j < n :: TopFound(found, q, c.m.working[i]) != BottomFound(found, q, c.m.working[j]))
    && (forall i, j | 0 <= i < n && 0 <= j < n && i != j :: TopFound(found, q, c.m.working[i]) != TopFound(found, q, c.m.working[j]))
    && (forall i, j | 0 <= i < n && 0 <= j < n && i != j :: BottomFound(found, q, c.m.working[i]) != BottomFound(found, q, c.m.working[j]))
  }

  /** All found states of q: for every letter of Γ two new names, no two alike. */
  ghost predicate FoundFresh(c: Ctx, found: FoundMap, q: State, before: set<State>, after: set<State>)
  {
    && (forall a | a in c.m.working ::
          && TopFound(found, q, a) !in before && TopFound(found, q, a) in after
          && BottomFound(found, q, a) !in before && BottomFound(found, q, a) in after)
    && (forall a, b | a in c.m.working && b in c.m.working :: TopFound(found, q, a) != BottomFound(found, q, b))
    && (forall a, b | a in c.m.working && b in c.m.working && a != b :: TopFound(found, q, a) != TopFound(found, q, b))
    && (forall a, b | a in c.m.working && b in c.m.working && a != b :: BottomFound(found, q, a) != BottomFound(found, q, b))
  }

  lemma FoundUpToAll(c: Ctx, found: FoundMap, q: State, before: set<State>, after: set<State>)
    requires NoDup(c.m.working) && FoundUpTo(c, found, q, before, after, |c.m.working|)
    ensures FoundFresh(c, found, q, before, after)
  {
    forall a, b | a in c.m.working && b in c.m.working
      ensures TopFound(found, q, a) != BottomFound(found, q, b)
      ensures a != b ==> TopFound(found, q, a) != TopFound(found, q, b) && BottomFound(found, q, a) != BottomFound(found, q, b)
    {
      var i :| 0 <= i < |c.m.working| && c.m.working[i] == a;
      var j :| 0 <= j < |c.m.working| && c.m.working[j] == b;
    }
  }

  /** translator.cpp:122-130: two fresh states per letter of Γ, named
      `<q>-T-<letter>` and `<q>-B-<letter>`; the entries of other states stay. */
  method CreateFound(c: Ctx, found: FoundMap, q: State, states: SymbolSet) returns (found': FoundMap, states': SymbolSet)
    requires NoDup(c.m.working)
    ensures forall k | k in found && k.0 != q :: k in found' && found'[k] == found[k]
    ensures forall k | k in found' && k.0 != q :: k in found
    ensures FoundFresh(c, found', q, states.used, states'.used)
    ensures states.used <= states'.used
  {
    found', states' := found, states;
    var i := 0;
    while i < |c.m.working|
      invariant 0 <= i <= |c.m.working|
      invariant forall k | k in found && k.0 != q :: k in found' && found'[k] == found[k]
      invariant forall k | k in found' && k.0 != q :: k in found
      invariant states.used <= states'.used
      invariant FoundUpTo(c, found', q, states.used, states'.used, i)
    {
      var l := c.m.working[i];
      var top, bottom;
      top, states' := Fresh(states', q + "-T-" + l);
      bottom, states' := Fresh(states', q + "-B-" + l);
      found' := found'[(q, l) := FoundLetter(top, bottom)];
      i := i + 1;
    }
    FoundUpToAll(c, found', q, states.used, states'.used);
  }

  /** The simulated states of q: one per encoded pair, fresh with respect to
      `before`, known in `after`, and pairwise distinct. */
  ghost predicate SimsFresh(c: Ctx, sims: SimMap, before: set<State>, after: set<State>)
  {
    && (forall p | p in c.lm :: SimOf(sims, p) !in before && SimOf(sims, p) in after)
    && (forall p, p' | p in c.lm && p' in c.lm && p != p' :: SimOf(sims, p) != SimOf(sims, p'))
  }

  /** The list grew by one entry per pair of `letters_map_`, in its order, each
      naming q, the pair, and the pair's simulated state. */
  ghost predicate Pushed(c: Ctx, simulated: SimList, simulated': SimList, q: State, sims: SimMap)
  {
    && |simulated'| == |simulated| + |c.pairs| && simulated'[..|simulated|] == simulated
    && (forall i | 0 <= i < |c.pairs| ::
          simulated'[|simulated| + i] == (SimulatedState(q, c.pairs[i].0, c.pairs[i].1), SimOf(sims, c.pairs[i])))
  }

  /** The `found_both_letters` names of translator.cpp:160-170: one fresh state
      `<q>-<a>-<b>` per pair (a, b), pushed with its simulated state. */
  method CreateSims(c: Ctx, q: State, states: SymbolSet, simulated: SimList)
    returns (sims: SimMap, states': SymbolSet, simulated': SimList)
    requires Shape(c)
    ensures SimsFresh(c, sims, states.used, states'.used) && states.used <= states'.used
    ensures Pushed(c, simulated, simulated', q, sims)
  {
    sims, states', simulated' := map[], states, simulated;
    var i := 0;
    while i < |c.pairs|
      invariant 0 <= i <= |c.pairs| && states.used <= states'.used
      invariant forall p | p in sims :: p in c.pairs[..i]
      invariant forall j | 0 <= j < i :: c.pairs[j] in sims
      invariant forall p | p in sims :: sims[p] !in states.used && sims[p] in states'.used
      invariant forall p, p' | p in sims && p' in sims && p != p' :: sims[p] != sims[p']
      invariant |simulated'| == |simulated| + i && simulated'[..|simulated|] == simulated
      invariant forall j | 0 <= j < i ::
        simulated'[|simulated| + j] == (SimulatedState(q, c.pairs[j].0, c.pairs[j].1), SimOf(sims, c.pairs[j]))
    {
      var p := c.pairs[i];
      var sim;
      sim, states' := Fresh(states', q + "-" + p.0 + "-" + p.1);
      assert p !in c.pairs[..i];
      sims := sims[p := sim];
      simulated' := simulated' + [(SimulatedState(q, p.0, p.1), sim)];
      assert c.pairs[..i + 1] == c.pairs[..i] + [p];
      i := i + 1;
    }
    forall p | p in c.lm
      ensures SimOf(sims, p) !in states.used && SimOf(sims, p) in states'.used
    {
      var j :| 0 <= j < |c.pairs| && c.pairs[j] == p;
    }
  }

  /** The four entries of the scanning entry for the pair p
      (translator.cpp:148-174): sweep right over a cell without heads; on a
      single marker remember the letter under it and go on; on both markers
      stop in the pair's simulated state. */
  function ScanEntries(c: Ctx, scan: State, q: State, found: FoundMap, sims: SimMap, p: (Letter, Letter)): seq<Entry>
  {
    [ Entry(Cell(c, p, NoMarks), Action(scan, Cell(c, p, NoMarks), Right)),
      Entry(Cell(c, p, Only(TopHead)), Action(TopFound(found, q, p.0), Cell(c, p, Only(TopHead)), Right)),
      Entry(Cell(c, p, Only(BottomHead)), Action(BottomFound(found, q, p.1), Cell(c, p, Only(BottomHead)), Right)),
      Entry(Cell(c, p, BothMarks), Action(SimOf(sims, p), Cell(c, p, BothMarks), Stay)) ]
  }

  /** The two entries of a top-found state for the pair p (translator.cpp:176-182):
      pass a cell without heads, stop in p's simulated state on the bottom
      marker. */
  function TopSweepEntries(c: Ctx, tf: State, sims: SimMap, p: (Letter, Letter)): seq<Entry>
  {
    [ Entry(Cell(c, p, NoMarks), Action(tf, Cell(c, p, NoMarks), Right)),
      Entry(Cell(c, p, Only(BottomHead)), Action(SimOf(sims, p), Cell(c, p, Only(BottomHead)), Stay)) ]
  }

  /** The two entries of a bottom-found state for the pair p
      (translator.cpp:184-190), the mirror image of TopSweepEntries. */
  function BottomSweepEntries(c: Ctx, bf: State, sims: SimMap, p: (Letter, Letter)): seq<Entry>
  {
    [ Entry(Cell(c, p, NoMarks), Action(bf, Cell(c, p, NoMarks), Right)),
      Entry(Cell(c, p, Only(TopHead)), Action(SimOf(sims, p), Cell(c, p, Only(TopHead)), Stay)) ]
  }

  /** All entries of the top-found state of letter a: those of every pair (a, b). */
  function TopSweep(c: Ctx, tf: State, sims: SimMap, a: Letter): seq<Entry>
  {
    FlatMap(c.m.working, b => TopSweepEntries(c, tf, sims, (a, b)))
  }

  /** All entries of the bottom-found state of letter b: those of every pair (a, b). */
  function BottomSweep(c: Ctx, bf: State, sims: SimMap, b: Letter): seq<Entry>
  {
    FlatMap(c.m.working, a => BottomSweepEntries(c, bf, sims, (a, b)))
  }

  lemma ScanEntriesCells(c: Ctx, scan: State, q: State, found: FoundMap, sims: SimMap, p: (Letter, Letter))
    requires Unique(c) && p in c.lm
    ensures CellsOfPair(c, ScanEntries(c, scan, q, found, sims, p), p)
  {
    assert Owner(c, Cell(c, p, NoMarks)) == (p, NoMarks);
    assert Owner(c, Cell(c, p, Only(TopHead))) == (p, Only(TopHead));
    assert Owner(c, Cell(c, p, Only(BottomHead))) == (p, Only(BottomHead));
    assert Owner(c, Cell(c, p, BothMarks)) == (p, BothMarks);
  }

  lemma SweepEntriesCells(c: Ctx, s: State, sims: SimMap, p: (Letter, Letter))
    requires Unique(c) && p in c.lm
    ensures CellsOfPair(c, TopSweepEntries(c, s, sims, p), p)
    ensures CellsOfPair(c, BottomSweepEntries(c, s, sims, p), p)
  {
    assert Owner(c, Cell(c, p, NoMarks)) == (p, NoMarks);
    assert Owner(c, Cell(c, p, Only(TopHead))) == (p, Only(TopHead));
    assert Owner(c, Cell(c, p, Only(BottomHead))) == (p, Only(BottomHead));
  }

  lemma ScanDistinct(c: Ctx, scan: State, q: State, found: FoundMap, sims: SimMap)
    requires Cells(c)
    ensures DistinctReads(FlatMap(c.pairs, p => ScanEntries(c, scan, q, found, sims, p)))
  {
    var f := p => ScanEntries(c, scan, q, found, sims, p);
    forall x, y | x in c.pairs && y in c.pairs
      ensures DistinctReads(f(x)) && (x != y ==> ReadsApart(f(x), f(y)))
    {
      ScanEntriesCells(c, scan, q, found, sims, x);
      ScanEntriesCells(c, scan, q, found, sims, y);
      CellsOfPairDistinct(c, f(x), x);
      if x != y {
        CellsOfPairsApart(c, f(x), x, f(y), y);
      }
    }
    FlatMapDistinct(c.pairs, f);
  }

  lemma TopSweepDistinct(c: Ctx, tf: State, sims: SimMap, a: Letter)
    requires Cells(c) && a in c.m.working
    ensures DistinctReads(TopSweep(c, tf, sims, a))
  {
    var f := b => TopSweepEntries(c, tf, sims, (a, b));
    forall x, y | x in c.m.working && y in c.m.working
      ensures DistinctReads(f(x)) && (x != y ==> ReadsApart(f(x), f(y)))
    {
      assert (a, x) in c.lm && (a, y) in c.lm;
      SweepEntriesCells(c, tf, sims, (a, x));
      SweepEntriesCells(c, tf, sims, (a, y));
      CellsOfPairDistinct(c, f(x), (a, x));
      if x != y {
        CellsOfPairsApart(c, f(x), (a, x), f(y), (a, y));
      }
    }
    FlatMapDistinct(c.m.working, f);
  }

  lemma BottomSweepDistinct(c: Ctx, bf: State, sims: SimMap, b: Letter)
    requires Cells(c) && b in c.m.working
    ensures DistinctReads(BottomSweep(c, bf, sims, b))
  {
    var f := a => BottomSweepEntries(c, bf, sims, (a, b));
    forall x, y | x in c.m.working && y in c.m.working
      ensures DistinctReads(f(x)) && (x != y ==> ReadsApart(f(x), f(y)))
    {
      assert (x, b) in c.lm && (y, b) in c.lm;
      SweepEntriesCells(c, bf, sims, (x, b));
      SweepEntriesCells(c, bf, sims, (y, b));
      CellsOfPairDistinct(c, f(x), (x, b));
      if x != y {
        CellsOfPairsApart(c, f(x), (x, b), f(y), (y, b));
      }
    }
    FlatMapDistinct(c.m.working, f);
  }

  /** What the scanning entry of q reads for the pair p, once emitted. */
  ghost predicate ScansPair(c: Ctx, t: Table, scan: State, q: State, found: FoundMap, sims: SimMap, p: (Letter, Letter))
  {
    && Maps(t, scan, Cell(c, p, NoMarks), Action(scan, Cell(c, p, NoMarks), Right))
    && Maps(t, scan, Cell(c, p, Only(TopHead)), Action(TopFound(found, q, p.0), Cell(c, p, Only(TopHead)), Right))
    && Maps(t, scan, Cell(c, p, Only(BottomHead)), Action(BottomFound(found, q, p.1), Cell(c, p, Only(BottomHead)), Right))
    && Maps(t, scan, Cell(c, p, BothMarks), Action(SimOf(sims, p), Cell(c, p, BothMarks), Stay))
  }

  /** What the top-found state of p's top letter reads for p. */
  ghost predicate SweepsTop(c: Ctx, t: Table, q: State, found: FoundMap, sims: SimMap, p: (Letter, Letter))
  {
    var tf := TopFound(found, q, p.0);
    && Maps(t, tf, Cell(c, p, NoMarks), Action(tf, Cell(c, p, NoMarks), Right))
    && Maps(t, tf, Cell(c, p, Only(BottomHead)), Action(SimOf(sims, p), Cell(c, p, Only(BottomHead)), Stay))
  }

  /** What the bottom-found state of p's bottom letter reads for p. */
  ghost predicate SweepsBottom(c: Ctx, t: Table, q: State, found: FoundMap, sims: SimMap, p: (Letter, Letter))
  {
    var bf := BottomFound(found, q, p.1);
    && Maps(t, bf, Cell(c, p, NoMarks), Action(bf, Cell(c, p, NoMarks), Right))
    && Maps(t, bf, Cell(c, p, Only(TopHead)), Action(SimOf(sims, p), Cell(c, p, Only(TopHead)), Stay))
  }

  /** The scanning entry's part of translator.cpp:148-174. */
  method EmitScan(c: Ctx, t: Table, scan: State, q: State, found: FoundMap, sims: SimMap) returns (t': Table)
    requires (forall p | p in c.lm :: p in c.pairs) && Untouched(t, scan)
    requires DistinctReads(FlatMap(c.pairs, p => ScanEntries(c, scan, q, found, sims, p)))
    ensures forall k | k in t' :: k in t || k.0 == scan
    ensures Extends(t, t')
    ensures forall p | p in c.lm :: ScansPair(c, t', scan, q, found, sims, p)
  {
    var f := p => ScanEntries(c, scan, q, found, sims, p);
    t' := Emit(t, scan, FlatMap(c.pairs, f));
    forall p | p in c.lm
      ensures ScansPair(c, t', scan, q, found, sims, p)
    {
      FlatMapMaps(t', scan, c.pairs, f, p);
      ScansPairOf(c, t', scan, q, found, sims, p);
    }
  }

  lemma ScansPairOf(c: Ctx, t: Table, scan: State, q: State, found: FoundMap, sims: SimMap, p: (Letter, Letter))
    requires forall e | e in ScanEntries(c, scan, q, found, sims, p) :: Maps(t, scan, e.read, e.act)
    ensures ScansPair(c, t, scan, q, found, sims, p)
  {
    var es := ScanEntries(c, scan, q, found, sims, p);
    assert es[0] in es && es[1] in es && es[2] in es && es[3] in es;
  }

  /** Every top-found state of q, for every letter, reads what translator.cpp:176-182 emits. */
  ghost predicate TopSwept(c: Ctx, t: Table, q: State, found: FoundMap, sims: SimMap, a: Letter)
  {
    forall b | b in c.m.working :: SweepsTop(c, t, q, found, sims, (a, b))
  }

  ghost predicate BottomSwept(c: Ctx, t: Table, q: State, found: FoundMap, sims: SimMap, b: Letter)
  {
    forall a | a in c.m.working :: SweepsBottom(c, t, q, found, sims, (a, b))
  }

  lemma TopSweptOf(c: Ctx, t: Table, q: State, found: FoundMap, sims: SimMap, a: Letter)
    requires forall e | e in TopSweep(c, TopFound(found, q, a), sims, a) :: Maps(t, TopFound(found, q, a), e.read, e.act)
    ensures TopSwept(c, t, q, found, sims, a)
  {
    var tf := TopFound(found, q, a);
    var f := b => TopSweepEntries(c, tf, sims, (a, b));
    forall b | b in c.m.working
      ensures SweepsTop(c, t, q, found, sims, (a, b))
    {
      FlatMapMaps(t, tf, c.m.working, f, b);
      var es := f(b);
      assert es[0] in es && es[1] in es;
    }
  }

  lemma BottomSweptOf(c: Ctx, t: Table, q: State, found: FoundMap, sims: SimMap, b: Letter)
    requires forall e | e in BottomSweep(c, BottomFound(found, q, b), sims, b) :: Maps(t, BottomFound(found, q, b), e.read, e.act)
    ensures BottomSwept(c, t, q, found, sims, b)
  {
    var bf := BottomFound(found, q, b);
    var f := a => BottomSweepEntries(c, bf, sims, (a, b));
    forall a | a in c.m.working
      ensures SweepsBottom(c, t, q, found, sims, (a, b))
    {
      FlatMapMaps(t, bf, c.m.working, f, a);
      var es := f(a);
      assert es[0] in es && es[1] in es;
    }
  }

  /** The entries of the top-found state of the letter a. */
  method EmitTopSweep(c: Ctx, t: Table, q: State, found: FoundMap, sims: SimMap, a: Letter) returns (t': Table)
    requires DistinctReads(TopSweep(c, TopFound(found, q, a), sims, a)) && Untouched(t, TopFound(found, q, a))
    ensures forall k | k in t' :: k in t || k.0 == TopFound(found, q, a)
    ensures Extends(t, t')
    ensures TopSwept(c, t', q, found, sims, a)
  {
    var tf := TopFound(found, q, a);
    t' := Emit(t, tf, TopSweep(c, tf, sims, a));
    TopSweptOf(c, t', q, found, sims, a);
  }

  /** The entries of the bottom-found state of the letter b. */
  method EmitBottomSweep(c: Ctx, t: Table, q: State, found: FoundMap, sims: SimMap, b: Letter) returns (t': Table)
    requires DistinctReads(BottomSweep(c, BottomFound(found, q, b), sims, b)) && Untouched(t, BottomFound(found, q, b))
    ensures forall k | k in t' :: k in t || k.0 == BottomFound(found, q, b)
    ensures Extends(t, t')
    ensures BottomSwept(c, t', q, found, sims, b)
  {
    var bf := BottomFound(found, q, b);
    t' := Emit(t, bf, BottomSweep(c, bf, sims, b));
    BottomSweptOf(c, t', q, found, sims, b);
  }

  lemma TopSweptKept(c: Ctx, t: Table, t': Table, q: State, found: FoundMap, sims: SimMap, a: Letter)
    requires TopSwept(c, t, q, found, sims, a) && Extends(t, t')
    ensures TopSwept(c, t', q, found, sims, a)
  {
  }

  lemma BottomSweptKept(c: Ctx, t: Table, t': Table, q: State, found: FoundMap, sims: SimMap, b: Letter)
    requires BottomSwept(c, t, q, found, sims, b) && Extends(t, t')
    ensures BottomSwept(c, t', q, found, sims, b)
  {
  }

  lemma SweepsDistinct(c: Ctx, found: FoundMap, q: State, sims: SimMap)
    requires Cells(c)
    ensures forall a | a in c.m.working :: DistinctReads(TopSweep(c, TopFound(found, q, a), sims, a))
    ensures forall b | b in c.m.working :: DistinctReads(BottomSweep(c, BottomFound(found, q, b), sims, b))
  {
    forall a | a in c.m.working
      ensures DistinctReads(TopSweep(c, TopFound(found, q, a), sims, a))
      ensures DistinctReads(BottomSweep(c, BottomFound(found, q, a), sims, a))
    {
      TopSweepDistinct(c, TopFound(found, q, a), sims, a);
      BottomSweepDistinct(c, BottomFound(found, q, a), sims, a);
    }
  }

  /** translator.cpp:176-182 over all pairs: the entries of every top-found
      state of q.  Every state with a new entry is a new name, and none is a
      bottom-found state. */
  method EmitTopSweeps(c: Ctx, t: Table, q: State, found: FoundMap, sims: SimMap, used: set<State>, after: set<State>)
    returns (t': Table)
    requires NoDup(c.m.working) && Known(t, used) && FoundFresh(c, found, q, used, after)
    requires forall a | a in c.m.working :: DistinctReads(TopSweep(c, TopFound(found, q, a), sims, a))
    ensures forall k | k in t' && k !in t :: k.0 !in used && k.0 in after
    ensures forall k, b | k in t' && k !in t && b in c.m.working :: k.0 != BottomFound(found, q, b)
    ensures Extends(t, t')
    ensures forall a | a in c.m.working :: TopSwept(c, t', q, found, sims, a)
  {
    t' := t;
    var i := 0;
    while i < |c.m.working|
      invariant TopFrame(c, t, t', q, found, used, after, i) && TopDone(c, t', q, found, sims, i)
      decreases |c.m.working| - i
    {
      t' := TopSweepNext(c, t, t', q, found, sims, used, after, i);
      i := i + 1;
    }
    TopDoneAll(c, t', q, found, sims);
  }

  /** The invariant of EmitTopSweeps' loop after i letters: entries were only
      added, each from a new name that is no bottom-found state and no
      top-found state of the letters still to come. */
  ghost predicate TopFrame(c: Ctx, t0: Table, t: Table, q: State, found: FoundMap, used: set<State>, after: set<State>, i: nat)
  {
    && i <= |c.m.working| && Extends(t0, t)
    && (forall k | k in t && k !in t0 :: k.0 !in used && k.0 in after)
    && (forall k, b | k in t && k !in t0 && b in c.m.working :: k.0 != BottomFound(found, q, b))
    && (forall k, j | k in t && k !in t0 && i <= j < |c.m.working| :: k.0 != TopFound(found, q, c.m.working[j]))
  }

  /** The top-found states of the first i letters are in place. */
  ghost predicate TopDone(c: Ctx, t: Table, q: State, found: FoundMap, sims: SimMap, i: nat)
  {
    i <= |c.m.working| && forall j | 0 <= j < i :: TopSwept(c, t, q, found, sims, c.m.working[j])
  }

  lemma TopFrameStep(c: Ctx, t0: Table, t: Table, t': Table, q: State, found: FoundMap, used: set<State>, after: set<State>, i: nat)
    requires NoDup(c.m.working) && i < |c.m.working| && FoundFresh(c, found, q, used, after)
    requires TopFrame(c, t0, t, q, found, used, after, i)
    requires Extends(t, t') && forall k | k in t' && k !in t :: k.0 == TopFound(found, q, c.m.working[i])
    ensures TopFrame(c, t0, t', q, found, used, after, i + 1)
  {
    var W := c.m.working;
    forall k, j | k in t' && k !in t && i + 1 <= j < |W|
      ensures k.0 != TopFound(found, q, W[j])
    {
      assert W[j] != W[i];
    }
  }

  lemma TopDoneStep(c: Ctx, t: Table, t': Table, q: State, found: FoundMap, sims: SimMap, i: nat)
    requires i < |c.m.working| && TopDone(c, t, q, found, sims, i) && Extends(t, t')
    requires TopSwept(c, t', q, found, sims, c.m.working[i])
    ensures TopDone(c, t', q, found, sims, i + 1)
  {
    forall j | 0 <= j < i
      ensures TopSwept(c, t', q, found, sims, c.m.working[j])
    {
      TopSweptKept(c, t, t', q, found, sims, c.m.working[j]);
    }
  }

  /** The entries of the i-th top-found state, from a state with none yet. */
  method TopSweepNext(c: Ctx, t0: Table, t: Table, q: State, found: FoundMap, sims: SimMap, used: set<State>, after: set<State>, i: nat)
    returns (t': Table)
    requires NoDup(c.m.working) && i < |c.m.working| && Known(t0, used) && FoundFresh(c, found, q, used, after)
    requires DistinctReads(TopSweep(c, TopFound(found, q, c.m.working[i]), sims, c.m.working[i]))
    requires TopFrame(c, t0, t, q, found, used, after, i) && TopDone(c, t, q, found, sims, i)
    ensures TopFrame(c, t0, t', q, found, used, after, i + 1) && TopDone(c, t', q, found, sims, i + 1)
  {
    TopUntouched(c, t0, t, q, found, used, after, i);
    t' := EmitTopSweep(c, t, q, found, sims, c.m.working[i]);
    TopFrameStep(c, t0, t, t', q, found, used, after, i);
    TopDoneStep(c, t, t', q, found, sims, i);
  }

  lemma TopUntouched(c: Ctx, t0: Table, t: Table, q: State, found: FoundMap, used: set<State>, after: set<State>, i: nat)
    requires i < |c.m.working| && Known(t0, used) && TopFound(found, q, c.m.working[i]) !in used
    requires TopFrame(c, t0, t, q, found, used, after, i)
    ensures Untouched(t, TopFound(found, q, c.m.working[i]))
  {
  }

  lemma TopDoneAll(c: Ctx, t: Table, q: State, found: FoundMap, sims: SimMap)
    requires TopDone(c, t, q, found, sims, |c.m.working|)
    ensures forall a | a in c.m.working :: TopSwept(c, t, q, found, sims, a)
  {
    forall a | a in c.m.working
      ensures TopSwept(c, t, q, found, sims, a)
    {
      var j :| 0 <= j < |c.m.working| && c.m.working[j] == a;
    }
  }

  /** translator.cpp:184-190 over all pairs: the entries of every bottom-found
      state of q, none of which has an entry yet. */
  method EmitBottomSweeps(c: Ctx, t: Table, q: State, found: FoundMap, sims: SimMap, used: set<State>, after: set<State>)
    returns (t': Table)
    requires NoDup(c.m.working) && FoundFresh(c, found, q, used, after)
    requires forall b | b in c.m.working :: DistinctReads(BottomSweep(c, BottomFound(found, q, b), sims, b))
    requires forall k, b | k in t && b in c.m.working :: k.0 != BottomFound(found, q, b)
    ensures forall k | k in t' && k !in t :: k.0 !in used && k.0 in after
    ensures Extends(t, t')
    ensures forall b | b in c.m.working :: BottomSwept(c, t', q, found, sims, b)
  {
    t' := t;
    var i := 0;
    while i < |c.m.working|
      invariant BottomFrame(c, t, t', q, found, used, after, i) && BottomDone(c, t', q, found, sims, i)
      decreases |c.m.working| - i
    {
      t' := BottomSweepNext(c, t, t', q, found, sims, used, after, i);
      i := i + 1;
    }
    BottomDoneAll(c, t', q, found, sims);
  }

  /** The bottom loop's frame after i letters: entries were only added, from
      fresh states, and the bottom-found states still to come have none. */
  ghost predicate BottomFrame(c: Ctx, t0: Table, t: Table, q: State, found: FoundMap, used: set<State>, after: set<State>, i: nat)
  {
    && i <= |c.m.working| && Extends(t0, t)
    && (forall k | k in t && k !in t0 :: k.0 !in used && k.0 in after)
    && (forall k, j | k in t && i <= j < |c.m.working| :: k.0 != BottomFound(found, q, c.m.working[j]))
  }

  /** The bottom-found states of the first i letters are in place. */
  ghost predicate BottomDone(c: Ctx, t: Table, q: State, found: FoundMap, sims: SimMap, i: nat)
  {
    i <= |c.m.working| && forall j | 0 <= j < i :: BottomSwept(c, t, q, found, sims, c.m.working[j])
  }

  lemma BottomFrameStep(c: Ctx, t0: Table, t: Table, t': Table, q: State, found: FoundMap, used: set<State>, after: set<State>, i: nat)
    requires NoDup(c.m.working) && i < |c.m.working| && FoundFresh(c, found, q, used, after)
    requires BottomFrame(c, t0, t, q, found, used, after, i)
    requires Extends(t, t') && forall k | k in t' && k !in t :: k.0 == BottomFound(found, q, c.m.working[i])
    ensures BottomFrame(c, t0, t', q, found, used, after, i + 1)
  {
    var W := c.m.working;
    ExtendsTrans(t0, t, t');
    forall k, j | k in t' && i + 1 <= j < |W|
      ensures k.0 != BottomFound(found, q, W[j])
    {
      if k !in t {
        assert W[j] != W[i];
      }
    }
  }

  lemma BottomDoneStep(c: Ctx, t: Table, t': Table, q: State, found: FoundMap, sims: SimMap, i: nat)
    requires i < |c.m.working| && BottomDone(c, t, q, found, sims, i) && Extends(t, t')
    requires BottomSwept(c, t', q, found, sims, c.m.working[i])
    ensures BottomDone(c, t', q, found, sims, i + 1)
  {
    forall j | 0 <= j < i
      ensures BottomSwept(c, t', q, found, sims, c.m.working[j])
    {
      BottomSweptKept(c, t, t', q, found, sims, c.m.working[j]);
    }
  }

  /** The entries of the i-th bottom-found state, from a state with none yet. */
  method BottomSweepNext(c: Ctx, t0: Table, t: Table, q: State, found: FoundMap, sims: SimMap, used: set<State>, after: set<State>, i: nat)
    returns (t': Table)
    requires NoDup(c.m.working) && i < |c.m.working| && FoundFresh(c, found, q, used, after)
    requires DistinctReads(BottomSweep(c, BottomFound(found, q, c.m.working[i]), sims, c.m.working[i]))
    requires BottomFrame(c, t0, t, q, found, used, after, i) && BottomDone(c, t, q, found, sims, i)
    ensures BottomFrame(c, t0, t', q, found, used, after, i + 1) && BottomDone(c, t', q, found, sims, i + 1)
  {
    BottomUntouched(c, t0, t, q, found, used, after, i);
    t' := EmitBottomSweep(c, t, q, found, sims, c.m.working[i]);
    BottomFrameStep(c, t0, t, t', q, found, used, after, i);
    BottomDoneStep(c, t, t', q, found, sims, i);
  }

  lemma BottomUntouched(c: Ctx, t0: Table, t: Table, q: State, found: FoundMap, used: set<State>, after: set<State>, i: nat)
    requires i < |c.m.working| && BottomFrame(c, t0, t, q, found, used, after, i)
    ensures Untouched(t, BottomFound(found, q, c.m.working[i]))
  {
  }

  lemma BottomDoneAll(c: Ctx, t: Table, q: State, found: FoundMap, sims: SimMap)
    requires BottomDone(c, t, q, found, sims, |c.m.working|)
    ensures forall b | b in c.m.working :: BottomSwept(c, t, q, found, sims, b)
  {
    forall b | b in c.m.working
      ensures BottomSwept(c, t, q, found, sims, b)
    {
      var j :| 0 <= j < |c.m.working| && c.m.working[j] == b;
    }
  }

  /** A cell of the row (a, b) without heads or with the bottom marker only is
      read by the top-found state of a. */
  lemma TopSweepCovers(c: Ctx, tf: State, sims: SimMap, a: Letter, b: Letter, h: Heads)
    requires b in c.m.working && (h == NoMarks || h == Only(BottomHead))
    ensures Cell(c, (a, b), h) in Reads(TopSweep(c, tf, sims, a))
  {
    var fs := TopSweepEntries(c, tf, sims, (a, b));
    assert fs[0] in fs && fs[1] in fs;
  }

  /** Whatever the top-found state of a reads is such a cell. */
  lemma TopSweepOnly(c: Ctx, tf: State, sims: SimMap, a: Letter, p: (Letter, Letter), h: Heads)
    requires Unique(c) && (forall b | b in c.m.working :: (a, b) in c.lm) && p in c.lm
    requires Cell(c, p, h) in Reads(TopSweep(c, tf, sims, a))
    ensures p.0 == a && (h == NoMarks || h == Only(BottomHead))
  {
    var f := b => TopSweepEntries(c, tf, sims, (a, b));
    var e :| e in TopSweep(c, tf, sims, a) && e.read == Cell(c, p, h);
    var b :| b in c.m.working && e in f(b);
    assert Owner(c, Cell(c, p, h)) == (p, h);
    assert Owner(c, Cell(c, (a, b), NoMarks)) == ((a, b), NoMarks);
    assert Owner(c, Cell(c, (a, b), Only(BottomHead))) == ((a, b), Only(BottomHead));
  }

  /** As written, the top-found state of a passes, and stops on, only the cells
      whose top-track letter is a itself (translator.cpp:176-182): having seen a
      under the top head, the scan has no entry for a cell (x, y) with x != a
      met before the bottom marker, nor for the bottom marker on such a cell. */
  lemma TopSweepReadsOwnRow(c: Ctx, tf: State, sims: SimMap, a: Letter, p: (Letter, Letter), h: Heads)
    requires Cells(c) && a in c.m.working && p in c.lm
    ensures Cell(c, p, h) in Reads(TopSweep(c, tf, sims, a)) <==> p.0 == a && (h == NoMarks || h == Only(BottomHead))
  {
    if p.0 == a && (h == NoMarks || h == Only(BottomHead)) {
      TopSweepCovers(c, tf, sims, a, p.1, h);
    }
    if Cell(c, p, h) in Reads(TopSweep(c, tf, sims, a)) {
      TopSweepOnly(c, tf, sims, a, p, h);
    }
  }

  lemma BottomSweepCovers(c: Ctx, bf: State, sims: SimMap, b: Letter, a: Letter, h: Heads)
    requires a in c.m.working && (h == NoMarks || h == Only(TopHead))
    ensures Cell(c, (a, b), h) in Reads(BottomSweep(c, bf, sims, b))
  {
    var fs := BottomSweepEntries(c, bf, sims, (a, b));
    assert fs[0] in fs && fs[1] in fs;
  }

  lemma BottomSweepOnly(c: Ctx, bf: State, sims: SimMap, b: Letter, p: (Letter, Letter), h: Heads)
    requires Unique(c) && (forall a | a in c.m.working :: (a, b) in c.lm) && p in c.lm
    requires Cell(c, p, h) in Reads(BottomSweep(c, bf, sims, b))
    ensures p.1 == b && (h == NoMarks || h == Only(TopHead))
  {
    var f := a => BottomSweepEntries(c, bf, sims, (a, b));
    var e :| e in BottomSweep(c, bf, sims, b) && e.read == Cell(c, p, h);
    var a :| a in c.m.working && e in f(a);
    assert Owner(c, Cell(c, p, h)) == (p, h);
    assert Owner(c, Cell(c, (a, b), NoMarks)) == ((a, b), NoMarks);
    assert Owner(c, Cell(c, (a, b), Only(TopHead))) == ((a, b), Only(TopHead));
  }

  /** The mirror image: the bottom-found state of b reads only cells whose
      bottom-track letter is b (translator.cpp:184-190). */
  lemma BottomSweepReadsOwnColumn(c: Ctx, bf: State, sims: SimMap, b: Letter, p: (Letter, Letter), h: Heads)
    requires Cells(c) && b in c.m.working && p in c.lm
    ensures Cell(c, p, h) in Reads(BottomSweep(c, bf, sims, b)) <==> p.1 == b && (h == NoMarks || h == Only(TopHead))
  {
    if p.1 == b && (h == NoMarks || h == Only(TopHead)) {
      BottomSweepCovers(c, bf, sims, b, p.0, h);
    }
    if Cell(c, p, h) in Reads(BottomSweep(c, bf, sims, b)) {
      BottomSweepOnly(c, bf, sims, b, p, h);
    }
  }

  /** Everything one turn of translator.cpp:120-191 leaves for the source
      state q whose scanning entry is scan. */
  ghost predicate ScannedState(c: Ctx, t: Table, scan: State, q: State, found: FoundMap, sims: SimMap)
  {
    && (forall p | p in c.lm :: ScansPair(c, t, scan, q, found, sims, p))
    && (forall a | a in c.m.working :: TopSwept(c, t, q, found, sims, a))
    && (forall b | b in c.m.working :: BottomSwept(c, t, q, found, sims, b))
  }

  lemma ScannedStateKept(c: Ctx, t: Table, t': Table, scan: State, q: State, found: FoundMap, found': FoundMap, sims: SimMap)
    requires ScannedState(c, t, scan, q, found, sims) && Extends(t, t')
    requires forall k | k in found && k.0 == q :: k in found' && found'[k] == found[k]
    requires forall k | k in found' && k.0 == q :: k in found
    ensures ScannedState(c, t', scan, q, found', sims)
  {
    ScannedStateGrown(c, t, t', scan, q, found, sims);
    ScannedStateRenamed(c, t', scan, q, found, found', sims);
  }

  lemma ScannedStateGrown(c: Ctx, t: Table, t': Table, scan: State, q: State, found: FoundMap, sims: SimMap)
    requires ScannedState(c, t, scan, q, found, sims) && Extends(t, t')
    ensures ScannedState(c, t', scan, q, found, sims)
  {
    forall a | a in c.m.working
      ensures TopSwept(c, t', q, found, sims, a) && BottomSwept(c, t', q, found, sims, a)
    {
      TopSweptKept(c, t, t', q, found, sims, a);
      BottomSweptKept(c, t, t', q, found, sims, a);
    }
  }

  lemma ScannedStateRenamed(c: Ctx, t: Table, scan: State, q: State, found: FoundMap, found': FoundMap, sims: SimMap)
    requires ScannedState(c, t, scan, q, found, sims)
    requires forall k | k in found && k.0 == q :: k in found' && found'[k] == found[k]
    requires forall k | k in found' && k.0 == q :: k in found
    ensures ScannedState(c, t, scan, q, found', sims)
  {
    forall p | p in c.lm
      ensures ScansPair(c, t, scan, q, found', sims, p)
    {
      assert ScansPair(c, t, scan, q, found, sims, p);
      assert TopFound(found', q, p.0) == TopFound(found, q, p.0);
      assert BottomFound(found', q, p.1) == BottomFound(found, q, p.1);
    }
    forall a | a in c.m.working
      ensures TopSwept(c, t, q, found', sims, a) && BottomSwept(c, t, q, found', sims, a)
    {
      assert TopSwept(c, t, q, found, sims, a) && BottomSwept(c, t, q, found, sims, a);
      assert TopFound(found', q, a) == TopFound(found, q, a);
      assert BottomFound(found', q, a) == BottomFound(found, q, a);
    }
  }

  /** The entry lists of the scanning phase for q read distinct symbols each,
      and the encoded pairs are exactly those listed. */
  ghost predicate ScanReady(c: Ctx, scan: State, q: State, found: FoundMap, sims: SimMap)
  {
    && NoDup(c.m.working) && (forall p | p in c.lm :: p in c.pairs)
    && DistinctReads(FlatMap(c.pairs, p => ScanEntries(c, scan, q, found, sims, p)))
    && (forall a | a in c.m.working :: DistinctReads(TopSweep(c, TopFound(found, q, a), sims, a)))
    && (forall b | b in c.m.working :: DistinctReads(BottomSweep(c, BottomFound(found, q, b), sims, b)))
  }

  lemma ScanReadyOf(c: Ctx, scan: State, q: State, found: FoundMap, sims: SimMap)
    requires Cells(c)
    ensures ScanReady(c, scan, q, found, sims)
  {
    ScanDistinct(c, scan, q, found, sims);
    SweepsDistinct(c, found, q, sims);
  }

  /** Whatever the names chosen, the entries of a scanning entry state and of
      each of its found states read distinct symbols, so every `new_transition_`
      of the scanning phase adds a new key. */
  ghost predicate Scannable(c: Ctx)
  {
    && Shape(c)
    && (forall scan, q, found, sims {:trigger ScanReady(c, scan, q, found, sims)} :: ScanReady(c, scan, q, found, sims))
  }

  lemma ScannableOf(c: Ctx)
    requires Cells(c)
    ensures Scannable(c)
  {
    forall scan, q, found, sims
      ensures ScanReady(c, scan, q, found, sims)
    {
      ScanReadyOf(c, scan, q, found, sims);
    }
  }

  /** The scanning entry's entries and the sweeps, once all names exist. */
  method EmitScanning(c: Ctx, t: Table, scan: State, q: State, found: FoundMap, sims: SimMap, used: set<State>, after: set<State>)
    returns (t': Table)
    requires ScanReady(c, scan, q, found, sims)
    requires Known(t, used) && scan in used && Untouched(t, scan)
    requires FoundFresh(c, found, q, used, after)
    ensures forall k | k in t' && k !in t :: k.0 == scan || (k.0 !in used && k.0 in after)
    ensures Extends(t, t')
    ensures ScannedState(c, t', scan, q, found, sims)
  {
    var t1 := EmitScan(c, t, scan, q, found, sims);
    var t2 := EmitTopSweeps(c, t1, q, found, sims, used, after);
    t' := EmitBottomSweeps(c, t2, q, found, sims, used, after);
    ExtendsTrans(t, t1, t2);
    ExtendsTrans(t, t2, t');
    ScannedStateOf(c, t1, t2, t', scan, q, found, sims);
  }

  lemma ScannedStateOf(c: Ctx, t1: Table, t2: Table, t3: Table, scan: State, q: State, found: FoundMap, sims: SimMap)
    requires Extends(t1, t2) && Extends(t2, t3)
    requires forall p | p in c.lm :: ScansPair(c, t1, scan, q, found, sims, p)
    requires forall a | a in c.m.working :: TopSwept(c, t2, q, found, sims, a)
    requires forall b | b in c.m.working :: BottomSwept(c, t3, q, found, sims, b)
    ensures ScannedState(c, t3, scan, q, found, sims)
  {
    forall a | a in c.m.working
      ensures TopSwept(c, t3, q, found, sims, a)
    {
      TopSweptKept(c, t2, t3, q, found, sims, a);
    }
  }

  /** One turn of the outer loop of translator.cpp:115-193 for the source
      state q with scanning entry scan: its found states, its simulated states
      (pushed onto the list), and all entries of its scanning entry, its found
      states and nothing else. */
  method ScanState(c: Ctx, t: Table, states: SymbolSet, found: FoundMap, simulated: SimList, q: State, scan: State)
    returns (t': Table, states': SymbolSet, found': FoundMap, simulated': SimList, sims: SimMap)
    requires Scannable(c) && Known(t, states.used) && scan in states.used && Untouched(t, scan)
    ensures states.used <= states'.used && Known(t', states'.used)
    ensures forall k | k in t' && k !in t :: k.0 == scan || k.0 !in states.used
    ensures Extends(t, t')
    ensures forall k | k in found && k.0 != q :: k in found' && found'[k] == found[k]
    ensures forall k | k in found' && k.0 != q :: k in found
    ensures SimsFresh(c, sims, states.used, states'.used)
    ensures forall p | p in c.lm :: Untouched(t', SimOf(sims, p))
    ensures Pushed(c, simulated, simulated', q, sims)
    ensures ScannedState(c, t', scan, q, found', sims)
  {
    var s1;
    found', s1 := CreateFound(c, found, q, states);
    sims, states', simulated' := CreateSims(c, q, s1, simulated);
    t' := EmitScanning(c, t, scan, q, found', sims, states.used, s1.used);
  }

  /** The entries pushed for q: one per pair of `letters_map_`, in its order. */
  function Listing(c: Ctx, q: State, sims: SimMap): (l: SimList)
    ensures |l| == |c.pairs|
  {
    seq(|c.pairs|, i requires 0 <= i < |c.pairs| => (SimulatedState(q, c.pairs[i].0, c.pairs[i].1), SimOf(sims, c.pairs[i])))
  }

  function SimsAt(allSims: map<State, SimMap>, q: State): SimMap
  {
    if q in allSims then allSims[q] else map[]
  }

  /** The list `simulated_states_aliases_` once the states qs are scanned, in order. */
  function Listings(c: Ctx, qs: seq<State>, allSims: map<State, SimMap>): SimList
    decreases |qs|
  {
    if |qs| == 0 then []
    else Listings(c, qs[..|qs| - 1], allSims) + Listing(c, qs[|qs| - 1], SimsAt(allSims, qs[|qs| - 1]))
  }

  lemma {:induction false} ListingsFrame(c: Ctx, qs: seq<State>, allSims: map<State, SimMap>, q: State, sims: SimMap)
    requires q !in qs
    ensures Listings(c, qs, allSims[q := sims]) == Listings(c, qs, allSims)
    decreases |qs|
  {
    if |qs| > 0 {
      assert qs[|qs| - 1] != q;
      assert q !in qs[..|qs| - 1];
      ListingsFrame(c, qs[..|qs| - 1], allSims, q, sims);
    }
  }

  lemma PushedListing(c: Ctx, simulated: SimList, simulated': SimList, q: State, sims: SimMap)
    requires Pushed(c, simulated, simulated', q, sims)
    ensures simulated' == simulated + Listing(c, q, sims)
  {
    var l := Listing(c, q, sims);
    assert forall i | 0 <= i < |l| :: simulated'[|simulated| + i] == l[i];
    assert forall i | 0 <= i < |simulated| :: simulated'[i] == simulated'[..|simulated|][i];
  }

  /** The list `simulated_states_aliases_`: every simulated state names an
      aliased source state and two letters of Γ; its alias is a name new since
      `before`, known in `after`, with no entry in t; no two aliases coincide. */
  ghost predicate SimsListed(c: Ctx, t: Table, simulated: SimList, before: set<State>, after: set<State>)
  {
    && (forall i | 0 <= i < |simulated| ::
          && simulated[i].0.state in c.aliases && simulated[i].0.top in c.m.working && simulated[i].0.bottom in c.m.working
          && simulated[i].1 !in before && simulated[i].1 in after)
    && (forall i, k | 0 <= i < |simulated| && k in t :: k.0 != simulated[i].1)
    && (forall i, j | 0 <= i < j < |simulated| :: simulated[i].1 != simulated[j].1)
  }

  /** Appending the simulated states of one more source state keeps the list
      well formed, given that its aliases are new since `mid` while the earlier
      ones are known there, and that the table changed only at names known
      before the earlier ones or new since `mid`. */
  lemma SimsListedPush(c: Ctx, t: Table, t': Table, simulated: SimList, q: State, sims: SimMap,
                       before: set<State>, mid: set<State>, after: set<State>)
    requires Shape(c) && q in c.aliases
    requires SimsListed(c, t, simulated, before, mid) && before <= mid <= after
    requires forall k | k in t' && k !in t :: k.0 in before || k.0 !in mid
    requires SimsFresh(c, sims, mid, after)
    requires forall p | p in c.lm :: Untouched(t', SimOf(sims, p))
    ensures SimsListed(c, t', simulated + Listing(c, q, sims), before, after)
  {
    PushNamed(c, t, simulated, q, sims, before, mid, after);
    PushUntouched(c, t, t', simulated, q, sims, before, mid, after);
    PushDistinct(c, t, simulated, q, sims, before, mid, after);
  }

  lemma PushNamed(c: Ctx, t: Table, simulated: SimList, q: State, sims: SimMap,
                  before: set<State>, mid: set<State>, after: set<State>)
    requires Shape(c) && q in c.aliases
    requires SimsListed(c, t, simulated, before, mid) && before <= mid <= after
    requires SimsFresh(c, sims, mid, after)
    ensures var s := simulated + Listing(c, q, sims);
      forall i | 0 <= i < |s| ::
        && s[i].0.state in c.aliases && s[i].0.top in c.m.working && s[i].0.bottom in c.m.working
        && s[i].1 !in before && s[i].1 in after
  {
    var l := Listing(c, q, sims);
    var s := simulated + l;
    forall i | 0 <= i < |s|
      ensures && s[i].0.state in c.aliases && s[i].0.top in c.m.working && s[i].0.bottom in c.m.working
              && s[i].1 !in before && s[i].1 in after
    {
      if i >= |simulated| {
        var n := i - |simulated|;
        assert s[i] == l[n];
        assert c.pairs[n] in c.lm;
      } else {
        assert s[i] == simulated[i];
      }
    }
  }

  lemma PushUntouched(c: Ctx, t: Table, t': Table, simulated: SimList, q: State, sims: SimMap,
                      before: set<State>, mid: set<State>, after: set<State>)
    requires Shape(c)
    requires SimsListed(c, t, simulated, before, mid)
    requires forall k | k in t' && k !in t :: k.0 in before || k.0 !in mid
    requires forall p | p in c.lm :: Untouched(t', SimOf(sims, p))
    ensures var s := simulated + Listing(c, q, sims);
      forall i, k | 0 <= i < |s| && k in t' :: k.0 != s[i].1
  {
    var l := Listing(c, q, sims);
    var s := simulated + l;
    forall i, k | 0 <= i < |s| && k in t'
      ensures k.0 != s[i].1
    {
      if i >= |simulated| {
        var n := i - |simulated|;
        assert s[i] == l[n];
        assert c.pairs[n] in c.lm;
        assert Untouched(t', SimOf(sims, c.pairs[n]));
      } else {
        assert s[i] == simulated[i];
      }
    }
  }

  lemma PushDistinct(c: Ctx, t: Table, simulated: SimList, q: State, sims: SimMap,
                     before: set<State>, mid: set<State>, after: set<State>)
    requires Shape(c)
    requires SimsListed(c, t, simulated, before, mid)
    requires SimsFresh(c, sims, mid, after)
    ensures var s := simulated + Listing(c, q, sims);
      forall i, j | 0 <= i < j < |s| :: s[i].1 != s[j].1
  {
    var l := Listing(c, q, sims);
    ListingApart(c, q, sims, mid, after);
    SimsAppendApart(simulated, l, mid);
  }

  /** One source state's simulated states are new and pairwise distinct. */
  lemma ListingApart(c: Ctx, q: State, sims: SimMap, mid: set<State>, after: set<State>)
    requires NoDup(c.pairs) && (forall p | p in c.pairs :: p in c.lm)
    requires SimsFresh(c, sims, mid, after)
    ensures var l := Listing(c, q, sims);
      && (forall n | 0 <= n < |l| :: l[n].1 !in mid)
      && (forall m, n | 0 <= m < n < |l| :: l[m].1 != l[n].1)
  {
    var l := Listing(c, q, sims);
    forall n | 0 <= n < |l|
      ensures l[n].1 !in mid
    {
      assert c.pairs[n] in c.lm;
    }
    forall m, n | 0 <= m < n < |l|
      ensures l[m].1 != l[n].1
    {
      assert c.pairs[m] in c.lm && c.pairs[n] in c.lm && c.pairs[m] != c.pairs[n];
    }
  }

  /** Two lists of simulated states, each without repeats, the first within
      `mid` and the second outside it, have no repeat together. */
  lemma SimsAppendApart(a: SimList, b: SimList, mid: set<State>)
    requires forall i | 0 <= i < |a| :: a[i].1 in mid
    requires forall i, j | 0 <= i < j < |a| :: a[i].1 != a[j].1
    requires forall n | 0 <= n < |b| :: b[n].1 !in mid
    requires forall m, n | 0 <= m < n < |b| :: b[m].1 != b[n].1
    ensures var s := a + b; forall i, j | 0 <= i < j < |s| :: s[i].1 != s[j].1
  {
    var s := a + b;
    forall i, j | 0 <= i < j < |s|
      ensures s[i].1 != s[j].1
    {
      if i >= |a| {
        assert s[i] == b[i - |a|] && s[j] == b[j - |a|];
      } else if j >= |a| {
        assert s[i] == a[i] && s[j] == b[j - |a|];
      } else {
        assert s[i] == a[i] && s[j] == a[j];
      }
    }
  }

  /** The alias facts the scanning phase relies on. */
  ghost predicate ScanAliases(c: Ctx, used0: set<State>)
  {
    && NoDup(c.order) && (forall q | q in c.order :: q in c.aliases) && AliasesApart(c.aliases)
    && (forall q | q in c.aliases :: c.aliases[q].doScanning !in c.m.states)
    && AliasesWithin(c.aliases, used0) && (forall q | q in c.m.states :: q in used0)
  }

  /** The table part of the scanning loop's invariant after i source states:
      entries were only added, none leaves a source state or a return sweep, and
      the scanning entry states still to come have none. */
  ghost predicate ScanFrame(c: Ctx, t0: Table, used0: set<State>, t: Table, used: set<State>, i: nat)
  {
    && used0 <= used && Known(t, used) && Extends(t0, t)
    && (forall k | k in t && k !in t0 :: k.0 !in c.m.states)
    && (forall k, q | k in t && k !in t0 && q in c.aliases :: k.0 != c.aliases[q].goingBack)
    && (forall k, j | k in t && i <= j < |c.order| && c.order[j] in c.aliases :: k.0 != c.aliases[c.order[j]].doScanning)
  }

  lemma ScanFrameStep(c: Ctx, t0: Table, used0: set<State>, t: Table, used: set<State>, i: nat,
                      t': Table, used': set<State>)
    requires ScanAliases(c, used0) && i < |c.order|
    requires ScanFrame(c, t0, used0, t, used, i)
    requires used <= used' && Known(t', used') && Extends(t, t')
    requires forall k | k in t' && k !in t :: k.0 == c.aliases[c.order[i]].doScanning || k.0 !in used
    ensures ScanFrame(c, t0, used0, t', used', i + 1)
  {
    var q := c.order[i];
    assert c.aliases[q].doScanning in used0;
    forall k, j | k in t' && i + 1 <= j < |c.order| && c.order[j] in c.aliases
      ensures k.0 != c.aliases[c.order[j]].doScanning
    {
      assert c.order[j] != q;
    }
  }

  /** The list part of the invariant: `simulated` lists the simulated states of
      the first i source states, in order. */
  ghost predicate ScanList(c: Ctx, t: Table, used0: set<State>, used: set<State>, simulated: SimList,
                           allSims: map<State, SimMap>, i: nat)
    requires i <= |c.order|
  {
    SimsListed(c, t, simulated, used0, used) && simulated == Listings(c, c.order[..i], allSims)
  }

  lemma ScanListStep(c: Ctx, t0: Table, used0: set<State>, t: Table, used: set<State>, simulated: SimList,
                     allSims: map<State, SimMap>, i: nat,
                     t': Table, used': set<State>, simulated': SimList, sims: SimMap)
    requires Shape(c) && ScanAliases(c, used0) && i < |c.order|
    requires ScanList(c, t, used0, used, simulated, allSims, i) && used0 <= used <= used'
    requires forall k | k in t' && k !in t :: k.0 in used0 || k.0 !in used
    requires SimsFresh(c, sims, used, used')
    requires forall p | p in c.lm :: Untouched(t', SimOf(sims, p))
    requires Pushed(c, simulated, simulated', c.order[i], sims)
    ensures ScanList(c, t', used0, used', simulated', allSims[c.order[i] := sims], i + 1)
  {
    var q := c.order[i];
    SimsListedPush(c, t, t', simulated, q, sims, used0, used, used');
    PushedListing(c, simulated, simulated', q, sims);
    assert q !in c.order[..i];
    ListingsFrame(c, c.order[..i], allSims, q, sims);
    assert c.order[..i + 1][..i] == c.order[..i];
  }

  /** The entry part of the invariant: the first i source states are scanned. */
  ghost predicate ScanDone(c: Ctx, t: Table, found: FoundMap, allSims: map<State, SimMap>, i: nat)
    requires i <= |c.order| && (forall q | q in c.order :: q in c.aliases)
  {
    forall j | 0 <= j < i ::
      ScannedState(c, t, c.aliases[c.order[j]].doScanning, c.order[j], found, SimsAt(allSims, c.order[j]))
  }

  lemma ScanDoneStep(c: Ctx, t: Table, found: FoundMap, allSims: map<State, SimMap>, i: nat,
                     t': Table, found': FoundMap, sims: SimMap)
    requires NoDup(c.order) && (forall q | q in c.order :: q in c.aliases) && i < |c.order|
    requires ScanDone(c, t, found, allSims, i) && Extends(t, t')
    requires forall k | k in found && k.0 != c.order[i] :: k in found' && found'[k] == found[k]
    requires forall k | k in found' && k.0 != c.order[i] :: k in found
    requires ScannedState(c, t', c.aliases[c.order[i]].doScanning, c.order[i], found', sims)
    ensures ScanDone(c, t', found', allSims[c.order[i] := sims], i + 1)
  {
    var q := c.order[i];
    var allSims' := allSims[q := sims];
    forall j | 0 <= j < i + 1
      ensures ScannedState(c, t', c.aliases[c.order[j]].doScanning, c.order[j], found', SimsAt(allSims', c.order[j]))
    {
      if j < i {
        assert c.order[j] != q;
        ScannedStateKept(c, t, t', c.aliases[c.order[j]].doScanning, c.order[j], found, found', SimsAt(allSims, c.order[j]));
      }
    }
  }

  /** One turn of the loop over `state_aliases_` in `program_scanning_for_letters_`. */
  method ScanNext(c: Ctx, t0: Table, used0: set<State>, t: Table, states: SymbolSet, found: FoundMap,
                  simulated: SimList, allSims: map<State, SimMap>, i: nat)
    returns (t': Table, states': SymbolSet, found': FoundMap, simulated': SimList, allSims': map<State, SimMap>)
    requires Scannable(c) && ScanAliases(c, used0) && i < |c.order|
    requires ScanFrame(c, t0, used0, t, states.used, i)
    requires ScanList(c, t, used0, states.used, simulated, allSims, i)
    requires ScanDone(c, t, found, allSims, i)
    ensures ScanFrame(c, t0, used0, t', states'.used, i + 1)
    ensures ScanList(c, t', used0, states'.used, simulated', allSims', i + 1)
    ensures ScanDone(c, t', found', allSims', i + 1)
  {
    var q := c.order[i];
    assert c.aliases[q].doScanning in used0;
    var sims;
    t', states', found', simulated', sims := ScanState(c, t, states, found, simulated, q, c.aliases[q].doScanning);
    allSims' := allSims[q := sims];
    ScanFrameStep(c, t0, used0, t, states.used, i, t', states'.used);
    ScanListStep(c, t0, used0, t, states.used, simulated, allSims, i, t', states'.used, simulated', sims);
    ScanDoneStep(c, t, found, allSims, i, t', found', sims);
  }

  /** The loop of `program_scanning_for_letters_` over `state_aliases_`. */
  method ScanLoop(c: Ctx, t: Table, states: SymbolSet)
    returns (t': Table, states': SymbolSet, found: FoundMap, simulated: SimList, allSims: map<State, SimMap>)
    requires Scannable(c) && ScanAliases(c, states.used) && Known(t, states.used)
    requires forall k, q | k in t && q in c.aliases :: k.0 != c.aliases[q].doScanning
    ensures ScanFrame(c, t, states.used, t', states'.used, |c.order|)
    ensures ScanList(c, t', states.used, states'.used, simulated, allSims, |c.order|)
    ensures ScanDone(c, t', found, allSims, |c.order|)
  {
    t', states', found, simulated, allSims := t, states, map[], [], map[];
    var i := 0;
    while i < |c.order|
      invariant i <= |c.order|
      invariant ScanFrame(c, t, states.used, t', states'.used, i)
      invariant ScanList(c, t', states.used, states'.used, simulated, allSims, i)
      invariant ScanDone(c, t', found, allSims, i)
    {
      t', states', found, simulated, allSims := ScanNext(c, t, states.used, t', states', found, simulated, allSims, i);
      i := i + 1;
    }
  }

  /** What the scanning phase leaves behind, from table t and names `used` to
      t' and `used'`: entries were only added, none leaves a source state or a
      return sweep, `simulated` lists the simulated states of every aliased
      source state in the order of `state_aliases_`, and each of those source
      states is scanned. */
  ghost predicate ScanPhase(c: Ctx, t: Table, used: set<State>, t': Table, used': set<State>, found: FoundMap,
                            simulated: SimList, allSims: map<State, SimMap>)
  {
    && used <= used' && Known(t', used') && Extends(t, t')
    && (forall k | k in t' && k !in t :: k.0 !in c.m.states)
    && (forall k, q | k in t' && k !in t && q in c.aliases :: k.0 != c.aliases[q].goingBack)
    && SimsListed(c, t', simulated, used, used')
    && simulated == Listings(c, c.order, allSims)
    && (forall q | q in c.order && q in c.aliases :: ScannedState(c, t', c.aliases[q].doScanning, q, found, SimsAt(allSims, q)))
  }
  lemma ScanPhaseOf(c: Ctx, t: Table, used: set<State>, t': Table, used': set<State>, found: FoundMap,
                    simulated: SimList, allSims: map<State, SimMap>)
    requires forall q | q in c.order :: q in c.aliases
    requires ScanFrame(c, t, used, t', used', |c.order|)
    requires ScanList(c, t', used, used', simulated, allSims, |c.order|)
    requires ScanDone(c, t', found, allSims, |c.order|)
    ensures ScanPhase(c, t, used, t', used', found, simulated, allSims)
  {
    assert c.order[..|c.order|] == c.order;
    ScanDoneAll(c, t', found, allSims);
  }
  /** `program_scanning_for_letters_` (translator.cpp:115-193): every aliased
      source state, in the order of `state_aliases_`, gets its found states, its
      simulated states (pushed in order) and the entries of its scanning entry
      and found states.  No entry leaves a source state or a return sweep. */
  method ProgramScanning(c: Ctx, t: Table, states: SymbolSet)
    returns (t': Table, states': SymbolSet, found: FoundMap, simulated: SimList, allSims: map<State, SimMap>)
    requires Scannable(c) && ScanAliases(c, states.used) && Known(t, states.used)
    requires forall k, q | k in t && q in c.aliases :: k.0 != c.aliases[q].doScanning
    ensures ScanPhase(c, t, states.used, t', states'.used, found, simulated, allSims)
  {
    t', states', found, simulated, allSims := ScanLoop(c, t, states);
    ScanPhaseOf(c, t, states.used, t', states'.used, found, simulated, allSims);
  }

  lemma ScanDoneAll(c: Ctx, t: Table, found: FoundMap, allSims: map<State, SimMap>)
    requires forall q | q in c.order :: q in c.aliases
    requires ScanDone(c, t, found, allSims, |c.order|)
    ensures forall q | q in c.order :: ScannedState(c, t, c.aliases[q].doScanning, q, found, SimsAt(allSims, q))
  {
    forall q | q in c.order
      ensures ScannedState(c, t, c.aliases[q].doScanning, q, found, SimsAt(allSims, q))
    {
      var j :| 0 <= j < |c.order| && c.order[j] == q;
    }
  }
}
