/**
  What every transition-emitting phase may rely on: the source machine and the
  tables built before the first transition, and the bookkeeping facts that tie
  the result table to the state-name generator.
 */
module Context {
  import opened Machines
  import opened Encodings
  import opened Alphabet

  /** The translator's read-only state once the alphabet and the aliases exist.
      `pairs` is the order in which `letters_map_` is walked, `order` the order in
      which `state_aliases_` is walked. */
  datatype Ctx = Ctx(
    m: TwoTrackMachine,
    lm: LettersMap,
    ids: ImportantIdents,
    aliases: map<State, StateEncoding>,
    pairs: seq<(Letter, Letter)>,
    order: seq<State>)

  /** The raw letters of the source machine, which no encoded symbol may reuse. */
  function RawLetters(m: TwoTrackMachine): set<Letter>
  {
    set l | l in m.working
  }

  /** The encoded alphabet: total on Γ × Γ, symbols pairwise distinct and apart
      from the raw letters and the two sentinels, walked in the order `pairs`. */
  ghost predicate Tables(c: Ctx)
  {
    && WellFormed(c.m)
    && Encodes(c.lm, c.m.working, RawLetters(c.m) + {c.ids.tapeStart, c.ids.wordEnd})
    && c.ids.tapeStart !in c.m.working
    && NoDup(c.pairs)
    && (forall p :: p in c.pairs <==> p in c.lm)
  }

  /** The symbol of the cell whose pair is p and whose markers are h.  Like
      `letters_map_[p]`, a pair without an encoding yields the empty encoding. */
  function Cell(c: Ctx, p: (Letter, Letter), h: Heads): Letter
  {
    if p in c.lm then Sym(c.lm[p], h) else ""
  }

  /** The first cell, walking ps, whose symbol is s. */
  ghost function Decode(c: Ctx, s: Letter, ps: seq<(Letter, Letter)>): ((Letter, Letter), Heads)
    decreases |ps|
  {
    if |ps| == 0 then (("", ""), NoMarks)
    else if ps[0] in c.lm && Sym(c.lm[ps[0]], NoMarks) == s then (ps[0], NoMarks)
    else if ps[0] in c.lm && Sym(c.lm[ps[0]], Heads(true, false)) == s then (ps[0], Heads(true, false))
    else if ps[0] in c.lm && Sym(c.lm[ps[0]], Heads(false, true)) == s then (ps[0], Heads(false, true))
    else if ps[0] in c.lm && Sym(c.lm[ps[0]], BothMarks) == s then (ps[0], BothMarks)
    else Decode(c, s, ps[1..])
  }

  /** The (pair, markers) cell an encoded symbol stands for. */
  ghost function Owner(c: Ctx, s: Letter): ((Letter, Letter), Heads)
  {
    Decode(c, s, c.pairs)
  }

  /** The shape of the encoded alphabet: Γ has no repeats and holds the blank,
      `pairs` lists the encoded pairs once each, and the encoded pairs are
      exactly the pairs of Γ. */
  ghost predicate Shape(c: Ctx)
  {
    && NoDup(c.m.working) && c.m.blank in c.m.working
    && NoDup(c.pairs) && (forall p | p in c.pairs :: p in c.lm) && (forall p | p in c.lm :: p in c.pairs)
    && (forall p | p in c.lm :: p.0 in c.m.working && p.1 in c.m.working)
    && (forall a, b {:trigger (a, b) in c.lm} | a in c.m.working && b in c.m.working :: (a, b) in c.lm)
  }

  /** Each encoded symbol determines its cell, and none is a raw letter (the
      blank among them) or the tape-start sentinel. */
  ghost predicate Unique(c: Ctx)
  {
    forall p, h {:trigger Owner(c, Cell(c, p, h))} | p in c.lm ::
      && Owner(c, Cell(c, p, h)) == (p, h) && Cell(c, p, h) != c.m.blank && Cell(c, p, h) != c.ids.tapeStart
      && Cell(c, p, h) !in c.m.working
  }

  /** What the transition-emitting phases read of the encoded alphabet. */
  ghost predicate Cells(c: Ctx)
  {
    Shape(c) && Unique(c)
  }

  /** Distinct cells have distinct symbols. */
  lemma CellsApart(c: Ctx, p: (Letter, Letter), h: Heads, q: (Letter, Letter), h': Heads)
    requires Unique(c) && p in c.lm && q in c.lm && (p, h) != (q, h')
    ensures Cell(c, p, h) != Cell(c, q, h')
  {
    assert Owner(c, Cell(c, p, h)) == (p, h) && Owner(c, Cell(c, q, h')) == (q, h');
  }

  /** In a map whose symbols are pairwise distinct, walking any list that holds
      p finds p's cell. */
  lemma {:induction false} DecodeFinds(c: Ctx, ps: seq<(Letter, Letter)>, p: (Letter, Letter), h: Heads)
    requires p in c.lm && p in ps && Spread(c.lm[p])
    requires forall q | q in c.lm && q != p :: Apart(c.lm[q], c.lm[p])
    ensures Decode(c, Sym(c.lm[p], h), ps) == (p, h)
    decreases |ps|
  {
    var s := Sym(c.lm[p], h);
    if ps[0] == p {
      assert Spread(c.lm[p]);
    } else {
      if ps[0] in c.lm {
        assert Apart(c.lm[ps[0]], c.lm[p]);
      }
      assert p in ps[1..];
      DecodeFinds(c, ps[1..], p, h);
    }
  }

  /** An encoded symbol is neither a raw letter nor the tape-start sentinel. */
  lemma CellIsEncoded(c: Ctx, p: (Letter, Letter), h: Heads)
    requires Unique(c) && p in c.lm
    ensures Cell(c, p, h) != c.m.blank && Cell(c, p, h) != c.ids.tapeStart && Cell(c, p, h) !in c.m.working
  {
    assert Owner(c, Cell(c, p, h)) == (p, h);
  }

  /** Every entry of es reads a cell of pair p, no two with the same markers. */
  ghost predicate CellsOfPair(c: Ctx, es: seq<Entry>, p: (Letter, Letter))
  {
    && (forall i | 0 <= i < |es| :: Owner(c, es[i].read).0 == p)
    && (forall i, j | 0 <= i < j < |es| :: Owner(c, es[i].read) != Owner(c, es[j].read))
  }

  lemma CellsOfPairDistinct(c: Ctx, es: seq<Entry>, p: (Letter, Letter))
    requires CellsOfPair(c, es, p)
    ensures DistinctReads(es)
  {
  }

  lemma CellsOfPairsApart(c: Ctx, es: seq<Entry>, p: (Letter, Letter), fs: seq<Entry>, q: (Letter, Letter))
    requires CellsOfPair(c, es, p) && CellsOfPair(c, fs, q) && p != q
    ensures ReadsApart(es, fs)
  {
  }

  lemma TablesCells(c: Ctx)
    requires Tables(c)
    ensures Cells(c)
  {
    assert WellFormed(c.m);
    assert forall p | p in c.lm :: p in c.pairs;
    var reserved := RawLetters(c.m) + {c.ids.tapeStart, c.ids.wordEnd};
    forall p, h | p in c.lm
      ensures Owner(c, Cell(c, p, h)) == (p, h) && Cell(c, p, h) != c.m.blank && Cell(c, p, h) != c.ids.tapeStart
      ensures Cell(c, p, h) !in c.m.working
    {
      assert forall q | q in c.lm && q != p :: Apart(c.lm[q], c.lm[p]);
      DecodeFinds(c, c.pairs, p, h);
      assert Avoids(c.lm[p], reserved);
      assert c.m.blank in reserved;
      assert Cell(c, p, h) !in RawLetters(c.m);
    }
  }

  /** Tables plus the aliases: exactly the simulated states have one, the initial
      state scans from `semi-start`, and no two alias states coincide or are
      source states. */
  ghost predicate Ready(c: Ctx)
  {
    && Tables(c)
    && (forall q :: q in c.aliases <==> q in c.m.states && Simulated(c.m, q))
    && NoDup(c.order) && (forall q :: q in c.order <==> q in c.aliases)
    && c.aliases[c.m.initial].doScanning == c.ids.semiStart
    && AliasesApart(c.aliases)
    && (forall q | q in c.aliases :: c.aliases[q].doScanning !in c.m.states && c.aliases[q].goingBack !in c.m.states)
  }

  /** The facts every phase keeps about the table t and the names `used` of the
      state generator: every state with an outgoing entry is a known name, and so
      are the source states and all aliases. */
  ghost predicate Sound(c: Ctx, t: Table, used: set<State>)
  {
    && Known(t, used)
    && (forall q | q in c.m.states :: q in used)
    && AliasesWithin(c.aliases, used)
  }

  /** A name just produced by the state generator has no entries, is not a source
      state and is no alias. */
  lemma FreshIsUntouched(c: Ctx, t: Table, used: set<State>, s: State)
    requires Sound(c, t, used) && s !in used
    ensures Untouched(t, s) && s !in c.m.states
    ensures forall q | q in c.aliases :: s != c.aliases[q].doScanning && s != c.aliases[q].goingBack
  {
  }
}
