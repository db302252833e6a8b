/**
  The records of the translator (translator.h): how one cell of the two-track
  tape is written as one symbol of the one-track machine, the two aliases of a
  source state, the simulated states, and the top/bottom role selectors.
 */
module Encodings {
  import opened Machines

  /** Names built once, before any transition is emitted. */
  datatype ImportantIdents = ImportantIdents(semiStart: State, tapeStart: Letter, wordEnd: Letter)

  /** The four encoded symbols of one letter pair (top, bottom). */
  datatype LetterEncoding = LetterEncoding(noHead: Letter, topHead: Letter, bottomHead: Letter, bothHeads: Letter)

  /** The two aliases of a non-terminal source state. */
  datatype StateEncoding = StateEncoding(doScanning: State, goingBack: State)

  /** A source state together with the letters under the top and the bottom
      head.  Dafny's datatype equality is the componentwise equality of the
      source's `operator==`. */
  datatype SimulatedState = SimulatedState(state: State, top: Letter, bottom: Letter)

  type LettersMap = map<(Letter, Letter), LetterEncoding>

  /** Which head markers sit on a cell. */
  datatype Heads = Heads(top: bool, bottom: bool)

  const NoMarks := Heads(false, false)
  const BothMarks := Heads(true, true)

  /** The encoded symbol of a cell whose pair is encoded by e and whose markers are h. */
  function Sym(e: LetterEncoding, h: Heads): Letter
  {
    if h.top && h.bottom then e.bothHeads
    else if h.top then e.topHead
    else if h.bottom then e.bottomHead
    else e.noHead
  }

  /** The two role selectors `TopHead` and `BottomHead`. */
  datatype Role = TopHead | BottomHead

  function Other(r: Role): Role
  {
    if r.TopHead? then BottomHead else TopHead
  }

  /** The letter on r's track of a pair. */
  function Track(r: Role, p: (Letter, Letter)): Letter
  {
    if r.TopHead? then p.0 else p.1
  }

  /** Whether r's marker is among h. */
  function Mine(r: Role, h: Heads): bool
  {
    if r.TopHead? then h.top else h.bottom
  }

  /** h with r's marker set to v and the other marker unchanged. */
  function WithMine(r: Role, h: Heads, v: bool): (h': Heads)
    ensures Mine(r, h') == v && Mine(Other(r), h') == Mine(Other(r), h)
  {
    if r.TopHead? then h.(top := v) else h.(bottom := v)
  }

  /** Exactly r's marker. */
  function Only(r: Role): (h: Heads)
    ensures Mine(r, h) && !Mine(Other(r), h)
  {
    if r.TopHead? then Heads(true, false) else Heads(false, true)
  }

  /** `H::this_other_not`: the symbol with this head's marker only. */
  function ThisOtherNot(r: Role, e: LetterEncoding): (s: Letter)
    ensures s == Sym(e, Only(r))
  {
    if r.TopHead? then e.topHead else e.bottomHead
  }

  /** `H::other_this_not`: the symbol with the other head's marker only. */
  function OtherThisNot(r: Role, e: LetterEncoding): (s: Letter)
    ensures s == Sym(e, Only(Other(r)))
  {
    if r.TopHead? then e.bottomHead else e.topHead
  }

  /** `H::make_pair`: puts this head's letter on this head's track. */
  function MakePair(r: Role, mine: Letter, other: Letter): (p: (Letter, Letter))
    ensures Track(r, p) == mine && Track(Other(r), p) == other
  {
    if r.TopHead? then (mine, other) else (other, mine)
  }

  /** The two role selectors are mirror images of each other. */
  lemma RolesMirror(e: LetterEncoding, a: Letter, b: Letter)
    ensures MakePair(TopHead, a, b) == (a, b) && MakePair(BottomHead, a, b) == (b, a)
    ensures ThisOtherNot(BottomHead, e) == OtherThisNot(TopHead, e)
    ensures OtherThisNot(BottomHead, e) == ThisOtherNot(TopHead, e)
    ensures forall r :: MakePair(Other(r), a, b) == MakePair(r, b, a)
    ensures forall r :: ThisOtherNot(Other(r), e) == OtherThisNot(r, e)
  {
  }

  /** The four symbols of one encoding are pairwise distinct. */
  predicate Spread(e: LetterEncoding)
  {
    && e.noHead != e.topHead && e.noHead != e.bottomHead && e.noHead != e.bothHeads
    && e.topHead != e.bottomHead && e.topHead != e.bothHeads
    && e.bottomHead != e.bothHeads
  }

  /** No symbol of e is a symbol of f. */
  predicate Apart(e: LetterEncoding, f: LetterEncoding)
  {
    && e.noHead != f.noHead && e.noHead != f.topHead && e.noHead != f.bottomHead && e.noHead != f.bothHeads
    && e.topHead != f.noHead && e.topHead != f.topHead && e.topHead != f.bottomHead && e.topHead != f.bothHeads
    && e.bottomHead != f.noHead && e.bottomHead != f.topHead && e.bottomHead != f.bottomHead && e.bottomHead != f.bothHeads
    && e.bothHeads != f.noHead && e.bothHeads != f.topHead && e.bothHeads != f.bottomHead && e.bothHeads != f.bothHeads
  }

  /** All four symbols of e lie in s. */
  predicate Within(e: LetterEncoding, s: set<Letter>)
  {
    e.noHead in s && e.topHead in s && e.bottomHead in s && e.bothHeads in s
  }

  /** No symbol of e lies in s. */
  predicate Avoids(e: LetterEncoding, s: set<Letter>)
  {
    e.noHead !in s && e.topHead !in s && e.bottomHead !in s && e.bothHeads !in s
  }

  /** lm is total on gamma × gamma, has no other key, and all its symbols are
      pairwise distinct and outside `reserved`. */
  predicate Encodes(lm: LettersMap, gamma: seq<Letter>, reserved: set<Letter>)
  {
    && (forall p | p in lm :: p.0 in gamma && p.1 in gamma)
    && (forall a, b {:trigger (a, b) in lm} | a in gamma && b in gamma :: (a, b) in lm)
    && (forall p | p in lm :: Spread(lm[p]) && Avoids(lm[p], reserved))
    && (forall p, q | p in lm && q in lm && p != q :: Apart(lm[p], lm[q]))
  }

  /** Symbols of a well-built map determine the pair and the markers. */
  lemma SymInjective(lm: LettersMap, gamma: seq<Letter>, reserved: set<Letter>,
                     p: (Letter, Letter), h: Heads, q: (Letter, Letter), h': Heads)
    requires Encodes(lm, gamma, reserved) && p in lm && q in lm
    requires Sym(lm[p], h) == Sym(lm[q], h')
    ensures p == q && h == h'
  {
  }

  /** The pairs (a, b) for a in rows and b in cols, row by row: the order in
      which the model walks `letters_map_`. */
  function Row(a: Letter, cols: seq<Letter>): (r: seq<(Letter, Letter)>)
    ensures |r| == |cols|
    ensures forall j | 0 <= j < |cols| :: r[j] == (a, cols[j])
  {
    seq(|cols|, j requires 0 <= j < |cols| => (a, cols[j]))
  }

  function AllPairs(rows: seq<Letter>, cols: seq<Letter>): (r: seq<(Letter, Letter)>)
    ensures forall p :: p in r <==> p.0 in rows && p.1 in cols
    decreases |rows|
  {
    if |rows| == 0 then []
    else
      var rest := AllPairs(rows[1..], cols);
      assert forall a | a in rows :: a == rows[0] || a in rows[1..];
      Row(rows[0], cols) + rest
  }

  lemma {:induction false} AllPairsNoDup(rows: seq<Letter>, cols: seq<Letter>)
    requires NoDup(rows) && NoDup(cols)
    ensures NoDup(AllPairs(rows, cols))
    decreases |rows|
  {
    if |rows| > 0 {
      var head, rest := Row(rows[0], cols), AllPairs(rows[1..], cols);
      AllPairsNoDup(rows[1..], cols);
      assert rows[0] !in rows[1..];
      assert AllPairs(rows, cols) == head + rest;
      forall i, j | 0 <= i < j < |head + rest|
        ensures (head + rest)[i] != (head + rest)[j]
      {
        if j < |head| {
        } else if i < |head| {
          assert rest[j - |head|] in rest;
        }
      }
    }
  }
}
