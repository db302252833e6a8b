/**
  The tables built before any transition (translator.cpp:3-48): the encoded
  alphabet, the important identifiers, and the state aliases.
 */
module Alphabet {
  import opened Machines
  import opened Encodings
  import opened SymbolSets

  /** The four encoded symbols of one pair, named after it (translator.cpp:7-14). */
  method GenerateEncoding(letters: SymbolSet, top: Letter, bottom: Letter) returns (e: LetterEncoding, letters': SymbolSet)
    ensures Spread(e) && Avoids(e, letters.used)
    ensures letters'.used == letters.used + {e.noHead, e.topHead, e.bottomHead, e.bothHeads}
  {
    var l := letters;
    var noHead, topHead, bottomHead, bothHeads;
    noHead, l := GenerateHinted(l, top + "-" + bottom);
    topHead, l := GenerateHinted(l, top + "_H-" + bottom);
    bottomHead, l := GenerateHinted(l, top + "-" + bottom + "_H");
    bothHeads, l := GenerateHinted(l, top + "_H-" + bottom + "_H");
    e := LetterEncoding(noHead, topHead, bottomHead, bothHeads);
    letters' := l;
  }

  /** Every encoding in lm has four distinct symbols, none of them reserved,
      all of them known, and no two encodings share a symbol. */
  predicate Allotted(lm: LettersMap, reserved: set<Letter>, known: set<Letter>)
  {
    && (forall p | p in lm :: Spread(lm[p]) && Avoids(lm[p], reserved) && Within(lm[p], known))
    && (forall p, q | p in lm && q in lm && p != q :: Apart(lm[p], lm[q]))
  }

  /** A new encoding made of unknown symbols keeps the map allotted. */
  lemma AllottedAdd(lm: LettersMap, reserved: set<Letter>, known: set<Letter>, key: (Letter, Letter), e: LetterEncoding)
    requires Allotted(lm, reserved, known) && reserved <= known
    requires Spread(e) && Avoids(e, known)
    ensures Allotted(lm[key := e], reserved, known + {e.noHead, e.topHead, e.bottomHead, e.bothHeads})
  {
  }

  /** Every pair (a, b) with b in gamma has an encoding. */
  ghost predicate RowDone(lm: LettersMap, a: Letter, gamma: seq<Letter>)
  {
    forall b | b in gamma :: (a, b) in lm
  }

  /** One turn of the outer loop of translator.cpp:5-16: the pairs (a, b) for all
      b in gamma, in order. */
  method EncodeRow(gamma: seq<Letter>, a: Letter, lm: LettersMap, letters: SymbolSet, reserved: set<Letter>)
    returns (lm': LettersMap, letters': SymbolSet)
    requires NoDup(gamma) && Allotted(lm, reserved, letters.used) && reserved <= letters.used
    requires forall p | p in lm :: p.0 != a
    ensures Allotted(lm', reserved, letters'.used) && letters.used <= letters'.used
    ensures forall p | p in lm' :: p in lm || (p.0 == a && p.1 in gamma)
    ensures forall p | p in lm :: p in lm'
    ensures RowDone(lm', a, gamma)
  {
    lm', letters' := lm, letters;
    var j := 0;
    while j < |gamma|
      invariant 0 <= j <= |gamma|
      invariant Allotted(lm', reserved, letters'.used) && letters.used <= letters'.used
      invariant forall p | p in lm' :: p in lm || (p.0 == a && exists k | 0 <= k < j :: p.1 == gamma[k])
      invariant forall p | p in lm :: p in lm'
      invariant forall k | 0 <= k < j :: (a, gamma[k]) in lm'
    {
      var e;
      ghost var known := letters'.used;
      e, letters' := GenerateEncoding(letters', a, gamma[j]);
      AllottedAdd(lm', reserved, known, (a, gamma[j]), e);
      lm' := lm'[(a, gamma[j]) := e];
      j := j + 1;
    }
  }

  /** `create_double_letters_`: one encoding for every ordered pair of Γ, all
      symbols fresh and pairwise distinct. */
  method CreateDoubleLetters(gamma: seq<Letter>, letters: SymbolSet) returns (lm: LettersMap, letters': SymbolSet)
    requires NoDup(gamma)
    ensures Encodes(lm, gamma, letters.used)
    ensures forall p | p in lm :: Within(lm[p], letters'.used)
    ensures letters.used <= letters'.used
  {
    lm, letters' := map[], letters;
    var i := 0;
    while i < |gamma|
      invariant RowsDone(lm, gamma, letters.used, letters'.used, i)
      decreases |gamma| - i
    {
      lm, letters' := EncodeNextRow(gamma, lm, letters', letters.used, i);
      i := i + 1;
    }
    RowsEncode(lm, gamma, letters.used, letters'.used);
  }

  /** The invariant of the outer loop after i rows: the encodings so far are
      allotted and cover exactly the rows of the first i letters. */
  ghost predicate RowsDone(lm: LettersMap, gamma: seq<Letter>, reserved: set<Letter>, known: set<Letter>, i: nat)
  {
    && i <= |gamma| && Allotted(lm, reserved, known) && reserved <= known
    && (forall p | p in lm :: p.1 in gamma && p.0 in gamma[..i])
    && (forall k | 0 <= k < i :: RowDone(lm, gamma[k], gamma))
  }

  /** One turn of the outer loop. */
  method EncodeNextRow(gamma: seq<Letter>, lm: LettersMap, letters: SymbolSet, reserved: set<Letter>, i: nat)
    returns (lm': LettersMap, letters': SymbolSet)
    requires NoDup(gamma) && i < |gamma| && RowsDone(lm, gamma, reserved, letters.used, i)
    ensures RowsDone(lm', gamma, reserved, letters'.used, i + 1)
  {
    RowFresh(lm, gamma, reserved, letters.used, i);
    lm', letters' := EncodeRow(gamma, gamma[i], lm, letters, reserved);
    RowsStep(lm, lm', gamma, reserved, letters'.used, i);
  }

  lemma RowFresh(lm: LettersMap, gamma: seq<Letter>, reserved: set<Letter>, known: set<Letter>, i: nat)
    requires NoDup(gamma) && i < |gamma| && RowsDone(lm, gamma, reserved, known, i)
    ensures forall p | p in lm :: p.0 != gamma[i]
  {
    forall p | p in lm
      ensures p.0 != gamma[i]
    {
      var k :| 0 <= k < i && gamma[..i][k] == p.0;
      assert gamma[k] == p.0;
    }
  }

  lemma RowsStep(lm: LettersMap, lm': LettersMap, gamma: seq<Letter>, reserved: set<Letter>, known': set<Letter>, i: nat)
    requires i < |gamma| && (forall p | p in lm :: p.1 in gamma && p.0 in gamma[..i])
    requires forall k | 0 <= k < i :: RowDone(lm, gamma[k], gamma)
    requires Allotted(lm', reserved, known') && reserved <= known'
    requires forall p | p in lm' :: p in lm || (p.0 == gamma[i] && p.1 in gamma)
    requires forall p | p in lm :: p in lm'
    requires RowDone(lm', gamma[i], gamma)
    ensures RowsDone(lm', gamma, reserved, known', i + 1)
  {
    assert gamma[..i + 1] == gamma[..i] + [gamma[i]];
    forall k | 0 <= k < i
      ensures RowDone(lm', gamma[k], gamma)
    {
      assert RowDone(lm, gamma[k], gamma);
    }
  }

  /** After all rows, the map encodes Γ × Γ. */
  lemma RowsEncode(lm: LettersMap, gamma: seq<Letter>, reserved: set<Letter>, known: set<Letter>)
    requires RowsDone(lm, gamma, reserved, known, |gamma|)
    ensures Encodes(lm, gamma, reserved)
    ensures forall p | p in lm :: Within(lm[p], known)
  {
    assert gamma[..|gamma|] == gamma;
    forall a, b | a in gamma && b in gamma
      ensures (a, b) in lm
    {
      var k :| 0 <= k < |gamma| && gamma[k] == a;
      assert RowDone(lm, gamma[k], gamma);
    }
  }

  /** `create_important_idents_`: the semi-start state and the two sentinel
      letters, all fresh. */
  method CreateImportantIdents(states: SymbolSet, letters: SymbolSet)
    returns (ids: ImportantIdents, states': SymbolSet, letters': SymbolSet)
    ensures ids.semiStart !in states.used && states'.used == states.used + {ids.semiStart}
    ensures ids.tapeStart !in letters.used && ids.wordEnd !in letters.used && ids.tapeStart != ids.wordEnd
    ensures letters'.used == letters.used + {ids.tapeStart, ids.wordEnd}
  {
    var semiStart, tapeStart, wordEnd;
    semiStart, states' := GenerateHinted(states, "semi-start");
    tapeStart, letters' := GenerateHinted(letters, "tape-start");
    wordEnd, letters' := GenerateHinted(letters', "word-end");
    ids := ImportantIdents(semiStart, tapeStart, wordEnd);
  }

  /** The source states that get aliases, in the order the model walks
      `state_aliases_`. */
  function AliasedStates(m: TwoTrackMachine, qs: seq<State>): (r: seq<State>)
    ensures forall q :: q in r <==> q in qs && Simulated(m, q)
    ensures NoDup(qs) ==> NoDup(r)
    decreases |qs|
  {
    if |qs| == 0 then []
    else
      var rest := AliasedStates(m, qs[1..]);
      assert forall q | q in qs :: q == qs[0] || q in qs[1..];
      assert NoDup(qs) ==> qs[0] !in qs[1..];
      if Simulated(m, qs[0]) then [qs[0]] + rest else rest
  }

  /** All alias states are pairwise distinct. */
  predicate AliasesApart(aliases: map<State, StateEncoding>)
  {
    && (forall q | q in aliases :: aliases[q].doScanning != aliases[q].goingBack)
    && (forall q, q' | q in aliases && q' in aliases && q != q' ::
          && aliases[q].doScanning != aliases[q'].doScanning
          && aliases[q].doScanning != aliases[q'].goingBack
          && aliases[q].goingBack != aliases[q'].goingBack)
  }

  /** Every alias state lies in s. */
  predicate AliasesWithin(aliases: map<State, StateEncoding>, s: set<State>)
  {
    forall q | q in aliases :: aliases[q].doScanning in s && aliases[q].goingBack in s
  }

  /** Adding an alias whose return sweep is an unknown name, and whose scanning
      entry is unknown too or the fixed `semi` name no other alias uses, keeps the
      aliases apart. */
  lemma AliasesAdd(aliases: map<State, StateEncoding>, known: set<State>, q: State, enc: StateEncoding, semi: State)
    requires AliasesApart(aliases) && AliasesWithin(aliases, known) && semi in known
    requires q !in aliases
    requires enc.goingBack !in known && enc.goingBack != enc.doScanning
    requires enc.doScanning !in known || (enc.doScanning == semi && forall p | p in aliases :: aliases[p].doScanning != semi && aliases[p].goingBack != semi)
    ensures AliasesApart(aliases[q := enc])
  {
  }

  /** `create_state_aliases_`: every state but the accepting and the rejecting one
      gets a scanning entry and a return sweep; the initial state's scanning entry
      is the semi-start state.  All other alias names are fresh. */
  method CreateStateAliases(m: TwoTrackMachine, states: SymbolSet, semiStart: State)
    returns (aliases: map<State, StateEncoding>, states': SymbolSet)
    requires NoDup(m.states) && semiStart in states.used
    ensures forall q :: q in aliases <==> q in m.states && Simulated(m, q)
    ensures m.initial in m.states ==> m.initial in aliases && aliases[m.initial].doScanning == semiStart
    ensures forall q | q in aliases :: aliases[q].goingBack !in states.used
    ensures forall q | q in aliases && q != m.initial :: aliases[q].doScanning !in states.used
    ensures AliasesApart(aliases)
    ensures AliasesWithin(aliases, states'.used)
    ensures states.used <= states'.used
  {
    aliases, states' := map[], states;
    var i := 0;
    while i < |m.states|
      invariant 0 <= i <= |m.states|
      invariant forall q | q in aliases :: Simulated(m, q) && exists j | 0 <= j < i :: q == m.states[j]
      invariant forall j | 0 <= j < i && Simulated(m, m.states[j]) :: m.states[j] in aliases
      invariant m.initial in aliases ==> aliases[m.initial].doScanning == semiStart
      invariant forall q | q in aliases :: aliases[q].goingBack !in states.used
      invariant forall q | q in aliases && q != m.initial :: aliases[q].doScanning !in states.used
      invariant AliasesApart(aliases)
      invariant AliasesWithin(aliases, states'.used)
      invariant states.used <= states'.used
    {
      var q := m.states[i];
      ghost var known := states'.used;
      if q == m.initial {
        var back;
        back, states' := GenerateHinted(states', q + "-going-back");
        AliasesAdd(aliases, known, q, StateEncoding(semiStart, back), semiStart);
        aliases := aliases[q := StateEncoding(semiStart, back)];
      } else if q != m.rejecting && q != m.accepting {
        var scan, back;
        scan, states' := GenerateHinted(states', q + "-start-scanning");
        back, states' := GenerateHinted(states', q + "-going-back");
        AliasesAdd(aliases, known, q, StateEncoding(scan, back), semiStart);
        aliases := aliases[q := StateEncoding(scan, back)];
      }
      i := i + 1;
    }
  }
}
