/**
  The whole translation, `Translation::Translation` (translator.cpp:316-331 and
  the constructor in translator.h): build the encoded alphabet, the important
  idents and the state aliases, then run the four phases in the source's order
  (setup, scanning, transitions, clean-up) on one growing table.

  The iteration orders of the source's unordered containers are parameters:
  `pairs` is the order in which `letters_map_` is walked, `order` the one in
  which `state_aliases_` is walked.
 */
module Translation {
  import opened Machines
  import opened Encodings
  import opened SymbolSets
  import opened Alphabet
  import opened Context
  import opened Setup
  import opened Scanning
  import opened Transitions
  import opened Cleanup

  /** The walk orders: `pairs` lists every pair of Γ once, `order` every
      simulated state once. */
  ghost predicate Orders(m: TwoTrackMachine, pairs: seq<(Letter, Letter)>, order: seq<State>)
  {
    && NoDup(pairs) && (forall p :: p in pairs <==> p.0 in m.working && p.1 in m.working)
    && NoDup(order) && (forall q :: q in order <==> q in m.states && Simulated(m, q))
  }

  /** Two more reserved letters that no encoded symbol uses keep the encoding
      apart from them. */
  lemma EncodesReserved(lm: LettersMap, gamma: seq<Letter>, reserved: set<Letter>, known: set<Letter>, x: Letter, y: Letter)
    requires Encodes(lm, gamma, reserved) && (forall p | p in lm :: Within(lm[p], known))
    requires x !in known && y !in known
    ensures Encodes(lm, gamma, reserved + {x, y})
  {
    forall p | p in lm
      ensures Avoids(lm[p], reserved + {x, y})
    {
      assert Within(lm[p], known);
    }
  }

  /** The constructor's work before the first transition: the generators are
      seeded with the source states and Γ, then `create_double_letters_`,
      `create_important_idents_` and `create_state_aliases_` run in turn. */
  method BuildContext(m: TwoTrackMachine, pairs: seq<(Letter, Letter)>, order: seq<State>)
    returns (c: Ctx, states: SymbolSet)
    requires WellFormed(m) && Orders(m, pairs, order)
    ensures c.m == m && c.pairs == pairs && c.order == order
    ensures Ready(c)
    ensures AliasesWithin(c.aliases, states.used) && (forall q | q in m.states :: q in states.used)
  {
    var letters0 := Init(m.working);
    var states0 := Init(m.states);
    var lm, letters1 := CreateDoubleLetters(m.working, letters0);
    var ids, states1, letters2 := CreateImportantIdents(states0, letters1);
    var aliases, states2 := CreateStateAliases(m, states1, ids.semiStart);
    c := Ctx(m, lm, ids, aliases, pairs, order);
    states := states2;
    assert letters0.used == RawLetters(m);
    EncodesReserved(lm, m.working, letters0.used, letters1.used, ids.tapeStart, ids.wordEnd);
    ReadyOf(c, states0.used, states1.used, states2.used);
  }

  /** The pair and alias facts of Ready, from what the generators promise. */
  lemma ReadyOf(c: Ctx, used0: set<State>, used1: set<State>, used2: set<State>)
    requires Encodes(c.lm, c.m.working, RawLetters(c.m) + {c.ids.tapeStart, c.ids.wordEnd})
    requires WellFormed(c.m) && Orders(c.m, c.pairs, c.order) && c.ids.tapeStart !in RawLetters(c.m)
    requires forall q :: q in used0 <==> q in c.m.states
    requires c.ids.semiStart !in used0 && used1 == used0 + {c.ids.semiStart}
    requires forall q :: q in c.aliases <==> q in c.m.states && Simulated(c.m, q)
    requires c.m.initial in c.aliases && c.aliases[c.m.initial].doScanning == c.ids.semiStart
    requires forall q | q in c.aliases :: c.aliases[q].goingBack !in used1
    requires forall q | q in c.aliases && q != c.m.initial :: c.aliases[q].doScanning !in used1
    requires AliasesApart(c.aliases)
    ensures Ready(c)
  {
    forall p
      ensures p in c.pairs <==> p in c.lm
    {
      if p.0 in c.m.working && p.1 in c.m.working {
        assert (p.0, p.1) in c.lm;
      }
    }
  }

  /** What the phases rely on, in the light form they ask for it. */
  ghost predicate Phased(c: Ctx, used: set<State>)
  {
    && Cells(c) && SetupReady(c) && ScanAliases(c, used) && CleanOrder(c)
    && c.m.initial in c.m.states && c.m.initial in used
    && (forall q | q in c.aliases :: q in c.order && q in c.m.states && c.aliases[q].goingBack !in c.m.states)
    && (forall k | k in c.m.delta :: c.m.delta[k].top in c.m.working && c.m.delta[k].bottom in c.m.working)
    && (forall l | l in c.m.input :: l in c.m.working)
  }

  lemma PhasedOf(c: Ctx, used: set<State>)
    requires Ready(c) && AliasesWithin(c.aliases, used) && (forall q | q in c.m.states :: q in used)
    ensures Phased(c, used)
  {
    TablesCells(c);
    assert (c.m.blank, c.m.blank) in c.lm;
    assert forall l | l in c.m.input :: (l, c.m.blank) in c.lm;
  }

  /** The table after setup, as the scanning phase needs it: every key is a
      known name; the scanning entries and the return sweeps have no entries;
      the only source state with entries is the initial one, reading letters of
      Γ. */
  ghost predicate SetupClear(c: Ctx, t: Table, used: set<State>)
  {
    && Known(t, used)
    && (forall k, q | k in t && q in c.aliases :: k.0 != c.aliases[q].doScanning && k.0 != c.aliases[q].goingBack)
    && (forall k | k in t && k.0 in c.m.states :: k.1 in c.m.working)
  }

  /** The names of a fresh list are new since `used` and known after. */
  lemma FreshNames(mfb: State, first: seq<State>, moving: seq<State>, used: set<State>, used': set<State>)
    requires FreshList([mfb] + first + moving, used, used')
    ensures mfb !in used && mfb in used'
    ensures forall x | x in first :: x !in used && x in used'
    ensures forall x | x in moving :: x !in used && x in used'
  {
    var names := [mfb] + first + moving;
    assert names[0] == mfb;
    forall x | x in first
      ensures x !in used && x in used'
    {
      var i :| 0 <= i < |first| && first[i] == x;
      assert names[1 + i] == x;
    }
    forall x | x in moving
      ensures x !in used && x in used'
    {
      var i :| 0 <= i < |moving| && moving[i] == x;
      assert names[1 + |first| + i] == x;
    }
  }

  lemma SetupClearOf(c: Ctx, used: set<State>, t: Table, used': set<State>, mfb: State, first: seq<State>, moving: seq<State>)
    requires SetupReady(c) && ScanAliases(c, used) && c.m.initial in c.m.states && c.m.initial in used
    requires forall q | q in c.aliases :: c.aliases[q].goingBack !in c.m.states
    requires forall l | l in c.m.input :: l in c.m.working
    requires c.m.blank in c.m.working
    requires SetupDone(c, used, t, used', mfb, first, moving)
    ensures SetupClear(c, t, used') && ScanAliases(c, used')
  {
    FreshNames(mfb, first, moving, used, used');
    assert used <= used';
  }

  /** Setup, on the names known once the aliases exist. */
  method SetupStage(c: Ctx, states: SymbolSet)
    returns (t: Table, states': SymbolSet, mfb: State, first: seq<State>, moving: seq<State>)
    requires Phased(c, states.used)
    ensures Phased(c, states'.used) && AfterSetup(c, t, states'.used, mfb, first, moving)
  {
    t, states', mfb, first, moving := ProgramSetup(c, states);
    SetupClearOf(c, states.used, t, states'.used, mfb, first, moving);
  }

  /** The setup protocol's entries are in place and the table is clear for
      the scanning phase. */
  ghost predicate AfterSetup(c: Ctx, t: Table, used: set<State>, mfb: State, first: seq<State>, moving: seq<State>)
    requires SetupReady(c)
  {
    SetupEntries(c, t, mfb, first, moving) && SetupClear(c, t, used)
  }

  /** Every alias' scanning entry and sweeps are in place. */
  ghost predicate ScannedAll(c: Ctx, t: Table, found: FoundMap, allSims: map<State, SimMap>)
  {
    forall q | q in c.aliases :: ScannedState(c, t, c.aliases[q].doScanning, q, found, SimsAt(allSims, q))
  }

  /** After scanning, from the names `used` known before it to `used'`: the
      transition phase's entry conditions, and no return sweep has entries. */
  ghost predicate ClearForTrans(c: Ctx, used: set<State>, t: Table, used': set<State>, simulated: SimList)
  {
    && TransReady(c, simulated, used, used')
    && Known(t, used') && (forall j | 0 <= j < |simulated| :: Untouched(t, simulated[j].1))
    && (forall k | k in t && k.0 in c.m.states :: k.1 in c.m.working)
    && (forall q | q in c.aliases :: Untouched(t, c.aliases[q].goingBack))
  }

  /** After scanning: clear for the transitions, and the entries of setup and
      scanning. */
  ghost predicate AfterScan(c: Ctx, used: set<State>, t: Table, used': set<State>, mfb: State, first: seq<State>,
                            moving: seq<State>, found: FoundMap, simulated: SimList, allSims: map<State, SimMap>)
    requires SetupReady(c)
  {
    && ClearForTrans(c, used, t, used', simulated)
    && SetupEntries(c, t, mfb, first, moving) && ScannedAll(c, t, found, allSims)
    && simulated == Listings(c, c.order, allSims)
  }

  /** The scanning phase, once setup is done. */
  method ScanStage(c: Ctx, t: Table, states: SymbolSet)
    returns (t': Table, states': SymbolSet, found: FoundMap, simulated: SimList, allSims: map<State, SimMap>)
    requires Cells(c) && ScanAliases(c, states.used) && SetupClear(c, t, states.used)
    ensures ScanPhase(c, t, states.used, t', states'.used, found, simulated, allSims)
  {
    ScannableOf(c);
    t', states', found, simulated, allSims := ProgramScanning(c, t, states);
  }

  /** Scanning, then the facts the later phases need. */
  method ScanThen(c: Ctx, t1: Table, states1: SymbolSet, mfb: State, first: seq<State>, moving: seq<State>)
    returns (t2: Table, states2: SymbolSet, found: FoundMap, simulated: SimList, allSims: map<State, SimMap>)
    requires Phased(c, states1.used) && AfterSetup(c, t1, states1.used, mfb, first, moving)
    ensures AfterScan(c, states1.used, t2, states2.used, mfb, first, moving, found, simulated, allSims)
  {
    t2, states2, found, simulated, allSims := ScanStage(c, t1, states1);
    AfterScanOf(c, t1, states1.used, t2, states2.used, mfb, first, moving, found, simulated, allSims);
  }

  lemma AfterScanOf(c: Ctx, t1: Table, used1: set<State>, t2: Table, used2: set<State>, mfb: State, first: seq<State>,
                    moving: seq<State>, found: FoundMap, simulated: SimList, allSims: map<State, SimMap>)
    requires SetupReady(c) && AfterSetup(c, t1, used1, mfb, first, moving)
    requires ScanPhase(c, t1, used1, t2, used2, found, simulated, allSims)
    requires forall q | q in c.aliases :: q in c.order && q in c.m.states && c.aliases[q].goingBack !in c.m.states
    requires forall q | q in c.m.states :: q in used1
    requires forall k | k in c.m.delta :: c.m.delta[k].top in c.m.working && c.m.delta[k].bottom in c.m.working
    ensures AfterScan(c, used1, t2, used2, mfb, first, moving, found, simulated, allSims)
  {
    SetupEntriesKept(c, t1, t2, mfb, first, moving);
    ScannedAllOf(c, t2, found, allSims);
    ScanClear(c, t1, used1, t2, used2, found, simulated, allSims);
  }

  /** The scanning phase covers every alias, since the walk order lists them all. */
  lemma ScannedAllOf(c: Ctx, t: Table, found: FoundMap, allSims: map<State, SimMap>)
    requires forall q | q in c.aliases :: q in c.order
    requires forall q | q in c.order && q in c.aliases :: ScannedState(c, t, c.aliases[q].doScanning, q, found, SimsAt(allSims, q))
    ensures ScannedAll(c, t, found, allSims)
  {
  }

  /** After scanning, the table is clear for the transitions and the clean-up. */
  lemma ScanClear(c: Ctx, t1: Table, used1: set<State>, t2: Table, used2: set<State>, found: FoundMap,
                  simulated: SimList, allSims: map<State, SimMap>)
    requires SetupClear(c, t1, used1)
    requires used1 <= used2 && Known(t2, used2) && Extends(t1, t2) && SimsListed(c, t2, simulated, used1, used2)
    requires forall k | k in t2 && k !in t1 :: k.0 !in c.m.states
    requires forall k, q | k in t2 && k !in t1 && q in c.aliases :: k.0 != c.aliases[q].goingBack
    requires forall q | q in c.aliases :: q in c.m.states
    requires forall q | q in c.m.states :: q in used1
    requires forall k | k in c.m.delta :: c.m.delta[k].top in c.m.working && c.m.delta[k].bottom in c.m.working
    ensures ClearForTrans(c, used1, t2, used2, simulated)
  {
  }

  /** After the transitions, with `used` the names known before them: no
      return sweep has entries, each is known before the transitions and none
      is an alias of a simulated state. */
  ghost predicate ClearForClean(c: Ctx, used: set<State>, t: Table, simulated: SimList)
  {
    && (forall q | q in c.aliases :: Untouched(t, c.aliases[q].goingBack) && c.aliases[q].goingBack in used)
    && (forall q, j | q in c.aliases && 0 <= j < |simulated| :: c.aliases[q].goingBack != simulated[j].1)
  }

  /** After the transition phase, from the names `used'` known before it to
      `used''`: every state with entries is known, clear for the clean-up, and
      the entries of setup, scanning and the transitions. */
  ghost predicate AfterTrans(c: Ctx, used': set<State>, t: Table, used'': set<State>, mfb: State, first: seq<State>,
                             moving: seq<State>, found: FoundMap, simulated: SimList, allSims: map<State, SimMap>,
                             routes: seq<Route>)
    requires SetupReady(c)
  {
    && used' <= used'' && Known(t, used'') && ClearForClean(c, used', t, simulated)
    && SetupEntries(c, t, mfb, first, moving) && ScannedAll(c, t, found, allSims)
    && simulated == Listings(c, c.order, allSims)
    && TransEntries(c, t, simulated, routes) && AllMarked(c, used', used'', simulated, routes)
  }

  /** The transition phase, then the facts the clean-up needs. */
  method TransThen(c: Ctx, used1: set<State>, t2: Table, states2: SymbolSet, mfb: State, first: seq<State>,
                   moving: seq<State>, found: FoundMap, simulated: SimList, allSims: map<State, SimMap>)
    returns (t3: Table, states3: SymbolSet, routes: seq<Route>)
    requires Phased(c, used1) && AfterScan(c, used1, t2, states2.used, mfb, first, moving, found, simulated, allSims)
    ensures AfterTrans(c, states2.used, t3, states3.used, mfb, first, moving, found, simulated, allSims, routes)
  {
    t3, states3, routes := ProgramTransitions(c, t2, states2, simulated, used1);
    AfterTransOf(c, used1, t2, states2.used, t3, states3.used, mfb, first, moving, found, simulated, allSims, routes);
  }

  lemma AfterTransOf(c: Ctx, used1: set<State>, t2: Table, used2: set<State>, t3: Table, used3: set<State>,
                     mfb: State, first: seq<State>, moving: seq<State>, found: FoundMap, simulated: SimList,
                     allSims: map<State, SimMap>, routes: seq<Route>)
    requires SetupReady(c) && AfterScan(c, used1, t2, used2, mfb, first, moving, found, simulated, allSims)
    requires TransPhase(c, t2, used1, used2, t3, used3, simulated, routes)
    requires AliasesWithin(c.aliases, used1)
    requires forall q | q in c.aliases :: c.aliases[q].goingBack !in c.m.states
    ensures AfterTrans(c, used2, t3, used3, mfb, first, moving, found, simulated, allSims, routes)
  {
    EarlyKept(c, t2, t3, mfb, first, moving, found, allSims);
    var h := FirstHalt(c, simulated);
    TransClear(c, used1, t2, used2, t3, simulated, h);
  }

  /** The transitions leave the return sweeps clear: their entries come from
      names not known before scanning, or from a source state. */
  lemma TransClear(c: Ctx, used1: set<State>, t2: Table, used2: set<State>, t3: Table, simulated: SimList, h: nat)
    requires ClearForTrans(c, used1, t2, used2, simulated) && AliasesWithin(c.aliases, used1)
    requires forall q | q in c.aliases :: c.aliases[q].goingBack !in c.m.states
    requires forall k | k in t3 && k !in t2 :: k.0 !in used1 || (h < |simulated| && k.0 == simulated[h].0.state)
    ensures ClearForClean(c, used2, t3, simulated)
  {
    forall q, k | q in c.aliases && k in t3
      ensures k.0 != c.aliases[q].goingBack
    {
      if k !in t2 && h < |simulated| {
        assert simulated[h].0.state in c.m.states;
      }
    }
  }

  /** Later entries keep every alias' scanning entry and sweeps. */
  lemma ScannedAllKept(c: Ctx, t: Table, t': Table, found: FoundMap, allSims: map<State, SimMap>)
    requires ScannedAll(c, t, found, allSims) && Extends(t, t')
    ensures ScannedAll(c, t', found, allSims)
  {
    forall q | q in c.aliases
      ensures ScannedState(c, t', c.aliases[q].doScanning, q, found, SimsAt(allSims, q))
    {
      ScannedStateGrown(c, t, t', c.aliases[q].doScanning, q, found, SimsAt(allSims, q));
    }
  }

  /** The clean-up phase, then the translation's summary. */
  method CleanThen(c: Ctx, used2: set<State>, t3: Table, used3: set<State>, mfb: State, first: seq<State>,
                   moving: seq<State>, found: FoundMap, simulated: SimList, allSims: map<State, SimMap>,
                   routes: seq<Route>)
    returns (t4: Table)
    requires Cells(c) && CleanOrder(c) && SetupReady(c) && (forall q | q in c.aliases :: q in c.order)
    requires AfterTrans(c, used2, t3, used3, mfb, first, moving, found, simulated, allSims, routes)
    ensures Translated(c, t4, used3, mfb, first, moving, found, simulated, allSims, routes)
  {
    t4 := ProgramCleanup(c, t3);
    TranslatedOf(c, used2, t3, used3, t4, mfb, first, moving, found, simulated, allSims, routes);
  }

  /** Everything the translation leaves in the table t, with the names `used`
      known at the end: every state with entries is a known name; the setup
      protocol's entries; each alias' scanning entry and sweeps; the simulated
      states listed in the walk order; the transition phase's entries; and each
      alias' return sweep. */
  ghost predicate Translated(c: Ctx, t: Table, used: set<State>, mfb: State, first: seq<State>, moving: seq<State>,
                             found: FoundMap, simulated: SimList, allSims: map<State, SimMap>, routes: seq<Route>)
    requires SetupReady(c)
  {
    && Known(t, used)
    && SetupEntries(c, t, mfb, first, moving)
    && ScannedAll(c, t, found, allSims)
    && simulated == Listings(c, c.order, allSims)
    && TransEntries(c, t, simulated, routes)
    && (forall q | q in c.aliases :: CleanedUp(c, t, c.aliases[q]))
  }

  /** The clean-up keeps the earlier phases' entries and the known names: its
      entries leave return sweeps, which are known before the transitions and
      none of the simulated states' aliases. */
  lemma TranslatedOf(c: Ctx, used2: set<State>, t3: Table, used3: set<State>, t4: Table,
                     mfb: State, first: seq<State>, moving: seq<State>,
                     found: FoundMap, simulated: SimList, allSims: map<State, SimMap>, routes: seq<Route>)
    requires SetupReady(c) && AfterTrans(c, used2, t3, used3, mfb, first, moving, found, simulated, allSims, routes)
    requires CleanPhase(c, t3, t4)
    ensures Translated(c, t4, used3, mfb, first, moving, found, simulated, allSims, routes)
  {
    CleanKeys(c, used2, t3, t4, simulated);
    TransEntriesKept(c, t3, t4, simulated, routes, used2, used3);
    EarlyKept(c, t3, t4, mfb, first, moving, found, allSims);
  }

  /** The clean-up's entries leave return sweeps: names known before the
      transitions and no alias of a simulated state. */
  lemma CleanKeys(c: Ctx, used2: set<State>, t3: Table, t4: Table, simulated: SimList)
    requires ClearForClean(c, used2, t3, simulated)
    requires forall k | k in t4 && k !in t3 :: IsGoingBack(c, k.0)
    ensures forall k | k in t4 && k !in t3 :: k.0 in used2
    ensures forall k, j | k in t4 && k !in t3 && 0 <= j < |simulated| :: k.0 != simulated[j].1
  {
    forall k | k in t4 && k !in t3
      ensures k.0 in used2 && forall j | 0 <= j < |simulated| :: k.0 != simulated[j].1
    {
      var q :| q in c.aliases && c.aliases[q].goingBack == k.0;
    }
  }

  /** Later entries keep the setup protocol's and the scanning phase's. */
  lemma EarlyKept(c: Ctx, t: Table, t': Table, mfb: State, first: seq<State>, moving: seq<State>,
                  found: FoundMap, allSims: map<State, SimMap>)
    requires SetupReady(c) && SetupEntries(c, t, mfb, first, moving) && ScannedAll(c, t, found, allSims)
    requires Extends(t, t')
    ensures SetupEntries(c, t', mfb, first, moving) && ScannedAll(c, t', found, allSims)
  {
    SetupEntriesKept(c, t, t', mfb, first, moving);
    ScannedAllKept(c, t, t', found, allSims);
  }

  /** The phases in the source's order, on the context c and the names
      `states` known once the aliases exist. */
  method RunPhases(c: Ctx, states: SymbolSet)
    returns (t: Table, states': SymbolSet, mfb: State, first: seq<State>, moving: seq<State>,
             found: FoundMap, simulated: SimList, allSims: map<State, SimMap>, routes: seq<Route>)
    requires Phased(c, states.used)
    ensures Translated(c, t, states'.used, mfb, first, moving, found, simulated, allSims, routes)
  {
    var t1, states1, t2, states2, t3;
    t1, states1, mfb, first, moving := SetupStage(c, states);
    t2, states2, found, simulated, allSims := ScanThen(c, t1, states1, mfb, first, moving);
    t3, states', routes := TransThen(c, states1.used, t2, states2, mfb, first, moving, found, simulated, allSims);
    t := CleanThen(c, states2.used, t3, states'.used, mfb, first, moving, found, simulated, allSims, routes);
  }

  /** The translator: from a well-formed two-track machine and the walk orders
      of its unordered containers, the one-track transition table, with every
      phase's entries in place. */
  method Translate(m: TwoTrackMachine, pairs: seq<(Letter, Letter)>, order: seq<State>)
    returns (c: Ctx, t: Table, states: SymbolSet, mfb: State, first: seq<State>, moving: seq<State>,
             found: FoundMap, simulated: SimList, allSims: map<State, SimMap>, routes: seq<Route>)
    requires WellFormed(m) && Orders(m, pairs, order)
    ensures c.m == m && c.pairs == pairs && c.order == order && Ready(c)
    ensures SetupReady(c) && Translated(c, t, states.used, mfb, first, moving, found, simulated, allSims, routes)
  {
    var states0;
    c, states0 := BuildContext(m, pairs, order);
    PhasedOf(c, states0.used);
    t, states, mfb, first, moving, found, simulated, allSims, routes := RunPhases(c, states0);
  }
}
