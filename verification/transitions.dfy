/**
  The transition phase, `program_transitions_` and `program_reject_accept_`
  (translator.cpp:195-297).  Each simulated state `<q>-<a>-<b>` stands for the
  source machine in state q reading a on the top track and b on the bottom
  track, with the scanning head resting on the cell of the marker it met
  second.  For a source transition q, (a, b) -> q', (a', b'), (m, n) it writes:

  - from `<q>-<a>-<b>`: a choice between two routes, on the marker found under
    the head (top route on the top marker or on both markers, bottom route on
    the bottom marker);
  - the top route: rewrite the top letter and move the top marker, walk left
    to the bottom marker, rewrite the bottom letter and move the bottom
    marker, then go back through q''s going-back state;
  - the bottom route: the same with the roles swapped.

  A transition into the accepting or the rejecting state instead writes a
  blank and enters that state, and ends the phase.
 */
module Transitions {
  import opened Machines
  import opened Scanning
  import opened Encodings
  import opened SymbolSets
  import opened Context
  import opened Relocation

  /** One entry written from a state that has just recognised a simulated
      state: on the symbol s it keeps s (or, for a halting transition, writes a
      blank), does not move and enters `next`. */
  function Choice(c: Ctx, s: Letter, next: State, halt: bool): Entry
  {
    Entry(s, Action(next, if halt then c.m.blank else s, Stay))
  }

  /** The two entries of the loop over Γ for the letter l
      (translator.cpp:224-239 and 277-290): the top marker alone over (a, l),
      and the bottom marker alone over (l, b). */
  function ChoicePair(c: Ctx, a: Letter, b: Letter, topNext: State, bottomNext: State, halt: bool, l: Letter): seq<Entry>
  {
    [ Choice(c, Cell(c, (a, l), Only(TopHead)), topNext, halt),
      Choice(c, Cell(c, (l, b), Only(BottomHead)), bottomNext, halt) ]
  }

  /** All entries of that loop, then the entry for both markers over (a, b)
      (translator.cpp:241-248 and 292-296), which takes the top route. */
  function ChoiceEntries(c: Ctx, a: Letter, b: Letter, topNext: State, bottomNext: State, halt: bool): seq<Entry>
  {
    FlatMap(c.m.working, l => ChoicePair(c, a, b, topNext, bottomNext, halt, l))
      + [Choice(c, Cell(c, (a, b), BothMarks), topNext, halt)]
  }

  /** What the choice entries leave in t for the state `from`: wherever the
      head rests on a cell showing a under the top marker alone, it enters
      `topNext`; on b under the bottom marker alone, `bottomNext`; on (a, b)
      under both markers, `topNext`.  The cell keeps its symbol, or becomes a
      blank when `halt`, and the head stays. */
  ghost predicate Chosen(c: Ctx, t: Table, from: State, a: Letter, b: Letter, topNext: State, bottomNext: State, halt: bool)
  {
    && (forall l | l in c.m.working ::
          && Maps(t, from, Cell(c, (a, l), Only(TopHead)),
                  Action(topNext, if halt then c.m.blank else Cell(c, (a, l), Only(TopHead)), Stay))
          && Maps(t, from, Cell(c, (l, b), Only(BottomHead)),
                  Action(bottomNext, if halt then c.m.blank else Cell(c, (l, b), Only(BottomHead)), Stay)))
    && Maps(t, from, Cell(c, (a, b), BothMarks), Action(topNext, if halt then c.m.blank else Cell(c, (a, b), BothMarks), Stay))
  }

  /** The choice entries read distinct symbols, none of them a letter of Γ. */
  ghost predicate ChoiceReady(c: Ctx, a: Letter, b: Letter, topNext: State, bottomNext: State, halt: bool)
  {
    && DistinctReads(ChoiceEntries(c, a, b, topNext, bottomNext, halt))
    && (forall e | e in ChoiceEntries(c, a, b, topNext, bottomNext, halt) :: e.read !in c.m.working)
  }

  lemma ChoicePairApart(c: Ctx, a: Letter, b: Letter, topNext: State, bottomNext: State, halt: bool, x: Letter, y: Letter)
    requires Cells(c) && a in c.m.working && b in c.m.working && x in c.m.working && y in c.m.working
    ensures DistinctReads(ChoicePair(c, a, b, topNext, bottomNext, halt, x))
    ensures x != y ==> ReadsApart(ChoicePair(c, a, b, topNext, bottomNext, halt, x), ChoicePair(c, a, b, topNext, bottomNext, halt, y))
  {
    assert (a, x) in c.lm && (x, b) in c.lm && (a, y) in c.lm && (y, b) in c.lm;
    CellsApart(c, (a, x), Only(TopHead), (x, b), Only(BottomHead));
    if x != y {
      CellsApart(c, (a, x), Only(TopHead), (a, y), Only(TopHead));
      CellsApart(c, (a, x), Only(TopHead), (y, b), Only(BottomHead));
      CellsApart(c, (x, b), Only(BottomHead), (a, y), Only(TopHead));
      CellsApart(c, (x, b), Only(BottomHead), (y, b), Only(BottomHead));
    }
  }

  /** The entry for both markers reads no symbol the loop reads. */
  lemma BothApart(c: Ctx, a: Letter, b: Letter, topNext: State, bottomNext: State, halt: bool)
    requires Cells(c) && a in c.m.working && b in c.m.working
    ensures ReadsApart(FlatMap(c.m.working, l => ChoicePair(c, a, b, topNext, bottomNext, halt, l)),
                       [Choice(c, Cell(c, (a, b), BothMarks), topNext, halt)])
  {
    var f := l => ChoicePair(c, a, b, topNext, bottomNext, halt, l);
    var es := FlatMap(c.m.working, f);
    assert (a, b) in c.lm;
    forall i | 0 <= i < |es|
      ensures es[i].read != Cell(c, (a, b), BothMarks)
    {
      assert es[i] in es;
      var l :| l in c.m.working && es[i] in f(l);
      assert (a, l) in c.lm && (l, b) in c.lm;
      CellsApart(c, (a, l), Only(TopHead), (a, b), BothMarks);
      CellsApart(c, (l, b), Only(BottomHead), (a, b), BothMarks);
    }
  }

  /** No choice entry reads a letter of Γ. */
  lemma ChoiceEncoded(c: Ctx, a: Letter, b: Letter, topNext: State, bottomNext: State, halt: bool)
    requires Cells(c) && a in c.m.working && b in c.m.working
    ensures forall e | e in ChoiceEntries(c, a, b, topNext, bottomNext, halt) :: e.read !in c.m.working
  {
    var f := l => ChoicePair(c, a, b, topNext, bottomNext, halt, l);
    var es := ChoiceEntries(c, a, b, topNext, bottomNext, halt);
    forall e | e in es
      ensures e.read !in c.m.working
    {
      if e in FlatMap(c.m.working, f) {
        var l :| l in c.m.working && e in f(l);
        ChoicePairEncoded(c, a, b, topNext, bottomNext, halt, l);
      } else {
        assert (a, b) in c.lm;
        CellIsEncoded(c, (a, b), BothMarks);
      }
    }
  }

  lemma ChoicePairEncoded(c: Ctx, a: Letter, b: Letter, topNext: State, bottomNext: State, halt: bool, l: Letter)
    requires Unique(c) && (a, l) in c.lm && (l, b) in c.lm
    ensures forall e | e in ChoicePair(c, a, b, topNext, bottomNext, halt, l) :: e.read !in c.m.working
  {
    CellIsEncoded(c, (a, l), Only(TopHead));
    CellIsEncoded(c, (l, b), Only(BottomHead));
  }

  lemma ChoiceReadyOf(c: Ctx, a: Letter, b: Letter, topNext: State, bottomNext: State, halt: bool)
    requires Cells(c) && a in c.m.working && b in c.m.working
    ensures ChoiceReady(c, a, b, topNext, bottomNext, halt)
  {
    var f := l => ChoicePair(c, a, b, topNext, bottomNext, halt, l);
    forall x, y | x in c.m.working && y in c.m.working
      ensures DistinctReads(f(x)) && (x != y ==> ReadsApart(f(x), f(y)))
    {
      ChoicePairApart(c, a, b, topNext, bottomNext, halt, x, y);
    }
    FlatMapDistinct(c.m.working, f);
    BothApart(c, a, b, topNext, bottomNext, halt);
    DistinctAppend(FlatMap(c.m.working, f), [Choice(c, Cell(c, (a, b), BothMarks), topNext, halt)]);
    ChoiceEncoded(c, a, b, topNext, bottomNext, halt);
  }

  /** Once every choice entry is in the table, the choice is made. */
  lemma ChosenOf(c: Ctx, t: Table, from: State, a: Letter, b: Letter, topNext: State, bottomNext: State, halt: bool)
    requires forall e | e in ChoiceEntries(c, a, b, topNext, bottomNext, halt) :: Maps(t, from, e.read, e.act)
    ensures Chosen(c, t, from, a, b, topNext, bottomNext, halt)
  {
    var f := l => ChoicePair(c, a, b, topNext, bottomNext, halt, l);
    var loop := FlatMap(c.m.working, f);
    var both := Choice(c, Cell(c, (a, b), BothMarks), topNext, halt);
    assert forall e | e in loop :: e in loop + [both];
    assert both in loop + [both];
    forall l | l in c.m.working
      ensures && Maps(t, from, Cell(c, (a, l), Only(TopHead)),
                      Action(topNext, if halt then c.m.blank else Cell(c, (a, l), Only(TopHead)), Stay))
              && Maps(t, from, Cell(c, (l, b), Only(BottomHead)),
                      Action(bottomNext, if halt then c.m.blank else Cell(c, (l, b), Only(BottomHead)), Stay))
    {
      FlatMapMaps(t, from, c.m.working, f, l);
      assert f(l)[0] in f(l) && f(l)[1] in f(l);
    }
  }

  /** The choice entries from `from`, all of whose keys are new. */
  method EmitChoice(c: Ctx, t: Table, from: State, a: Letter, b: Letter, topNext: State, bottomNext: State, halt: bool)
    returns (t': Table)
    requires ChoiceReady(c, a, b, topNext, bottomNext, halt)
    requires forall e | e in ChoiceEntries(c, a, b, topNext, bottomNext, halt) :: (from, e.read) !in t
    ensures forall k | k in t' && k !in t :: k.0 == from && k.1 !in c.m.working
    ensures Extends(t, t')
    ensures Chosen(c, t', from, a, b, topNext, bottomNext, halt)
  {
    var es := ChoiceEntries(c, a, b, topNext, bottomNext, halt);
    t' := Emit(t, from, es);
    ChosenOf(c, t', from, a, b, topNext, bottomNext, halt);
  }

  /** The letter a transition writes on r's track, and r's head move. */
  function Written(r: Role, tt: TransitionTarget): Letter
  {
    Track(r, (tt.top, tt.bottom))
  }

  function HeadMove(r: Role, tt: TransitionTarget): Move
  {
    if r.TopHead? then tt.topMove else tt.bottomMove
  }

  /** The states of one route after the choice: `intermediate` and the found
      state of the source, and the marking states of its two `program_move_`
      calls. */
  datatype Leg = Leg(intermediate: State, found: State, firstMark: State, secondMark: State)

  /** The states a simulated state's transition adds: the two entry states of
      the routes (`move_top_first`, `move_bottom_first`) and the routes. */
  datatype Route = Route(moveTopFirst: State, moveBottomFirst: State, topFirst: Leg, bottomFirst: Leg)

  /** The route that starts with role r, from `start` to `back`: r's letter
      a' is written and r's marker moved; the search walks left to the other
      head's marker; the other letter is written and the other marker moved,
      ending in `back`. */
  ghost predicate Relayed(c: Ctx, t: Table, r: Role, s: SimulatedState, tt: TransitionTarget,
                          start: State, back: State, leg: Leg)
  {
    var here := (s.top, s.bottom);
    && Relocated(c, t, r, Written(r, tt), HeadMove(r, tt), Track(r, here), start, leg.intermediate, leg.firstMark)
    && LookedFor(c, t, Other(r), Track(Other(r), here), leg.intermediate, leg.found)
    && Relocated(c, t, Other(r), Written(Other(r), tt), HeadMove(Other(r), tt), Track(Other(r), here),
                 leg.found, back, leg.secondMark)
  }

  /** Later entries that leave neither marking state of the route keep it. */
  lemma RelayedKept(c: Ctx, t: Table, t': Table, r: Role, s: SimulatedState, tt: TransitionTarget,
                    start: State, back: State, leg: Leg)
    requires Relayed(c, t, r, s, tt, start, back, leg) && Extends(t, t')
    requires forall k | k in t' && k !in t :: k.0 != leg.firstMark && k.0 != leg.secondMark
    ensures Relayed(c, t', r, s, tt, start, back, leg)
  {
    var here := (s.top, s.bottom);
    RelocatedKept(c, t, t', r, Written(r, tt), HeadMove(r, tt), Track(r, here), start, leg.intermediate, leg.firstMark);
    LookedForKept(c, t, t', Other(r), Track(Other(r), here), leg.intermediate, leg.found);
    RelocatedKept(c, t, t', Other(r), Written(Other(r), tt), HeadMove(Other(r), tt), Track(Other(r), here),
                  leg.found, back, leg.secondMark);
  }

  /** The names a route generates are new and distinct from one another. */
  predicate LegFresh(leg: Leg, before: set<State>, after: set<State>)
  {
    && before <= after
    && leg.intermediate !in before && leg.found !in before && leg.firstMark !in before && leg.secondMark !in before
    && leg.intermediate in after && leg.found in after && leg.firstMark in after && leg.secondMark in after
    && leg.intermediate != leg.found && leg.firstMark != leg.secondMark
    && leg.intermediate != leg.firstMark && leg.intermediate != leg.secondMark
    && leg.found != leg.firstMark && leg.found != leg.secondMark
  }

  /** What a route leaves, from table t and names `used` to t' and `used'`:
      its names are new, entries were only added, from `start` or from its new
      names, and the route is in place. */
  ghost predicate RelayDone(c: Ctx, t: Table, used: set<State>, t': Table, used': set<State>, r: Role,
                            s: SimulatedState, tt: TransitionTarget, start: State, back: State, leg: Leg)
  {
    && LegFresh(leg, used, used') && Known(t', used')
    && (forall k | k in t' && k !in t :: k.0 == start || k.0 !in used)
    && Extends(t, t')
    && Relayed(c, t', r, s, tt, start, back, leg)
  }

  /** Lines 250-260 (r = TopHead) and 262-271 (r = BottomHead) of
      translator.cpp: two fresh names, in the source's order, then
      `program_move_<r>`, `program_look_for_<other>` and
      `program_move_<other>`. */
  method Relay(c: Ctx, t: Table, states: SymbolSet, r: Role, s: SimulatedState, tt: TransitionTarget,
               start: State, back: State)
    returns (t': Table, states': SymbolSet, leg: Leg)
    requires Cells(c) && s.top in c.m.working && s.bottom in c.m.working
    requires tt.top in c.m.working && tt.bottom in c.m.working
    requires Known(t, states.used) && start in states.used && Untouched(t, start)
    ensures RelayDone(c, t, states.used, t', states'.used, r, s, tt, start, back, leg)
  {
    var inter, found, s1, s2;
    if r.TopHead? {
      inter, s1 := Generate(states);
      found, s2 := Generate(s1);
    } else {
      found, s1 := Generate(states);
      inter, s2 := Generate(s1);
    }
    var m1, m2;
    t', states', m1, m2 := RelaySteps(c, t, s2, r, s, tt, start, back, inter, found);
    leg := Leg(inter, found, m1, m2);
  }

  /** What the three steps of a route leave, from table t and names `used`. */
  ghost predicate Stepped(c: Ctx, t: Table, used: set<State>, t': Table, used': set<State>, r: Role,
                          s: SimulatedState, tt: TransitionTarget, start: State, back: State, leg: Leg)
  {
    && used <= used' && Known(t', used') && Extends(t, t')
    && leg.firstMark !in used && leg.secondMark !in used && leg.firstMark != leg.secondMark
    && leg.firstMark in used' && leg.secondMark in used'
    && (forall k | k in t' && k !in t ::
          k.0 == start || k.0 == leg.intermediate || k.0 == leg.found || k.0 == leg.firstMark || k.0 == leg.secondMark)
    && Relayed(c, t', r, s, tt, start, back, leg)
  }

  /** The three calls of a route, once its two names are chosen. */
  method RelaySteps(c: Ctx, t: Table, states: SymbolSet, r: Role, s: SimulatedState, tt: TransitionTarget,
                    start: State, back: State, inter: State, found: State)
    returns (t': Table, states': SymbolSet, m1: State, m2: State)
    requires Cells(c) && s.top in c.m.working && s.bottom in c.m.working
    requires tt.top in c.m.working && tt.bottom in c.m.working
    requires Known(t, states.used) && start in states.used && inter in states.used && found in states.used
    requires Untouched(t, start) && Untouched(t, inter) && Untouched(t, found)
    requires start != inter && start != found && inter != found
    ensures Stepped(c, t, states.used, t', states'.used, r, s, tt, start, back, Leg(inter, found, m1, m2))
  {
    var t1, s3;
    t1, s3, m1 := ProgramMove(c, t, states, r, Written(r, tt), HeadMove(r, tt), Track(r, (s.top, s.bottom)), start, inter);
    t', states', m2 := RelayRest(c, t, states.used, t1, s3, r, s, tt, start, back, inter, found, m1);
  }

  /** The rest of a route once r's move is programmed from `start` to
      `inter`: the search and the move of the other head. */
  method RelayRest(c: Ctx, t: Table, used: set<State>, t1: Table, states: SymbolSet, r: Role, s: SimulatedState,
                   tt: TransitionTarget, start: State, back: State, inter: State, found: State, m1: State)
    returns (t': Table, states': SymbolSet, m2: State)
    requires Cells(c) && s.top in c.m.working && s.bottom in c.m.working
    requires tt.top in c.m.working && tt.bottom in c.m.working
    requires Known(t, used) && inter in used && found in used && inter != found
    requires Untouched(t, inter) && Untouched(t, found) && start != inter && start != found
    requires MoveOut(c, t, used, t1, states.used, r, Written(r, tt), HeadMove(r, tt), Track(r, (s.top, s.bottom)),
                     start, inter, m1)
    ensures Stepped(c, t, used, t', states'.used, r, s, tt, start, back, Leg(inter, found, m1, m2))
  {
    var here := (s.top, s.bottom);
    var t2;
    MoveOutUntouched(c, t, used, t1, states.used, r, Written(r, tt), HeadMove(r, tt), Track(r, here), start, inter, m1, inter);
    MoveOutUntouched(c, t, used, t1, states.used, r, Written(r, tt), HeadMove(r, tt), Track(r, here), start, inter, m1, found);
    t2, t', states', m2 := LookAndMove(c, t1, states, Other(r), Track(Other(r), here), Written(Other(r), tt),
                                       HeadMove(Other(r), tt), inter, found, back);
    SteppedOf(c, t, t1, t2, t', used, states.used, states'.used, r, s, tt, start, back, Leg(inter, found, m1, m2));
  }

  /** What the second half of a route leaves: the search is in place in t2,
      which only adds entries from `inter`, and the move from `found` to
      `back` follows it. */
  ghost predicate LookOut(c: Ctx, t: Table, used: set<State>, t2: Table, t': Table, used': set<State>, r: Role,
                          mine: Letter, target: Letter, move: Move, inter: State, found: State, back: State, m2: State)
  {
    && (forall k | k in t2 :: k in t || k.0 == inter) && Extends(t, t2)
    && LookedFor(c, t2, r, mine, inter, found)
    && MoveOut(c, t2, used, t', used', r, target, move, mine, found, back, m2)
  }

  /** The second half of a route: `program_look_for_<r>` from `inter` to
      `found`, then `program_move_<r>` from `found` to `back`. */
  method LookAndMove(c: Ctx, t: Table, states: SymbolSet, r: Role, mine: Letter, target: Letter, move: Move,
                     inter: State, found: State, back: State)
    returns (t2: Table, t': Table, states': SymbolSet, m2: State)
    requires Cells(c) && mine in c.m.working && target in c.m.working
    requires Known(t, states.used) && inter in states.used && found in states.used && inter != found
    requires Untouched(t, inter) && Untouched(t, found)
    ensures LookOut(c, t, states.used, t2, t', states'.used, r, mine, target, move, inter, found, back, m2)
  {
    t2 := LookForHead(c, t, r, mine, inter, found);
    t', states', m2 := ProgramMove(c, t2, states, r, target, move, mine, found, back);
  }

  /** The three steps of a route, each kept by the ones after it. */
  lemma SteppedOf(c: Ctx, t: Table, t1: Table, t2: Table, t3: Table, used: set<State>, used1: set<State>, used': set<State>,
                  r: Role, s: SimulatedState, tt: TransitionTarget, start: State, back: State, leg: Leg)
    requires Known(t, used) && leg.intermediate in used && leg.found in used
    requires MoveOut(c, t, used, t1, used1, r, Written(r, tt), HeadMove(r, tt), Track(r, (s.top, s.bottom)),
                     start, leg.intermediate, leg.firstMark)
    requires LookOut(c, t1, used1, t2, t3, used', Other(r), Track(Other(r), (s.top, s.bottom)), Written(Other(r), tt),
                     HeadMove(Other(r), tt), leg.intermediate, leg.found, back, leg.secondMark)
    ensures Stepped(c, t, used, t3, used', r, s, tt, start, back, leg)
  {
    var here := (s.top, s.bottom);
    ExtendsTrans(t, t1, t2);
    ExtendsTrans(t, t2, t3);
    ExtendsTrans(t1, t2, t3);
    RelocatedKept(c, t1, t3, r, Written(r, tt), HeadMove(r, tt), Track(r, here), start, leg.intermediate, leg.firstMark);
    LookedForKept(c, t2, t3, Other(r), Track(Other(r), here), leg.intermediate, leg.found);
  }

  /** The going-back state of q's alias, as `state_aliases_[q].going_back`
      reads it. */
  function Back(c: Ctx, q: State): State
  {
    if q in c.aliases then c.aliases[q].goingBack else ""
  }

  /** What `program_transitions_` leaves in t for the simulated state s with
      alias `alias` and the source transition tt: the choice between the two
      routes, and both routes, each ending in the going-back state of tt's
      target. */
  ghost predicate Transcribed(c: Ctx, t: Table, s: SimulatedState, alias: State, tt: TransitionTarget, rt: Route)
  {
    && Chosen(c, t, alias, s.top, s.bottom, rt.moveTopFirst, rt.moveBottomFirst, false)
    && Relayed(c, t, TopHead, s, tt, rt.moveTopFirst, Back(c, tt.target), rt.topFirst)
    && Relayed(c, t, BottomHead, s, tt, rt.moveBottomFirst, Back(c, tt.target), rt.bottomFirst)
  }

  /** The marking states of a route, which no later entry may leave. */
  predicate MarksOutside(rt: Route, used: set<State>)
  {
    && rt.topFirst.firstMark !in used && rt.topFirst.secondMark !in used
    && rt.bottomFirst.firstMark !in used && rt.bottomFirst.secondMark !in used
  }

  predicate MarksWithin(rt: Route, used: set<State>)
  {
    && rt.topFirst.firstMark in used && rt.topFirst.secondMark in used
    && rt.bottomFirst.firstMark in used && rt.bottomFirst.secondMark in used
  }

  /** Later entries that leave no marking state of the routes keep them. */
  lemma TranscribedKept(c: Ctx, t: Table, t': Table, s: SimulatedState, alias: State, tt: TransitionTarget, rt: Route)
    requires Transcribed(c, t, s, alias, tt, rt) && Extends(t, t')
    requires forall k | k in t' && k !in t ::
               k.0 != rt.topFirst.firstMark && k.0 != rt.topFirst.secondMark
               && k.0 != rt.bottomFirst.firstMark && k.0 != rt.bottomFirst.secondMark
    ensures Transcribed(c, t', s, alias, tt, rt)
  {
    RelayedKept(c, t, t', TopHead, s, tt, rt.moveTopFirst, Back(c, tt.target), rt.topFirst);
    RelayedKept(c, t, t', BottomHead, s, tt, rt.moveBottomFirst, Back(c, tt.target), rt.bottomFirst);
  }

  /** What the loop body for one simulated state leaves, from table t and
      names `used` to t' and `used'`: entries were only added, from the alias
      or from names new since `used`, whose marking states are among them; the
      transition is transcribed. */
  ghost predicate TranscribeDone(c: Ctx, t: Table, used: set<State>, t': Table, used': set<State>,
                                 s: SimulatedState, alias: State, tt: TransitionTarget, rt: Route)
  {
    && used <= used' && Known(t', used') && Extends(t, t')
    && (forall k | k in t' && k !in t :: k.0 == alias || k.0 !in used)
    && MarksOutside(rt, used) && MarksWithin(rt, used')
    && Transcribed(c, t', s, alias, tt, rt)
  }

  /** The body of `program_transitions_`' loop for a simulated state whose
      source transition does not halt (translator.cpp:214-271): two fresh
      route entry states, the choice entries from the alias, then the top
      route and the bottom route. */
  method TranscribeTransition(c: Ctx, t: Table, states: SymbolSet, s: SimulatedState, alias: State, tt: TransitionTarget)
    returns (t': Table, states': SymbolSet, rt: Route)
    requires Cells(c) && s.top in c.m.working && s.bottom in c.m.working
    requires tt.top in c.m.working && tt.bottom in c.m.working
    requires Known(t, states.used) && alias in states.used && Untouched(t, alias)
    ensures TranscribeDone(c, t, states.used, t', states'.used, s, alias, tt, rt)
  {
    var mtf, s1 := Generate(states);
    var mbf, s2 := Generate(s1);
    var t1 := ChooseRoute(c, t, alias, s.top, s.bottom, mtf, mbf);
    var topFirst, bottomFirst;
    t', states', topFirst, bottomFirst := BothRoutes(c, t1, s2, s, tt, mtf, mbf);
    rt := Route(mtf, mbf, topFirst, bottomFirst);
    TranscribedOf(c, t, t1, t', states.used, s2.used, states'.used, s, alias, tt, rt);
  }

  /** The choice entries from a fresh alias (translator.cpp:221-248). */
  method ChooseRoute(c: Ctx, t: Table, alias: State, a: Letter, b: Letter, mtf: State, mbf: State) returns (t': Table)
    requires Cells(c) && a in c.m.working && b in c.m.working && Untouched(t, alias)
    ensures forall k | k in t' && k !in t :: k.0 == alias
    ensures Extends(t, t')
    ensures Chosen(c, t', alias, a, b, mtf, mbf, false)
  {
    ChoiceReadyOf(c, a, b, mtf, mbf, false);
    t' := EmitChoice(c, t, alias, a, b, mtf, mbf, false);
  }

  /** What the two routes leave, from table t and names `used`. */
  ghost predicate BothRoutesDone(c: Ctx, t: Table, used: set<State>, t': Table, used': set<State>,
                                 s: SimulatedState, tt: TransitionTarget, mtf: State, mbf: State, top: Leg, bottom: Leg)
  {
    && used <= used' && Known(t', used') && Extends(t, t')
    && (forall k | k in t' && k !in t :: k.0 == mtf || k.0 == mbf || k.0 !in used)
    && top.firstMark !in used && top.secondMark !in used && bottom.firstMark !in used && bottom.secondMark !in used
    && top.firstMark in used' && top.secondMark in used' && bottom.firstMark in used' && bottom.secondMark in used'
    && Relayed(c, t', TopHead, s, tt, mtf, Back(c, tt.target), top)
    && Relayed(c, t', BottomHead, s, tt, mbf, Back(c, tt.target), bottom)
  }

  /** The top route, then the bottom route (translator.cpp:250-271). */
  method BothRoutes(c: Ctx, t: Table, states: SymbolSet, s: SimulatedState, tt: TransitionTarget, mtf: State, mbf: State)
    returns (t': Table, states': SymbolSet, top: Leg, bottom: Leg)
    requires Cells(c) && s.top in c.m.working && s.bottom in c.m.working
    requires tt.top in c.m.working && tt.bottom in c.m.working
    requires Known(t, states.used) && mtf in states.used && mbf in states.used && mtf != mbf
    requires Untouched(t, mtf) && Untouched(t, mbf)
    ensures BothRoutesDone(c, t, states.used, t', states'.used, s, tt, mtf, mbf, top, bottom)
  {
    var t2, s3;
    t2, s3, top := Relay(c, t, states, TopHead, s, tt, mtf, Back(c, tt.target));
    UntouchedAfterRelay(t, t2, states.used, mtf, mbf);
    t', states', bottom := Relay(c, t2, s3, BottomHead, s, tt, mbf, Back(c, tt.target));
    BothRoutesOf(c, t, t2, t', states.used, s3.used, states'.used, s, tt, mtf, mbf, top, bottom);
  }

  lemma UntouchedAfterRelay(t: Table, t': Table, used: set<State>, start: State, other: State)
    requires Untouched(t, other) && other in used && other != start
    requires forall k | k in t' && k !in t :: k.0 == start || k.0 !in used
    ensures Untouched(t', other)
  {
  }

  lemma BothRoutesOf(c: Ctx, t: Table, t2: Table, t3: Table, used: set<State>, used3: set<State>, used4: set<State>,
                     s: SimulatedState, tt: TransitionTarget, mtf: State, mbf: State, top: Leg, bottom: Leg)
    requires mtf in used && mbf in used
    requires RelayDone(c, t, used, t2, used3, TopHead, s, tt, mtf, Back(c, tt.target), top)
    requires RelayDone(c, t2, used3, t3, used4, BottomHead, s, tt, mbf, Back(c, tt.target), bottom)
    ensures BothRoutesDone(c, t, used, t3, used4, s, tt, mtf, mbf, top, bottom)
  {
    ExtendsTrans(t, t2, t3);
    RelayedKept(c, t2, t3, TopHead, s, tt, mtf, Back(c, tt.target), top);
  }

  lemma TranscribedOf(c: Ctx, t: Table, t1: Table, t3: Table, used: set<State>, used2: set<State>, used4: set<State>,
                      s: SimulatedState, alias: State, tt: TransitionTarget, rt: Route)
    requires Extends(t, t1)
    requires rt.moveTopFirst !in used && rt.moveBottomFirst !in used && used <= used2
    requires rt.moveTopFirst in used2 && rt.moveBottomFirst in used2
    requires forall k | k in t1 && k !in t :: k.0 == alias
    requires Chosen(c, t1, alias, s.top, s.bottom, rt.moveTopFirst, rt.moveBottomFirst, false)
    requires BothRoutesDone(c, t1, used2, t3, used4, s, tt, rt.moveTopFirst, rt.moveBottomFirst, rt.topFirst, rt.bottomFirst)
    ensures TranscribeDone(c, t, used, t3, used4, s, alias, tt, rt)
  {
    ExtendsTrans(t, t1, t3);
  }

  /** `program_reject_accept_` (translator.cpp:275-297), as written: the
      entries are keyed on the raw source state `data.state`, not on the
      simulated state's alias; on the marked cells of (a, b) a blank is written
      and the accepting or rejecting state entered. */
  method ProgramRejectAccept(c: Ctx, t: Table, s: SimulatedState, target: State) returns (t': Table)
    requires Cells(c) && s.top in c.m.working && s.bottom in c.m.working
    requires forall k | k in t && k.0 == s.state :: k.1 in c.m.working
    ensures forall k | k in t' && k !in t :: k.0 == s.state
    ensures Extends(t, t')
    ensures Chosen(c, t', s.state, s.top, s.bottom, target, target, true)
  {
    ChoiceReadyOf(c, s.top, s.bottom, target, target, true);
    t' := EmitChoice(c, t, s.state, s.top, s.bottom, target, target, true);
  }

  /** The key of the source transition a simulated state looks up. */
  function Key(s: SimulatedState): (State, Letter, Letter)
  {
    (s.state, s.top, s.bottom)
  }

  /** The simulated state's source transition enters the accepting or the
      rejecting state. */
  predicate Halts(c: Ctx, s: SimulatedState)
  {
    Key(s) in c.m.delta && (c.m.delta[Key(s)].target == c.m.accepting || c.m.delta[Key(s)].target == c.m.rejecting)
  }

  /** The position of the first simulated state whose transition halts, or the
      length of the list when there is none. */
  function FirstHalt(c: Ctx, sims: SimList): (n: nat)
    ensures n <= |sims|
    ensures forall j | 0 <= j < n :: !Halts(c, sims[j].0)
    ensures n < |sims| ==> Halts(c, sims[n].0)
    decreases |sims|
  {
    if |sims| == 0 then 0
    else if Halts(c, sims[0].0) then 0
    else
      var n := FirstHalt(c, sims[1..]);
      assert forall j | 1 <= j < n + 1 :: sims[j] == sims[1..][j - 1];
      1 + n
  }

  /** A position before which nothing halts and at which the list ends or a
      transition halts is the first halting position. */
  lemma FirstHaltAt(c: Ctx, sims: SimList, i: nat)
    requires i <= |sims| && (forall j | 0 <= j < i :: !Halts(c, sims[j].0))
    requires i < |sims| ==> Halts(c, sims[i].0)
    ensures FirstHalt(c, sims) == i
  {
  }

  /** What a simulated state's turn of the loop leaves in t: its transition
      when there is one, and otherwise no entry from its alias. */
  ghost predicate Processed(c: Ctx, t: Table, e: (SimulatedState, State), rt: Route)
  {
    if Key(e.0) in c.m.delta then Transcribed(c, t, e.0, e.1, c.m.delta[Key(e.0)], rt)
    else Untouched(t, e.1)
  }

  /** The facts about the simulated states the transition phase relies on:
      letters of Γ, a source state, an alias new since `before` and known in
      `used0`, no two aliases alike; the source transitions write letters of Γ;
      the source states are known before. */
  ghost predicate TransReady(c: Ctx, sims: SimList, before: set<State>, used0: set<State>)
  {
    && before <= used0 && (forall q | q in c.m.states :: q in before)
    && (forall k | k in c.m.delta :: c.m.delta[k].top in c.m.working && c.m.delta[k].bottom in c.m.working)
    && (forall j | 0 <= j < |sims| ::
          && sims[j].0.top in c.m.working && sims[j].0.bottom in c.m.working && sims[j].0.state in c.m.states
          && sims[j].1 !in before && sims[j].1 in used0)
    && (forall i, j | 0 <= i < j < |sims| :: sims[i].1 != sims[j].1)
  }

  /** The table part of the loop's invariant after i simulated states:
      entries were only added, none from a name known before the phase's
      aliases, none from the aliases still to come. */
  ghost predicate TransFrame(c: Ctx, t0: Table, before: set<State>, used0: set<State>, t: Table, used: set<State>,
                             sims: SimList, i: nat)
  {
    && used0 <= used && Known(t, used) && Extends(t0, t)
    && (forall k | k in t && k !in t0 :: k.0 !in before)
    && (forall k, j | k in t && i <= j < |sims| :: k.0 != sims[j].1)
  }

  /** The entry part of the invariant: none of the first i simulated states
      halts, each is processed, and the marking states of its routes are new
      since `used0` and known in `used`. */
  ghost predicate TransDone(c: Ctx, t: Table, used0: set<State>, used: set<State>, sims: SimList, routes: seq<Route>, i: nat)
  {
    && |routes| == i && NoneHalts(c, sims, i)
    && AllProcessed(c, t, sims, routes) && AllMarked(c, used0, used, sims, routes)
  }

  predicate NoneHalts(c: Ctx, sims: SimList, i: nat)
  {
    i <= |sims| && forall j | 0 <= j < i :: !Halts(c, sims[j].0)
  }

  /** Each simulated state with a route so far is processed. */
  ghost predicate AllProcessed(c: Ctx, t: Table, sims: SimList, routes: seq<Route>)
  {
    |routes| <= |sims| && forall j | 0 <= j < |routes| :: Processed(c, t, sims[j], routes[j])
  }

  /** The marking states of the routes so far are new since `used0` and known
      in `used`. */
  predicate AllMarked(c: Ctx, used0: set<State>, used: set<State>, sims: SimList, routes: seq<Route>)
  {
    && |routes| <= |sims|
    && (forall j | 0 <= j < |routes| && Key(sims[j].0) in c.m.delta :: MarksOutside(routes[j], used0) && MarksWithin(routes[j], used))
  }

  /** A skipped simulated state (no source transition) keeps the invariant. */
  lemma TransSkipStep(c: Ctx, t0: Table, before: set<State>, used0: set<State>, t: Table, used: set<State>,
                      sims: SimList, routes: seq<Route>, i: nat, rt: Route)
    requires TransReady(c, sims, before, used0) && i < |sims| && Key(sims[i].0) !in c.m.delta
    requires TransFrame(c, t0, before, used0, t, used, sims, i) && TransDone(c, t, used0, used, sims, routes, i)
    ensures TransFrame(c, t0, before, used0, t, used, sims, i + 1)
    ensures TransDone(c, t, used0, used, sims, routes + [rt], i + 1)
  {
    SkipProcessed(c, t, sims, routes, rt);
    SkipMarked(c, used0, used, sims, routes, rt);
  }

  lemma SkipProcessed(c: Ctx, t: Table, sims: SimList, routes: seq<Route>, rt: Route)
    requires |routes| < |sims| && Key(sims[|routes|].0) !in c.m.delta && Untouched(t, sims[|routes|].1)
    requires AllProcessed(c, t, sims, routes)
    ensures AllProcessed(c, t, sims, routes + [rt])
  {
    var routes' := routes + [rt];
    forall j | 0 <= j < |routes'|
      ensures Processed(c, t, sims[j], routes'[j])
    {
      if j < |routes| {
        assert routes'[j] == routes[j];
      }
    }
  }

  lemma SkipMarked(c: Ctx, used0: set<State>, used: set<State>, sims: SimList, routes: seq<Route>, rt: Route)
    requires |routes| < |sims| && Key(sims[|routes|].0) !in c.m.delta
    requires AllMarked(c, used0, used, sims, routes)
    ensures AllMarked(c, used0, used, sims, routes + [rt])
  {
    var routes' := routes + [rt];
    assert forall j | 0 <= j < |routes| :: routes'[j] == routes[j];
  }

  /** A transcribed simulated state keeps the table part of the invariant. */
  lemma TransFrameStep(c: Ctx, t0: Table, before: set<State>, used0: set<State>, t: Table, used: set<State>,
                       t': Table, used': set<State>, sims: SimList, i: nat, rt: Route)
    requires TransReady(c, sims, before, used0) && i < |sims| && Key(sims[i].0) in c.m.delta
    requires TransFrame(c, t0, before, used0, t, used, sims, i)
    requires TranscribeDone(c, t, used, t', used', sims[i].0, sims[i].1, c.m.delta[Key(sims[i].0)], rt)
    ensures TransFrame(c, t0, before, used0, t', used', sims, i + 1)
  {
    ExtendsTrans(t0, t, t');
    forall k, j | k in t' && i + 1 <= j < |sims|
      ensures k.0 != sims[j].1
    {
      if k !in t {
        assert sims[j].1 in used0 && sims[i].1 != sims[j].1;
      }
    }
  }

  /** A transcribed simulated state keeps the entry part of the invariant:
      earlier ones stay processed, since the new entries leave the alias and
      names new since `used`, and it is processed itself. */
  lemma TransDoneStep(c: Ctx, before: set<State>, used0: set<State>, t: Table, used: set<State>,
                      t': Table, used': set<State>, sims: SimList, routes: seq<Route>, i: nat, rt: Route)
    requires TransReady(c, sims, before, used0) && i < |sims| && Key(sims[i].0) in c.m.delta && !Halts(c, sims[i].0)
    requires used0 <= used && TransDone(c, t, used0, used, sims, routes, i)
    requires TranscribeDone(c, t, used, t', used', sims[i].0, sims[i].1, c.m.delta[Key(sims[i].0)], rt)
    ensures TransDone(c, t', used0, used', sims, routes + [rt], i + 1)
  {
    ProcessedStep(c, before, used0, t, used, t', used', sims, routes, rt);
    MarkedStep(c, used0, used, used', sims, routes, rt);
  }

  lemma ProcessedStep(c: Ctx, before: set<State>, used0: set<State>, t: Table, used: set<State>,
                      t': Table, used': set<State>, sims: SimList, routes: seq<Route>, rt: Route)
    requires TransReady(c, sims, before, used0) && |routes| < |sims| && Key(sims[|routes|].0) in c.m.delta
    requires used0 <= used && AllProcessed(c, t, sims, routes) && AllMarked(c, used0, used, sims, routes)
    requires TranscribeDone(c, t, used, t', used', sims[|routes|].0, sims[|routes|].1, c.m.delta[Key(sims[|routes|].0)], rt)
    ensures AllProcessed(c, t', sims, routes + [rt])
  {
    var i, routes' := |routes|, routes + [rt];
    forall j | 0 <= j < i + 1
      ensures Processed(c, t', sims[j], routes'[j])
    {
      if j < i {
        assert routes'[j] == routes[j];
        assert sims[j].1 in used0 && sims[i].1 != sims[j].1;
        ProcessedKept(c, t, t', sims[j], routes[j]);
      } else {
        assert routes'[j] == rt;
      }
    }
  }

  lemma MarkedStep(c: Ctx, used0: set<State>, used: set<State>, used': set<State>, sims: SimList, routes: seq<Route>, rt: Route)
    requires |routes| < |sims| && used0 <= used <= used' && AllMarked(c, used0, used, sims, routes)
    requires MarksOutside(rt, used) && MarksWithin(rt, used')
    ensures AllMarked(c, used0, used', sims, routes + [rt])
  {
    var routes' := routes + [rt];
    assert forall j | 0 <= j < |routes| :: routes'[j] == routes[j];
  }

  /** Entries that leave neither the alias nor a marking state of its routes
      keep a simulated state processed. */
  lemma ProcessedKept(c: Ctx, t: Table, t': Table, e: (SimulatedState, State), rt: Route)
    requires Processed(c, t, e, rt) && Extends(t, t')
    requires forall k | k in t' && k !in t :: k.0 != e.1
    requires Key(e.0) in c.m.delta ==>
               forall k | k in t' && k !in t ::
                 k.0 != rt.topFirst.firstMark && k.0 != rt.topFirst.secondMark
                 && k.0 != rt.bottomFirst.firstMark && k.0 != rt.bottomFirst.secondMark
    ensures Processed(c, t', e, rt)
  {
    if Key(e.0) in c.m.delta {
      TranscribedKept(c, t, t', e.0, e.1, c.m.delta[Key(e.0)], rt);
    }
  }

  /** The route of a simulated state without a source transition, which is
      never looked at. */
  const NoRoute := Route("", "", Leg("", "", "", ""), Leg("", "", "", ""))

  /** One turn of `program_transitions_`' loop (translator.cpp:196-271) for a
      simulated state whose transition does not halt. */
  method TransNext(c: Ctx, t0: Table, before: set<State>, used0: set<State>, t: Table, states: SymbolSet,
                   sims: SimList, routes: seq<Route>, i: nat)
    returns (t': Table, states': SymbolSet, routes': seq<Route>)
    requires Cells(c) && TransReady(c, sims, before, used0) && i < |sims| && !Halts(c, sims[i].0)
    requires TransFrame(c, t0, before, used0, t, states.used, sims, i) && TransDone(c, t, used0, states.used, sims, routes, i)
    ensures TransFrame(c, t0, before, used0, t', states'.used, sims, i + 1)
    ensures TransDone(c, t', used0, states'.used, sims, routes', i + 1)
  {
    var s, alias := sims[i].0, sims[i].1;
    if Key(s) in c.m.delta {
      var rt;
      t', states', rt := TranscribeTransition(c, t, states, s, alias, c.m.delta[Key(s)]);
      routes' := routes + [rt];
      TransFrameStep(c, t0, before, used0, t, states.used, t', states'.used, sims, i, rt);
      TransDoneStep(c, before, used0, t, states.used, t', states'.used, sims, routes, i, rt);
    } else {
      t', states', routes' := t, states, routes + [NoRoute];
      TransSkipStep(c, t0, before, used0, t, states.used, sims, routes, i, NoRoute);
    }
  }

  /** `program_transitions_`' loop up to the first simulated state whose
      transition halts, or to the end of the list. */
  method TransLoop(c: Ctx, t: Table, states: SymbolSet, sims: SimList, before: set<State>)
    returns (t': Table, states': SymbolSet, routes: seq<Route>, i: nat)
    requires Cells(c) && TransReady(c, sims, before, states.used)
    requires Known(t, states.used) && (forall j | 0 <= j < |sims| :: Untouched(t, sims[j].1))
    ensures TransFrame(c, t, before, states.used, t', states'.used, sims, i)
    ensures TransDone(c, t', states.used, states'.used, sims, routes, i)
    ensures i < |sims| ==> Halts(c, sims[i].0)
  {
    t', states', routes, i := t, states, [], 0;
    while i < |sims| && !Halts(c, sims[i].0)
      invariant TransFrame(c, t, before, states.used, t', states'.used, sims, i)
      invariant TransDone(c, t', states.used, states'.used, sims, routes, i)
      decreases |sims| - i
    {
      t', states', routes := TransNext(c, t, before, states.used, t', states', sims, routes, i);
      i := i + 1;
    }
  }

  /** The source transition of a simulated state that halts enters this state. */
  function HaltTarget(c: Ctx, s: SimulatedState): State
  {
    if Key(s) in c.m.delta then c.m.delta[Key(s)].target else ""
  }

  /** What the transition phase leaves, from table t and names `used` to t'
      and `used'`: entries were only added, from names not known before the
      phase's aliases or from the first halting state's raw source state; the
      marking states of the routes are new since `used`; and the entries. */
  ghost predicate TransPhase(c: Ctx, t: Table, before: set<State>, used: set<State>, t': Table, used': set<State>,
                             sims: SimList, routes: seq<Route>)
  {
    var h := FirstHalt(c, sims);
    && used <= used' && Known(t', used') && Extends(t, t')
    && (forall k | k in t' && k !in t :: k.0 !in before || (h < |sims| && k.0 == sims[h].0.state))
    && AllMarked(c, used, used', sims, routes)
    && TransEntries(c, t', sims, routes)
  }

  /** The entries of the transition phase, with h the first simulated state
      whose transition halts: the states before h are processed; from h's raw
      source state, the halting entries; nothing at all from h's own alias nor
      from the aliases after h. */
  ghost predicate TransEntries(c: Ctx, t: Table, sims: SimList, routes: seq<Route>)
  {
    var h := FirstHalt(c, sims);
    && |routes| == h && AllProcessed(c, t, sims, routes)
    && (h < |sims| ==>
          var s := sims[h].0;
          Chosen(c, t, s.state, s.top, s.bottom, HaltTarget(c, s), HaltTarget(c, s), true))
    && (forall j | h <= j < |sims| :: Untouched(t, sims[j].1))
  }

  /** Entries that leave no alias of the list and no marking state of a route
      keep the transition phase's entries. */
  lemma TransEntriesKept(c: Ctx, t: Table, t': Table, sims: SimList, routes: seq<Route>, used: set<State>, used': set<State>)
    requires TransEntries(c, t, sims, routes) && AllMarked(c, used, used', sims, routes) && Extends(t, t')
    requires forall k | k in t' && k !in t :: k.0 in used
    requires forall k, j | k in t' && k !in t && 0 <= j < |sims| :: k.0 != sims[j].1
    ensures TransEntries(c, t', sims, routes)
  {
    forall j | 0 <= j < |routes|
      ensures Processed(c, t', sims[j], routes[j])
    {
      ProcessedKept(c, t, t', sims[j], routes[j]);
    }
  }

  /** With no halting transition, the loop's invariant at the end of the list
      is the phase's summary. */
  lemma TransPhaseAll(c: Ctx, t: Table, before: set<State>, used: set<State>, t': Table, used': set<State>,
                      sims: SimList, routes: seq<Route>)
    requires TransFrame(c, t, before, used, t', used', sims, |sims|) && TransDone(c, t', used, used', sims, routes, |sims|)
    ensures TransPhase(c, t, before, used, t', used', sims, routes)
  {
    FirstHaltAt(c, sims, |sims|);
  }

  /** The halting entries from the raw source state (translator.cpp:207-211):
      that state reads only raw letters so far, so the keys are new. */
  method Halt(c: Ctx, t0: Table, before: set<State>, used0: set<State>, t: Table, used: set<State>, sims: SimList, i: nat)
    returns (t': Table)
    requires Cells(c) && TransReady(c, sims, before, used0) && i < |sims|
    requires TransFrame(c, t0, before, used0, t, used, sims, i)
    requires forall k | k in t0 && k.0 in c.m.states :: k.1 in c.m.working
    ensures forall k | k in t' && k !in t :: k.0 == sims[i].0.state
    ensures Extends(t, t')
    ensures Chosen(c, t', sims[i].0.state, sims[i].0.top, sims[i].0.bottom, HaltTarget(c, sims[i].0), HaltTarget(c, sims[i].0), true)
  {
    RawKeysKept(c, t0, before, t, sims[i].0.state);
    t' := ProgramRejectAccept(c, t, sims[i].0, HaltTarget(c, sims[i].0));
  }

  lemma RawKeysKept(c: Ctx, t0: Table, before: set<State>, t: Table, q: State)
    requires q in before && (forall k | k in t && k !in t0 :: k.0 !in before)
    requires forall k | k in t0 && k.0 in c.m.states :: k.1 in c.m.working
    requires q in c.m.states
    ensures forall k | k in t && k.0 == q :: k.1 in c.m.working
  {
  }

  /** The halting entries leave a source state, which is neither an alias of
      the phase nor a marking state, so the processed states stay processed. */
  lemma HaltProcessed(c: Ctx, before: set<State>, used: set<State>, used': set<State>, t: Table, t': Table,
                      sims: SimList, routes: seq<Route>, q: State)
    requires q in before && before <= used
    requires forall j | 0 <= j < |sims| :: sims[j].1 !in before
    requires AllProcessed(c, t, sims, routes) && AllMarked(c, used, used', sims, routes)
    requires Extends(t, t') && (forall k | k in t' && k !in t :: k.0 == q)
    ensures AllProcessed(c, t', sims, routes)
  {
    forall j | 0 <= j < |routes|
      ensures Processed(c, t', sims[j], routes[j])
    {
      ProcessedKept(c, t, t', sims[j], routes[j]);
    }
  }

  lemma TransPhaseHalt(c: Ctx, t: Table, before: set<State>, used: set<State>, t1: Table, t': Table, used': set<State>,
                       sims: SimList, routes: seq<Route>, h: nat)
    requires TransReady(c, sims, before, used) && h < |sims| && Halts(c, sims[h].0)
    requires TransFrame(c, t, before, used, t1, used', sims, h) && TransDone(c, t1, used, used', sims, routes, h)
    requires Extends(t1, t') && (forall k | k in t' && k !in t1 :: k.0 == sims[h].0.state)
    requires Chosen(c, t', sims[h].0.state, sims[h].0.top, sims[h].0.bottom, HaltTarget(c, sims[h].0), HaltTarget(c, sims[h].0), true)
    ensures TransPhase(c, t, before, used, t', used', sims, routes)
  {
    FirstHaltAt(c, sims, h);
    ExtendsTrans(t, t1, t');
    HaltProcessed(c, before, used, used', t1, t', sims, routes, sims[h].0.state);
    forall j | h <= j < |sims|
      ensures Untouched(t', sims[j].1)
    {
      assert sims[j].1 !in before;
    }
  }

  /** `program_transitions_` (translator.cpp:195-273): every simulated state, in
      list order, until the first whose transition halts; that one gets the
      halting entries and the phase ends, so the simulated states after it get
      no entries at all. */
  method ProgramTransitions(c: Ctx, t: Table, states: SymbolSet, sims: SimList, before: set<State>)
    returns (t': Table, states': SymbolSet, routes: seq<Route>)
    requires Cells(c) && TransReady(c, sims, before, states.used)
    requires Known(t, states.used) && (forall j | 0 <= j < |sims| :: Untouched(t, sims[j].1))
    requires forall k | k in t && k.0 in c.m.states :: k.1 in c.m.working
    ensures TransPhase(c, t, before, states.used, t', states'.used, sims, routes)
  {
    var t1, i;
    t1, states', routes, i := TransLoop(c, t, states, sims, before);
    if i < |sims| {
      t' := Halt(c, t, before, states.used, t1, states'.used, sims, i);
      TransPhaseHalt(c, t, before, states.used, t1, t', states'.used, sims, routes, i);
    } else {
      t' := t1;
      TransPhaseAll(c, t, before, states.used, t', states'.used, sims, routes);
    }
  }
}
