/**
  The head-relocation templates of translator.h: `program_move_` rewrites the
  letter under one head and walks that head's marker one cell over, and
  `program_look_for_` walks left to the cell holding a given head.  The
  template parameter `H` is the role `r`; `H::this_other_not(e)` is the cell
  with r's marker only and `H::other_this_not(e)` the one with the other
  head's marker only (Encodings.ThisOtherNot, Encodings.OtherThisNot).
 */
module Relocation {
  import opened Machines
  import opened Encodings
  import opened SymbolSets
  import opened Context

  /** The move back after a marker has been planted (translator.h:213-214):
      left after a step right, right otherwise. */
  function ReturnMove(move: Move): Move
  {
    if move == Right then Left else Right
  }

  /** The two entries of `program_move_`'s first loop for the other-track letter
      l (translator.h:187-210).  The cell holds `mine` on r's track, with r's
      marker and possibly the other one; `target` replaces `mine`. */
  function MoveEntries(c: Ctx, r: Role, target: Letter, move: Move, mine: Letter,
                       outState: State, marking: State, l: Letter): seq<Entry>
  {
    var cur, tgt := MakePair(r, mine, l), MakePair(r, target, l);
    if move == Stay then
      [ Entry(Cell(c, cur, Only(r)), Action(outState, Cell(c, tgt, Only(r)), Stay)),
        Entry(Cell(c, cur, BothMarks), Action(outState, Cell(c, tgt, BothMarks), Stay)) ]
    else
      [ Entry(Cell(c, cur, Only(r)), Action(marking, Cell(c, tgt, NoMarks), move)),
        Entry(Cell(c, cur, BothMarks), Action(marking, Cell(c, tgt, Only(Other(r))), move)) ]
  }

  /** The two entries of `program_move_`'s second loop for the pair p
      (translator.h:215-221): the cell the head lands on gets r's marker. */
  function MarkEntries(c: Ctx, r: Role, move: Move, outState: State, p: (Letter, Letter)): seq<Entry>
  {
    [ Entry(Cell(c, p, NoMarks), Action(outState, Cell(c, p, Only(r)), ReturnMove(move))),
      Entry(Cell(c, p, Only(Other(r))), Action(outState, Cell(c, p, BothMarks), ReturnMove(move))) ]
  }

  /** The entry for stepping right onto the blank past the end of the encoded
      word (translator.h:179-184). */
  function BlankEntry(c: Ctx, r: Role, outState: State): Entry
  {
    Entry(c.m.blank, Action(outState, Cell(c, (c.m.blank, c.m.blank), Only(r)), Left))
  }

  /** What `program_move_` leaves in the table for the other-track letter l. */
  ghost predicate MovedFrom(c: Ctx, t: Table, r: Role, target: Letter, move: Move, mine: Letter,
                            inState: State, outState: State, marking: State, l: Letter)
  {
    var cur, tgt := MakePair(r, mine, l), MakePair(r, target, l);
    if move == Stay then
      // the head stays: only r's letter changes, the markers stay as they were
      && Maps(t, inState, Cell(c, cur, Only(r)), Action(outState, Cell(c, tgt, Only(r)), Stay))
      && Maps(t, inState, Cell(c, cur, BothMarks), Action(outState, Cell(c, tgt, BothMarks), Stay))
    else
      // the head moves: r's letter changes and r's marker is lifted, the other
      // marker stays
      && Maps(t, inState, Cell(c, cur, Only(r)), Action(marking, Cell(c, tgt, WithMine(r, Only(r), false)), move))
      && Maps(t, inState, Cell(c, cur, BothMarks), Action(marking, Cell(c, tgt, WithMine(r, BothMarks, false)), move))
  }

  /** What `program_move_` leaves in the table for the pair p: a cell without
      r's marker gets it, the other marker untouched, and the head turns back. */
  ghost predicate Marked(c: Ctx, t: Table, r: Role, move: Move, outState: State, marking: State, p: (Letter, Letter))
  {
    forall h | !Mine(r, h) :: Maps(t, marking, Cell(c, p, h), Action(outState, Cell(c, p, WithMine(r, h, true)), ReturnMove(move)))
  }

  lemma MovedFromKept(c: Ctx, t: Table, t': Table, r: Role, target: Letter, move: Move, mine: Letter,
                      inState: State, outState: State, marking: State, l: Letter)
    requires MovedFrom(c, t, r, target, move, mine, inState, outState, marking, l) && Extends(t, t')
    ensures MovedFrom(c, t', r, target, move, mine, inState, outState, marking, l)
  {
  }

  /** Within one column of r's letter `mine`, the cells with r's marker have
      pairwise distinct symbols. */
  lemma MoveEntriesDistinct(c: Ctx, r: Role, target: Letter, move: Move, mine: Letter,
                            outState: State, marking: State)
    requires Cells(c) && mine in c.m.working
    ensures DistinctReads(FlatMap(c.m.working, l => MoveEntries(c, r, target, move, mine, outState, marking, l)))
  {
    var f := l => MoveEntries(c, r, target, move, mine, outState, marking, l);
    forall x, y | x in c.m.working && y in c.m.working
      ensures DistinctReads(f(x)) && (x != y ==> ReadsApart(f(x), f(y)))
    {
      MoveEntriesApart(c, r, target, move, mine, outState, marking, x, y);
    }
    FlatMapDistinct(c.m.working, f);
  }

  /** The entries for two other-track letters read distinct symbols. */
  lemma MoveEntriesApart(c: Ctx, r: Role, target: Letter, move: Move, mine: Letter,
                         outState: State, marking: State, x: Letter, y: Letter)
    requires Unique(c) && MakePair(r, mine, x) in c.lm && MakePair(r, mine, y) in c.lm
    ensures DistinctReads(MoveEntries(c, r, target, move, mine, outState, marking, x))
    ensures x != y ==> ReadsApart(MoveEntries(c, r, target, move, mine, outState, marking, x),
                                  MoveEntries(c, r, target, move, mine, outState, marking, y))
  {
    var p, q := MakePair(r, mine, x), MakePair(r, mine, y);
    CellsApart(c, p, Only(r), p, BothMarks);
    if x != y {
      assert Track(Other(r), p) != Track(Other(r), q);
      CellsApart(c, p, Only(r), q, Only(r));
      CellsApart(c, p, Only(r), q, BothMarks);
      CellsApart(c, p, BothMarks, q, Only(r));
      CellsApart(c, p, BothMarks, q, BothMarks);
    }
  }

  lemma MarkEntriesApart(c: Ctx, r: Role, move: Move, outState: State, x: (Letter, Letter), y: (Letter, Letter))
    requires Unique(c) && x in c.lm && y in c.lm
    ensures DistinctReads(MarkEntries(c, r, move, outState, x))
    ensures forall e | e in MarkEntries(c, r, move, outState, x) :: e.read != c.m.blank
    ensures x != y ==> ReadsApart(MarkEntries(c, r, move, outState, x), MarkEntries(c, r, move, outState, y))
  {
    CellsApart(c, x, NoMarks, x, Only(Other(r)));
    CellIsEncoded(c, x, NoMarks);
    CellIsEncoded(c, x, Only(Other(r)));
    if x != y {
      CellsApart(c, x, NoMarks, y, NoMarks);
      CellsApart(c, x, NoMarks, y, Only(Other(r)));
      CellsApart(c, x, Only(Other(r)), y, NoMarks);
      CellsApart(c, x, Only(Other(r)), y, Only(Other(r)));
    }
  }

  lemma MarkEntriesDistinct(c: Ctx, r: Role, move: Move, outState: State)
    requires Cells(c)
    ensures DistinctReads(FlatMap(c.pairs, p => MarkEntries(c, r, move, outState, p)))
    ensures forall e | e in FlatMap(c.pairs, p => MarkEntries(c, r, move, outState, p)) :: e.read != c.m.blank
  {
    var f := p => MarkEntries(c, r, move, outState, p);
    forall x, y | x in c.pairs && y in c.pairs
      ensures DistinctReads(f(x)) && (x != y ==> ReadsApart(f(x), f(y)))
      ensures forall e | e in f(x) :: e.read != c.m.blank
    {
      MarkEntriesApart(c, r, move, outState, x, y);
    }
    FlatMapDistinct(c.pairs, f);
  }

  /** The first loop of `program_move_` (translator.h:186-211). */
  method EmitMoving(c: Ctx, t: Table, r: Role, target: Letter, move: Move, mine: Letter,
                    inState: State, outState: State, marking: State) returns (t': Table)
    requires Cells(c) && target in c.m.working && mine in c.m.working
    requires Untouched(t, inState)
    ensures forall k | k in t' :: k in t || k.0 == inState
    ensures Extends(t, t')
    ensures forall l | l in c.m.working :: MovedFrom(c, t', r, target, move, mine, inState, outState, marking, l)
  {
    var f := l => MoveEntries(c, r, target, move, mine, outState, marking, l);
    var moving := FlatMap(c.m.working, f);
    MoveEntriesDistinct(c, r, target, move, mine, outState, marking);
    t' := Emit(t, inState, moving);
    forall l | l in c.m.working
      ensures MovedFrom(c, t', r, target, move, mine, inState, outState, marking, l)
    {
      FlatMapMaps(t', inState, c.m.working, f, l);
      MovedFromOf(c, t', r, target, move, mine, inState, outState, marking, l);
    }
  }

  lemma MovedFromOf(c: Ctx, t: Table, r: Role, target: Letter, move: Move, mine: Letter,
                    inState: State, outState: State, marking: State, l: Letter)
    requires forall e | e in MoveEntries(c, r, target, move, mine, outState, marking, l) :: Maps(t, inState, e.read, e.act)
    ensures MovedFrom(c, t, r, target, move, mine, inState, outState, marking, l)
  {
    var es := MoveEntries(c, r, target, move, mine, outState, marking, l);
    assert es[0] in es && es[1] in es;
  }

  /** The second loop of `program_move_` (translator.h:213-221).  The marking
      state may already read the blank, and nothing else. */
  method EmitMarking(c: Ctx, t: Table, r: Role, move: Move, outState: State, marking: State) returns (t': Table)
    requires Cells(c)
    requires forall k | k in t && k.0 == marking :: k.1 == c.m.blank
    ensures forall k | k in t' :: k in t || (k.0 == marking && k.1 != c.m.blank)
    ensures Extends(t, t')
    ensures forall p | p in c.lm :: Marked(c, t', r, move, outState, marking, p)
  {
    var f := p => MarkEntries(c, r, move, outState, p);
    var marks := FlatMap(c.pairs, f);
    MarkEntriesDistinct(c, r, move, outState);
    t' := Emit(t, marking, marks);
    forall p | p in c.lm
      ensures Marked(c, t', r, move, outState, marking, p)
    {
      assert p in c.pairs;
      FlatMapMaps(t', marking, c.pairs, f, p);
      MarkedOf(c, t', r, move, outState, marking, p);
    }
  }

  lemma MarkedOf(c: Ctx, t: Table, r: Role, move: Move, outState: State, marking: State, p: (Letter, Letter))
    requires forall e | e in MarkEntries(c, r, move, outState, p) :: Maps(t, marking, e.read, e.act)
    ensures Marked(c, t, r, move, outState, marking, p)
  {
    var es := MarkEntries(c, r, move, outState, p);
    assert es[0] in es && es[1] in es;
    forall h | !Mine(r, h)
      ensures Maps(t, marking, Cell(c, p, h), Action(outState, Cell(c, p, WithMine(r, h, true)), ReturnMove(move)))
    {
      assert h == NoMarks || h == Only(Other(r));
    }
  }

  /** What the blank entry and the first loop leave, from t to t': entries
      were only added, from `inState` or the marking state's blank entry, which
      exists exactly after a right move. */
  ghost predicate BlankMoved(c: Ctx, t: Table, t': Table, r: Role, target: Letter, move: Move, mine: Letter,
                             inState: State, outState: State, marking: State)
  {
    && (forall k | k in t' :: k in t || k.0 == inState || k == (marking, c.m.blank))
    && Extends(t, t')
    && (forall l | l in c.m.working :: MovedFrom(c, t', r, target, move, mine, inState, outState, marking, l))
    && (move == Right <==> (marking, c.m.blank) in t')
    && (move == Right ==> Maps(t', marking, c.m.blank, BlankEntry(c, r, outState).act))
  }

  /** All that `program_move_` leaves in the table for role r. */
  ghost predicate Relocated(c: Ctx, t: Table, r: Role, target: Letter, move: Move, mine: Letter,
                            inState: State, outState: State, marking: State)
  {
    && (forall l | l in c.m.working :: MovedFrom(c, t, r, target, move, mine, inState, outState, marking, l))
    && (forall p | p in c.lm :: Marked(c, t, r, move, outState, marking, p))
    && (move == Right <==> (marking, c.m.blank) in t)
    && (move == Right ==> Maps(t, marking, c.m.blank, BlankEntry(c, r, outState).act))
  }

  /** The blank entry (translator.h:179-184) and the first loop of
      `program_move_`. */
  method BlankAndMoving(c: Ctx, t: Table, r: Role, target: Letter, move: Move, mine: Letter,
                        inState: State, outState: State, marking: State) returns (t': Table)
    requires Cells(c) && target in c.m.working && mine in c.m.working
    requires Untouched(t, inState) && Untouched(t, marking) && inState != marking
    ensures BlankMoved(c, t, t', r, target, move, mine, inState, outState, marking)
  {
    var t1 := EmitBlank(c, t, r, move, inState, outState, marking);
    t' := EmitMoving(c, t1, r, target, move, mine, inState, outState, marking);
    BlankMovedOf(c, t, t1, t', r, target, move, mine, inState, outState, marking);
  }

  /** The blank entry of translator.h:179-184, emitted only for a move to the
      right. */
  method EmitBlank(c: Ctx, t: Table, r: Role, move: Move, inState: State, outState: State, marking: State)
    returns (t': Table)
    requires Untouched(t, inState) && Untouched(t, marking) && inState != marking
    ensures forall k | k in t' :: k in t || k == (marking, c.m.blank)
    ensures Extends(t, t') && Untouched(t', inState)
    ensures move == Right <==> (marking, c.m.blank) in t'
    ensures move == Right ==> Maps(t', marking, c.m.blank, BlankEntry(c, r, outState).act)
  {
    t' := t;
    if move == Right {
      var e := BlankEntry(c, r, outState);
      t' := NewTransition(t, marking, e.read, e.act.next, e.act.write, e.act.move);
    }
  }

  lemma BlankMovedOf(c: Ctx, t: Table, t1: Table, t': Table, r: Role, target: Letter, move: Move, mine: Letter,
                     inState: State, outState: State, marking: State)
    requires inState != marking
    requires (forall k | k in t1 :: k in t || k == (marking, c.m.blank)) && Extends(t, t1)
    requires move == Right <==> (marking, c.m.blank) in t1
    requires move == Right ==> Maps(t1, marking, c.m.blank, BlankEntry(c, r, outState).act)
    requires (forall k | k in t' :: k in t1 || k.0 == inState) && Extends(t1, t')
    requires forall l | l in c.m.working :: MovedFrom(c, t', r, target, move, mine, inState, outState, marking, l)
    ensures BlankMoved(c, t, t', r, target, move, mine, inState, outState, marking)
  {
    ExtendsTrans(t, t1, t');
  }

  /** The marking loop keeps what the blank entry and the first loop left. */
  lemma RelocatedAfterMarking(c: Ctx, t2: Table, t': Table, r: Role, target: Letter, move: Move, mine: Letter,
                              inState: State, outState: State, marking: State)
    requires forall l | l in c.m.working :: MovedFrom(c, t2, r, target, move, mine, inState, outState, marking, l)
    requires move == Right <==> (marking, c.m.blank) in t2
    requires move == Right ==> Maps(t2, marking, c.m.blank, BlankEntry(c, r, outState).act)
    requires Extends(t2, t') && forall k | k in t' :: k in t2 || k.1 != c.m.blank
    requires forall p | p in c.lm :: Marked(c, t', r, move, outState, marking, p)
    ensures Relocated(c, t', r, target, move, mine, inState, outState, marking)
  {
    forall l | l in c.m.working
      ensures MovedFrom(c, t', r, target, move, mine, inState, outState, marking, l)
    {
      MovedFromKept(c, t2, t', r, target, move, mine, inState, outState, marking, l);
    }
  }

  /** What `program_move_` leaves once its marking state is chosen: entries
      were only added, from `inState` and the marking state, and r's marker is
      relocated. */
  ghost predicate MoveDone(c: Ctx, t: Table, t': Table, r: Role, target: Letter, move: Move, mine: Letter,
                           inState: State, outState: State, marking: State)
  {
    && (forall k | k in t' :: k in t || k.0 == inState || k.0 == marking)
    && Extends(t, t')
    && Relocated(c, t', r, target, move, mine, inState, outState, marking)
  }

  /** The entries of `program_move_` once its marking state is chosen. */
  method MoveAndMark(c: Ctx, t: Table, r: Role, target: Letter, move: Move, mine: Letter,
                     inState: State, outState: State, marking: State) returns (t': Table)
    requires Cells(c) && target in c.m.working && mine in c.m.working
    requires Untouched(t, inState) && Untouched(t, marking) && inState != marking
    ensures MoveDone(c, t, t', r, target, move, mine, inState, outState, marking)
  {
    var t2 := BlankAndMoving(c, t, r, target, move, mine, inState, outState, marking);
    t' := MarkAfterMoving(c, t, t2, r, target, move, mine, inState, outState, marking);
  }

  /** The marking loop, after the blank entry and the first loop. */
  method MarkAfterMoving(c: Ctx, t: Table, t2: Table, r: Role, target: Letter, move: Move, mine: Letter,
                         inState: State, outState: State, marking: State) returns (t': Table)
    requires Cells(c) && Untouched(t, marking) && inState != marking
    requires BlankMoved(c, t, t2, r, target, move, mine, inState, outState, marking)
    ensures MoveDone(c, t, t', r, target, move, mine, inState, outState, marking)
  {
    MarkingOnlyBlank(c, t, t2, inState, marking);
    t' := EmitMarking(c, t2, r, move, outState, marking);
    MoveDoneOf(c, t, t2, t', r, target, move, mine, inState, outState, marking);
  }

  lemma MarkingOnlyBlank(c: Ctx, t: Table, t2: Table, inState: State, marking: State)
    requires Untouched(t, marking) && inState != marking
    requires forall k | k in t2 :: k in t || k.0 == inState || k == (marking, c.m.blank)
    ensures forall k | k in t2 && k.0 == marking :: k.1 == c.m.blank
  {
  }

  lemma MoveDoneOf(c: Ctx, t: Table, t2: Table, t': Table, r: Role, target: Letter, move: Move, mine: Letter,
                   inState: State, outState: State, marking: State)
    requires BlankMoved(c, t, t2, r, target, move, mine, inState, outState, marking)
    requires forall k | k in t' :: k in t2 || (k.0 == marking && k.1 != c.m.blank)
    requires Extends(t2, t')
    requires forall p | p in c.lm :: Marked(c, t', r, move, outState, marking, p)
    ensures MoveDone(c, t, t', r, target, move, mine, inState, outState, marking)
  {
    RelocatedAfterMarking(c, t2, t', r, target, move, mine, inState, outState, marking);
    ExtendsTrans(t, t2, t');
  }

  /** What `program_move_<H>` leaves, from table t and names `used` to t' and
      `used'`: one new name, the marking state; entries were only added, from
      `inState` or the marking state; the relocation is in place. */
  ghost predicate MoveOut(c: Ctx, t: Table, used: set<State>, t': Table, used': set<State>, r: Role, target: Letter,
                          move: Move, mine: Letter, inState: State, outState: State, marking: State)
  {
    && marking !in used && used' == used + {marking}
    && (forall k | k in t' :: k in t || k.0 == inState || k.0 == marking)
    && Extends(t, t') && Known(t', used')
    && Relocated(c, t', r, target, move, mine, inState, outState, marking)
  }

  /** A state already in use, other than the moving one, still has no
      entries after the move is programmed. */
  lemma MoveOutUntouched(c: Ctx, t: Table, used: set<State>, t': Table, used': set<State>, r: Role, target: Letter,
                         move: Move, mine: Letter, inState: State, outState: State, marking: State, x: State)
    requires MoveOut(c, t, used, t', used', r, target, move, mine, inState, outState, marking)
    requires Untouched(t, x) && x in used && x != inState
    ensures Untouched(t', x) && x in used'
  {
  }

  /** `program_move_<H>` (translator.h:170-222): a fresh `marking_head` state;
      from `inState`, r's letter `mine` becomes `target` and r's marker moves
      one cell in direction `move` (or stays); from the marking state, the cell
      reached gets r's marker and the head turns back, ending in `outState`. */
  method ProgramMove(c: Ctx, t: Table, states: SymbolSet, r: Role, target: Letter, move: Move, mine: Letter,
                     inState: State, outState: State)
    returns (t': Table, states': SymbolSet, marking: State)
    requires Cells(c) && target in c.m.working && mine in c.m.working
    requires Known(t, states.used) && inState in states.used && Untouched(t, inState)
    ensures states'.counter == states.counter
    ensures MoveOut(c, t, states.used, t', states'.used, r, target, move, mine, inState, outState, marking)
  {
    marking, states' := Fresh(states, "marking_head");
    KnownUntouched(t, states.used, marking);
    t' := MoveAndMark(c, t, r, target, move, mine, inState, outState, marking);
    MoveOutOf(c, t, states.used, t', states'.used, r, target, move, mine, inState, outState, marking);
  }

  lemma MoveOutOf(c: Ctx, t: Table, used: set<State>, t': Table, used': set<State>, r: Role, target: Letter,
                  move: Move, mine: Letter, inState: State, outState: State, marking: State)
    requires MoveDone(c, t, t', r, target, move, mine, inState, outState, marking)
    requires Known(t, used) && inState in used && marking !in used && used' == used + {marking}
    ensures MoveOut(c, t, used, t', used', r, target, move, mine, inState, outState, marking)
  {
  }

  /** The two entries of `program_look_for_`'s first loop for the other-track
      letter l (translator.h:229-238): the cell with r's marker is found. */
  function FoundEntries(c: Ctx, r: Role, mine: Letter, outState: State, l: Letter): seq<Entry>
  {
    var p := MakePair(r, mine, l);
    [ Entry(Cell(c, p, BothMarks), Action(outState, Cell(c, p, BothMarks), Stay)),
      Entry(Cell(c, p, Only(r)), Action(outState, Cell(c, p, Only(r)), Stay)) ]
  }

  /** The two entries of `program_look_for_`'s second loop for the pair p
      (translator.h:240-246): a cell without r's marker is passed going left. */
  function WalkEntries(c: Ctx, r: Role, inState: State, p: (Letter, Letter)): seq<Entry>
  {
    [ Entry(Cell(c, p, NoMarks), Action(inState, Cell(c, p, NoMarks), Left)),
      Entry(Cell(c, p, Only(Other(r))), Action(inState, Cell(c, p, Only(Other(r))), Left)) ]
  }

  /** What `program_look_for_<H>` leaves in the table: from `inState`, a cell
      holding r's marker and r's letter `mine` is left as it is and the search
      ends in `outState`; a cell without r's marker is left as it is and the
      search goes on one cell to the left. */
  ghost predicate LookedFor(c: Ctx, t: Table, r: Role, mine: Letter, inState: State, outState: State)
  {
    && (forall l, h | l in c.m.working && Mine(r, h) ::
          Maps(t, inState, Cell(c, MakePair(r, mine, l), h), Action(outState, Cell(c, MakePair(r, mine, l), h), Stay)))
    && (forall p, h | p in c.lm && !Mine(r, h) ::
          Maps(t, inState, Cell(c, p, h), Action(inState, Cell(c, p, h), Left)))
  }

  lemma FoundEntriesApart(c: Ctx, r: Role, mine: Letter, outState: State, x: Letter, y: Letter)
    requires Unique(c) && MakePair(r, mine, x) in c.lm && MakePair(r, mine, y) in c.lm
    ensures DistinctReads(FoundEntries(c, r, mine, outState, x))
    ensures x != y ==> ReadsApart(FoundEntries(c, r, mine, outState, x), FoundEntries(c, r, mine, outState, y))
  {
    var a, b := MakePair(r, mine, x), MakePair(r, mine, y);
    CellsApart(c, a, BothMarks, a, Only(r));
    if x != y {
      assert Track(Other(r), a) != Track(Other(r), b);
      CellsApart(c, a, BothMarks, b, BothMarks);
      CellsApart(c, a, BothMarks, b, Only(r));
      CellsApart(c, a, Only(r), b, BothMarks);
      CellsApart(c, a, Only(r), b, Only(r));
    }
  }

  lemma WalkEntriesApart(c: Ctx, r: Role, inState: State, p: (Letter, Letter), q: (Letter, Letter))
    requires Unique(c) && p in c.lm && q in c.lm
    ensures DistinctReads(WalkEntries(c, r, inState, p))
    ensures p != q ==> ReadsApart(WalkEntries(c, r, inState, p), WalkEntries(c, r, inState, q))
  {
    CellsApart(c, p, NoMarks, p, Only(Other(r)));
    if p != q {
      CellsApart(c, p, NoMarks, q, NoMarks);
      CellsApart(c, p, NoMarks, q, Only(Other(r)));
      CellsApart(c, p, Only(Other(r)), q, NoMarks);
      CellsApart(c, p, Only(Other(r)), q, Only(Other(r)));
    }
  }

  /** A cell with r's marker is never a cell without it. */
  lemma FoundWalkApart(c: Ctx, r: Role, mine: Letter, inState: State, outState: State, x: Letter, p: (Letter, Letter))
    requires Unique(c) && MakePair(r, mine, x) in c.lm && p in c.lm
    ensures ReadsApart(FoundEntries(c, r, mine, outState, x), WalkEntries(c, r, inState, p))
  {
    var a := MakePair(r, mine, x);
    CellsApart(c, a, BothMarks, p, NoMarks);
    CellsApart(c, a, BothMarks, p, Only(Other(r)));
    CellsApart(c, a, Only(r), p, NoMarks);
    CellsApart(c, a, Only(r), p, Only(Other(r)));
  }

  /** All entries of `program_look_for_` read distinct symbols. */
  lemma LookEntriesDistinct(c: Ctx, r: Role, mine: Letter, inState: State, outState: State)
    requires Cells(c) && mine in c.m.working
    ensures DistinctReads(FlatMap(c.m.working, l => FoundEntries(c, r, mine, outState, l))
                          + FlatMap(c.pairs, p => WalkEntries(c, r, inState, p)))
  {
    FoundListDistinct(c, r, mine, outState);
    WalkListDistinct(c, r, inState);
    FoundWalkListsApart(c, r, mine, inState, outState);
    DistinctAppend(FlatMap(c.m.working, l => FoundEntries(c, r, mine, outState, l)),
                   FlatMap(c.pairs, p => WalkEntries(c, r, inState, p)));
  }

  lemma FoundListDistinct(c: Ctx, r: Role, mine: Letter, outState: State)
    requires Cells(c) && mine in c.m.working
    ensures DistinctReads(FlatMap(c.m.working, l => FoundEntries(c, r, mine, outState, l)))
  {
    var f := l => FoundEntries(c, r, mine, outState, l);
    forall x, y | x in c.m.working && y in c.m.working
      ensures DistinctReads(f(x)) && (x != y ==> ReadsApart(f(x), f(y)))
    {
      FoundEntriesApart(c, r, mine, outState, x, y);
    }
    FlatMapDistinct(c.m.working, f);
  }

  lemma WalkListDistinct(c: Ctx, r: Role, inState: State)
    requires Cells(c)
    ensures DistinctReads(FlatMap(c.pairs, p => WalkEntries(c, r, inState, p)))
  {
    var g := p => WalkEntries(c, r, inState, p);
    forall p, q | p in c.pairs && q in c.pairs
      ensures DistinctReads(g(p)) && (p != q ==> ReadsApart(g(p), g(q)))
    {
      WalkEntriesApart(c, r, inState, p, q);
    }
    FlatMapDistinct(c.pairs, g);
  }

  lemma FoundWalkListsApart(c: Ctx, r: Role, mine: Letter, inState: State, outState: State)
    requires Cells(c) && mine in c.m.working
    ensures ReadsApart(FlatMap(c.m.working, l => FoundEntries(c, r, mine, outState, l)),
                       FlatMap(c.pairs, p => WalkEntries(c, r, inState, p)))
  {
    var f, g := l => FoundEntries(c, r, mine, outState, l), p => WalkEntries(c, r, inState, p);
    forall x, p | x in c.m.working && p in c.pairs
      ensures ReadsApart(f(x), g(p))
    {
      FoundWalkApart(c, r, mine, inState, outState, x, p);
    }
    FlatMapApart(c.m.working, f, c.pairs, g);
  }

  /** `program_look_for_<H>` (translator.h:224-247): walk left from `inState`
      to the cell holding r's marker, then enter `outState`. */
  method LookForHead(c: Ctx, t: Table, r: Role, mine: Letter, inState: State, outState: State) returns (t': Table)
    requires Cells(c) && mine in c.m.working
    requires Untouched(t, inState)
    ensures forall k | k in t' :: k in t || k.0 == inState
    ensures Extends(t, t')
    ensures LookedFor(c, t', r, mine, inState, outState)
  {
    var f, g := l => FoundEntries(c, r, mine, outState, l), p => WalkEntries(c, r, inState, p);
    var found, walk := FlatMap(c.m.working, f), FlatMap(c.pairs, g);
    LookEntriesDistinct(c, r, mine, inState, outState);
    t' := Emit(t, inState, found + walk);
    LookedForOf(c, t', r, mine, inState, outState);
  }

  /** The entries of `program_look_for_`, once in the table, give LookedFor. */
  lemma LookedForOf(c: Ctx, t: Table, r: Role, mine: Letter, inState: State, outState: State)
    requires forall p | p in c.lm :: p in c.pairs
    requires forall e | e in FlatMap(c.m.working, l => FoundEntries(c, r, mine, outState, l))
                                  + FlatMap(c.pairs, p => WalkEntries(c, r, inState, p)) ::
               Maps(t, inState, e.read, e.act)
    ensures LookedFor(c, t, r, mine, inState, outState)
  {
    var f, g := l => FoundEntries(c, r, mine, outState, l), p => WalkEntries(c, r, inState, p);
    var found, walk := FlatMap(c.m.working, f), FlatMap(c.pairs, g);
    assert forall e | e in found :: e in found + walk;
    assert forall e | e in walk :: e in found + walk;
    forall l, h | l in c.m.working && Mine(r, h)
      ensures Maps(t, inState, Cell(c, MakePair(r, mine, l), h), Action(outState, Cell(c, MakePair(r, mine, l), h), Stay))
    {
      FlatMapMaps(t, inState, c.m.working, f, l);
      var es := f(l);
      assert es[0] in es && es[1] in es;
      assert h == BothMarks || h == Only(r);
    }
    forall p, h | p in c.lm && !Mine(r, h)
      ensures Maps(t, inState, Cell(c, p, h), Action(inState, Cell(c, p, h), Left))
    {
      FlatMapMaps(t, inState, c.pairs, g, p);
      var es := g(p);
      assert es[0] in es && es[1] in es;
      assert h == NoMarks || h == Only(Other(r));
    }
  }

  /** Later entries that leave neither state of a relocation keep it. */
  lemma RelocatedKept(c: Ctx, t: Table, t': Table, r: Role, target: Letter, move: Move, mine: Letter,
                      inState: State, outState: State, marking: State)
    requires Relocated(c, t, r, target, move, mine, inState, outState, marking) && Extends(t, t')
    requires forall k | k in t' && k !in t :: k.0 != marking
    ensures Relocated(c, t', r, target, move, mine, inState, outState, marking)
  {
    forall l | l in c.m.working
      ensures MovedFrom(c, t', r, target, move, mine, inState, outState, marking, l)
    {
      MovedFromKept(c, t, t', r, target, move, mine, inState, outState, marking, l);
    }
  }

  lemma LookedForKept(c: Ctx, t: Table, t': Table, r: Role, mine: Letter, inState: State, outState: State)
    requires LookedFor(c, t, r, mine, inState, outState) && Extends(t, t')
    ensures LookedFor(c, t', r, mine, inState, outState)
  {
  }
}
