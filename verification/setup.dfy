/**
  The setup protocol (translator.cpp:50-113): from the raw input word it builds
  the encoded tape, with a `tape-start` sentinel in front and the word shifted
  one cell to the right on the top track, both heads on its first cell.
 */
module Setup {
  import opened Machines
  import opened Encodings
  import opened SymbolSets
  import opened Context

  /** What the setup protocol needs of the source machine and the tables. */
  predicate SetupReady(c: Ctx)
  {
    && c.m.blank !in c.m.input && NoDup(c.m.input)
    && c.ids.tapeStart != c.m.blank
    && (c.m.blank, c.m.blank) in c.lm
    && (forall l | l in c.m.input :: (l, c.m.blank) in c.lm)
    && c.m.initial in c.aliases
  }

  /** The empty-word case (translator.cpp:57-65): on BLANK write the sentinel and
      step right; on that BLANK plant both heads on (BLANK, BLANK) and step back;
      on the sentinel step right into the initial state's scanning entry. */
  method SetupEmptyWord(c: Ctx, states: SymbolSet) returns (t: Table, states': SymbolSet, moveFirstBlank: State)
    requires SetupReady(c) && c.m.initial in states.used
    ensures moveFirstBlank !in states.used && states'.used == states.used + {moveFirstBlank}
    ensures forall k | k in t :: k == (c.m.initial, c.m.blank) || k == (moveFirstBlank, c.m.blank) || k == (moveFirstBlank, c.ids.tapeStart)
    ensures Maps(t, c.m.initial, c.m.blank, Action(moveFirstBlank, c.ids.tapeStart, Right))
    ensures Maps(t, moveFirstBlank, c.m.blank, Action(moveFirstBlank, Sym(c.lm[(c.m.blank, c.m.blank)], BothMarks), Left))
    ensures Maps(t, moveFirstBlank, c.ids.tapeStart, Action(c.aliases[c.m.initial].doScanning, c.ids.tapeStart, Right))
  {
    var I, B, ts := c.m.initial, c.m.blank, c.ids.tapeStart;
    moveFirstBlank, states' := Fresh(states, "move-first-blank");
    t := NewTransition(map[], I, B, moveFirstBlank, ts, Right);
    t := NewTransition(t, moveFirstBlank, B, moveFirstBlank, Sym(c.lm[(B, B)], BothMarks), Left);
    t := NewTransition(t, moveFirstBlank, ts, c.aliases[I].doScanning, ts, Right);
  }

  /** translator.cpp:67-74: on every input letter write the sentinel, step right
      and enter a fresh `setup-move-1st-<letter>` state. */
  method SetupFirstLetters(c: Ctx, t: Table, states: SymbolSet) returns (t': Table, states': SymbolSet, first: seq<State>)
    requires SetupReady(c)
    requires forall k | k in t && k.0 == c.m.initial :: k.1 !in c.m.input
    ensures states.used <= states'.used
    ensures |first| == |c.m.input| && NoDup(first)
    ensures forall i | 0 <= i < |first| :: first[i] !in states.used && first[i] in states'.used
    ensures forall k | k in t' :: k in t || (k.0 == c.m.initial && k.1 in c.m.input)
    ensures Extends(t, t')
    ensures forall i | 0 <= i < |first| :: Maps(t', c.m.initial, c.m.input[i], Action(first[i], c.ids.tapeStart, Right))
  {
    var I := c.m.initial;
    t', states', first := t, states, [];
    var i := 0;
    while i < |c.m.input|
      invariant 0 <= i <= |c.m.input| && |first| == i && NoDup(first)
      invariant states.used <= states'.used
      invariant forall j | 0 <= j < i :: first[j] !in states.used && first[j] in states'.used
      invariant forall k | k in t' :: k in t || (k.0 == I && exists j | 0 <= j < i :: k.1 == c.m.input[j])
      invariant Extends(t, t')
      invariant forall j | 0 <= j < i :: Maps(t', I, c.m.input[j], Action(first[j], c.ids.tapeStart, Right))
    {
      var letter := c.m.input[i];
      var moveCurr;
      moveCurr, states' := Fresh(states', "setup-move-1st-" + letter);
      t' := NewTransition(t', I, letter, moveCurr, c.ids.tapeStart, Right);
      first := first + [moveCurr];
      i := i + 1;
    }
  }

  /** Column `letter` of translator.cpp:88-93: every first-letter state, on
      reading `letter`, writes its own letter paired with BLANK under both heads,
      steps right and enters `next`. */
  ghost predicate FirstCells(c: Ctx, t: Table, first: seq<State>, letter: Letter, next: State)
    requires SetupReady(c) && |first| == |c.m.input|
  {
    forall b | 0 <= b < |first| ::
      Maps(t, first[b], letter, Action(next, Sym(c.lm[(c.m.input[b], c.m.blank)], BothMarks), Right))
  }

  /** Column a of translator.cpp:88-93, the one that enters moving[a]. */
  ghost predicate ColumnDone(c: Ctx, t: Table, first: seq<State>, moving: seq<State>, a: nat)
    requires SetupReady(c) && |first| == |c.m.input|
  {
    a < |moving| && a < |c.m.input| && FirstCells(c, t, first, c.m.input[a], moving[a])
  }

  lemma ColumnKept(c: Ctx, t: Table, t': Table, first: seq<State>, moving: seq<State>, next: State, a: nat)
    requires SetupReady(c) && |first| == |c.m.input|
    requires ColumnDone(c, t, first, moving, a) && Extends(t, t')
    ensures ColumnDone(c, t', first, moving + [next], a)
  {
    assert (moving + [next])[a] == moving[a];
  }

  lemma ColumnExtended(c: Ctx, t: Table, t': Table, first: seq<State>, moving: seq<State>, a: nat)
    requires SetupReady(c) && |first| == |c.m.input|
    requires ColumnDone(c, t, first, moving, a) && Extends(t, t')
    ensures ColumnDone(c, t', first, moving, a)
  {
  }

  /** The inner loop of translator.cpp:88-93. */
  method EmitFirstCells(c: Ctx, t: Table, first: seq<State>, letter: Letter, next: State) returns (t': Table)
    requires SetupReady(c) && |first| == |c.m.input| && NoDup(first)
    requires forall k | k in t && k.1 == letter :: k.0 !in first
    ensures forall k | k in t' :: k in t || (k.1 == letter && k.0 in first)
    ensures Extends(t, t')
    ensures FirstCells(c, t', first, letter, next)
  {
    t' := t;
    var b := 0;
    while b < |first|
      invariant 0 <= b <= |first|
      invariant forall k | k in t' :: k in t || (k.1 == letter && exists j | 0 <= j < b :: k.0 == first[j])
      invariant Extends(t, t')
      invariant forall j | 0 <= j < b ::
        Maps(t', first[j], letter, Action(next, Sym(c.lm[(c.m.input[j], c.m.blank)], BothMarks), Right))
    {
      t' := NewTransition(t', first[b], letter, next, Sym(c.lm[(c.m.input[b], c.m.blank)], BothMarks), Right);
      b := b + 1;
    }
  }

  /** One round of translator.cpp:84-93: a fresh `setup-move-<letter>` state,
      entered from every first-letter state on `letter`. */
  method ShiftColumn(c: Ctx, t: Table, states: SymbolSet, first: seq<State>, letter: Letter)
    returns (t': Table, states': SymbolSet, next: State)
    requires SetupReady(c) && |first| == |c.m.input| && NoDup(first)
    requires forall k | k in t && k.1 == letter :: k.0 !in first
    ensures next !in states.used && states'.used == states.used + {next}
    ensures forall k | k in t' :: k in t || (k.1 == letter && k.0 in first)
    ensures Extends(t, t')
    ensures FirstCells(c, t', first, letter, next)
  {
    next, states' := Fresh(states, "setup-move-" + letter);
    t' := EmitFirstCells(c, t, first, letter, next);
  }

  /** translator.cpp:82-94: one fresh `setup-move-<letter>` state per input letter;
      a first-letter state reading that letter moves there. */
  method SetupShiftStates(c: Ctx, t: Table, states: SymbolSet, first: seq<State>)
    returns (t': Table, states': SymbolSet, moving: seq<State>)
    requires SetupReady(c) && |first| == |c.m.input| && NoDup(first)
    requires forall k | k in t :: k.0 !in first
    ensures |moving| == |c.m.input| && FreshList(moving, states.used, states'.used)
    ensures forall k | k in t' :: k in t || (k.0 in first && k.1 in c.m.input)
    ensures Extends(t, t')
    ensures forall a | 0 <= a < |moving| :: ColumnDone(c, t', first, moving, a)
  {
    t', states', moving := t, states, [];
    var i := 0;
    while i < |c.m.input|
      invariant 0 <= i <= |c.m.input| && |moving| == i && FreshList(moving, states.used, states'.used)
      invariant forall k | k in t' :: k in t || (k.0 in first && exists j | 0 <= j < i :: k.1 == c.m.input[j])
      invariant Extends(t, t')
      invariant forall a | 0 <= a < i :: ColumnDone(c, t', first, moving, a)
    {
      ghost var before, used := t', states'.used;
      var next;
      t', states', next := ShiftColumn(c, t', states', first, c.m.input[i]);
      FreshListSnoc(moving, states.used, used, next);
      forall a | 0 <= a < i
        ensures ColumnDone(c, t', first, moving + [next], a)
      {
        ColumnKept(c, before, t', first, moving, next, a);
      }
      assert ColumnDone(c, t', first, moving + [next], i);
      moving := moving + [next];
      i := i + 1;
    }
  }

  /** Row a of the shift chain (translator.cpp:97-103): the state carrying input
      letter a, on reading input letter b, writes a paired with BLANK without
      heads, steps right and carries b. */
  ghost predicate ShiftRow(c: Ctx, t: Table, moving: seq<State>, a: nat)
    requires SetupReady(c) && |moving| == |c.m.input| && a < |moving|
  {
    forall b | 0 <= b < |moving| ::
      Maps(t, moving[a], c.m.input[b], Action(moving[b], Sym(c.lm[(c.m.input[a], c.m.blank)], NoMarks), Right))
  }

  lemma ShiftRowKept(c: Ctx, t: Table, t': Table, moving: seq<State>, a: nat)
    requires SetupReady(c) && |moving| == |c.m.input| && a < |moving|
    requires ShiftRow(c, t, moving, a) && Extends(t, t')
    ensures ShiftRow(c, t', moving, a)
  {
  }

  /** The inner loop of translator.cpp:97-103. */
  method EmitShiftRow(c: Ctx, t: Table, moving: seq<State>, a: nat) returns (t': Table)
    requires SetupReady(c) && |moving| == |c.m.input| && a < |moving|
    requires forall k | k in t && k.0 == moving[a] :: k.1 !in c.m.input
    ensures forall k | k in t' :: k in t || (k.0 == moving[a] && k.1 in c.m.input)
    ensures Extends(t, t')
    ensures ShiftRow(c, t', moving, a)
  {
    t' := t;
    var b := 0;
    while b < |moving|
      invariant 0 <= b <= |moving|
      invariant forall k | k in t' :: k in t || (k.0 == moving[a] && exists j | 0 <= j < b :: k.1 == c.m.input[j])
      invariant Extends(t, t')
      invariant forall j | 0 <= j < b ::
        Maps(t', moving[a], c.m.input[j], Action(moving[j], Sym(c.lm[(c.m.input[a], c.m.blank)], NoMarks), Right))
    {
      t' := NewTransition(t', moving[a], c.m.input[b], moving[b], Sym(c.lm[(c.m.input[a], c.m.blank)], NoMarks), Right);
      b := b + 1;
    }
  }

  /** translator.cpp:96-104: the whole shift chain, one row per moving state. */
  method SetupShiftChain(c: Ctx, t: Table, moving: seq<State>) returns (t': Table)
    requires SetupReady(c) && |moving| == |c.m.input| && NoDup(moving)
    requires forall k | k in t :: k.0 !in moving
    ensures forall k | k in t' :: k in t || (k.0 in moving && k.1 in c.m.input)
    ensures Extends(t, t')
    ensures forall a | 0 <= a < |moving| :: ShiftRow(c, t', moving, a)
  {
    t' := t;
    var a := 0;
    while a < |moving|
      invariant 0 <= a <= |moving|
      invariant forall k | k in t' :: k in t || (k.1 in c.m.input && exists j | 0 <= j < a :: k.0 == moving[j])
      invariant Extends(t, t')
      invariant forall i | 0 <= i < a :: ShiftRow(c, t', moving, i)
    {
      ghost var before := t';
      t' := EmitShiftRow(c, t', moving, a);
      forall i | 0 <= i < a
        ensures ShiftRow(c, t', moving, i)
      {
        ShiftRowKept(c, before, t', moving, i);
      }
      a := a + 1;
    }
  }

  /** translator.cpp:106-112: the end of the word: on BLANK a moving state writes
      the letter it carries without heads and steps left into the initial state's
      return sweep. */
  method SetupWordEnd(c: Ctx, t: Table, moving: seq<State>) returns (t': Table)
    requires SetupReady(c) && |moving| == |c.m.input| && NoDup(moving)
    requires forall k | k in t && k.1 == c.m.blank :: k.0 !in moving
    ensures forall k | k in t' :: k in t || (k.0 in moving && k.1 == c.m.blank)
    ensures Extends(t, t')
    ensures forall a | 0 <= a < |moving| ::
      Maps(t', moving[a], c.m.blank, Action(c.aliases[c.m.initial].goingBack, Sym(c.lm[(c.m.input[a], c.m.blank)], NoMarks), Left))
  {
    t' := t;
    var a := 0;
    while a < |moving|
      invariant 0 <= a <= |moving|
      invariant forall k | k in t' :: k in t || (k.1 == c.m.blank && exists j | 0 <= j < a :: k.0 == moving[j])
      invariant Extends(t, t')
      invariant forall j | 0 <= j < a ::
        Maps(t', moving[j], c.m.blank, Action(c.aliases[c.m.initial].goingBack, Sym(c.lm[(c.m.input[j], c.m.blank)], NoMarks), Left))
    {
      t' := NewTransition(t', moving[a], c.m.blank, c.aliases[c.m.initial].goingBack,
                          Sym(c.lm[(c.m.input[a], c.m.blank)], NoMarks), Left);
      a := a + 1;
    }
  }

  /** Each state the setup protocol leaves, and exactly what it reads: the
      initial state BLANK and the input letters; `move-first-blank` BLANK and
      the sentinel; a first-letter state the input letters; a moving state the
      input letters and BLANK. */
  predicate SetupKeys(c: Ctx, t: Table, mfb: State, first: seq<State>, moving: seq<State>)
  {
    forall k | k in t ::
      || (k.0 == c.m.initial && (k.1 == c.m.blank || k.1 in c.m.input))
      || (k.0 == mfb && (k.1 == c.m.blank || k.1 == c.ids.tapeStart))
      || (k.0 in first && k.1 in c.m.input)
      || (k.0 in moving && (k.1 in c.m.input || k.1 == c.m.blank))
  }

  /** Everything the setup protocol leaves, from names `used` to `used'`:
      fresh names, the exact keys, and the entries. */
  ghost predicate SetupDone(c: Ctx, used: set<State>, t: Table, used': set<State>, mfb: State, first: seq<State>, moving: seq<State>)
    requires SetupReady(c)
  {
    && FreshList([mfb] + first + moving, used, used')
    && SetupKeys(c, t, mfb, first, moving)
    && SetupEntries(c, t, mfb, first, moving)
  }

  /** The entries of the setup protocol: from the initial state, on BLANK
      write the sentinel and enter `move-first-blank`, on an input letter write
      the sentinel and enter that letter's first-letter state; the empty-word
      entries of `move-first-blank`; the columns of the first-letter states, the
      rows of the shift chain, and the word's end. */
  ghost predicate SetupEntries(c: Ctx, t: Table, mfb: State, first: seq<State>, moving: seq<State>)
    requires SetupReady(c)
  {
    && |first| == |c.m.input| && |moving| == |c.m.input|
    && Maps(t, c.m.initial, c.m.blank, Action(mfb, c.ids.tapeStart, Right))
    && Maps(t, mfb, c.m.blank, Action(mfb, Sym(c.lm[(c.m.blank, c.m.blank)], BothMarks), Left))
    && Maps(t, mfb, c.ids.tapeStart, Action(c.aliases[c.m.initial].doScanning, c.ids.tapeStart, Right))
    && (forall i | 0 <= i < |first| :: Maps(t, c.m.initial, c.m.input[i], Action(first[i], c.ids.tapeStart, Right)))
    && (forall a | 0 <= a < |moving| :: ColumnDone(c, t, first, moving, a))
    && (forall a | 0 <= a < |moving| :: ShiftRow(c, t, moving, a))
    && (forall a | 0 <= a < |moving| ::
          Maps(t, moving[a], c.m.blank, Action(c.aliases[c.m.initial].goingBack, Sym(c.lm[(c.m.input[a], c.m.blank)], NoMarks), Left)))
  }

  /** Later phases only add entries, which keeps the setup entries. */
  lemma SetupEntriesKept(c: Ctx, t: Table, t': Table, mfb: State, first: seq<State>, moving: seq<State>)
    requires SetupReady(c) && SetupEntries(c, t, mfb, first, moving) && Extends(t, t')
    ensures SetupEntries(c, t', mfb, first, moving)
  {
    forall a | 0 <= a < |moving|
      ensures ColumnDone(c, t', first, moving, a) && ShiftRow(c, t', moving, a)
    {
      ColumnExtended(c, t, t', first, moving, a);
      ShiftRowKept(c, t, t', moving, a);
    }
  }

  /** The first half of the protocol: the empty-word entries, the first-letter
      states and the moving states. */
  method SetupStates(c: Ctx, states: SymbolSet)
    returns (t: Table, states': SymbolSet, mfb: State, first: seq<State>, moving: seq<State>)
    requires SetupReady(c) && c.m.initial in states.used
    ensures |first| == |c.m.input| && |moving| == |c.m.input|
    ensures FreshList([mfb] + first + moving, states.used, states'.used)
    ensures forall k | k in t ::
      || (k.0 == c.m.initial && (k.1 == c.m.blank || k.1 in c.m.input))
      || (k.0 == mfb && (k.1 == c.m.blank || k.1 == c.ids.tapeStart))
      || (k.0 in first && k.1 in c.m.input)
    ensures Maps(t, c.m.initial, c.m.blank, Action(mfb, c.ids.tapeStart, Right))
    ensures Maps(t, mfb, c.m.blank, Action(mfb, Sym(c.lm[(c.m.blank, c.m.blank)], BothMarks), Left))
    ensures Maps(t, mfb, c.ids.tapeStart, Action(c.aliases[c.m.initial].doScanning, c.ids.tapeStart, Right))
    ensures forall i | 0 <= i < |first| :: Maps(t, c.m.initial, c.m.input[i], Action(first[i], c.ids.tapeStart, Right))
    ensures forall a | 0 <= a < |moving| :: ColumnDone(c, t, first, moving, a)
  {
    var t1, s1, t2, s2;
    t1, s1, mfb := SetupEmptyWord(c, states);
    t2, s2, first := SetupFirstLetters(c, t1, s1);
    t, states', moving := SetupShiftStates(c, t2, s2, first);
    FreshJoin(mfb, first, moving, states.used, s1.used, s2.used, states'.used);
  }

  /** The names of the three generator rounds, each fresh for the round before,
      form one fresh list. */
  lemma FreshJoin(mfb: State, first: seq<State>, moving: seq<State>, u0: set<State>, u1: set<State>, u2: set<State>, u3: set<State>)
    requires mfb !in u0 && u1 == u0 + {mfb}
    requires u1 <= u2 && NoDup(first) && (forall i | 0 <= i < |first| :: first[i] !in u1 && first[i] in u2)
    requires FreshList(moving, u2, u3)
    ensures FreshList([mfb] + first + moving, u0, u3)
  {
    var names := [mfb] + first + moving;
    forall i, j | 0 <= i < j < |names|
      ensures names[i] != names[j]
    {
      if j <= |first| {
        assert names[j] == first[j - 1];
        if i > 0 { assert names[i] == first[i - 1]; }
      } else {
        assert names[j] == moving[j - 1 - |first|];
        if i > |first| { assert names[i] == moving[i - 1 - |first|]; }
        else if i > 0 { assert names[i] == first[i - 1]; }
      }
    }
    forall i | 0 <= i < |names|
      ensures names[i] !in u0 && names[i] in u3
    {
      if i == 0 {
      } else if i <= |first| {
        assert names[i] == first[i - 1];
      } else {
        assert names[i] == moving[i - 1 - |first|];
      }
    }
  }

  /** `program_setup_protocol_` (translator.cpp:50-113). */
  method ProgramSetup(c: Ctx, states: SymbolSet)
    returns (t: Table, states': SymbolSet, mfb: State, first: seq<State>, moving: seq<State>)
    requires SetupReady(c) && c.m.initial in states.used
    ensures SetupDone(c, states.used, t, states'.used, mfb, first, moving)
  {
    var t1;
    t1, states', mfb, first, moving := SetupStates(c, states);
    MovingUntouched(c, t1, states.used, states'.used, mfb, first, moving);
    t := SetupMoves(c, t1, states.used, states'.used, mfb, first, moving);
  }

  /** The second half of the protocol: the shift chain and the word's end. */
  method SetupMoves(c: Ctx, t1: Table, used: set<State>, used': set<State>, mfb: State, first: seq<State>, moving: seq<State>)
    returns (t: Table)
    requires SetupReady(c) && |first| == |c.m.input| && |moving| == |c.m.input|
    requires FreshList([mfb] + first + moving, used, used')
    requires NoDup(moving) && (forall k | k in t1 :: k.0 !in moving)
    requires forall k | k in t1 ::
      || (k.0 == c.m.initial && (k.1 == c.m.blank || k.1 in c.m.input))
      || (k.0 == mfb && (k.1 == c.m.blank || k.1 == c.ids.tapeStart))
      || (k.0 in first && k.1 in c.m.input)
    requires Maps(t1, c.m.initial, c.m.blank, Action(mfb, c.ids.tapeStart, Right))
    requires Maps(t1, mfb, c.m.blank, Action(mfb, Sym(c.lm[(c.m.blank, c.m.blank)], BothMarks), Left))
    requires Maps(t1, mfb, c.ids.tapeStart, Action(c.aliases[c.m.initial].doScanning, c.ids.tapeStart, Right))
    requires forall i | 0 <= i < |first| :: Maps(t1, c.m.initial, c.m.input[i], Action(first[i], c.ids.tapeStart, Right))
    requires forall a | 0 <= a < |moving| :: ColumnDone(c, t1, first, moving, a)
    ensures SetupDone(c, used, t, used', mfb, first, moving)
  {
    var t2 := SetupShiftChain(c, t1, moving);
    t := SetupWordEnd(c, t2, moving);
    ExtendsTrans(t1, t2, t);
    forall a | 0 <= a < |moving|
      ensures ColumnDone(c, t, first, moving, a)
    {
      ColumnExtended(c, t1, t, first, moving, a);
    }
    forall a | 0 <= a < |moving|
      ensures ShiftRow(c, t, moving, a)
    {
      ShiftRowKept(c, t2, t, moving, a);
    }
  }

  /** The moving states are fresh, so none has an entry yet. */
  lemma MovingUntouched(c: Ctx, t: Table, u0: set<State>, u3: set<State>, mfb: State, first: seq<State>, moving: seq<State>)
    requires FreshList([mfb] + first + moving, u0, u3) && c.m.initial in u0
    requires forall k | k in t :: k.0 == c.m.initial || k.0 == mfb || k.0 in first
    ensures NoDup(moving) && forall k | k in t :: k.0 !in moving
  {
    var names := [mfb] + first + moving;
    assert forall j | 0 <= j < |moving| :: names[1 + |first| + j] == moving[j];
    assert forall i | 0 <= i < |first| :: names[1 + i] == first[i];
    assert names[0] == mfb;
  }

  /** As written, a first-letter state has no entry on BLANK: on a one-letter
      word the protocol stops right after the first step. */
  lemma SetupFirstStuck(c: Ctx, used: set<State>, t: Table, used': set<State>, mfb: State, first: seq<State>, moving: seq<State>, i: nat)
    requires c.m.blank !in c.m.input && c.m.initial in used
    requires FreshList([mfb] + first + moving, used, used') && SetupKeys(c, t, mfb, first, moving) && i < |first|
    ensures (first[i], c.m.blank) !in t
  {
    var names := [mfb] + first + moving;
    assert names[1 + i] == first[i] && names[0] == mfb;
    forall j | 0 <= j < |moving|
      ensures moving[j] != first[i]
    {
      assert names[1 + |first| + j] == moving[j];
    }
  }
}
