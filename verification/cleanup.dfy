/**
  The clean-up phase, `program_cleanup_` (translator.cpp:299-314): for every
  aliased source state, its going-back state walks left over cells and, on the
  tape-start sentinel, steps right into the state's scanning entry.

  As written, the walk left has an entry only for the cells that carry no head
  marker: a going-back state reaching a marked cell has no entry at all
  (CleanupStuck).
 */
module Cleanup {
  import opened Machines
  import opened Encodings
  import opened Alphabet
  import opened Context

  /** The entry of the walk left for the pair p: keep the unmarked cell of p
      and move left, staying in `back`. */
  function SweepBack(c: Ctx, back: State, p: (Letter, Letter)): seq<Entry>
  {
    [Entry(Cell(c, p, NoMarks), Action(back, Cell(c, p, NoMarks), Left))]
  }

  /** The entries from one alias' going-back state, in the source's order:
      one per encoded pair, then the one on the tape-start sentinel. */
  function CleanupEntries(c: Ctx, enc: StateEncoding): seq<Entry>
  {
    FlatMap(c.pairs, p => SweepBack(c, enc.goingBack, p))
      + [Entry(c.ids.tapeStart, Action(enc.doScanning, c.ids.tapeStart, Right))]
  }

  /** What the clean-up leaves for one alias: on every unmarked cell the
      going-back state keeps the cell, moves left and stays; on the tape-start
      sentinel it keeps it, moves right and enters the scanning entry; it reads
      nothing else. */
  ghost predicate CleanedUp(c: Ctx, t: Table, enc: StateEncoding)
  {
    && (forall p | p in c.lm :: Maps(t, enc.goingBack, Cell(c, p, NoMarks), Action(enc.goingBack, Cell(c, p, NoMarks), Left)))
    && Maps(t, enc.goingBack, c.ids.tapeStart, Action(enc.doScanning, c.ids.tapeStart, Right))
    && (forall k | k in t && k.0 == enc.goingBack :: k.1 in Reads(CleanupEntries(c, enc)))
  }

  /** The clean-up entries of one alias read distinct symbols. */
  lemma CleanupDistinct(c: Ctx, enc: StateEncoding)
    requires Cells(c)
    ensures DistinctReads(CleanupEntries(c, enc))
  {
    var f := p => SweepBack(c, enc.goingBack, p);
    forall p, q | p in c.pairs && q in c.pairs && p != q
      ensures ReadsApart(f(p), f(q))
    {
      CellsApart(c, p, NoMarks, q, NoMarks);
    }
    FlatMapDistinct(c.pairs, f);
    var es := FlatMap(c.pairs, f);
    forall i | 0 <= i < |es|
      ensures es[i].read != c.ids.tapeStart
    {
      assert es[i] in es;
      var p :| p in c.pairs && es[i] in f(p);
      CellIsEncoded(c, p, NoMarks);
    }
    DistinctAppend(es, [Entry(c.ids.tapeStart, Action(enc.doScanning, c.ids.tapeStart, Right))]);
  }

  /** The entries of one alias, from a going-back state with none yet. */
  method EmitCleanup(c: Ctx, t: Table, enc: StateEncoding) returns (t': Table)
    requires DistinctReads(CleanupEntries(c, enc)) && Untouched(t, enc.goingBack)
    requires forall p | p in c.lm :: p in c.pairs
    ensures forall k | k in t' && k !in t :: k.0 == enc.goingBack
    ensures Extends(t, t')
    ensures CleanedUp(c, t', enc)
  {
    var es := CleanupEntries(c, enc);
    t' := Emit(t, enc.goingBack, es);
    forall p | p in c.lm
      ensures Maps(t', enc.goingBack, Cell(c, p, NoMarks), Action(enc.goingBack, Cell(c, p, NoMarks), Left))
    {
      var e := Entry(Cell(c, p, NoMarks), Action(enc.goingBack, Cell(c, p, NoMarks), Left));
      assert e in SweepBack(c, enc.goingBack, p);
      assert e in es;
    }
  }

  /** The clean-up of the alias of q (one turn of translator.cpp:300-313). */
  method CleanupState(c: Ctx, t: Table, enc: StateEncoding) returns (t': Table)
    requires Cells(c) && Untouched(t, enc.goingBack)
    ensures forall k | k in t' && k !in t :: k.0 == enc.goingBack
    ensures Extends(t, t')
    ensures CleanedUp(c, t', enc)
  {
    CleanupDistinct(c, enc);
    t' := EmitCleanup(c, t, enc);
  }

  /** As written, a going-back state has no entry on a cell carrying a head
      marker: only the unmarked cells and the sentinel are read. */
  lemma CleanupStuck(c: Ctx, t: Table, enc: StateEncoding, p: (Letter, Letter), h: Heads)
    requires Cells(c) && CleanedUp(c, t, enc) && p in c.lm && h != NoMarks
    ensures (enc.goingBack, Cell(c, p, h)) !in t
  {
    var f := q => SweepBack(c, enc.goingBack, q);
    if (enc.goingBack, Cell(c, p, h)) in t {
      var es := CleanupEntries(c, enc);
      var e :| e in es && e.read == Cell(c, p, h);
      if e in FlatMap(c.pairs, f) {
        var q :| q in c.pairs && e in f(q);
        CellsApart(c, p, h, q, NoMarks);
      } else {
        CellIsEncoded(c, p, h);
      }
    }
  }

  /** A going-back state that some alias has. */
  ghost predicate IsGoingBack(c: Ctx, s: State)
  {
    exists q | q in c.aliases :: c.aliases[q].goingBack == s
  }

  /** The loop's invariant after i aliases: entries were only added, each from
      a going-back state, none from the going-back states still to come; the
      first i aliases are cleaned up. */
  ghost predicate CleanFrame(c: Ctx, t0: Table, t: Table, i: nat)
  {
    && i <= |c.order| && Extends(t0, t)
    && (forall k | k in t && k !in t0 :: IsGoingBack(c, k.0))
    && (forall k, j | k in t && i <= j < |c.order| && c.order[j] in c.aliases :: k.0 != c.aliases[c.order[j]].goingBack)
  }

  ghost predicate CleanDone(c: Ctx, t: Table, i: nat)
  {
    forall j | 0 <= j < i && j < |c.order| && c.order[j] in c.aliases :: CleanedUp(c, t, c.aliases[c.order[j]])
  }

  /** The walk order lists aliased states once each, and the aliases are
      apart. */
  ghost predicate CleanOrder(c: Ctx)
  {
    && NoDup(c.order) && (forall q | q in c.order :: q in c.aliases) && AliasesApart(c.aliases)
  }

  lemma CleanFrameStep(c: Ctx, t0: Table, t: Table, t': Table, i: nat)
    requires CleanOrder(c) && i < |c.order| && CleanFrame(c, t0, t, i)
    requires Extends(t, t') && (forall k | k in t' && k !in t :: k.0 == c.aliases[c.order[i]].goingBack)
    ensures CleanFrame(c, t0, t', i + 1)
  {
    ExtendsTrans(t0, t, t');
    forall k | k in t' && k !in t0
      ensures IsGoingBack(c, k.0)
    {
      if k !in t {
        assert c.order[i] in c.aliases;
      }
    }
    forall k, j | k in t' && i + 1 <= j < |c.order| && c.order[j] in c.aliases
      ensures k.0 != c.aliases[c.order[j]].goingBack
    {
      if k !in t {
        assert c.order[i] != c.order[j];
      }
    }
  }

  lemma CleanDoneStep(c: Ctx, t0: Table, t: Table, t': Table, i: nat)
    requires CleanOrder(c) && i < |c.order| && CleanDone(c, t, i)
    requires Extends(t, t') && (forall k | k in t' && k !in t :: k.0 == c.aliases[c.order[i]].goingBack)
    requires CleanedUp(c, t', c.aliases[c.order[i]])
    ensures CleanDone(c, t', i + 1)
  {
    forall j | 0 <= j < i && c.order[j] in c.aliases
      ensures CleanedUp(c, t', c.aliases[c.order[j]])
    {
      assert c.order[i] != c.order[j];
      var enc := c.aliases[c.order[j]];
      assert forall k | k in t' && k !in t :: k.0 != enc.goingBack;
    }
  }

  /** One turn of the loop of `program_cleanup_`. */
  method CleanNext(c: Ctx, t0: Table, t: Table, i: nat) returns (t': Table)
    requires Cells(c) && CleanOrder(c) && i < |c.order| && CleanFrame(c, t0, t, i) && CleanDone(c, t, i)
    ensures CleanFrame(c, t0, t', i + 1) && CleanDone(c, t', i + 1)
  {
    t' := CleanupState(c, t, c.aliases[c.order[i]]);
    CleanFrameStep(c, t0, t, t', i);
    CleanDoneStep(c, t0, t, t', i);
  }

  /** What the clean-up phase leaves, from t to t': entries were only added,
      each from a going-back state, and every alias is cleaned up. */
  ghost predicate CleanPhase(c: Ctx, t: Table, t': Table)
  {
    && Extends(t, t')
    && (forall k | k in t' && k !in t :: IsGoingBack(c, k.0))
    && (forall q | q in c.aliases :: CleanedUp(c, t', c.aliases[q]))
  }

  /** `program_cleanup_` (translator.cpp:299-314), walking the aliases in the
      order `order`, which lists each aliased state once. */
  method ProgramCleanup(c: Ctx, t: Table) returns (t': Table)
    requires Cells(c) && CleanOrder(c) && (forall q | q in c.aliases :: q in c.order)
    requires forall q | q in c.aliases :: Untouched(t, c.aliases[q].goingBack)
    ensures CleanPhase(c, t, t')
  {
    t' := t;
    var i := 0;
    while i < |c.order|
      invariant CleanFrame(c, t, t', i) && CleanDone(c, t', i)
      decreases |c.order| - i
    {
      t' := CleanNext(c, t, t', i);
      i := i + 1;
    }
    CleanPhaseOf(c, t, t');
  }

  lemma CleanPhaseOf(c: Ctx, t: Table, t': Table)
    requires CleanOrder(c) && (forall q | q in c.aliases :: q in c.order)
    requires CleanFrame(c, t, t', |c.order|) && CleanDone(c, t', |c.order|)
    ensures CleanPhase(c, t, t')
  {
    forall q | q in c.aliases
      ensures CleanedUp(c, t', c.aliases[q])
    {
      var j :| 0 <= j < |c.order| && c.order[j] == q;
    }
  }
}
