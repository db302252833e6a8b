/**
  The fresh-name generator of the translator (symbol_set.cpp).

  A `SymbolSet` remembers every name it has handed out or was seeded with,
  together with the counter used by the anonymous `generate()`.  Names are
  strings; the counter is printed in lower-case hexadecimal, as `std::hex`
  does, and that formatting is proved injective so that distinct counters
  always give distinct candidates.
 */
module SymbolSets {

  /** One lower-case hexadecimal digit. */
  function HexDigit(d: nat): char
    requires d < 16
  {
    if d < 10 then ('0' as int + d) as char else ('a' as int + d - 10) as char
  }

  /** `std::hex` formatting of a non-negative number: no leading zeros. */
  function Hex(n: nat): (s: string)
    ensures 1 <= |s|
    ensures n < 16 <==> |s| == 1
    decreases n
  {
    if n < 16 then [HexDigit(n)] else Hex(n / 16) + [HexDigit(n % 16)]
  }

  /** A lower-case hexadecimal digit character. */
  predicate IsHexDigit(ch: char)
  {
    '0' <= ch <= '9' || 'a' <= ch <= 'f'
  }

  /** What `std::hex` prints: lower-case hexadecimal digits only, no leading
      zero except for zero itself, and the last digit is the value modulo 16
      after the rendering of the value divided by 16. */
  lemma {:induction false} HexDigits(n: nat)
    ensures forall i | 0 <= i < |Hex(n)| :: IsHexDigit(Hex(n)[i])
    ensures Hex(n)[0] != '0' || n == 0
    ensures Hex(n)[|Hex(n)| - 1] == HexDigit(n % 16)
    ensures n >= 16 ==> Hex(n)[..|Hex(n)| - 1] == Hex(n / 16)
    decreases n
  {
    if n >= 16 {
      HexDigits(n / 16);
      var s := Hex(n);
      assert s == Hex(n / 16) + [HexDigit(n % 16)];
      assert s[0] == Hex(n / 16)[0];
      forall i | 0 <= i < |s|
        ensures IsHexDigit(s[i])
      {
        if i < |s| - 1 {
          assert s[i] == Hex(n / 16)[i];
        }
      }
    }
  }

  /** Two renderings worked out: 255 prints as "ff" and 16 as "10". */
  lemma HexExamples()
    ensures Hex(255) == "ff" && Hex(16) == "10"
  {
    assert Hex(15) == "f" && Hex(1) == "1" && Hex(0) == "0";
  }

  lemma HexDigitInjective(a: nat, b: nat)
    requires a < 16 && b < 16 && a != b
    ensures HexDigit(a) != HexDigit(b)
  {
  }

  /** Different numbers print differently. */
  lemma {:induction false} HexInjective(a: nat, b: nat)
    requires a != b
    ensures Hex(a) != Hex(b)
    decreases a
  {
    if a < 16 && b < 16 {
      HexDigitInjective(a, b);
      assert Hex(a)[0] == HexDigit(a) && Hex(b)[0] == HexDigit(b);
    } else if a < 16 || b < 16 {
      assert |Hex(a)| != |Hex(b)|;
    } else if a % 16 != b % 16 {
      HexDigitInjective(a % 16, b % 16);
      assert Hex(a)[|Hex(a)| - 1] == HexDigit(a % 16);
      assert Hex(b)[|Hex(b)| - 1] == HexDigit(b % 16);
    } else {
      assert a / 16 != b / 16;
      HexInjective(a / 16, b / 16);
      assert Hex(a)[..|Hex(a)| - 1] == Hex(a / 16);
      assert Hex(b)[..|Hex(b)| - 1] == Hex(b / 16);
    }
  }

  /** The k-th candidate name for a stem: "(" + stem + hex(k) + ")".
      `generate()` uses the empty stem, the hinted generator its inspiration. */
  function Candidate(stem: string, k: nat): string
  {
    "(" + stem + Hex(k) + ")"
  }

  /** Candidates for one stem never repeat. */
  lemma CandidateInjective(stem: string, j: nat, k: nat)
    requires j != k
    ensures Candidate(stem, j) != Candidate(stem, k)
  {
    var cj, ck := Candidate(stem, j), Candidate(stem, k);
    assert cj[|stem| + 1..|cj| - 1] == Hex(j);
    assert ck[|stem| + 1..|ck| - 1] == Hex(k);
    HexInjective(j, k);
  }

  /** The name the hinted generator tries first. */
  function Hinted(inspiration: string): string
  {
    "(" + inspiration + ")"
  }

  /** The set of names in use, and the counter of the anonymous generator. */
  datatype SymbolSet = SymbolSet(used: set<string>, counter: nat)

  /** The constructor: the given symbols are reserved, the counter starts at zero. */
  function Init(symbols: seq<string>): (g: SymbolSet)
    ensures forall s :: s in g.used <==> s in symbols
    ensures g.counter == 0
  {
    SymbolSet(set s | s in symbols, 0)
  }

  /** The candidates for `stem` numbered start .. k-1. */
  function Tried(stem: string, start: nat, k: nat): set<string>
  {
    set j: nat | start <= j < k :: Candidate(stem, j)
  }

  /** Distinct numbers give distinct candidates, so k - start of them were tried. */
  lemma {:induction false} TriedSize(stem: string, start: nat, k: nat)
    requires start <= k
    ensures |Tried(stem, start, k)| == k - start
    decreases k
  {
    if k > start {
      TriedSize(stem, start, k - 1);
      assert Tried(stem, start, k) == Tried(stem, start, k - 1) + {Candidate(stem, k - 1)};
      forall j: nat | start <= j < k - 1
        ensures Candidate(stem, j) != Candidate(stem, k - 1)
      {
        CandidateInjective(stem, j, k - 1);
      }
    } else {
      assert Tried(stem, start, k) == {};
    }
  }

  lemma SubsetSize(a: set<string>, b: set<string>)
    requires a <= b
    ensures |a| <= |b|
  {
    assert b == a + (b - a);
    assert a * (b - a) == {};
  }

  /** Tries the candidates for `stem` from number `start` on and returns the first
      one that is not in `used`, together with the number after it.  Only finitely
      many candidates can be in use, so the search ends. */
  method FirstUnused(used: set<string>, stem: string, start: nat) returns (name: string, next: nat)
    ensures start < next
    ensures name == Candidate(stem, next - 1)
    ensures name !in used
    ensures forall k | start <= k < next - 1 :: Candidate(stem, k) in used
  {
    var k := start;
    name := Candidate(stem, k);
    while name in used
      invariant start <= k && name == Candidate(stem, k)
      invariant Tried(stem, start, k) <= used
      decreases |used| - (k - start)
    {
      TriedSize(stem, start, k + 1);
      assert Tried(stem, start, k + 1) <= used;
      SubsetSize(Tried(stem, start, k + 1), used);
      k := k + 1;
      name := Candidate(stem, k);
    }
    next := k + 1;
    assert forall j | start <= j < k :: Candidate(stem, j) in Tried(stem, start, k);
  }

  /** What a call of a generator as written comes to: it returns a name and the
      updated set, or it never returns. */
  datatype Outcome = Returned(name: string, after: SymbolSet) | Diverges

  /** The part of a `std::stringstream` that `generate()` exercises: the text
      written but not yet read, and whether a read has hit the end of the text.
      Once the end is hit, the stream is no longer good: later writes and reads
      do nothing, and a failed read leaves its target unchanged. */
  datatype Stream = Stream(pending: string, atEnd: bool)

  function Put(s: Stream, text: string): (s': Stream)
    ensures !s.atEnd ==> s'.pending == s.pending + text
    ensures s.atEnd ==> s' == s
  {
    if s.atEnd then s else s.(pending := s.pending + text)
  }

  /** Reading one token; names hold no white space, so a read takes all the
      pending text and stops at its end. */
  function Take(s: Stream, res: string): (r: (Stream, string))
    ensures !s.atEnd ==> r.1 == s.pending && r.0.atEnd
    ensures s.atEnd ==> r == (s, res)
  {
    if s.atEnd then (s, res) else (Stream("", true), s.pending)
  }

  /** The two facts of the stream the loop of `generate()` relies on: the
      first round reads back exactly what it wrote and spends the stream; a
      spent stream ignores the write and the read of every later round. */
  lemma StreamRoundTrip(s: Stream, text: string, res: string)
    ensures Take(Put(Stream("", false), text), res) == (Stream("", true), text)
    ensures s.atEnd ==> Take(Put(s, text), res) == (s, res)
  {
    assert "" + text == text;
  }

  /** The name held after `n` more turns of the loop of `generate()` as written,
      starting from stream s, name res and counter k. */
  function AttemptsAsWritten(s: Stream, res: string, k: nat, n: nat): (string, Stream)
    decreases n
  {
    if n == 0 then (res, s)
    else
      var r := Take(Put(s, "(" + Hex(k) + ")"), res);
      AttemptsAsWritten(r.0, r.1, k + 1, n - 1)
  }

  /** After the first turn the stream is spent: every later turn tests the very
      first candidate again, whatever the counter has reached. */
  lemma {:induction false} SpentStreamRepeats(s: Stream, res: string, k: nat, n: nat)
    requires s.atEnd
    ensures AttemptsAsWritten(s, res, k, n).0 == res
    decreases n
  {
    if n > 0 {
      assert Take(Put(s, "(" + Hex(k) + ")"), res) == (s, res);
      SpentStreamRepeats(s, res, k + 1, n - 1);
    }
  }

  lemma {:induction false} EveryAttemptIsTheFirst(g: SymbolSet, n: nat)
    requires n >= 1
    ensures AttemptsAsWritten(Stream("", false), "", g.counter, n).0 == Candidate("", g.counter)
  {
    var first := Take(Put(Stream("", false), "(" + Hex(g.counter) + ")"), "");
    assert first.1 == Candidate("", g.counter) && first.0.atEnd;
    SpentStreamRepeats(first.0, first.1, g.counter + 1, n - 1);
  }

  /** `generate()` as written (symbol_set.cpp:8-19): the first candidate is
      returned when it is free; otherwise the loop tests it again forever. */
  function GenerateAsWritten(g: SymbolSet): (r: Outcome)
    ensures r.Returned? ==> forall n: nat | n >= 1 :: AttemptsAsWritten(Stream("", false), "", g.counter, n).0 !in g.used
    ensures r.Diverges? ==> forall n: nat | n >= 1 :: AttemptsAsWritten(Stream("", false), "", g.counter, n).0 in g.used
    ensures r.Returned? ==> r.name !in g.used && r.after.used == g.used + {r.name}
  {
    var first := Candidate("", g.counter);
    assert forall n: nat | n >= 1 :: AttemptsAsWritten(Stream("", false), "", g.counter, n).0 == first by {
      forall n: nat | n >= 1
        ensures AttemptsAsWritten(Stream("", false), "", g.counter, n).0 == first
      {
        EveryAttemptIsTheFirst(g, n);
      }
    }
    if first !in g.used then Returned(first, SymbolSet(g.used + {first}, g.counter + 1))
    else Diverges
  }

  /** A new generator's first anonymous name is "(0)": as written, the first
      `generate()` returns exactly when no seed symbol is spelt "(0)". */
  lemma InitFirstGenerate(symbols: seq<string>)
    ensures GenerateAsWritten(Init(symbols)).Returned? <==> "(0)" !in symbols
    ensures GenerateAsWritten(Init(symbols)).Returned? ==> GenerateAsWritten(Init(symbols)).name == "(0)"
  {
    assert Candidate("", 0) == "(0)";
  }

  /** A source state literally named "(0)" already makes the first anonymous
      name collide, and `generate()` as written never returns. */
  lemma CollidingCounterDiverges()
    ensures GenerateAsWritten(SymbolSet({"(0)"}, 0)).Diverges?
  {
    assert Candidate("", 0) == "(0)";
  }

  /** `generate()`: the first candidate "(" + hex(counter) + ")" not yet used,
      counting up once per attempt; the result is recorded. */
  method Generate(g: SymbolSet) returns (name: string, g': SymbolSet)
    ensures name !in g.used
    ensures g'.used == g.used + {name}
    ensures g.counter < g'.counter && name == Candidate("", g'.counter - 1)
    ensures forall k | g.counter <= k < g'.counter - 1 :: Candidate("", k) in g.used
    ensures GenerateAsWritten(g).Returned? ==> GenerateAsWritten(g) == Returned(name, g')
  {
    var next;
    name, next := FirstUnused(g.used, "", g.counter);
    g' := SymbolSet(g.used + {name}, next);
  }


  /** The retry candidate of the collision loop as written: the `hex` string it
      appends is declared but never filled, and the local counter is written to a
      stream that is never read, so every attempt rebuilds the first name. */
  function RetryAsWritten(inspiration: string, localCounter: int): (name: string)
    ensures name == Hinted(inspiration)
    ensures forall k: nat :: name != Candidate(inspiration, k)
  {
    var hex := "";
    "(" + inspiration + hex + ")"
  }

  /** `generate(inspiration)` as written. */
  function GenerateHintedAsWritten(g: SymbolSet, inspiration: string): (r: Outcome)
    ensures r.Returned? <==> Hinted(inspiration) !in g.used
    ensures r.Returned? ==> r.name !in g.used && r.after.used == g.used + {r.name}
    ensures r.Returned? ==> r.after.counter == g.counter
  {
    var res := Hinted(inspiration);
    if res !in g.used then Returned(res, g.(used := g.used + {res}))
    else Diverges
  }

  /** The collision loop as written never leaves: every retry is still in use. */
  lemma {:induction false} CollisionLoopNeverExits(g: SymbolSet, inspiration: string, attempts: nat)
    requires Hinted(inspiration) in g.used
    ensures forall c | 0 <= c <= attempts :: RetryAsWritten(inspiration, c) in g.used
  {
    forall c | 0 <= c <= attempts
      ensures RetryAsWritten(inspiration, c) in g.used
    {
      assert RetryAsWritten(inspiration, c) == Hinted(inspiration);
    }
  }

  /** Asking twice for the same hint, as the relocation code does with
      "marking_head", makes the second call as written never return. */
  lemma SecondSameHintDiverges(g: SymbolSet, inspiration: string)
    requires GenerateHintedAsWritten(g, inspiration).Returned?
    ensures GenerateHintedAsWritten(GenerateHintedAsWritten(g, inspiration).after, inspiration).Diverges?
  {
  }

  /** `generate(inspiration)` as evidently intended: "(" + inspiration + ")" when it
      is free, otherwise the first free "(" + inspiration + hex(k) + ")" for k = 0, 1, ….
      The counter of `generate()` is not touched. */
  method GenerateHinted(g: SymbolSet, inspiration: string) returns (name: string, g': SymbolSet)
    ensures name !in g.used
    ensures g'.used == g.used + {name}
    ensures g'.counter == g.counter
    ensures Hinted(inspiration) !in g.used ==> name == Hinted(inspiration)
    ensures Hinted(inspiration) in g.used ==>
      exists k: nat :: name == Candidate(inspiration, k) && forall j: nat | 0 <= j < k :: Candidate(inspiration, j) in g.used
    ensures GenerateHintedAsWritten(g, inspiration).Returned? ==>
      Returned(name, g') == GenerateHintedAsWritten(g, inspiration)
  {
    var res := Hinted(inspiration);
    if res !in g.used {
      name := res;
    } else {
      var next;
      name, next := FirstUnused(g.used, inspiration, 0);
    }
    g' := g.(used := g.used + {name});
  }

  /** The corrected `generate(inspiration)` seen from its callers: a name not used
      before, now recorded, the anonymous counter untouched. */
  method Fresh(g: SymbolSet, inspiration: string) returns (name: string, g': SymbolSet)
    ensures name !in g.used && g'.used == g.used + {name} && g'.counter == g.counter
  {
    name, g' := GenerateHinted(g, inspiration);
  }
}
