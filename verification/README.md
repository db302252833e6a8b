# Two-track to one-track Turing machine translator, modelled in Dafny

The translator compiles a dual-track Turing machine into a single-track,
single-head one. The source machine has one tape with a top and a bottom
track, each with its own head.

The compiled machine's alphabet encodes every pair (top letter, bottom letter)
of the working alphabet Γ four times:
- with no head marker;
- with the top head's marker;
- with the bottom head's marker;
- with both markers.

Two more encoded symbols are added: a tape-start sentinel and a word-end
symbol.

Every non-halting source state gets two states:
- a scanning entry;
- a going-back (return sweep) state.

The compiler then writes one growing transition table in four phases:
1. **Setup protocol.** It shifts the raw input word one cell to the right
   behind the sentinel and plants both markers on the first cell.
2. **Scanning.** From each scanning entry it sweeps right until both markers
   have been seen. It ends in a *simulated state* `<q>-<a>-<b>`, which stands
   for "source state q, a under the top head, b under the bottom head".
3. **Transitions.** For every simulated state with a source transition, it
   writes:
   - a choice on the marker under the head;
   - two relocation routes, each rewriting and moving one head, searching for
     the other head, and rewriting and moving that one.
   A transition into the accepting or rejecting state instead writes a blank
   and halts.
4. **Clean-up.** Each going-back state walks left to the sentinel and
   re-enters its state's scanning entry.

The model covers:
- the name generator `SymbolSet`;
- the alphabet and alias synthesis;
- the head-relocation templates `program_move_` and `program_look_for_head_`;
- the four phases and the key-uniqueness discipline of `new_transition_`.

The transition table is a Dafny `map` from (state, symbol) to an action.
`Machines.NewTransition` requires that its key is absent, which models the
source's `assert`. Every phase adds entries only through it, so every phase
verifies against that assertion.

Names are strings, and counters print as real lower-case hexadecimal. Each
generator of `symbol_set.cpp` is modelled twice:
- as written, where a collision makes the loop run forever (see Findings);
- as evidently intended, returning the first unused candidate.

The phases call the intended generators (see "## Left out"). Distinctness of
fresh names therefore follows from those generators' contracts and is not
assumed.

The source iterates unordered containers (`letters_map_`, `state_aliases_`).
Their iteration orders are parameters of `Translation.Translate`:
- `pairs` lists every pair of Γ once;
- `order` lists every simulated source state once.

The results hold for every such order.

The scanning phase pushes one simulated state per (state, pair), and the
transition phase writes a fresh relocation for each simulated state. The model
does the same.

### Quirks modelled as written

These are behaviours of the code that are probably unintended. They are kept
in the model and stated as lemmas. They are not corrected, because no single
correct behaviour is evident.

- **The first halting transition ends the phase.** In `program_transitions_`
  (translator.cpp:207-211), the first simulated state whose transition enters
  the accepting or rejecting state gets its halting entries and then the phase
  `return`s. Neither that simulated state's alias nor any later simulated
  state gets an entry.
  `Transitions.FirstHalt` and `Transitions.TransEntries` state this, and
  `Transitions.ProgramTransitions` proves it.
- **Halting entries are keyed on the raw source state.**
  `program_reject_accept_` (translator.cpp:275-297) keys its entries on the
  raw source state `data.state`, not on the simulated state's alias
  (`Transitions.ProgramRejectAccept`).
- **The clean-up only passes unmarked cells.** The clean-up walk left
  (translator.cpp:302-306) has entries only for cells without head markers.
  A going-back state that reaches a marked cell has no entry
  (`Cleanup.CleanupStuck`).
- **First-letter states have no BLANK entry.** The `setup-move-1st-<letter>`
  states (translator.cpp:67-94) read only input letters. On a one-letter word
  the next symbol is BLANK, so the protocol stops there
  (`Setup.SetupFirstStuck`).
- **Found states stay on their own row or column.**
  - The top-found state of letter a (translator.cpp:176-182) reads exactly the
    cells of pairs (a, y) that have no marker or only the bottom marker.
  - The bottom-found state of b (translator.cpp:184-190) reads exactly the
    cells of pairs (x, b) that have no marker or only the top marker.
  - So a sweep that meets a cell of another row or column between the two
    markers stops (`Scanning.TopSweepReadsOwnRow`,
    `Scanning.BottomSweepReadsOwnColumn`).

## Model

| member | source | states |
|---|---|---|
| Machines.NewTransition | translator.cpp:316-327 | writing a transition needs its key (state, read symbol) to be new; afterwards that key maps to the given action, every earlier entry is unchanged, and no other key appears |
| Encodings.WithMine | translator.h:68-102 | setting one head's marker on a cell sets exactly that marker and leaves the other head's marker as it was |
| Encodings.Only | translator.h:68-102 | the cell with one role's marker only carries that marker and not the other one |
| Encodings.ThisOtherNot | translator.h:70-73 | `this_other_not` is the symbol of the pair carrying the role's own marker alone |
| Encodings.OtherThisNot | translator.h:75-78 | `other_this_not` is the symbol of the pair carrying the other role's marker alone |
| Encodings.MakePair | translator.h:80-83 | `make_pair(mine, other)` puts `mine` on the role's own track and `other` on the other track |
| Encodings.RolesMirror | translator.h:68-102 | `BottomHead` is `TopHead` with the tracks swapped: its pair is the swapped pair and its two single-marker symbols are exchanged |
| Encodings.AllPairs | translator.cpp:5-6 | the nested loop over Γ × Γ visits exactly the pairs of letters of Γ |
| Encodings.AllPairsNoDup | translator.cpp:5-6 | that nested loop visits each pair once when Γ has no duplicates |
| Encodings.SymInjective | translator.cpp:7-14 | in an encoding built for Γ, equal encoded symbols come from the same pair and the same marker combination |
| SymbolSets.Hex | symbol_set.cpp:13 | the hexadecimal rendering of a counter has at least one digit, and exactly one digit precisely below 16 |
| SymbolSets.HexDigits | symbol_set.cpp:13 | the rendering is lower-case hexadecimal digits with no leading zero; its last digit is the value modulo 16, after the rendering of the value divided by 16 |
| SymbolSets.HexExamples | symbol_set.cpp:13 | 255 renders as `ff` and 16 as `10` |
| SymbolSets.HexInjective | symbol_set.cpp:13 | different counters render as different hexadecimal strings |
| SymbolSets.CandidateInjective | symbol_set.cpp:13 | for one stem, different counters give different candidate names `(<stem><hex k>)` |
| SymbolSets.Init | symbol_set.cpp:5-6 | a new generator holds exactly the given symbols as used |
| SymbolSets.InitFirstGenerate | symbol_set.cpp:5-19 | a new generator's first `generate()` as written returns `(0)` exactly when no seed symbol is spelt `(0)`, and never returns otherwise |
| SymbolSets.FirstUnused | symbol_set.cpp:12-15 | the search returns the first candidate from the start counter that is not yet used; every candidate before it is used |
| SymbolSets.StreamRoundTrip | symbol_set.cpp:12-15 | the first round of the loop reads back exactly the candidate it wrote and leaves the stream spent; on a spent stream a round's write and read change neither the stream nor `res` |
| SymbolSets.SpentStreamRepeats | symbol_set.cpp:12-15 | once the stream is spent, every further round of the loop leaves the candidate unchanged |
| SymbolSets.EveryAttemptIsTheFirst | symbol_set.cpp:12-15 | as written, every round of `generate()` tests the first candidate `(<hex counter>)` again |
| SymbolSets.GenerateAsWritten | symbol_set.cpp:8-19 | as written, `generate()` returns exactly when its first candidate is unused, and then adds that candidate to the used set; otherwise it never returns |
| SymbolSets.CollidingCounterDiverges | symbol_set.cpp:8-19 | a generator with counter 0 that already holds `(0)` never returns from `generate()` |
| SymbolSets.Generate | symbol_set.cpp:8-19 | the intended `generate()`: the first candidate `(<hex k>)` from the counter on that is unused, which is then used; agrees with the code whenever the code returns |
| SymbolSets.RetryAsWritten | symbol_set.cpp:32-38 | as written, every retry of the hinted generator builds `(<hint>)` again, whatever the local counter, because the `hex` string is never filled; that name is none of the counted names `(<hint><hex k>)` |
| SymbolSets.GenerateHintedAsWritten | symbol_set.cpp:21-42 | as written, `generate(hint)` returns exactly when `(<hint>)` is unused, then adds it and keeps the counter; otherwise it never returns |
| SymbolSets.CollisionLoopNeverExits | symbol_set.cpp:30-38 | when `(<hint>)` is used, every retry of the loop tests a used name |
| SymbolSets.SecondSameHintDiverges | symbol_set.cpp:21-42 | as written, a second `generate(hint)` with the same hint never returns |
| SymbolSets.GenerateHinted | symbol_set.cpp:21-42 | the intended `generate(hint)`: `(<hint>)` if unused, otherwise the first unused `(<hint><hex k>)` for k from 0; the result is new and then used; the counter is untouched; agrees with the code whenever the code returns |
| SymbolSets.Fresh | symbol_set.cpp:21-42 | a hinted name is new, joins the used set, and leaves the counter unchanged |
| Alphabet.GenerateEncoding | translator.cpp:7-14 | the four symbols of one pair are pairwise distinct, new, and the only ones the letter generator adds |
| Alphabet.EncodeRow | translator.cpp:6-15 | the inner loop encodes every pair (a, b) for b in Γ, keeps every earlier pair, adds no other, and keeps all symbols new and apart |
| Alphabet.CreateDoubleLetters | translator.cpp:3-18 | every pair of Γ gets four symbols; all of them are pairwise distinct and differ from every letter used before (the raw letters); all are known to the generator afterwards |
| Alphabet.CreateImportantIdents | translator.cpp:20-26 | semi-start is a new state name; the sentinel and word-end symbols are new letters, distinct from each other |
| Alphabet.AliasedStates | translator.cpp:31-42 | the states that get aliases are exactly the source states other than accepting and rejecting |
| Alphabet.AliasesAdd | translator.cpp:31-42 | a new alias with fresh names, or the shared semi-start for the initial state only, keeps all aliases' names apart |
| Alphabet.CreateStateAliases | translator.cpp:28-48 | exactly the non-halting source states get aliases; the initial state scans from semi-start; all other names are new; the names of different aliases never coincide |
| Context.CellsApart | translator.cpp:3-18 | different (pair, marker) combinations have different cell symbols |
| Context.CellIsEncoded | translator.cpp:3-26 | a cell symbol is neither BLANK, nor the sentinel, nor a letter of Γ |
| Context.TablesCells | translator.cpp:3-18 | the encoding built for Γ decodes uniquely: each cell symbol determines its pair and markers |
| Setup.SetupEmptyWord | translator.cpp:57-65 | on an empty word: the initial state writes the sentinel and steps right; `move-first-blank` plants both markers on (BLANK, BLANK) and steps back; on the sentinel it enters the initial scanning entry; those three keys only |
| Setup.SetupFirstLetters | translator.cpp:67-74 | each input letter gets a new `setup-move-1st` state; on that letter the initial state writes the sentinel and enters it; no other key is written |
| Setup.EmitFirstCells | translator.cpp:88-93 | for one input letter: every first-letter state writes its own letter paired with BLANK under both markers and enters that letter's moving state |
| Setup.SetupShiftStates | translator.cpp:82-94 | one new `setup-move` state per input letter, with the full column of first-cell entries for each |
| Setup.EmitShiftRow | translator.cpp:97-103 | the state carrying letter a writes a paired with BLANK without markers on any input letter b, and continues carrying b |
| Setup.SetupShiftChain | translator.cpp:96-104 | every moving state has its full row of shift entries, and nothing else is written |
| Setup.SetupWordEnd | translator.cpp:106-112 | at the word's end each moving state writes its letter and enters the initial state's going-back state moving left |
| Setup.ProgramSetup | translator.cpp:50-113 | the whole setup protocol: all its names are new and distinct; it writes exactly the keys of the protocol, with the entries above |
| Setup.SetupEntriesKept | translator.cpp:50-113 | later phases, which only add entries, keep the setup protocol's entries |
| Setup.SetupFirstStuck | translator.cpp:67-94 | as written, no first-letter state has an entry on BLANK |
| Scanning.CreateFound | translator.cpp:122-130 | each letter of Γ gets two new states for q, top-found and bottom-found, all pairwise distinct; the found states of other source states are kept |
| Scanning.CreateSims | translator.cpp:160-170 | one new simulated state per pair, pairwise distinct, pushed onto the list in `letters_map_` order with its (state, top, bottom) triple |
| Scanning.EmitScan | translator.cpp:148-174 | from the scanning entry, on every pair: pass an unmarked cell; on a single marker enter that letter's found state; on both markers stop in the pair's simulated state |
| Scanning.EmitTopSweeps | translator.cpp:176-182 | every top-found state passes the unmarked cells of its row and stops in the pair's simulated state on the bottom marker; only new names get entries |
| Scanning.EmitBottomSweeps | translator.cpp:184-190 | the mirror image for bottom-found states and the top marker |
| Scanning.TopSweepReadsOwnRow | translator.cpp:176-182 | the top-found state of a reads a cell exactly when its top letter is a and it has no marker or only the bottom marker |
| Scanning.BottomSweepReadsOwnColumn | translator.cpp:184-190 | the bottom-found state of b reads a cell exactly when its bottom letter is b and it has no marker or only the top marker |
| Scanning.ScanState | translator.cpp:120-191 | one source state's turn: its found and simulated states are new; the scanning entry and found states get their entries; the simulated states are pushed and still have no entries |
| Scanning.ListingsFrame | translator.cpp:164-170 | the list pushed for other states does not depend on the simulated states of a state not among them |
| Scanning.ProgramScanning | translator.cpp:115-193 | every alias is scanned in walk order; the simulated-state list is the concatenation of their pushes; no entry leaves a source state or a going-back state |
| Relocation.EmitMoving | translator.h:185-211 | for every other-track letter: staying rewrites r's letter in place, keeping the markers; moving rewrites it, lifts r's marker and moves into the marking state |
| Relocation.EmitMarking | translator.h:213-221 | the marking state puts r's marker on any cell without it, keeps the other marker, and turns back |
| Relocation.EmitBlank | translator.h:178-184 | the marking state reads BLANK exactly when the move is to the right; that entry writes (BLANK, BLANK) under r's marker alone and turns left into the output state; the input state stays without entries |
| Relocation.BlankAndMoving | translator.h:178-211 | the marking state has a BLANK entry exactly when the move is to the right; it extends the tape with (BLANK, BLANK) carrying r's marker |
| Relocation.ProgramMove | translator.h:170-222 | `program_move_`: a new `marking_head` state; from the input state r's letter becomes the target and r's marker moves one cell or stays; the cell reached gets r's marker and the run ends in the output state; only those two states get entries |
| Relocation.LookForHead | translator.h:224-247 | `program_look_for_head_`: a cell with r's marker and r's letter ends the search unchanged; a cell without r's marker is passed going left; only the input state gets entries |
| Relocation.RelocatedKept | translator.h:170-222 | entries added later from other states keep a relocation in place |
| Transitions.ProgramRejectAccept | translator.cpp:275-297 | on each marked cell of the simulated pair, the raw source state writes BLANK, stays, and enters the halting target |
| Transitions.ChooseRoute | translator.cpp:224-248 | from the alias: the top marker over (a, ·) and both markers over (a, b) take the top-first route; the bottom marker over (·, b) takes the bottom-first route; cells are kept |
| Transitions.Relay | translator.cpp:250-271 | one route: r's letter is rewritten and r's marker moved; the search walks left to the other marker; the other letter is rewritten and its marker moved, ending in the target's going-back state; all its names are new |
| Transitions.BothRoutes | translator.cpp:250-271 | both routes are in place, top-first and bottom-first, with disjoint new names |
| Transitions.TranscribeTransition | translator.cpp:214-271 | a non-halting transition of a simulated state: the choice from its alias and both routes, ending in the going-back state of the transition's target |
| Transitions.FirstHalt | translator.cpp:207-211 | the position of the first simulated state whose transition halts: none before it halts, and it halts unless it is the list's end |
| Transitions.FirstHaltAt | translator.cpp:207-211 | any position with no halting state before it, and a halting one or the end at it, is the first halting position |
| Transitions.ProgramTransitions | translator.cpp:195-273 | every simulated state before the first halting one is transcribed, or left without entries when the source has no transition for it; the halting one gets its entries on the raw state; its own alias and every later one get none |
| Transitions.TransEntriesKept | translator.cpp:195-273 | entries added later from names outside the simulated states' aliases and routes keep the transition phase's entries |
| Cleanup.CleanupState | translator.cpp:300-313 | a going-back state passes every unmarked cell going left and, on the sentinel, enters its scanning entry going right; it reads nothing else |
| Cleanup.CleanupStuck | translator.cpp:302-306 | a going-back state has no entry on any cell carrying a head marker |
| Cleanup.ProgramCleanup | translator.cpp:299-314 | every alias is cleaned up and only going-back states get entries |
| Translation.BuildContext | translator.cpp:3-48 | the generators, seeded with the source states and Γ, build an encoding, idents and aliases that decode uniquely, keep names apart and cover every non-halting state |
| Translation.TranslatedOf | translator.cpp:299-314 | the clean-up keeps every earlier phase's entries |
| Translation.RunPhases | translator.cpp:50-314 | the four phases in order leave every phase's entries in one table, all from known names |
| Translation.Translate | translator.cpp:3-314 | the translator: for every well-formed machine and every walk order, one table with no key written twice, holding the setup protocol, the scanning entries and sweeps for every alias, the simulated-state list in walk order, the transition entries up to the first halt, and every clean-up |

## Left out

- `main` (translator.cpp:333-348): reading the machine from a file and printing the result. This is I/O.
- `result()` (translator.cpp:329-331) passes the input alphabet and the table to a `TuringMachine` constructor. That class is not part of this model.
- The two hash functors (translator.h:32-37, 48-52) are not modelled. Dafny maps and sets compare keys structurally.
- `SimulatedState::operator==` (translator.h:26-29) is datatype equality in the model.
- `std::stringstream` is modelled only as far as `generate()` uses it (`SymbolSets.Put`, `SymbolSets.Take`, `SymbolSets.StreamRoundTrip`): text written, one word read, end-of-stream.
- The `Translation` constructor's body is not part of this model. `Translation.Translate` runs the synthesis and the four phases in the order their data dependencies force. It seeds the state generator with the source states and the letter generator with Γ.
- `program_scanning_letters_` and `create_or_get_simulated_state_alias_` (translator.h:146-156, 249-290) are not modelled. The first is never called. The second's body is not part of this model.
- The headers do not match the code, so the model follows the .cpp files:
  - `symbol_set.h` declares a constructor from a `TuringMachine` and a member `symbols`, while the code uses a vector constructor, `symbols_` and `counter_`;
  - `program_reject_accept_` is declared with three parameters (translator.h:129-130) and defined with two;
  - the code calls `program_look_for_`, which the header declares as `program_look_for_head_`;
  - the code pushes onto `simulated_states_aliases_`, which the header declares as the map `simulated_states_`.
- Iteration order of the unordered containers: it is a parameter (`pairs`, `order`) and is not derived from a hash function.
- Translation.Translate: does not state end-to-end semantic equivalence. It does not prove that a run of the compiled machine simulates a run of the source machine step for step. It states the entries each phase leaves, which are the per-step building blocks of that argument.
- Translation.Translate: the source machine's well-formedness (`Machines.WellFormed`) is a precondition. Examples are Γ without duplicates, BLANK in Γ and input letters in Γ. The parser that would establish it is not part of this model.
- Translation.Translate: two conjuncts of `Machines.WellFormed`, `m.blank !in m.input` and `NoDup(m.input)`, exclude inputs on which the source aborts at the key-absence `assert` of `new_transition_` (translator.cpp:323). With BLANK in the input alphabet, the key (INITIAL, BLANK) is written at translator.cpp:58-59 and again at translator.cpp:72-73. A repeated input letter writes its (INITIAL, letter) key twice at translator.cpp:72-73.
- Translation.Translate / Relocation.ProgramMove: run the corrected generators (`SymbolSets.Generate`, `SymbolSets.GenerateHinted`, `SymbolSets.Fresh`), as do the alias synthesis, the setup protocol, the scanning phase and `Transitions.Relay`. As written, a hinted generator that meets a used name never returns. Every second `generate("marking_head")` (translator.h:176) meets the first one's name, so the source never finishes on a machine with a non-halting simulated transition. The table the model builds is the one the source builds once the generators are corrected.
- SymbolSets.Init: starts the anonymous counter at 0. symbol_set.cpp:5-6 does not initialise `counter_`, and symbol_set.h does not declare it, so 0 is assumed.

## Findings

| source | as written | input that shows it | evidently intended | confidence | as-written member | corrected member |
|---|---|---|---|---|---|---|
| symbol_set.cpp:8-19 | the first `ss >> res` leaves the stringstream at its end, so later rounds append and read nothing: `res` stays the first candidate while `counter_` keeps growing | a generator holding `(0)` with counter 0: `generate()` never returns | return the first unused `(<hex counter>)` from the counter on | not executed | SymbolSets.GenerateAsWritten, SymbolSets.CollidingCounterDiverges | SymbolSets.Generate |
| symbol_set.cpp:21-42 | on a collision the loop writes the counter to `ss` but builds the name from an empty local `hex` and never increments `local_counter`, so it tests `(<hint>)` forever | the second `generate("marking_head")`, which every second `program_move_` call makes (translator.h:176), never returns | return the first unused `(<hint><hex k>)` for k from 0 | not executed | SymbolSets.GenerateHintedAsWritten, SymbolSets.SecondSameHintDiverges | SymbolSets.GenerateHinted |
