# chemistry-tools, modelled in Dafny

This project models the core of chemistry-tools, which is two Python command-line programs:

- The **stoichiometry calculator** (`chemistry-calculator.py`) has these parts:
  - It breaks a chemical formula such as `C6H12O6` into entries: symbol, the element's weight, subscript.
  - It adds up the formula's weight.
  - It stores each entry's mass fraction: its percentage composition.
  - It converts between moles, grams and millilitres of solution.
  - It looks an element up by name, symbol, atomic number or weight.
  - It also defines an electron-shell structure. Shells have subshells of types s, p, d and f, each with a fixed number of orbitals, and every orbital has two spin slots.
- The **formula weight finder** (`formula-weight-finder.py`) keys a periodic table by symbol. It then adds up a formula's weight in the same scan, without building the entries first.

Both programs cut the formula the same way, in one left-to-right pass:

- An uppercase letter closes the pending symbol and starts a new one with subscript `"1"`.
- A lowercase letter is appended to the pending symbol, wherever it stands.
- A run of digits becomes the subscript, except that a digit at index 0 is skipped.
- Any other character is ignored.
- At the end, the pending symbol is looked up whatever it is, the empty symbol included.

The files:

- `formula.dfy` states this segmentation twice:
  - declaratively, from the last uppercase letter (`Tokens`);
  - as the one-character state machine the loops run (`ScanUpTo`).

  It proves the two equal, and proves what the segmentation promises.
- `molecules.dfy` holds the element and entry types, the break-down against a symbol table, the weight sums and the composition.
- `stoichiometry.dfy` holds the calculator's session as a class. It has the scanning loop and the weight and composition loops, each proved against those functions.
- `weight_finder.dfy` holds the weight finder's table and scanning loop. It proves that the two scanners agree.
- `shells.dfy` holds the orbitals, subshells and shells.
- `wrappers.dfy` holds `Option` and `Result`.

Weights are exact reals. An element's weight column is either a number or text that `float()` refuses (`WeightText`). Subscripts are digit strings, read by `DigitsValue` as `int()` reads them. A Python exception or a call to `error_exit` becomes one of two things:

- a failure outcome of the operation;
- a precondition, where the program could not get past a constructor.

Where the code and the repository's own description of it disagree, the model follows the code: the calculator stores each entry's mass fraction, not a percentage. It prints `× 100` but appends `weight / total`.

A formula with an unknown symbol replaces the stored entries with the empty list, and the stored formula and weight stay as they were.

## Model

| member | source | states |
|---|---|---|
| Formula.Tokens | chemistry-calculator.py:429-436 | there is always at least one token: the pending symbol is looked up at the end, even when it is empty |
| Formula.StepUpper | chemistry-calculator.py:401-413 | an uppercase letter emits the pending token (unless its symbol is empty) and starts a new symbol with subscript "1" |
| Formula.StepOther | chemistry-calculator.py:415-425 | any other character emits nothing: a lowercase letter extends the pending symbol, a digit not at index 0 starts or extends the subscript, anything else changes nothing |
| Formula.ScanMatches | chemistry-calculator.py:398-427 | on every prefix, the character-by-character scan the loops run has emitted exactly the declarative tokens of that prefix and holds its pending symbol and subscript |
| Formula.ScanPrefix | chemistry-calculator.py:398-427 | the tokens emitted while reading any prefix are the start of the whole formula's tokens, so nothing emitted is ever taken back |
| Formula.ScanKeepsLetters | chemistry-calculator.py:401-417 | no letter is lost, added or reordered: the emitted symbols followed by the pending one spell the formula's letters |
| Formula.PendingShape | chemistry-calculator.py:411-417 | after an uppercase letter the pending symbol is that letter followed by lowercase letters; before any, it is lowercase letters only and nothing has been emitted |
| Formula.ScanShapes | chemistry-calculator.py:401-413 | every emitted symbol is non-empty and shaped like an element symbol, except possibly a leading one made of lowercase letters |
| Formula.ScanCount | chemistry-calculator.py:401-413 | one token per uppercase letter, plus one leading token exactly when the first symbol does not start with an uppercase letter |
| Formula.Segmentation | chemistry-calculator.py:398-427 | for a whole formula: the symbols spell its letters in order, every symbol after the first is an uppercase letter with lowercase letters, the count is one per uppercase letter plus at most the leading one (so repeated symbols stay separate), and every subscript is a non-empty digit run |
| Formula.SubscriptsAreDigits | chemistry-calculator.py:420-425 | every token's subscript is a non-empty run of digits |
| Formula.LastRunIsLastMaximalRun | chemistry-calculator.py:420-425 | a segment's subscript is its last maximal run of digits, or "1" when it has no digit |
| Formula.TrailingDigitsIsMaximalSuffix | chemistry-calculator.py:423-425 | the inner loop's run is the longest suffix of digits: a suffix, all digits, not preceded by a digit |
| Formula.LastRunIsDigits | chemistry-calculator.py:413-425 | a subscript is never empty and holds only digits |
| Formula.LastUpperIsLast | chemistry-calculator.py:401 | no uppercase letter follows the one that starts the pending symbol |
| Molecules.LookupAt | chemistry-calculator.py:404-409 | looking the tokens up succeeds exactly when every symbol is in the table, and then gives one entry per token, in order, carrying the element's stored weight |
| Molecules.LookupFailureSticks | chemistry-calculator.py:408-409 | once a symbol is missing, reading further tokens cannot bring the entries back |
| Molecules.BreakDown | chemistry-calculator.py:387-436 | the result is empty exactly when some symbol (the empty one included) is not in the table; otherwise one entry per token, each symbol a table key, each weight that element's stored weight, each subscript the token's, no fraction yet |
| Molecules.ScanFails | chemistry-calculator.py:404-409 | a failed lookup among the tokens emitted by any prefix fails the whole break-down |
| Molecules.ScanFailsAt | chemistry-calculator.py:404-409 | an uppercase letter that closes a symbol the table lacks makes the whole break-down empty, with no partial list |
| Molecules.BreakDownAtEnd | chemistry-calculator.py:429-436 | after the last character, the lookup of the final pending symbol decides between the full list and the empty one |
| Molecules.SumSnoc | chemistry-calculator.py:452 | adding an entry adds its weight times its count to the total |
| Molecules.FirstNotNumeric | chemistry-calculator.py:445-450 | the first entry whose weight `float()` refuses: all before it are numbers, it is not one, and it is past the end exactly when every weight is a number |
| Molecules.CompositionKeepsEntries | chemistry-calculator.py:460-468 | storing the composition keeps every symbol, weight and subscript and gives each entry the fraction weight × count / total |
| Molecules.FractionSumIsShare | chemistry-calculator.py:460-468 | the stored fractions add up to the entries' total weight over the divisor |
| Molecules.FractionsSumToOne | chemistry-calculator.py:457-468 | when the divisor is the entries' total weight and not 0, the stored fractions add up to exactly 1 |
| Stoichiometry.GramsRoundTrip | chemistry-calculator.py:502-517 | for a non-zero weight, grams to moles and back gives the grams |
| Stoichiometry.MolesRoundTrip | chemistry-calculator.py:502-517 | for a non-zero weight, moles to grams and back gives the moles |
| Stoichiometry.MillilitresHoldMoles | chemistry-calculator.py:536 | the millilitres computed hold the moles at the given molarity (moles per 1000 ml) |
| Stoichiometry.StoichiometryCalculator.constructor | chemistry-calculator.py:236-245 | the four tables are the given ones and the session starts reset |
| Stoichiometry.StoichiometryCalculator.ResetData | chemistry-calculator.py:248-254 | no entries, no formula, weight, grams, moles and ml all 0 |
| Stoichiometry.StoichiometryCalculator.BreakDownFormula | chemistry-calculator.py:387-436 | the loop returns exactly the break-down of the formula against the symbol table, the empty list included |
| Stoichiometry.StoichiometryCalculator.CalculateWeight | chemistry-calculator.py:440-454 | when every weight is a number, the weight becomes the sum of weight × count over the entries; otherwise it is left as it was |
| Stoichiometry.StoichiometryCalculator.CalculatePercentageComposition | chemistry-calculator.py:457-468 | each entry, in order, gets its fraction of the current weight and nothing else changes; a weight that is not a number stops the walk there, and the result says whether every weight was a number |
| Stoichiometry.StoichiometryCalculator.EnterFormula | chemistry-calculator.py:358-373 | an unknown symbol only replaces the entries; a zero weight resets the session; otherwise formula and weight are kept and the stored fractions sum to 1; a weight that is not a number with an earlier weight still set ends in the ValueError; a kept formula always has a non-zero weight |
| Stoichiometry.StoichiometryCalculator.MolesToGrams | chemistry-calculator.py:502-508 | refused with no formula (as the prompt does at lines 337-343); otherwise the moles are the amount and the grams are weight × moles |
| Stoichiometry.StoichiometryCalculator.GramsToMoles | chemistry-calculator.py:511-517 | refused with no formula; otherwise the grams are the amount and the moles are grams / weight, never a division by 0 |
| Stoichiometry.StoichiometryCalculator.MolesToMillilitres | chemistry-calculator.py:520-537 | refused with no formula; otherwise the moles are the amount, and the ml are moles × 1000 / molarity, or a division by zero for molarity 0 |
| Stoichiometry.StoichiometryCalculator.Search | chemistry-calculator.py:540-557 | nothing exactly when the key is in none of the four tables; otherwise the element found first by name, then symbol, then number, then weight |
| WeightFinder.AddTokenWeight | formula-weight-finder.py:88 | a symbol with a numeric weight adds weight × int(subscript) to the running total |
| WeightFinder.WeightFailureSticks | formula-weight-finder.py:88 | once a lookup or conversion has failed, further tokens do not change the failure |
| WeightFinder.ScanWeightFails | formula-weight-finder.py:85-89 | a failure among the tokens emitted by any prefix is the failure of the whole formula |
| WeightFinder.ScanWeightFailsAt | formula-weight-finder.py:85-89 | an uppercase letter that closes an unknown symbol, or one whose weight is not a number, fails the whole formula with that symbol's error |
| WeightFinder.WeightStep | formula-weight-finder.py:85-105 | one character adds the pending token's weight at an uppercase letter that closes a non-empty symbol, and nothing otherwise |
| WeightFinder.WeightAtEnd | formula-weight-finder.py:107-109 | the formula's tokens are those emitted by the scan followed by the final pending one |
| WeightFinder.IndexedKeys | formula-weight-finder.py:52-55 | the table's keys are the old keys plus every row's symbol |
| WeightFinder.IndexedLastWins | formula-weight-finder.py:53-55 | a symbol finds the last row that has it: a later row overwrites an earlier one |
| WeightFinder.IndexedKeepsOthers | formula-weight-finder.py:53-55 | a symbol no row has keeps its entry |
| WeightFinder.PeriodicTable.constructor | formula-weight-finder.py:47-49 | the table is the rows indexed by symbol |
| WeightFinder.PeriodicTable.Populate | formula-weight-finder.py:52-55 | every row is stored under its symbol, in order |
| WeightFinder.PeriodicTable.GetFormulaWeight | formula-weight-finder.py:68-110 | the loop returns exactly the sum of weight × int(subscript) over the formula's tokens in scan order, the final pending one included, or the first unknown symbol or non-numeric weight |
| WeightFinder.WeightMatchesEntries | formula-weight-finder.py:68-110 | for any tokens, the running weight succeeds exactly when every symbol is found and every weight is a number, and then equals the sum over the looked-up entries |
| WeightFinder.ScannersAgree | formula-weight-finder.py:68-110 | the weight finder succeeds exactly when the calculator's break-down is non-empty with numeric weights, and then finds the weight the calculator adds up (chemistry-calculator.py:387-454) |
| WeightFinder.NoLettersFails | formula-weight-finder.py:109 | a formula without letters has one token, with the empty symbol, whose lookup fails; the calculator's break-down is then empty |
| Shells.ParseKind | chemistry-calculator.py:65-66 | a string names a subshell type exactly when it is one of s, p, d, f, and then it is that type's letter |
| Shells.KindRoundTrip | chemistry-calculator.py:26 | writing a subshell type and reading it back gives the type |
| Shells.Azimuthal | chemistry-calculator.py:26 | each type's azimuthal number is its position in the list s, p, d, f |
| Shells.OrbitalAmounts | chemistry-calculator.py:27-32 | s, p, d and f have 1, 3, 5 and 7 orbitals |
| Shells.BuildOrbitalAmounts | chemistry-calculator.py:27-32 | the loop that counts up by two from one gives every type its orbital count |
| Shells.NewElectron | chemistry-calculator.py:40-50 | an electron exists exactly for spin 0 or 1, and has that spin |
| Shells.SpinRoundTrip | chemistry-calculator.py:25 | a spin written as its number makes an electron of that spin |
| Shells.AcceptedPastTheEnd | chemistry-calculator.py:85-88 | the magnetic check as written accepts every orbital position and exactly one more number: the count |
| Shells.Orbital.constructor | chemistry-calculator.py:63-77 | as many slot pairs as the type has orbitals, all empty |
| Shells.Orbital.UpdateElectron | chemistry-calculator.py:83-95 | refuses ml < 0 or ml > count, then a spin other than 0 and 1; ml == count passes both checks and names no orbital; otherwise only slot [ml][ms] changes, to an electron of spin ms |
| Shells.Orbital.UpdateElectronBounded | chemistry-calculator.py:83-95 | with the check against the list's positions, every accepted update lands in slot [ml][ms] and nothing else changes |
| Shells.OnlyOneSlotChanges | chemistry-calculator.py:95 | the update keeps every slot but [ml][ms], and the orbital list's shape |
| Shells.Subshell.constructor | chemistry-calculator.py:113-119 | a subshell of the given type with fresh, empty orbitals of that type |
| Shells.Shell.constructor | chemistry-calculator.py:132-159 | accepted only for n ≤ 7; always an s subshell, p exactly when n > 1, d exactly when n > 3, f exactly when n > 5, each stored under its own type; every subshell's orbitals are well formed with every slot empty (`Pristine`), and no two subshells share orbitals |
| Shells.Shell.AddSubshell | chemistry-calculator.py:164-169 | the type now maps to a fresh subshell of that type whose fresh orbitals are well formed and empty, and every other type is unchanged; it keeps `WellFormed` and `Pristine` |
| Shells.CapacitiesArePeriodLengths | chemistry-calculator.py:140-159 | the shells for n = 1 to 7 hold 2, 8, 8, 18, 18, 32 and 32 electrons, the lengths of the periods |

## Left out

- Reading `elements.csv` is not modelled. This covers `loadPeriodicTable` and the file part of `populate`. The tables arrive as maps, and `Populate` receives rows that are already parsed.
- An `Element` is a value with its four columns. Its setters and getters are field access. `setGroup`, `setPeriod` and `setOrbitalDiagram` are never called, so they are not modelled.
- All console input and output is left out:
  - the `prompt` loops and `displayMenu`;
  - `printElement`, `print_orbitals`, `print_subshell` and `print_shell`;
  - the printing in `elementExists` and `calculatePercentageComposition`;
  - the arrow `__repr__` of an electron;
  - the stderr messages.
- Each branch of the calculator's prompt is a method of its own. The loop that dispatches on the menu entry is left out.
- `request` and the molarity prompt retry until the user types a number. In the model, the amount and the molarity are arguments.
- The weight finder prints the weight instead of returning it. `GetFormulaWeight` returns it.
- Floating point is not modelled: weights and amounts are exact reals. `float()` on a weight column is `WeightText`, and `int()` on a subscript is `DigitsValue` over ASCII digits.
- `isupper`, `islower` and `isdigit` are restricted to ASCII.
- An `error_exit` call becomes a refusing outcome (`BadMagnetic`, `BadSpin`), or, for `Shell(n)` with n > 7, a precondition.
- The `Orbital`, `Subshell` and `add_subshell` checks of a subshell-type name are modelled by `ParseKind`. The constructors take a `Kind`, so an invalid name cannot reach them.
- `Shell`'s check that there are four subshell types always passes, so it is left out.
- Shells.Shell.constructor: does not restate that the subshells and their orbitals are newly allocated. `AddSubshell` states it for each subshell it stores, and the constructor's subshells are exactly those. Carrying freshness through the four conditional calls together with `Pristine` is beyond the verifier's resource limit.
- `set_spin` is modelled by `NewElectron`, which gives no electron for an invalid spin.
- The `__main__` blocks of both programs are left out.
- Stoichiometry.StoichiometryCalculator.EnterFormula: when the program stops with a ValueError, the model stops there too, and the entries are left partly updated. Nothing after the crash is modelled.

## Findings

| source | as written | input that shows it | evidently intended | confidence | as-written member | corrected member |
|---|---|---|---|---|---|---|
| chemistry-calculator.py:85-88 | `update_electron` refuses a magnetic number only when `ml > max_ml or ml < 0`, and `max_ml` is the number of orbitals | an s orbital (one orbital) with ml = 1 and ms = 0 passes both checks, then `self.electrons[1]` is past the end of the list (an IndexError) | refuse every ml that is not a position of the list, that is ml ≥ count | not executed | Shells.Orbital.UpdateElectron | Shells.Orbital.UpdateElectronBounded |
