# ancp-sim stoichiometry in Dafny

This project models the chemistry front end of the ancp-sim propellant
simulator, `ancp_sim/stoichiometry.py`. It covers its two operations.

- `parse_formula` turns a chemical formula such as `Ca(OH)2` into a map from
  element symbol to atom count. It works in two layers:
  - a regular-expression tokeniser, modelled as the pure function
    `Formula.Tokenise`;
  - a loop over a stack of partial count maps, modelled as the method
    `Formula.ParseFormula`.

  `ParseFormula` is proved equal to the stack machine `Formula.Run`/`Formula.Parse`. Lemmas then give that machine its meaning:
  - A formula written as a tree of atoms and groups counts as the tree's sum, with group multipliers applied (`ParseTree`).
  - Well-bracketed input always ends with exactly one map, and that map's keys are exactly the symbols present.
  - Malformed input (skipped characters, an unclosed `(`, a stray `)`) gives what the Python code gives, up to the digit-length limit named under "## Left out".
- `calculate_stoichiometry` folds a recipe (ingredient name to mass
  percent) over the ingredient database. It produces three results:
  - per-element mole totals;
  - the reactant enthalpy;
  - the oxygen balance.

  It also raises a flag for the "percentages do not sum to 100" warning. The imperative loop, `Stoichiometry.CalculateStoichiometry`, is proved equal to the specification function `Stoichiometry.Calculate`, which is a sum of per-ingredient contributions. Lemmas about that function state three things:
  - when the call raises;
  - what every total is;
  - that a successful result does not depend on the recipe's order (which error a failing recipe raises can: it is the first failing item's), and that it scales linearly with the percentages, which are never normalised.

Files:
- `formula.dfy` (module `Formula`): the tokeniser, the stack machine, `ParseFormula` and the lemmas about parsing.
- `formula_examples.dfy` (module `FormulaExamples`): the formulas of `tests/test_parser.py`, three malformed formulas and a skipped hydrate count, each proved.
- `stoichiometry.dfy` (module `Stoichiometry`): the recipe loop and its specification.

Modelling choices:
- Python floats are `real`. The code only adds, subtracts, multiplies and divides, which is exact over the rationals.
- The recipe dict is the sequence of its `items()` in iteration order.
- Exceptions are values:
  - `Formula.StackIndexError` stands for the parser's `IndexError`;
  - `Stoichiometry.Error` covers the unknown-ingredient `ValueError`, the `ZeroDivisionError` of a zero molecular weight and the propagated `IndexError`.
- The code does not reject a zero molecular weight, so the model carries no precondition for it. The division raises, and that outcome is modelled as an error.

## Model

| member | source | states |
|---|---|---|
| Formula.Tokenise | ancp_sim/stoichiometry.py:11 | the regex's matches left to right: an upper-case letter with its greedy lower-case and digit runs is an element, `(` opens, `)` with its greedy digit run closes, any other character is skipped |
| Formula.DigitsValue | ancp_sim/stoichiometry.py:17 | `int(num)`: the decimal value of a digit string |
| Formula.CountOf | ancp_sim/stoichiometry.py:17 | a count or multiplier: the value of its digits, 1 when there are none |
| Formula.Step | ancp_sim/stoichiometry.py:16-25 | one loop iteration: an element adds its count to the top map, `(` pushes an empty map, `)` is `CloseStep`; no stack means `IndexError` |
| Formula.CloseStep | ancp_sim/stoichiometry.py:21-25 | `)`: pop the top map and add its counts times the multiplier into the new top; `IndexError` when nothing is left to pop, or the popped map has an entry and nothing is below it |
| Formula.Run | ancp_sim/stoichiometry.py:15-25 | the loop over all tokens, stopping at the first `IndexError` |
| Formula.Evaluate | ancp_sim/stoichiometry.py:14-27 | start from one empty map, run the tokens, return the bottom map; `IndexError` when the run raises or leaves no map |
| Formula.Parse | ancp_sim/stoichiometry.py:5-27 | `parse_formula`: the stack machine run over the tokens of the text |
| Formula.LowerRunMaximal | ancp_sim/stoichiometry.py:11 | the `[a-z]*` part of an element match is greedy: every character it takes is lower-case and the next one is not |
| Formula.DigitRunMaximal | ancp_sim/stoichiometry.py:11 | the `\d*` part of an element or `)` match is greedy: it takes every digit and stops at the first non-digit |
| Formula.TokeniseWellFormed | ancp_sim/stoichiometry.py:11 | every token found has the regex's shape: a symbol of one upper-case letter then lower-case letters, digits only in counts |
| Formula.TokeniseSpell | ancp_sim/stoichiometry.py:11 | tokenising the text spelled by any sequence of well-formed tokens gives back exactly those tokens (round trip) |
| Formula.TokeniseElement | ancp_sim/stoichiometry.py:11 | an element symbol with its digits, followed by a character that cannot extend the match, becomes one token and scanning resumes after it |
| Formula.TokeniseClose | ancp_sim/stoichiometry.py:11 | `)` with its digits becomes one `Close` token carrying the multiplier digits |
| Formula.SkippedCharacters | ancp_sim/stoichiometry.py:11 | a run of characters with no upper-case letter and no parenthesis, in front of any text, contributes no token: the text tokenises as the rest alone, so a stray digit there is lost |
| Formula.AddAssociative | ancp_sim/stoichiometry.py:18 | the additive merge of count maps used by the parser is associative |
| Formula.AddEmpty | ancp_sim/stoichiometry.py:14 | the empty map pushed by the parser is the unit of the additive merge |
| Formula.ParseFormula | ancp_sim/stoichiometry.py:5-27 | the stack loop returns what the stack machine `Parse` gives; on well-bracketed tokens it returns a map whose keys are exactly the element symbols present |
| Formula.CloseGroup | ancp_sim/stoichiometry.py:21-25 | the loop merging a popped group into the map below, each count multiplied, yields the `)` step of the machine, including the `IndexError` cases |
| Formula.RunAdvance | ancp_sim/stoichiometry.py:15 | a step that succeeds leaves the rest of the run to go from the new stack |
| Formula.RunFails | ancp_sim/stoichiometry.py:15 | a step that raises ends the whole run with the error |
| Formula.DepthAppend | ancp_sim/stoichiometry.py:19-23 | the net number of pushes minus pops of two token runs adds up |
| Formula.StepBalanced | ancp_sim/stoichiometry.py:16-25 | one step on a stack that stays non-empty succeeds, changes the height by its push/pop and adds exactly its symbol to the keys on the stack |
| Formula.RunBalanced | ancp_sim/stoichiometry.py:14-25 | while no prefix would empty the stack, the run succeeds, ends at the start height plus the net depth, and the keys on the stack grow by exactly the symbols read |
| Formula.WellBracketedParse | ancp_sim/stoichiometry.py:14-27 | on well-bracketed tokens the run ends with exactly one map, parsing succeeds, and the result's keys are exactly the element symbols of the tokens |
| Formula.WellBracketedNeverEmpty | ancp_sim/stoichiometry.py:16-25 | on well-bracketed tokens the stack is never empty before an element step and holds at least two maps before a `)` step |
| Formula.RunFlattenPart | ancp_sim/stoichiometry.py:16-25 | running the tokens of one atom or group adds that part's counts, the group's scaled by its multiplier, to the top map |
| Formula.RunFlatten | ancp_sim/stoichiometry.py:16-25 | running the tokens of a sequence of parts adds the parts' summed counts to the top map |
| Formula.ParseTree | ancp_sim/stoichiometry.py:5-27 | a formula that tokenises as a tree of atoms and groups parses to the tree's counts: absent counts are 1, repeated symbols add, group multipliers multiply and compound through nesting |
| Formula.UnclosedGroupDropped | ancp_sim/stoichiometry.py:19-27 | when a `(` is never closed the result is the bottom map only: the unclosed group's contents are lost |
| Formula.LeadingCloseReopened | ancp_sim/stoichiometry.py:21-25 | a leading `)` pops the empty bottom map without error, and a following `(` starts a new bottom map that is returned |
| Formula.UnmatchedCloseRaises | ancp_sim/stoichiometry.py:21-25 | a `)` that pops a non-empty bottom map raises `IndexError`, whatever follows |
| Formula.RunElements | ancp_sim/stoichiometry.py:16-18 | a run of element tokens only adds each symbol's occurrences, with default count 1, to the single map |
| Formula.ElementsOnly | ancp_sim/stoichiometry.py:16-18 | a formula without parentheses parses to the sum of its symbols' counts, keyed by exactly those symbols |
| FormulaExamples.Water | tests/test_parser.py:8 | `H2O` parses to H 2, O 1 |
| FormulaExamples.Glucose | tests/test_parser.py:9 | `C6H12O6` parses to C 6, H 12, O 6 |
| FormulaExamples.CalciumHydroxide | tests/test_parser.py:13 | `Ca(OH)2` parses to Ca 1, O 2, H 2 |
| FormulaExamples.AmmoniumSulfate | tests/test_parser.py:14 | `(NH4)2SO4` parses to N 2, H 8, S 1, O 4 |
| FormulaExamples.NestedGroups | tests/test_parser.py:18 | `C(C(H)3)3` parses to C 4, H 9 |
| FormulaExamples.Ethanol | tests/test_parser.py:22 | `C2H5OH` parses to C 2, H 6, O 1: repeated symbols add |
| FormulaExamples.StrayClose | ancp_sim/stoichiometry.py:21-25 | `)(H` parses to H 1 rather than raising |
| FormulaExamples.Unclosed | ancp_sim/stoichiometry.py:27 | `Ca(OH` parses to Ca 1: the open group is dropped |
| FormulaExamples.UnmatchedClose | ancp_sim/stoichiometry.py:21-25 | `H)` raises `IndexError` |
| FormulaExamples.HydrateCountLost | ancp_sim/stoichiometry.py:11 | in `·5H2O` the dot and the 5 are skipped, so it tokenises as `H2O`: the hydrate multiplier is lost |
| Stoichiometry.ItemError | ancp_sim/stoichiometry.py:38-52 | the exception one item raises, in the order the loop body meets them: unknown name, zero molecular weight, `IndexError` from parsing its formula |
| Stoichiometry.Term | ancp_sim/stoichiometry.py:46-54 | one item's contribution: pct to the mass, pct/MW · ΔHf to the enthalpy, pct/MW · count to an element's moles |
| Stoichiometry.Total | ancp_sim/stoichiometry.py:37-54 | a running total: the sum of the items' contributions in recipe order |
| Stoichiometry.FirstError | ancp_sim/stoichiometry.py:37-52 | the exception of the first item that raises, if any |
| Stoichiometry.MolesMap | ancp_sim/stoichiometry.py:53-54 | `total_moles_elements`: each element of some item's formula mapped to its total moles |
| Stoichiometry.MassWarning | ancp_sim/stoichiometry.py:56-57 | the warning condition: the percentages sum to more than 1e-6 away from 100 |
| Stoichiometry.Calculate | ancp_sim/stoichiometry.py:29-75 | `calculate_stoichiometry`: the first exception raised, or the moles map, enthalpy, oxygen balance and warning flag |
| Stoichiometry.OxygenBalance | ancp_sim/stoichiometry.py:59-69 | the oxygen balance is (O − (2·C + H/2 + 2·Mg))·15.999, missing elements read as 0; the trailing /100·100 is the identity |
| Stoichiometry.OxygenBalanceIgnoresOthers | ancp_sim/stoichiometry.py:60-65 | setting or removing the moles of any element other than O, C, H and Mg leaves the oxygen balance unchanged |
| Stoichiometry.AddElementMoles | ancp_sim/stoichiometry.py:53-54 | the inner loop adds `moles · count` to the total of each element of the formula, creates missing keys, and keeps other totals |
| Stoichiometry.CalculateStoichiometry | ancp_sim/stoichiometry.py:29-75 | the recipe loop returns exactly the specification `Calculate`: the first error raised, or the totals, oxygen balance and mass warning |
| Stoichiometry.StoichiometryMeaning | ancp_sim/stoichiometry.py:37-54 | the call succeeds iff every ingredient is known, has non-zero molecular weight and a parseable formula; then each element's moles are the sum over ingredients of pct/MW · count, and the keys are exactly the elements of some ingredient's formula |
| Stoichiometry.LoopStep | ancp_sim/stoichiometry.py:46-50 | an iteration on a resolvable ingredient adds its percentage to the mass and pct/MW · ΔHf to the enthalpy |
| Stoichiometry.MolesMapStep | ancp_sim/stoichiometry.py:52-54 | adding one ingredient's formula counts to the mole totals of a prefix gives the totals of the prefix one longer |
| Stoichiometry.FailsAt | ancp_sim/stoichiometry.py:38-52 | an error on item i after a clean prefix is the outcome of the whole call |
| Stoichiometry.FirstErrorPrefix | ancp_sim/stoichiometry.py:37-39 | an error in a prefix of the recipe is the error of the whole recipe: later items are never reached |
| Stoichiometry.SuccessIffResolved | ancp_sim/stoichiometry.py:37-52 | no error is raised iff every item resolves |
| Stoichiometry.ElementsWitness | ancp_sim/stoichiometry.py:53-54 | every element with a mole total comes from some ingredient's formula |
| Stoichiometry.ElementsCover | ancp_sim/stoichiometry.py:53-54 | every element of some ingredient's formula gets a mole total |
| Stoichiometry.ElementsMembership | ancp_sim/stoichiometry.py:53-54 | an element has a mole total iff it occurs in some ingredient's formula (both directions) |
| Stoichiometry.ElementMolesOutside | ancp_sim/stoichiometry.py:53-54 | an element in no formula sums to zero moles |
| Stoichiometry.FirstFailure | ancp_sim/stoichiometry.py:37-39 | the call fails with the error of the first item that does not resolve |
| Stoichiometry.UnknownIngredientFails | ancp_sim/stoichiometry.py:38-39 | any recipe key absent from the database makes the call fail, so no result is returned |
| Stoichiometry.TotalSingle | ancp_sim/stoichiometry.py:47-54 | the total over a one-item recipe is that item's contribution |
| Stoichiometry.SingleIngredient | tests/test_stoichiometry.py:17-27 | a one-ingredient recipe succeeds with moles pct/MW · count for exactly the formula's elements, enthalpy pct/MW · ΔHf and mass pct, and warns exactly when pct is more than 1e-6 away from 100 |
| Stoichiometry.TotalAppend | ancp_sim/stoichiometry.py:37-54 | the totals of a concatenated recipe are the sums of the parts' totals |
| Stoichiometry.TotalRemove | ancp_sim/stoichiometry.py:37-54 | removing any one item removes exactly its contribution from a total |
| Stoichiometry.PermutationSplit | ancp_sim/stoichiometry.py:37 | the last item of a recipe occurs in any reordering of it, and the rests are reorderings of each other |
| Stoichiometry.TotalPermutation | ancp_sim/stoichiometry.py:37-54 | the mass, enthalpy and every element's moles are the same for any order of the recipe |
| Stoichiometry.MolesMapPermutation | ancp_sim/stoichiometry.py:53-54 | the element-moles map is the same for any order of the recipe |
| Stoichiometry.RecipeOrderIndependent | ancp_sim/stoichiometry.py:37-75 | reordering a recipe does not change whether the call succeeds, nor what it returns when it does |
| Stoichiometry.TimesAdd | ancp_sim/stoichiometry.py:47 | scaling distributes over the running sums |
| Stoichiometry.MolesScale | ancp_sim/stoichiometry.py:46-49 | scaling an item's percentage by c scales its moles by c |
| Stoichiometry.TermScale | ancp_sim/stoichiometry.py:46-54 | scaling an item's percentage by c scales each of its contributions by c |
| Stoichiometry.SumScale | ancp_sim/stoichiometry.py:47 | the sum of scaled contributions is the scaled sum |
| Stoichiometry.TotalAsSum | ancp_sim/stoichiometry.py:37-54 | each running total is the plain sum of the per-item contributions |
| Stoichiometry.TermsScale | ancp_sim/stoichiometry.py:46-54 | the contributions of a scaled recipe are the scaled contributions |
| Stoichiometry.TotalScale | ancp_sim/stoichiometry.py:46-54 | every total of a recipe scaled by c is c times the original total |
| Stoichiometry.FirstErrorScale | ancp_sim/stoichiometry.py:38-52 | scaling the percentages does not change which error, if any, is raised |
| Stoichiometry.ElementsScale | ancp_sim/stoichiometry.py:53-54 | scaling the percentages does not change which elements get totals |
| Stoichiometry.RecipeScaling | ancp_sim/stoichiometry.py:46-57 | percentages are used as given, not normalised: a recipe scaled by c fails the same way, has the same elements, and c times the moles, enthalpy and mass |

## Left out

- `ancp_sim/thermo.py`, `ancp_sim/main.py`, `ancp_sim/config.py`, `ancp_sim/chemdb.py` and `ancp_sim/output.py` are not part of this model. They cover the Cantera equilibrium calls, argument parsing, INI/JSON loading and console output, which are foreign-library code and I/O.
- The `print` of the percentage warning (line 57) is the boolean `massWarning` of the result. Its text is not modelled.
- Float rounding is not modelled: arithmetic is over `real`. Order independence and linear scaling therefore hold exactly in the model but only approximately for floats. The numeric checks in `tests/test_stoichiometry.py` that depend on the ingredient data file are not reproduced. The single-ingredient case is stated for any ingredient instead.
- `Formula.Tokenise`: Python's `\d` also matches non-ASCII Unicode digits. The model reads only `0`-`9` as digits, and other digits are skipped like any character outside the grammar.
- Malformed formulas are not rejected:
  - unknown characters are skipped;
  - an unclosed `(` returns the bottom map;
  - a stray `)` raises `IndexError` only when there is no map left to merge into.
- `Formula.CountOf`: from Python 3.11 on, `int(num)` (lines 17 and 22) raises `ValueError` for a digit run longer than 4300 digits; the model reads any digit run as its value and does not model that limit.
