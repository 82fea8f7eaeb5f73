/** Model of `calculate_stoichiometry` in ancp_sim/stoichiometry.py.

    A recipe maps ingredient names to mass percentages, read as grams of a
    nominal 100 g sample. For each ingredient, in the recipe's iteration
    order, the ingredient is looked up in the ingredient database, its moles
    are `percentage / molecular weight`, its enthalpy of formation is added
    per mole, and its formula is parsed so that every element's moles grow
    by `moles * atom count`. Afterwards the percentages are compared with
    100 (a warning only) and the oxygen balance is taken from the O, C, H
    and Mg totals.

    Python floats are modelled as `real`: the code uses only +, -, * and /,
    which are exact over the rationals. */
module Stoichiometry {
  import opened Formula

  /** Atomic weight of oxygen in g/mol. */
  const OxygenAtomicWeight: real := 15.999

  /** Tolerance on the sum of percentages before the warning is raised. */
  const MassTolerance: real := 0.000001

  /** One entry of the ingredient database. */
  datatype Ingredient = Ingredient(formula: string, molecularWeight: real, enthalpyFormation: real)

  type Database = map<string, Ingredient>

  /** `recipe.items()`: (ingredient name, mass percent) pairs in the dict's
      iteration order. */
  type Item = (string, real)
  type Recipe = seq<Item>

  /** The exceptions `calculate_stoichiometry` can raise: the `ValueError`
      for an ingredient missing from the database, the `ZeroDivisionError`
      of `mass / molecular_weight` for a zero molecular weight, and the
      `IndexError` that `parse_formula` raises on an unmatched `)`. */
  datatype Error = UnknownIngredient(name: string) | ZeroDivision | FormulaIndexError

  datatype Outcome<T> = Success(value: T) | Failure(error: Error)

  /** The returned dict, with the mass warning as a flag. */
  datatype StoichiometryResult = StoichiometryResult(
    elementalMoles: map<string, real>,
    reactantEnthalpy: real,
    oxygenBalance: real,
    massWarning: bool)

  // ---------------------------------------------------------------------
  // One ingredient

  /** The exception raised while processing this item, if any, in the order
      the loop body meets them. */
  function ItemError(item: Item, db: Database): Option<Error> {
    if item.0 !in db then Some(UnknownIngredient(item.0))
    else if db[item.0].molecularWeight == 0.0 then Some(ZeroDivision)
    else if Parse(db[item.0].formula).StackIndexError? then Some(FormulaIndexError)
    else None
  }

  predicate Resolved(item: Item, db: Database) {
    ItemError(item, db).None?
  }

  /** `moles_ingredient = mass / molecular_weight` */
  function IngredientMoles(item: Item, db: Database): real
    requires Resolved(item, db)
  {
    item.1 / db[item.0].molecularWeight
  }

  /** The element counts of the item's formula (none if it is not resolved). */
  function AtomCounts(item: Item, db: Database): Counts {
    if Resolved(item, db) then Parse(db[item.0].formula).counts else map[]
  }

  /** The three running totals of the loop. */
  datatype Quantity = Moles(element: string) | Enthalpy | Mass

  /** What one item adds to a running total: `pct / MW * count` moles of
      the element, `pct / MW * enthalpy of formation` kJ, `pct` grams. An
      item the loop fails on adds nothing to the moles or the enthalpy (no
      totals are returned then). */
  function Term(item: Item, db: Database, q: Quantity): real {
    match q
    case Mass => item.1
    case Moles(e) =>
      if Resolved(item, db) then IngredientMoles(item, db) * (Get(AtomCounts(item, db), e) as real) else 0.0
    case Enthalpy =>
      if Resolved(item, db) then IngredientMoles(item, db) * db[item.0].enthalpyFormation else 0.0
  }

  // ---------------------------------------------------------------------
  // The whole recipe

  /** A running total after all items, added up in iteration order. */
  function Total(recipe: Recipe, db: Database, q: Quantity): real {
    if recipe == [] then 0.0 else Total(recipe[..|recipe| - 1], db, q) + Term(recipe[|recipe| - 1], db, q)
  }

  /** The first exception the loop raises, if any. */
  function FirstError(recipe: Recipe, db: Database): Option<Error> {
    if recipe == [] then None
    else
      match FirstError(recipe[..|recipe| - 1], db)
      case Some(err) => Some(err)
      case None => ItemError(recipe[|recipe| - 1], db)
  }

  /** The elements that occur in some ingredient's formula. */
  function Elements(recipe: Recipe, db: Database): set<string> {
    if recipe == [] then {}
    else Elements(recipe[..|recipe| - 1], db) + AtomCounts(recipe[|recipe| - 1], db).Keys
  }

  function ElementMoles(recipe: Recipe, db: Database, e: string): real {
    Total(recipe, db, Moles(e))
  }

  function ReactantEnthalpy(recipe: Recipe, db: Database): real {
    Total(recipe, db, Enthalpy)
  }

  function TotalMass(recipe: Recipe): real {
    Total(recipe, map[], Mass)
  }

  /** Element symbol to total moles, for every element of some formula. */
  function MolesMap(recipe: Recipe, db: Database): map<string, real> {
    map e | e in Elements(recipe, db) :: ElementMoles(recipe, db, e)
  }

  function Abs(x: real): real {
    if x < 0.0 then -x else x
  }

  /** The mass-balance warning condition. */
  predicate MassWarning(totalMass: real) {
    Abs(totalMass - 100.0) > MassTolerance
  }

  /** `element_moles.get(e, 0)` */
  function GetMoles(moles: map<string, real>, e: string): real {
    if e in moles then moles[e] else 0.0
  }

  /** Oxygen balance in percent of the 100 g sample: the oxygen left after
      burning C to CO2, H to H2O and Mg to MgO, times the atomic weight of
      oxygen. Only these three elements consume oxygen. */
  function OxygenBalance(moles: map<string, real>): (r: real)
    ensures r == (GetMoles(moles, "O")
                  - (2.0 * GetMoles(moles, "C") + GetMoles(moles, "H") / 2.0 + 2.0 * GetMoles(moles, "Mg")))
                 * OxygenAtomicWeight
  {
    var oxygenNeeded := 2.0 * GetMoles(moles, "C") + GetMoles(moles, "H") / 2.0 + 2.0 * GetMoles(moles, "Mg");
    var oxygenBalanceMoles := GetMoles(moles, "O") - oxygenNeeded;
    var oxygenBalanceGrams := oxygenBalanceMoles * OxygenAtomicWeight;
    (oxygenBalanceGrams / 100.0) * 100.0
  }

  /** Only O, C, H and Mg enter the oxygen balance: the moles of any other
      element, present or not, leave it unchanged. */
  lemma {:induction false} OxygenBalanceIgnoresOthers(moles: map<string, real>, e: string, x: real)
    requires e != "O" && e != "C" && e != "H" && e != "Mg"
    ensures OxygenBalance(moles[e := x]) == OxygenBalance(moles)
    ensures OxygenBalance(map k | k in moles && k != e :: moles[k]) == OxygenBalance(moles)
  {
    var without := map k | k in moles && k != e :: moles[k];
    assert GetMoles(moles[e := x], "O") == GetMoles(moles, "O") == GetMoles(without, "O");
    assert GetMoles(moles[e := x], "C") == GetMoles(moles, "C") == GetMoles(without, "C");
    assert GetMoles(moles[e := x], "H") == GetMoles(moles, "H") == GetMoles(without, "H");
    assert GetMoles(moles[e := x], "Mg") == GetMoles(moles, "Mg") == GetMoles(without, "Mg");
  }

  /** What `calculate_stoichiometry(recipe, db)` returns or raises. */
  function Calculate(recipe: Recipe, db: Database): Outcome<StoichiometryResult> {
    match FirstError(recipe, db)
    case Some(err) => Failure(err)
    case None =>
      var moles := MolesMap(recipe, db);
      Success(StoichiometryResult(
        moles, ReactantEnthalpy(recipe, db), OxygenBalance(moles), MassWarning(TotalMass(recipe))))
  }

  // ---------------------------------------------------------------------
  // The loops

  /** The inner loop over `element_counts.items()`: every element of the
      formula gains `moles * count`, the others keep their totals. */
  method AddElementMoles(totals: map<string, real>, counts: Counts, moles: real)
    returns (r: map<string, real>)
    ensures r.Keys == totals.Keys + counts.Keys
    ensures forall e :: e in r ==> r[e] == GetMoles(totals, e) + moles * (Get(counts, e) as real)
  {
    r := totals;
    var pending := counts.Keys;
    while pending != {}
      invariant pending <= counts.Keys
      invariant r.Keys == totals.Keys + (counts.Keys - pending)
      invariant forall k :: k in r ==>
                  r[k] == GetMoles(totals, k) + (if k in pending then 0.0 else moles * (Get(counts, k) as real))
      decreases pending
    {
      var e :| e in pending;
      assert GetMoles(r, e) == GetMoles(totals, e);
      r := r[e := GetMoles(r, e) + moles * (counts[e] as real)];
      pending := pending - {e};
    }
  }

  /** The loop of `calculate_stoichiometry`. */
  method CalculateStoichiometry(recipe: Recipe, db: Database) returns (r: Outcome<StoichiometryResult>)
    ensures r == Calculate(recipe, db)
  {
    var totalMoles: map<string, real> := map[];
    var totalEnthalpy := 0.0;
    var totalMass := 0.0;
    var i := 0;
    while i < |recipe|
      invariant i <= |recipe|
      invariant FirstError(recipe[..i], db) == None
      invariant totalMoles == MolesMap(recipe[..i], db)
      invariant totalEnthalpy == ReactantEnthalpy(recipe[..i], db)
      invariant totalMass == TotalMass(recipe[..i])
    {
      var name := recipe[i].0;
      var percentage := recipe[i].1;
      if name !in db {
        FailsAt(recipe, db, i);
        return Failure(UnknownIngredient(name));
      }
      var ingredient := db[name];
      var mass := percentage;
      totalMass := totalMass + mass;
      if ingredient.molecularWeight == 0.0 {
        FailsAt(recipe, db, i);
        return Failure(ZeroDivision);
      }
      var molesIngredient := mass / ingredient.molecularWeight;
      totalEnthalpy := totalEnthalpy + molesIngredient * ingredient.enthalpyFormation;
      var parsed := ParseFormula(ingredient.formula);
      if parsed.StackIndexError? {
        FailsAt(recipe, db, i);
        return Failure(FormulaIndexError);
      }
      var elementCounts := parsed.counts;
      var next := AddElementMoles(totalMoles, elementCounts, molesIngredient);
      LoopStep(recipe, db, i);
      MolesMapStep(recipe, db, i, totalMoles, elementCounts, molesIngredient, next);
      totalMoles := next;
      i := i + 1;
    }
    assert recipe[..i] == recipe;
    r := Success(StoichiometryResult(totalMoles, totalEnthalpy, OxygenBalance(totalMoles), MassWarning(totalMass)));
  }

  // ---------------------------------------------------------------------
  // Lemmas for the loops

  /** What a successful outcome holds, and when the outcome is a success. */
  lemma {:induction false} StoichiometryMeaning(recipe: Recipe, db: Database)
    ensures Calculate(recipe, db).Success? <==> forall i :: 0 <= i < |recipe| ==> Resolved(recipe[i], db)
    ensures Calculate(recipe, db).Success? ==>
              forall e :: e in Calculate(recipe, db).value.elementalMoles ==>
                          Calculate(recipe, db).value.elementalMoles[e] == ElementMoles(recipe, db, e)
    ensures Calculate(recipe, db).Success? ==>
              forall e :: e in Calculate(recipe, db).value.elementalMoles <==>
                          exists i :: 0 <= i < |recipe| && e in AtomCounts(recipe[i], db)
  {
    SuccessIffResolved(recipe, db);
    ElementsMembership(recipe, db);
  }

  /** The loop body on item `i` when no earlier item failed and this one
      resolves: no error yet, and the enthalpy and mass totals grow by this
      item's terms. */
  lemma {:induction false} LoopStep(recipe: Recipe, db: Database, i: nat)
    requires i < |recipe| && FirstError(recipe[..i], db) == None && Resolved(recipe[i], db)
    ensures FirstError(recipe[..i + 1], db) == None
    ensures ReactantEnthalpy(recipe[..i + 1], db)
            == ReactantEnthalpy(recipe[..i], db)
               + recipe[i].1 / db[recipe[i].0].molecularWeight * db[recipe[i].0].enthalpyFormation
    ensures TotalMass(recipe[..i + 1]) == TotalMass(recipe[..i]) + recipe[i].1
  {
    var prefix := recipe[..i + 1];
    assert prefix[..i] == recipe[..i];
    assert prefix[i] == recipe[i];
  }

  /** The loop body on item `i` when no earlier item failed and this one
      raises: the call raises this item's exception. */
  lemma {:induction false} FailsAt(recipe: Recipe, db: Database, i: nat)
    requires i < |recipe| && FirstError(recipe[..i], db) == None && !Resolved(recipe[i], db)
    ensures Calculate(recipe, db) == Failure(ItemError(recipe[i], db).value)
  {
    var prefix := recipe[..i + 1];
    assert prefix[..i] == recipe[..i];
    assert prefix[i] == recipe[i];
    FirstErrorPrefix(recipe, db, i + 1);
  }

  lemma {:induction false} FirstErrorPrefix(recipe: Recipe, db: Database, k: nat)
    requires k <= |recipe|
    requires FirstError(recipe[..k], db).Some?
    ensures FirstError(recipe, db) == FirstError(recipe[..k], db)
    decreases |recipe| - k
  {
    if k == |recipe| {
      assert recipe[..k] == recipe;
    } else {
      var init := recipe[..|recipe| - 1];
      assert init[..k] == recipe[..k];
      FirstErrorPrefix(init, db, k);
    }
  }

  /** The loop runs without error exactly when every item resolves. */
  lemma {:induction false} SuccessIffResolved(recipe: Recipe, db: Database)
    ensures FirstError(recipe, db) == None <==> forall i :: 0 <= i < |recipe| ==> Resolved(recipe[i], db)
  {
    if recipe != [] {
      var init := recipe[..|recipe| - 1];
      SuccessIffResolved(init, db);
      assert forall i :: 0 <= i < |init| ==> init[i] == recipe[i];
    }
  }

  /** An element of the totals occurs in the formula of some (resolved)
      ingredient, and the returned index names one. */
  lemma {:induction false} ElementsWitness(recipe: Recipe, db: Database, e: string) returns (i: nat)
    requires e in Elements(recipe, db)
    ensures i < |recipe| && e in AtomCounts(recipe[i], db)
  {
    var init := recipe[..|recipe| - 1];
    if e in Elements(init, db) {
      i := ElementsWitness(init, db, e);
      assert init[i] == recipe[i];
    } else {
      i := |recipe| - 1;
    }
  }

  /** Every element of every resolved ingredient's formula is in the totals. */
  lemma {:induction false} ElementsCover(recipe: Recipe, db: Database, i: nat, e: string)
    requires i < |recipe| && e in AtomCounts(recipe[i], db)
    ensures e in Elements(recipe, db)
  {
    var init := recipe[..|recipe| - 1];
    if i < |init| {
      assert init[i] == recipe[i];
      ElementsCover(init, db, i, e);
    }
  }

  /** An element is a key of the totals exactly when it occurs in the
      formula of some (resolved) ingredient. */
  lemma {:induction false} ElementsMembership(recipe: Recipe, db: Database)
    ensures forall e :: e in Elements(recipe, db) <==>
                        exists i :: 0 <= i < |recipe| && e in AtomCounts(recipe[i], db)
  {
    forall e | e in Elements(recipe, db)
      ensures exists i :: 0 <= i < |recipe| && e in AtomCounts(recipe[i], db)
    {
      var i := ElementsWitness(recipe, db, e);
    }
    forall e, i | 0 <= i < |recipe| && e in AtomCounts(recipe[i], db)
      ensures e in Elements(recipe, db)
    {
      ElementsCover(recipe, db, i, e);
    }
  }

  /** An element no formula mentions has no moles. */
  lemma {:induction false} ElementMolesOutside(recipe: Recipe, db: Database, e: string)
    requires e !in Elements(recipe, db)
    ensures ElementMoles(recipe, db, e) == 0.0
  {
    if recipe != [] {
      ElementMolesOutside(recipe[..|recipe| - 1], db, e);
      assert Get(AtomCounts(recipe[|recipe| - 1], db), e) == 0;
    }
  }

  /** One pass of the outer loop body extends the totals from the first
      `i` items to the first `i + 1`. */
  lemma {:induction false} MolesMapStep(recipe: Recipe, db: Database, i: nat,
                                         totals: map<string, real>, counts: Counts, moles: real,
                                         next: map<string, real>)
    requires i < |recipe| && Resolved(recipe[i], db)
    requires totals == MolesMap(recipe[..i], db)
    requires counts == AtomCounts(recipe[i], db) && moles == IngredientMoles(recipe[i], db)
    requires next.Keys == totals.Keys + counts.Keys
    requires forall e :: e in next ==> next[e] == GetMoles(totals, e) + moles * (Get(counts, e) as real)
    ensures next == MolesMap(recipe[..i + 1], db)
  {
    var init := recipe[..i];
    var prefix := recipe[..i + 1];
    assert prefix[..i] == init;
    assert prefix[i] == recipe[i];
    assert Elements(prefix, db) == Elements(init, db) + AtomCounts(recipe[i], db).Keys;
    forall e | e in next
      ensures next[e] == ElementMoles(prefix, db, e)
    {
      if e !in Elements(init, db) {
        ElementMolesOutside(init, db, e);
      }
    }
  }

  // ---------------------------------------------------------------------
  // Errors

  /** The loop stops at the first item that fails: when every earlier item
      resolves, the exception is the one this item raises. In particular a
      name missing from the database raises `UnknownIngredient` unless an
      earlier item already failed. */
  lemma {:induction false} FirstFailure(recipe: Recipe, db: Database, i: nat)
    requires i < |recipe|
    requires forall j :: 0 <= j < i ==> Resolved(recipe[j], db)
    requires !Resolved(recipe[i], db)
    ensures Calculate(recipe, db) == Failure(ItemError(recipe[i], db).value)
  {
    var prefix := recipe[..i + 1];
    assert prefix[..i] == recipe[..i];
    SuccessIffResolved(recipe[..i], db);
    assert FirstError(prefix, db) == ItemError(recipe[i], db);
    FirstErrorPrefix(recipe, db, i + 1);
  }

  /** Any ingredient missing from the database makes the whole call fail. */
  lemma {:induction false} UnknownIngredientFails(recipe: Recipe, db: Database, i: nat)
    requires i < |recipe| && recipe[i].0 !in db
    ensures Calculate(recipe, db).Failure?
  {
    SuccessIffResolved(recipe, db);
  }

  // ---------------------------------------------------------------------
  // A single ingredient

  /** The total over a one-item recipe is that item's contribution. */
  lemma {:induction false} TotalSingle(item: Item, db: Database, q: Quantity)
    ensures Total([item], db, q) == Term(item, db, q)
  {
    assert [item][..0] == [];
  }

  /** One resolved ingredient: every element of its formula gets
      `pct / MW * count` moles and no other element appears; the enthalpy is
      `pct / MW * enthalpy of formation`; the warning is raised exactly when
      `pct` is not 100 within the tolerance. */
  lemma {:induction false} SingleIngredient(name: string, pct: real, db: Database)
    requires Resolved((name, pct), db)
    ensures FirstError([(name, pct)], db) == None
    ensures Calculate([(name, pct)], db).Success?
    ensures Calculate([(name, pct)], db).value.massWarning <==>
              (pct > 100.0 + MassTolerance || pct < 100.0 - MassTolerance)
    ensures MolesMap([(name, pct)], db).Keys == Parse(db[name].formula).counts.Keys
    ensures var counts := Parse(db[name].formula).counts;
            forall e :: e in counts ==>
              MolesMap([(name, pct)], db)[e] == pct / db[name].molecularWeight * (counts[e] as real)
    ensures ReactantEnthalpy([(name, pct)], db) == pct / db[name].molecularWeight * db[name].enthalpyFormation
    ensures TotalMass([(name, pct)]) == pct
  {
    var recipe := [(name, pct)];
    var counts := Parse(db[name].formula).counts;
    assert recipe[..0] == [];
    assert Elements(recipe, db) == counts.Keys;
    forall e | e in counts
      ensures MolesMap(recipe, db)[e] == pct / db[name].molecularWeight * (counts[e] as real)
    {
      TotalSingle((name, pct), db, Moles(e));
      assert Get(counts, e) == counts[e];
    }
    TotalSingle((name, pct), db, Enthalpy);
    TotalSingle((name, pct), map[], Mass);
  }

  // ---------------------------------------------------------------------
  // Order independence (over the reals)

  lemma {:induction false} TotalAppend(a: Recipe, b: Recipe, db: Database, q: Quantity)
    ensures Total(a + b, db, q) == Total(a, db, q) + Total(b, db, q)
    decreases |b|
  {
    if b == [] {
      assert a + b == a;
    } else {
      var b' := b[..|b| - 1];
      assert (a + b)[..|a + b| - 1] == a + b';
      TotalAppend(a, b', db, q);
    }
  }

  /** Taking item `i` out of the recipe takes its term out of the total. */
  lemma {:induction false} TotalRemove(recipe: Recipe, db: Database, q: Quantity, i: nat)
    requires i < |recipe|
    ensures Total(recipe, db, q) == Total(recipe[..i] + recipe[i + 1..], db, q) + Term(recipe[i], db, q)
  {
    var single := [recipe[i]];
    assert single[..0] == [];
    assert recipe == recipe[..i] + single + recipe[i + 1..];
    TotalAppend(recipe[..i] + single, recipe[i + 1..], db, q);
    TotalAppend(recipe[..i], single, db, q);
    TotalAppend(recipe[..i], recipe[i + 1..], db, q);
  }

  /** The last item of `r1` sits somewhere in any reordering `r2`, and
      the rest of `r2` is a reordering of the rest of `r1`. */
  lemma {:induction false} PermutationSplit(r1: Recipe, r2: Recipe) returns (j: nat)
    requires r1 != [] && multiset(r1) == multiset(r2)
    ensures j < |r2| && r2[j] == r1[|r1| - 1]
    ensures multiset(r1[..|r1| - 1]) == multiset(r2[..j] + r2[j + 1..])
  {
    var last := r1[|r1| - 1];
    var init := r1[..|r1| - 1];
    assert r1 == init + [last];
    assert last in multiset(r2);
    j :| 0 <= j < |r2| && r2[j] == last;
    var rest := r2[..j] + r2[j + 1..];
    assert r2 == r2[..j] + [last] + r2[j + 1..];
    assert multiset(r2) == multiset(rest) + multiset{last};
    assert multiset(init) == multiset(init) + multiset{last} - multiset{last};
    assert multiset(rest) == multiset(rest) + multiset{last} - multiset{last};
  }

  /** Every running total is the same for any ordering of the same items. */
  lemma {:induction false} TotalPermutation(r1: Recipe, r2: Recipe, db: Database, q: Quantity)
    requires multiset(r1) == multiset(r2)
    ensures Total(r1, db, q) == Total(r2, db, q)
    decreases |r1|
  {
    if r1 != [] {
      var j := PermutationSplit(r1, r2);
      TotalPermutation(r1[..|r1| - 1], r2[..j] + r2[j + 1..], db, q);
      TotalRemove(r2, db, q, j);
    } else {
      assert |r2| == |multiset(r2)| == 0;
    }
  }

  /** Reordering the items changes neither which elements appear nor any
      element's moles. */
  lemma {:induction false} MolesMapPermutation(r1: Recipe, r2: Recipe, db: Database)
    requires multiset(r1) == multiset(r2)
    ensures MolesMap(r1, db) == MolesMap(r2, db)
  {
    assert forall x :: x in r1 <==> x in r2 by {
      forall x ensures x in r1 <==> x in r2 {
        assert x in r1 <==> x in multiset(r1);
        assert x in r2 <==> x in multiset(r2);
      }
    }
    ElementsMembership(r1, db);
    ElementsMembership(r2, db);
    forall e | e in Elements(r1, db) ensures e in Elements(r2, db) {
      var i :| 0 <= i < |r1| && e in AtomCounts(r1[i], db);
      assert r1[i] in multiset(r1);
      var j :| 0 <= j < |r2| && r2[j] == r1[i];
    }
    forall e | e in Elements(r2, db) ensures e in Elements(r1, db) {
      var j :| 0 <= j < |r2| && e in AtomCounts(r2[j], db);
      assert r2[j] in multiset(r2);
      var i :| 0 <= i < |r1| && r1[i] == r2[j];
    }
    forall e | e in Elements(r1, db)
      ensures ElementMoles(r1, db, e) == ElementMoles(r2, db, e)
    {
      TotalPermutation(r1, r2, db, Moles(e));
    }
  }

  /** The outcome of `calculate_stoichiometry` does not depend on the order
      of the recipe's items when every item resolves; either ordering then
      succeeds, and with the same result. */
  lemma {:induction false} RecipeOrderIndependent(r1: Recipe, r2: Recipe, db: Database)
    requires multiset(r1) == multiset(r2)
    ensures Calculate(r1, db).Success? <==> Calculate(r2, db).Success?
    ensures Calculate(r1, db).Success? ==> Calculate(r1, db) == Calculate(r2, db)
  {
    SuccessIffResolved(r1, db);
    SuccessIffResolved(r2, db);
    forall i | 0 <= i < |r1| ensures r1[i] in multiset(r2) {
      assert r1[i] in multiset(r1);
    }
    forall j | 0 <= j < |r2| ensures r2[j] in multiset(r1) {
      assert r2[j] in multiset(r2);
    }
    assert (forall i :: 0 <= i < |r1| ==> Resolved(r1[i], db))
       <==> (forall j :: 0 <= j < |r2| ==> Resolved(r2[j], db));
    MolesMapPermutation(r1, r2, db);
    TotalPermutation(r1, r2, db, Enthalpy);
    TotalPermutation(r1, r2, map[], Mass);
  }

  // ---------------------------------------------------------------------
  // Percentages are used as given

  /** The item with its percentage multiplied by `c`. */
  function ScaleItem(item: Item, c: real): Item {
    (item.0, c * item.1)
  }

  /** Every percentage of the recipe multiplied by `c`. */
  function ScaleRecipe(recipe: Recipe, c: real): (r: Recipe)
    ensures |r| == |recipe|
  {
    if recipe == [] then []
    else ScaleRecipe(recipe[..|recipe| - 1], c) + [ScaleItem(recipe[|recipe| - 1], c)]
  }

  /** `c * x`, named so that products with the factor `c` are not mixed
      into the arithmetic of the running totals. */
  function Times(c: real, x: real): real { c * x }

  lemma {:induction false} TimesAdd(c: real, a: real, b: real)
    ensures Times(c, a) + Times(c, b) == Times(c, a + b)
  {
  }

  /** `(c * p) / m == c * (p / m)` */
  lemma {:induction false} DivScale(c: real, p: real, m: real)
    requires m != 0.0
    ensures (c * p) / m == c * (p / m)
  {
    var x := p / m;
    assert x * m == p;
    assert (c * x) * m == c * p;
  }

  lemma {:induction false} MulAssoc(a: real, b: real, k: real)
    ensures (a * b) * k == a * (b * k)
  {
  }

  /** Scaling the percentage scales the ingredient's moles. */
  lemma {:induction false} MolesScale(item: Item, c: real, db: Database)
    requires Resolved(item, db)
    ensures Resolved(ScaleItem(item, c), db)
    ensures IngredientMoles(ScaleItem(item, c), db) == c * IngredientMoles(item, db)
  {
    DivScale(c, item.1, db[item.0].molecularWeight);
  }

  /** Scaling the percentage scales every term the item adds. */
  lemma {:induction false} TermScale(item: Item, c: real, db: Database, q: Quantity)
    ensures Term(ScaleItem(item, c), db, q) == Times(c, Term(item, db, q))
  {
    if Resolved(item, db) {
      MolesScale(item, c, db);
      match q
      case Moles(e) =>
        MulAssoc(c, IngredientMoles(item, db), Get(AtomCounts(item, db), e) as real);
      case Enthalpy =>
        MulAssoc(c, IngredientMoles(item, db), db[item.0].enthalpyFormation);
      case Mass =>
    } else {
      assert !Resolved(ScaleItem(item, c), db);
    }
  }

  /** A sum of reals, added up left to right. */
  function Sum(xs: seq<real>): real {
    if xs == [] then 0.0 else Sum(xs[..|xs| - 1]) + xs[|xs| - 1]
  }

  /** Every number multiplied by `c`. */
  function ScaleAll(xs: seq<real>, c: real): (r: seq<real>)
    ensures |r| == |xs|
  {
    if xs == [] then [] else ScaleAll(xs[..|xs| - 1], c) + [Times(c, xs[|xs| - 1])]
  }

  /** Multiplying every summand by `c` multiplies the sum by `c`. */
  lemma {:induction false} SumScale(xs: seq<real>, c: real)
    ensures Sum(ScaleAll(xs, c)) == Times(c, Sum(xs))
  {
    if xs == [] {
      assert Times(c, 0.0) == 0.0;
    } else {
      var n := |xs| - 1;
      SumScale(xs[..n], c);
      var ys := ScaleAll(xs, c);
      assert ys[..n] == ScaleAll(xs[..n], c);
      TimesAdd(c, Sum(xs[..n]), xs[n]);
    }
  }

  lemma {:induction false} ScaleAllItems(xs: seq<real>, c: real)
    ensures forall i :: 0 <= i < |xs| ==> ScaleAll(xs, c)[i] == Times(c, xs[i])
  {
    if xs != [] {
      ScaleAllItems(xs[..|xs| - 1], c);
    }
  }

  lemma {:induction false} ScaleRecipeItems(recipe: Recipe, c: real)
    ensures forall i :: 0 <= i < |recipe| ==> ScaleRecipe(recipe, c)[i] == ScaleItem(recipe[i], c)
  {
    if recipe != [] {
      ScaleRecipeItems(recipe[..|recipe| - 1], c);
    }
  }

  /** The terms the items add to a running total. */
  function Terms(recipe: Recipe, db: Database, q: Quantity): (r: seq<real>)
    ensures |r| == |recipe|
  {
    seq(|recipe|, i requires 0 <= i < |recipe| => Term(recipe[i], db, q))
  }

  /** A running total is the sum of the items' terms. */
  lemma {:induction false} TotalAsSum(recipe: Recipe, db: Database, q: Quantity)
    ensures Total(recipe, db, q) == Sum(Terms(recipe, db, q))
  {
    if recipe != [] {
      var n := |recipe| - 1;
      TotalAsSum(recipe[..n], db, q);
      assert Terms(recipe, db, q)[..n] == Terms(recipe[..n], db, q);
    }
  }

  lemma {:induction false} TermsScale(recipe: Recipe, c: real, db: Database, q: Quantity)
    ensures Terms(ScaleRecipe(recipe, c), db, q) == ScaleAll(Terms(recipe, db, q), c)
  {
    var ys := Terms(ScaleRecipe(recipe, c), db, q);
    var zs := ScaleAll(Terms(recipe, db, q), c);
    ScaleRecipeItems(recipe, c);
    ScaleAllItems(Terms(recipe, db, q), c);
    forall i | 0 <= i < |recipe|
      ensures ys[i] == zs[i]
    {
      assert ys[i] == Term(ScaleItem(recipe[i], c), db, q);
      assert Terms(recipe, db, q)[i] == Term(recipe[i], db, q);
      TermScale(recipe[i], c, db, q);
    }
  }

  /** Scaling every percentage scales every running total. */
  lemma {:induction false} TotalScale(recipe: Recipe, c: real, db: Database, q: Quantity)
    ensures Total(ScaleRecipe(recipe, c), db, q) == Times(c, Total(recipe, db, q))
  {
    TermsScale(recipe, c, db, q);
    SumScale(Terms(recipe, db, q), c);
    TotalAsSum(recipe, db, q);
    TotalAsSum(ScaleRecipe(recipe, c), db, q);
  }

  lemma {:induction false} ScaleRecipeLast(recipe: Recipe, c: real)
    requires recipe != []
    ensures ScaleRecipe(recipe, c)[..|recipe| - 1] == ScaleRecipe(recipe[..|recipe| - 1], c)
    ensures ScaleRecipe(recipe, c)[|recipe| - 1] == ScaleItem(recipe[|recipe| - 1], c)
  {
  }

  /** Whether and where the loop raises does not depend on the percentages. */
  lemma {:induction false} FirstErrorScale(recipe: Recipe, c: real, db: Database)
    ensures FirstError(ScaleRecipe(recipe, c), db) == FirstError(recipe, db)
  {
    if recipe != [] {
      ScaleRecipeLast(recipe, c);
      FirstErrorScale(recipe[..|recipe| - 1], c, db);
    }
  }

  /** Which elements appear does not depend on the percentages. */
  lemma {:induction false} ElementsScale(recipe: Recipe, c: real, db: Database)
    ensures Elements(ScaleRecipe(recipe, c), db) == Elements(recipe, db)
  {
    if recipe != [] {
      ScaleRecipeLast(recipe, c);
      ElementsScale(recipe[..|recipe| - 1], c, db);
    }
  }

  /** The percentages are used as given, never normalised to 100: scaling
      all of them by `c` raises the same exception, or yields the same
      elements with `c` times the moles, `c` times the enthalpy and `c`
      times the total mass. A recipe summing to 50 thus gives half the moles
      of the same recipe summing to 100, with only the warning to show it. */
  lemma {:induction false} RecipeScaling(recipe: Recipe, c: real, db: Database)
    ensures FirstError(ScaleRecipe(recipe, c), db) == FirstError(recipe, db)
    ensures MolesMap(ScaleRecipe(recipe, c), db).Keys == MolesMap(recipe, db).Keys
    ensures forall e :: e in MolesMap(recipe, db) ==>
              MolesMap(ScaleRecipe(recipe, c), db)[e] == Times(c, MolesMap(recipe, db)[e])
    ensures ReactantEnthalpy(ScaleRecipe(recipe, c), db) == Times(c, ReactantEnthalpy(recipe, db))
    ensures TotalMass(ScaleRecipe(recipe, c)) == Times(c, TotalMass(recipe))
  {
    FirstErrorScale(recipe, c, db);
    ElementsScale(recipe, c, db);
    forall e | e in MolesMap(recipe, db)
      ensures MolesMap(ScaleRecipe(recipe, c), db)[e] == Times(c, MolesMap(recipe, db)[e])
    {
      TotalScale(recipe, c, db, Moles(e));
    }
    TotalScale(recipe, c, db, Enthalpy);
    TotalScale(recipe, c, map[], Mass);
  }
}
