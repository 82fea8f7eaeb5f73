/** The formulas of tests/test_parser.py, each parsed through the tree
    theorem `Formula.ParseTree`: the text is shown to tokenise to the tokens
    of a formula tree, and the tree's counts are worked out. The helpers
    first state the few shapes these trees have for arbitrary symbols, so
    that the concrete cases only fill them in. */
module FormulaExamples {
  import opened Formula

  // ---------------------------------------------------------------------
  // Count maps of small formula trees, for arbitrary symbols

  /** Adding a single atom to a map: the atom's count lands on its key. */
  lemma {:induction false} AddSingleton(x: string, c: nat, m: Counts)
    ensures Add(map[x := c], m) == m[x := Get(m, x) + c]
  {
    var l := Add(map[x := c], m);
    var r := m[x := Get(m, x) + c];
    assert l.Keys == r.Keys;
    forall e | e in l
      ensures l[e] == r[e]
    {
      if e != x {
        assert Get(map[x := c], e) == 0;
      }
    }
  }

  lemma {:induction false} SumSingle(p: Part)
    ensures SumCounts([p]) == PartCounts(p)
  {
    AddEmpty(PartCounts(p));
  }

  /** An atom in front of other parts adds its count to theirs. */
  lemma {:induction false} AtomCons(x: string, dx: string, rest: seq<Part>)
    ensures SumCounts([Atom(x, dx)] + rest)
         == SumCounts(rest)[x := Get(SumCounts(rest), x) + CountOf(dx)]
  {
    assert ([Atom(x, dx)] + rest)[1..] == rest;
    AddSingleton(x, CountOf(dx), SumCounts(rest));
  }

  lemma {:induction false} AtomBefore(x: string, dx: string, p: Part)
    ensures SumCounts([Atom(x, dx), p])
         == PartCounts(p)[x := Get(PartCounts(p), x) + CountOf(dx)]
  {
    assert [Atom(x, dx), p] == [Atom(x, dx)] + [p];
    AtomCons(x, dx, [p]);
    SumSingle(p);
  }

  lemma {:induction false} GroupCons(inner: seq<Part>, d: string, rest: seq<Part>)
    ensures SumCounts([Group(inner, d)] + rest)
         == Add(Scale(SumCounts(inner), CountOf(d)), SumCounts(rest))
  {
    assert ([Group(inner, d)] + rest)[1..] == rest;
  }

  lemma {:induction false} FlattenCons(p: Part, rest: seq<Part>)
    ensures Flatten([p] + rest) == FlattenPart(p) + Flatten(rest)
  {
    assert ([p] + rest)[0] == p;
    assert ([p] + rest)[1..] == rest;
  }

  lemma {:induction false} Swap2(x: string, a: nat, y: string, b: nat)
    requires x != y
    ensures map[y := b][x := a] == map[x := a, y := b]
  {
  }

  lemma {:induction false} Swap3(x: string, a: nat, y: string, b: nat, z: string, c: nat)
    requires x != y && y != z && x != z
    ensures map[y := b, z := c][x := a] == map[x := a, y := b, z := c]
  {
  }

  lemma {:induction false} Overwrite(x: string, a: nat, y: string, b: nat, c: nat)
    requires x != y
    ensures map[x := a, y := b][x := c] == map[x := c, y := b]
  {
  }

  lemma {:induction false} OverwriteLast(x: string, a: nat, y: string, b: nat, c: nat)
    requires x != y
    ensures map[x := a, y := b][y := c] == map[x := a, y := c]
  {
  }

  lemma {:induction false} ScaleOne(x: string, a: nat, k: nat)
    ensures Scale(map[x := a], k) == map[x := a * k]
  {
    assert Scale(map[x := a], k).Keys == {x};
  }

  lemma {:induction false} ScaleTwo(x: string, a: nat, y: string, b: nat, k: nat)
    requires x != y
    ensures Scale(map[x := a, y := b], k) == map[x := a * k, y := b * k]
  {
    assert Scale(map[x := a, y := b], k).Keys == {x, y};
  }

  /** Two count maps on disjoint pairs of symbols merge into one map. */
  lemma {:induction false} AddTwoTwo(w: string, a: nat, x: string, b: nat, y: string, c: nat, z: string, d: nat)
    requires w != x && w != y && w != z && x != y && x != z && y != z
    ensures Add(map[w := a, x := b], map[y := c, z := d]) == map[w := a, x := b, y := c, z := d]
  {
    assert Add(map[w := a, x := b], map[y := c, z := d]).Keys == {w, x, y, z};
  }

  lemma {:induction false} TwoAtoms(x: string, dx: string, y: string, dy: string)
    requires x != y
    ensures SumCounts([Atom(x, dx), Atom(y, dy)]) == map[x := CountOf(dx), y := CountOf(dy)]
  {
    AtomBefore(x, dx, Atom(y, dy));
    Swap2(x, CountOf(dx), y, CountOf(dy));
  }

  lemma {:induction false} ThreeAtoms(x: string, dx: string, y: string, dy: string, z: string, dz: string)
    requires x != y && y != z && x != z
    ensures SumCounts([Atom(x, dx), Atom(y, dy), Atom(z, dz)])
         == map[x := CountOf(dx), y := CountOf(dy), z := CountOf(dz)]
  {
    assert [Atom(x, dx), Atom(y, dy), Atom(z, dz)] == [Atom(x, dx)] + [Atom(y, dy), Atom(z, dz)];
    AtomCons(x, dx, [Atom(y, dy), Atom(z, dz)]);
    TwoAtoms(y, dy, z, dz);
    Swap3(x, CountOf(dx), y, CountOf(dy), z, CountOf(dz));
  }

  lemma {:induction false} GroupOfOne(x: string, dx: string, d: string)
    ensures PartCounts(Group([Atom(x, dx)], d)) == map[x := CountOf(dx) * CountOf(d)]
  {
    SumSingle(Atom(x, dx));
    ScaleOne(x, CountOf(dx), CountOf(d));
  }

  /** A group of two different atoms multiplies both counts. */
  lemma {:induction false} GroupOfTwo(x: string, dx: string, y: string, dy: string, d: string)
    requires x != y
    ensures PartCounts(Group([Atom(x, dx), Atom(y, dy)], d))
         == map[x := CountOf(dx) * CountOf(d), y := CountOf(dy) * CountOf(d)]
  {
    TwoAtoms(x, dx, y, dy);
    ScaleTwo(x, CountOf(dx), y, CountOf(dy), CountOf(d));
  }

  // ---------------------------------------------------------------------
  // "H2O" -> {H: 2, O: 1}

  lemma {:induction false} WaterSpelling()
    ensures Spell([Element("H", "2"), Element("O", "")]) == "H2O"
  {
  }

  lemma {:induction false} WaterWellFormed()
    ensures var tokens := [Element("H", "2"), Element("O", "")];
            forall i :: 0 <= i < |tokens| ==> WellFormed(tokens[i])
  {
  }

  lemma {:induction false} WaterTokens()
    ensures Tokenise("H2O")
         == [Element("H", "2"), Element("O", "")]
  {
    WaterSpelling();
    WaterWellFormed();
    TokeniseSpell([Element("H", "2"), Element("O", "")]);
  }

  lemma {:induction false} WaterTree()
    ensures Flatten([Atom("H", "2"), Atom("O", "")]) == [Element("H", "2"), Element("O", "")]
    ensures SumCounts([Atom("H", "2"), Atom("O", "")]) == map["H" := 2, "O" := 1]
  {
    TwoAtoms("H", "2", "O", "");
    assert CountOf("2") == 2;
  }

  lemma {:induction false} Water()
    ensures Parse("H2O") == Parsed(map["H" := 2, "O" := 1])
  {
    WaterTokens();
    WaterTree();
    ParseTree("H2O", [Atom("H", "2"), Atom("O", "")]);
  }

  // ---------------------------------------------------------------------
  // "C6H12O6" -> {C: 6, H: 12, O: 6}

  lemma {:induction false} GlucoseSpelling()
    ensures Spell([Element("C", "6"), Element("H", "12"), Element("O", "6")]) == "C6H12O6"
  {
  }

  lemma {:induction false} GlucoseWellFormed()
    ensures var tokens := [Element("C", "6"), Element("H", "12"), Element("O", "6")];
            forall i :: 0 <= i < |tokens| ==> WellFormed(tokens[i])
  {
  }

  lemma {:induction false} GlucoseTokens()
    ensures Tokenise("C6H12O6")
         == [Element("C", "6"), Element("H", "12"), Element("O", "6")]
  {
    GlucoseSpelling();
    GlucoseWellFormed();
    TokeniseSpell([Element("C", "6"), Element("H", "12"), Element("O", "6")]);
  }

  lemma {:induction false} GlucoseTree()
    ensures Flatten([Atom("C", "6"), Atom("H", "12"), Atom("O", "6")])
         == [Element("C", "6"), Element("H", "12"), Element("O", "6")]
    ensures SumCounts([Atom("C", "6"), Atom("H", "12"), Atom("O", "6")])
         == map["C" := 6, "H" := 12, "O" := 6]
  {
    ThreeAtoms("C", "6", "H", "12", "O", "6");
    assert CountOf("6") == 6;
    assert CountOf("12") == 12;
  }

  lemma {:induction false} Glucose()
    ensures Parse("C6H12O6") == Parsed(map["C" := 6, "H" := 12, "O" := 6])
  {
    GlucoseTokens();
    GlucoseTree();
    ParseTree("C6H12O6", [Atom("C", "6"), Atom("H", "12"), Atom("O", "6")]);
  }

  // ---------------------------------------------------------------------
  // "Ca(OH)2" -> {Ca: 1, O: 2, H: 2}

  lemma {:induction false} CalciumHydroxideUnroll()
    ensures Spell([Element("Ca", ""), Open, Element("O", ""), Element("H", ""), Close("2")])
         == Spelling(Element("Ca", "")) + Spelling(Open) + Spelling(Element("O", ""))
            + Spelling(Element("H", "")) + Spelling(Close("2"))
  {
  }

  lemma {:induction false} CalciumHydroxideSpelling()
    ensures Spell([Element("Ca", ""), Open, Element("O", ""), Element("H", ""), Close("2")])
         == "Ca(OH)2"
  {
    CalciumHydroxideUnroll();
  }

  lemma {:induction false} CalciumHydroxideWellFormed()
    ensures var tokens := [Element("Ca", ""), Open, Element("O", ""), Element("H", ""), Close("2")];
            forall i :: 0 <= i < |tokens| ==> WellFormed(tokens[i])
  {
  }

  lemma {:induction false} CalciumHydroxideTokens()
    ensures Tokenise("Ca(OH)2")
         == [Element("Ca", ""), Open, Element("O", ""), Element("H", ""), Close("2")]
  {
    CalciumHydroxideSpelling();
    CalciumHydroxideWellFormed();
    TokeniseSpell([Element("Ca", ""), Open, Element("O", ""), Element("H", ""), Close("2")]);
  }

  lemma {:induction false} CalciumHydroxideFlat()
    ensures Flatten([Atom("Ca", ""), Group([Atom("O", ""), Atom("H", "")], "2")])
         == [Element("Ca", ""), Open, Element("O", ""), Element("H", ""), Close("2")]
  {
  }

  /** (OH)2 */
  lemma {:induction false} HydroxideCounts()
    ensures PartCounts(Group([Atom("O", ""), Atom("H", "")], "2")) == map["O" := 2, "H" := 2]
  {
    GroupOfTwo("O", "", "H", "", "2");
    assert CountOf("2") == 2;
  }

  lemma {:induction false} CalciumHydroxideTree()
    ensures SumCounts([Atom("Ca", ""), Group([Atom("O", ""), Atom("H", "")], "2")])
         == map["Ca" := 1, "O" := 2, "H" := 2]
  {
    AtomBefore("Ca", "", Group([Atom("O", ""), Atom("H", "")], "2"));
    HydroxideCounts();
    Swap3("Ca", 1, "O", 2, "H", 2);
  }

  lemma {:induction false} CalciumHydroxide()
    ensures Parse("Ca(OH)2") == Parsed(map["Ca" := 1, "O" := 2, "H" := 2])
  {
    CalciumHydroxideTokens();
    CalciumHydroxideFlat();
    CalciumHydroxideTree();
    ParseTree("Ca(OH)2", [Atom("Ca", ""), Group([Atom("O", ""), Atom("H", "")], "2")]);
  }

  // ---------------------------------------------------------------------
  // "(NH4)2SO4" -> {N: 2, H: 8, S: 1, O: 4}

  lemma {:induction false} AmmoniumSulfateUnroll()
    ensures Spell([Open, Element("N", ""), Element("H", "4"), Close("2"), Element("S", ""), Element("O", "4")])
         == Spelling(Open) + Spelling(Element("N", "")) + Spelling(Element("H", "4"))
            + Spelling(Close("2")) + Spelling(Element("S", "")) + Spelling(Element("O", "4"))
  {
  }

  lemma {:induction false} AmmoniumSulfateSpelling()
    ensures Spell([Open, Element("N", ""), Element("H", "4"), Close("2"), Element("S", ""), Element("O", "4")])
         == "(NH4)2SO4"
  {
    AmmoniumSulfateUnroll();
  }

  lemma {:induction false} AmmoniumSulfateWellFormed()
    ensures var tokens := [Open, Element("N", ""), Element("H", "4"), Close("2"), Element("S", ""), Element("O", "4")];
            forall i :: 0 <= i < |tokens| ==> WellFormed(tokens[i])
  {
  }

  lemma {:induction false} AmmoniumSulfateTokens()
    ensures Tokenise("(NH4)2SO4")
         == [Open, Element("N", ""), Element("H", "4"), Close("2"), Element("S", ""), Element("O", "4")]
  {
    AmmoniumSulfateSpelling();
    AmmoniumSulfateWellFormed();
    TokeniseSpell([Open, Element("N", ""), Element("H", "4"), Close("2"), Element("S", ""), Element("O", "4")]);
  }

  lemma {:induction false} AmmoniumSulfateFlat()
    ensures Flatten([Group([Atom("N", ""), Atom("H", "4")], "2"), Atom("S", ""), Atom("O", "4")])
         == [Open, Element("N", ""), Element("H", "4"), Close("2"), Element("S", ""), Element("O", "4")]
  {
  }

  /** (NH4)2 */
  lemma {:induction false} AmmoniumCounts()
    ensures PartCounts(Group([Atom("N", ""), Atom("H", "4")], "2")) == map["N" := 2, "H" := 8]
  {
    GroupOfTwo("N", "", "H", "4", "2");
    assert CountOf("2") == 2;
    assert CountOf("4") == 4;
  }

  /** SO4 */
  lemma {:induction false} SulfateCounts()
    ensures SumCounts([Atom("S", ""), Atom("O", "4")]) == map["S" := 1, "O" := 4]
  {
    TwoAtoms("S", "", "O", "4");
    assert CountOf("4") == 4;
  }

  lemma {:induction false} AmmoniumSulfateTree()
    ensures SumCounts([Group([Atom("N", ""), Atom("H", "4")], "2"), Atom("S", ""), Atom("O", "4")])
         == map["N" := 2, "H" := 8, "S" := 1, "O" := 4]
  {
    var ammonium := [Atom("N", ""), Atom("H", "4")];
    assert [Group(ammonium, "2"), Atom("S", ""), Atom("O", "4")]
        == [Group(ammonium, "2")] + [Atom("S", ""), Atom("O", "4")];
    GroupCons(ammonium, "2", [Atom("S", ""), Atom("O", "4")]);
    AmmoniumCounts();
    SulfateCounts();
    AddTwoTwo("N", 2, "H", 8, "S", 1, "O", 4);
  }

  lemma {:induction false} AmmoniumSulfate()
    ensures Parse("(NH4)2SO4") == Parsed(map["N" := 2, "H" := 8, "S" := 1, "O" := 4])
  {
    AmmoniumSulfateTokens();
    AmmoniumSulfateFlat();
    AmmoniumSulfateTree();
    ParseTree("(NH4)2SO4", [Group([Atom("N", ""), Atom("H", "4")], "2"), Atom("S", ""), Atom("O", "4")]);
  }

  // ---------------------------------------------------------------------
  // "C(C(H)3)3" -> {C: 4, H: 9}: nested multipliers compound

  lemma {:induction false} NestedGroupsUnroll()
    ensures Spell([Element("C", ""), Open, Element("C", ""), Open, Element("H", ""), Close("3"), Close("3")])
         == Spelling(Element("C", "")) + Spelling(Open) + Spelling(Element("C", "")) + Spelling(Open)
            + Spelling(Element("H", "")) + Spelling(Close("3")) + Spelling(Close("3"))
  {
  }

  lemma {:induction false} NestedGroupsSpelling()
    ensures Spell([Element("C", ""), Open, Element("C", ""), Open, Element("H", ""), Close("3"), Close("3")])
         == "C(C(H)3)3"
  {
    NestedGroupsUnroll();
  }

  lemma {:induction false} NestedGroupsWellFormed()
    ensures var tokens := [Element("C", ""), Open, Element("C", ""), Open, Element("H", ""), Close("3"), Close("3")];
            forall i :: 0 <= i < |tokens| ==> WellFormed(tokens[i])
  {
  }

  lemma {:induction false} NestedGroupsTokens()
    ensures Tokenise("C(C(H)3)3")
         == [Element("C", ""), Open, Element("C", ""), Open, Element("H", ""), Close("3"), Close("3")]
  {
    NestedGroupsSpelling();
    NestedGroupsWellFormed();
    TokeniseSpell([Element("C", ""), Open, Element("C", ""), Open, Element("H", ""), Close("3"), Close("3")]);
  }

  lemma {:induction false} NestedGroupsFlat()
    ensures Flatten([Atom("C", ""), Group([Atom("C", ""), Group([Atom("H", "")], "3")], "3")])
         == [Element("C", ""), Open, Element("C", ""), Open, Element("H", ""), Close("3"), Close("3")]
  {
  }

  /** (H)3 */
  lemma {:induction false} TrihydrideCounts()
    ensures PartCounts(Group([Atom("H", "")], "3")) == map["H" := 3]
  {
    GroupOfOne("H", "", "3");
    assert CountOf("3") == 3;
  }

  /** C(H)3 */
  lemma {:induction false} MethylCounts()
    ensures SumCounts([Atom("C", ""), Group([Atom("H", "")], "3")]) == map["C" := 1, "H" := 3]
  {
    AtomBefore("C", "", Group([Atom("H", "")], "3"));
    TrihydrideCounts();
    Swap2("C", 1, "H", 3);
  }

  /** (C(H)3)3 */
  lemma {:induction false} MethylGroupCounts()
    ensures PartCounts(Group([Atom("C", ""), Group([Atom("H", "")], "3")], "3")) == map["C" := 3, "H" := 9]
  {
    MethylCounts();
    assert CountOf("3") == 3;
    ScaleTwo("C", 1, "H", 3, 3);
  }

  lemma {:induction false} NestedGroupsTree()
    ensures SumCounts([Atom("C", ""), Group([Atom("C", ""), Group([Atom("H", "")], "3")], "3")])
         == map["C" := 4, "H" := 9]
  {
    AtomBefore("C", "", Group([Atom("C", ""), Group([Atom("H", "")], "3")], "3"));
    MethylGroupCounts();
    Overwrite("C", 3, "H", 9, 4);
  }

  lemma {:induction false} NestedGroups()
    ensures Parse("C(C(H)3)3") == Parsed(map["C" := 4, "H" := 9])
  {
    NestedGroupsTokens();
    NestedGroupsFlat();
    NestedGroupsTree();
    ParseTree("C(C(H)3)3", [Atom("C", ""), Group([Atom("C", ""), Group([Atom("H", "")], "3")], "3")]);
  }

  // ---------------------------------------------------------------------
  // "C2H5OH" -> {C: 2, H: 6, O: 1}: a missing count is 1, repeats add up

  lemma {:induction false} EthanolSpelling()
    ensures Spell([Element("C", "2"), Element("H", "5"), Element("O", ""), Element("H", "")]) == "C2H5OH"
  {
  }

  lemma {:induction false} EthanolWellFormed()
    ensures var tokens := [Element("C", "2"), Element("H", "5"), Element("O", ""), Element("H", "")];
            forall i :: 0 <= i < |tokens| ==> WellFormed(tokens[i])
  {
  }

  lemma {:induction false} EthanolTokens()
    ensures Tokenise("C2H5OH")
         == [Element("C", "2"), Element("H", "5"), Element("O", ""), Element("H", "")]
  {
    EthanolSpelling();
    EthanolWellFormed();
    TokeniseSpell([Element("C", "2"), Element("H", "5"), Element("O", ""), Element("H", "")]);
  }

  lemma {:induction false} EthanolFlat()
    ensures Flatten([Atom("C", "2"), Atom("H", "5"), Atom("O", ""), Atom("H", "")])
         == [Element("C", "2"), Element("H", "5"), Element("O", ""), Element("H", "")]
  {
    var parts := [Atom("C", "2"), Atom("H", "5"), Atom("O", ""), Atom("H", "")];
    FlattenCons(Atom("H", ""), []);
    FlattenCons(Atom("O", ""), parts[3..]);
    FlattenCons(Atom("H", "5"), parts[2..]);
    FlattenCons(Atom("C", "2"), parts[1..]);
  }

  /** OH */
  lemma {:induction false} HydroxylCounts()
    ensures SumCounts([Atom("O", ""), Atom("H", "")]) == map["O" := 1, "H" := 1]
  {
    TwoAtoms("O", "", "H", "");
  }

  lemma {:induction false} HydroxylTailSum()
    ensures SumCounts([Atom("H", "5"), Atom("O", ""), Atom("H", "")]) == map["O" := 1, "H" := 1]["H" := 6]
  {
    assert [Atom("H", "5"), Atom("O", ""), Atom("H", "")]
        == [Atom("H", "5")] + [Atom("O", ""), Atom("H", "")];
    AtomCons("H", "5", [Atom("O", ""), Atom("H", "")]);
    HydroxylCounts();
    assert CountOf("5") == 5;
  }

  /** H5 O H: the second hydrogen adds to the first instead of replacing it. */
  lemma {:induction false} HydroxylTail()
    ensures SumCounts([Atom("H", "5"), Atom("O", ""), Atom("H", "")]) == map["H" := 6, "O" := 1]
  {
    HydroxylTailSum();
    OverwriteLast("O", 1, "H", 1, 6);
    Swap2("H", 6, "O", 1);
  }

  lemma {:induction false} EthanolTree()
    ensures SumCounts([Atom("C", "2"), Atom("H", "5"), Atom("O", ""), Atom("H", "")])
         == map["C" := 2, "H" := 6, "O" := 1]
  {
    var tail := [Atom("H", "5"), Atom("O", ""), Atom("H", "")];
    assert [Atom("C", "2"), Atom("H", "5"), Atom("O", ""), Atom("H", "")] == [Atom("C", "2")] + tail;
    AtomCons("C", "2", tail);
    HydroxylTail();
    assert CountOf("2") == 2;
    Swap3("C", 2, "H", 6, "O", 1);
  }

  lemma {:induction false} Ethanol()
    ensures Parse("C2H5OH") == Parsed(map["C" := 2, "H" := 6, "O" := 1])
  {
    EthanolTokens();
    EthanolFlat();
    EthanolTree();
    ParseTree("C2H5OH", [Atom("C", "2"), Atom("H", "5"), Atom("O", ""), Atom("H", "")]);
  }

  // ---------------------------------------------------------------------
  // Malformed formulas, as the code treats them

  lemma {:induction false} StrayCloseTokens()
    ensures Tokenise(")(H") == [Close(""), Open, Element("H", "")]
  {
    assert Spell([Close(""), Open, Element("H", "")]) == ")(H";
    assert WellFormed(Element("H", ""));
    ConsWellFormed(Open, [Element("H", "")]);
    ConsWellFormed(Close(""), [Open, Element("H", "")]);
    TokeniseSpell([Close(""), Open, Element("H", "")]);
  }

  /** `")(H"`: the stray `)` pops the empty bottom map, `(` pushes a new
      one, and the H is counted. */
  lemma {:induction false} StrayClose()
    ensures Parse(")(H") == Parsed(map["H" := 1])
  {
    StrayCloseTokens();
    assert Flatten([Atom("H", "")]) == [Element("H", "")];
    assert [Close(""), Open, Element("H", "")] == [Close(""), Open] + Flatten([Atom("H", "")]);
    SumSingle(Atom("H", ""));
    LeadingCloseReopened(")(H", "", [Atom("H", "")]);
  }

  lemma {:induction false} UnclosedTokens()
    ensures Tokenise("Ca(OH") == [Element("Ca", ""), Open, Element("O", ""), Element("H", "")]
  {
    var tokens := [Element("Ca", ""), Open, Element("O", ""), Element("H", "")];
    assert Spell(tokens) == "Ca(OH";
    assert WellFormed(tokens[0]) && WellFormed(tokens[2]) && WellFormed(tokens[3]);
    TokeniseSpell(tokens);
  }

  lemma {:induction false} UnclosedFlat()
    ensures Flatten([Atom("Ca", "")]) + [Open] + Flatten([Atom("O", ""), Atom("H", "")])
         == [Element("Ca", ""), Open, Element("O", ""), Element("H", "")]
  {
    FlattenCons(Atom("Ca", ""), []);
    FlattenCons(Atom("H", ""), []);
    assert [Atom("O", ""), Atom("H", "")] == [Atom("O", "")] + [Atom("H", "")];
    FlattenCons(Atom("O", ""), [Atom("H", "")]);
  }

  /** `"Ca(OH"`: the open group is never merged, so its atoms are lost. */
  lemma {:induction false} Unclosed()
    ensures Parse("Ca(OH") == Parsed(map["Ca" := 1])
  {
    UnclosedTokens();
    UnclosedFlat();
    SumSingle(Atom("Ca", ""));
    UnclosedGroupDropped("Ca(OH", [Atom("Ca", "")], [Atom("O", ""), Atom("H", "")]);
  }

  lemma {:induction false} UnmatchedCloseTokens()
    ensures Tokenise("H)") == [Element("H", ""), Close("")]
  {
    var tokens := [Element("H", ""), Close("")];
    assert Spell(tokens) == "H)";
    assert WellFormed(tokens[0]) && WellFormed(tokens[1]);
    TokeniseSpell(tokens);
  }

  /** `"H)"`: the `)` pops the only map, which holds the H, and there is no
      map left to merge it into. */
  lemma {:induction false} UnmatchedClose()
    ensures Parse("H)") == StackIndexError
  {
    UnmatchedCloseTokens();
    FlattenCons(Atom("H", ""), []);
    SumSingle(Atom("H", ""));
    assert "H" in SumCounts([Atom("H", "")]);
    assert [Element("H", ""), Close("")] == Flatten([Atom("H", "")]) + [Close("")] + [];
    UnmatchedCloseRaises("H)", [Atom("H", "")], "", []);
  }

  /** The water of a hydrate written with a middle dot, as in `CuSO4·5H2O`:
      the dot and the 5 start no match, so `·5H2O` tokenises as `H2O` and
      the water is counted once. */
  lemma {:induction false} HydrateCountLost()
    ensures Tokenise("·5H2O") == Tokenise("H2O")
  {
    assert "·5" + "H2O" == "·5H2O";
    SkippedCharacters("·5", "H2O");
  }
}
