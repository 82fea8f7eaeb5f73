/** Model of `parse_formula` in ancp_sim/stoichiometry.py.

    A chemical formula string is cut into tokens by a regular expression
    (`([A-Z][a-z]*)(\d*)|(\()|(\))(\d*)`, searched left to right, characters
    that start no match skipped), and a stack of partial element-count maps
    then does the counting: an element adds its count to the top map, `(`
    pushes an empty map, `)` pops the top map and adds it, multiplied, into
    the map below. The result is the bottom map of the stack.

    The two layers are modelled separately: `Tokenise` is the tokeniser as a
    pure function, `ParseFormula` the stack loop as a method proved equal to
    the stack machine `Run`, whose meaning is given by the lemmas below. */
module Formula {

  /** Element symbol to atom count (Python `dict` of `str` to `int`). */
  type Counts = map<string, nat>

  datatype Option<T> = None | Some(value: T)

  /** What `parse_formula` returns, or the `IndexError` it raises when the
      stack is used while empty (an unmatched `)`). */
  datatype ParseResult = Parsed(counts: Counts) | StackIndexError

  // ---------------------------------------------------------------------
  // Tokeniser

  predicate IsUpper(c: char) { 'A' <= c <= 'Z' }
  predicate IsLower(c: char) { 'a' <= c <= 'z' }
  predicate IsDigit(c: char) { '0' <= c <= '9' }

  predicate AllDigits(s: string) { forall i :: 0 <= i < |s| ==> IsDigit(s[i]) }

  /** One match of the regex: the alternative that matched and its groups. */
  datatype Token =
    | Element(symbol: string, digits: string)  // ([A-Z][a-z]*)(\d*)
    | Open                                     // (\()
    | Close(digits: string)                    // (\))(\d*)

  /** The shape every match of the regex has. */
  predicate WellFormed(t: Token) {
    match t
    case Element(symbol, digits) =>
      && |symbol| >= 1
      && IsUpper(symbol[0])
      && (forall i :: 1 <= i < |symbol| ==> IsLower(symbol[i]))
      && AllDigits(digits)
    case Open => true
    case Close(digits) => AllDigits(digits)
  }

  /** Length of the greedy match of `[a-z]*` at the start of `s`. */
  function LowerRun(s: string): (n: nat)
    ensures n <= |s|
  {
    if s == [] || !IsLower(s[0]) then 0 else 1 + LowerRun(s[1..])
  }

  /** Length of the greedy match of `\d*` at the start of `s`. */
  function DigitRun(s: string): (n: nat)
    ensures n <= |s|
  {
    if s == [] || !IsDigit(s[0]) then 0 else 1 + DigitRun(s[1..])
  }

  /** `re.findall` with the formula regex, left to right; characters at
      which no match starts are skipped. */
  function Tokenise(s: string): seq<Token>
    decreases |s|
  {
    if s == [] then []
    else if IsUpper(s[0]) then
      var n := 1 + LowerRun(s[1..]);
      var d := DigitRun(s[n..]);
      [Element(s[..n], s[n..n + d])] + Tokenise(s[n + d..])
    else if s[0] == '(' then
      [Open] + Tokenise(s[1..])
    else if s[0] == ')' then
      var d := DigitRun(s[1..]);
      [Close(s[1..1 + d])] + Tokenise(s[1 + d..])
    else
      Tokenise(s[1..])
  }

  /** The greedy `[a-z]*` run is all lower case and stops at the first
      character that is not. */
  lemma {:induction false} LowerRunMaximal(s: string)
    ensures forall i :: 0 <= i < LowerRun(s) ==> IsLower(s[i])
    ensures LowerRun(s) < |s| ==> !IsLower(s[LowerRun(s)])
    decreases |s|
  {
    if s != [] && IsLower(s[0]) {
      LowerRunMaximal(s[1..]);
      assert forall i :: 1 <= i < LowerRun(s) ==> s[i] == s[1..][i - 1];
    }
  }

  /** The greedy `\d*` run is all digits and stops at the first character
      that is not one. */
  lemma {:induction false} DigitRunMaximal(s: string)
    ensures forall i :: 0 <= i < DigitRun(s) ==> IsDigit(s[i])
    ensures DigitRun(s) < |s| ==> !IsDigit(s[DigitRun(s)])
    decreases |s|
  {
    if s != [] && IsDigit(s[0]) {
      DigitRunMaximal(s[1..]);
      assert forall i :: 1 <= i < DigitRun(s) ==> s[i] == s[1..][i - 1];
    }
  }

  /** The element token matched at an upper-case letter has the shape of
      `([A-Z][a-z]*)(\d*)`. */
  lemma {:induction false} ElementMatchWellFormed(s: string)
    requires s != [] && IsUpper(s[0])
    ensures var n := 1 + LowerRun(s[1..]);
            var d := DigitRun(s[n..]);
            WellFormed(Element(s[..n], s[n..n + d]))
  {
    var n := 1 + LowerRun(s[1..]);
    var d := DigitRun(s[n..]);
    var symbol := s[..n];
    var digits := s[n..n + d];
    LowerRunMaximal(s[1..]);
    DigitRunMaximal(s[n..]);
    assert symbol[0] == s[0];
    forall i | 1 <= i < |symbol|
      ensures IsLower(symbol[i])
    {
      assert symbol[i] == s[1..][i - 1];
    }
    forall i | 0 <= i < |digits|
      ensures IsDigit(digits[i])
    {
      assert digits[i] == s[n..][i];
    }
  }

  /** The close token matched at `)` has the shape of `(\))(\d*)`. */
  lemma {:induction false} CloseMatchWellFormed(s: string)
    requires s != []
    ensures var d := DigitRun(s[1..]);
            WellFormed(Close(s[1..1 + d]))
  {
    var d := DigitRun(s[1..]);
    DigitRunMaximal(s[1..]);
    assert forall i :: 0 <= i < d ==> s[1..1 + d][i] == s[1..][i];
  }

  lemma {:induction false} ConsWellFormed(t: Token, rest: seq<Token>)
    requires WellFormed(t)
    requires forall i :: 0 <= i < |rest| ==> WellFormed(rest[i])
    ensures forall i :: 0 <= i < |[t] + rest| ==> WellFormed(([t] + rest)[i])
  {
    forall i | 0 <= i < |[t] + rest|
      ensures WellFormed(([t] + rest)[i])
    {
      if i > 0 {
        assert ([t] + rest)[i] == rest[i - 1];
      }
    }
  }

  /** Every token `Tokenise` yields has the shape of a match of the regex. */
  lemma {:induction false} TokeniseWellFormed(s: string)
    ensures forall i :: 0 <= i < |Tokenise(s)| ==> WellFormed(Tokenise(s)[i])
    decreases |s|
  {
    if s == [] {
    } else if IsUpper(s[0]) {
      var n := 1 + LowerRun(s[1..]);
      var d := DigitRun(s[n..]);
      TokeniseWellFormed(s[n + d..]);
      ElementMatchWellFormed(s);
      ConsWellFormed(Element(s[..n], s[n..n + d]), Tokenise(s[n + d..]));
    } else if s[0] == '(' {
      TokeniseWellFormed(s[1..]);
      ConsWellFormed(Open, Tokenise(s[1..]));
    } else if s[0] == ')' {
      var d := DigitRun(s[1..]);
      TokeniseWellFormed(s[1 + d..]);
      CloseMatchWellFormed(s);
      ConsWellFormed(Close(s[1..1 + d]), Tokenise(s[1 + d..]));
    } else {
      TokeniseWellFormed(s[1..]);
    }
  }

  /** The text a token was matched from. */
  function Spelling(t: Token): string {
    match t
    case Element(symbol, digits) => symbol + digits
    case Open => "("
    case Close(digits) => ")" + digits
  }

  function Spell(tokens: seq<Token>): string {
    if tokens == [] then [] else Spelling(tokens[0]) + Spell(tokens[1..])
  }

  lemma {:induction false} LowerRunExact(a: string, b: string)
    requires forall i :: 0 <= i < |a| ==> IsLower(a[i])
    requires b == [] || !IsLower(b[0])
    ensures LowerRun(a + b) == |a|
    decreases |a|
  {
    if a == [] {
      assert a + b == b;
    } else {
      LowerRunExact(a[1..], b);
      assert (a + b)[0] == a[0];
      assert (a + b)[1..] == a[1..] + b;
    }
  }

  lemma {:induction false} DigitRunExact(a: string, b: string)
    requires AllDigits(a)
    requires b == [] || !IsDigit(b[0])
    ensures DigitRun(a + b) == |a|
    decreases |a|
  {
    if a == [] {
      assert a + b == b;
    } else {
      DigitRunExact(a[1..], b);
      assert (a + b)[0] == a[0];
      assert (a + b)[1..] == a[1..] + b;
    }
  }

  /** The text of a token sequence never starts with a lower-case letter or
      a digit, so it cannot extend a preceding symbol or count. */
  lemma {:induction false} SpellStart(tokens: seq<Token>)
    requires forall i :: 0 <= i < |tokens| ==> WellFormed(tokens[i])
    ensures Spell(tokens) == [] || (!IsLower(Spell(tokens)[0]) && !IsDigit(Spell(tokens)[0]))
  {
    if tokens != [] {
      assert WellFormed(tokens[0]);
      assert Spell(tokens)[0] == Spelling(tokens[0])[0];
    }
  }

  /** Where the two greedy runs end inside the text of an element token
      followed by text that cannot extend it. */
  lemma {:induction false} ElementRuns(symbol: string, digits: string, rest: string)
    requires WellFormed(Element(symbol, digits))
    requires rest == [] || (!IsLower(rest[0]) && !IsDigit(rest[0]))
    ensures var s := symbol + digits + rest;
            && IsUpper(s[0])
            && 1 + LowerRun(s[1..]) == |symbol|
            && DigitRun(s[|symbol|..]) == |digits|
            && s[..|symbol|] == symbol
            && s[|symbol|..|symbol| + |digits|] == digits
            && s[|symbol| + |digits|..] == rest
  {
    var s := symbol + digits + rest;
    var n := |symbol|;
    var tail := symbol[1..];
    assert forall i :: 0 <= i < |tail| ==> tail[i] == symbol[i + 1];
    assert digits != [] ==> (digits + rest)[0] == digits[0];
    assert digits == [] ==> digits + rest == rest;
    assert s[0] == symbol[0];
    assert s[1..] == tail + (digits + rest);
    LowerRunExact(tail, digits + rest);
    assert s[..n] == symbol;
    assert s[n..] == digits + rest;
    DigitRunExact(digits, rest);
    assert s[n..][..|digits|] == digits;
    assert s[n..n + |digits|] == digits;
    assert s[n + |digits|..] == rest;
  }

  /** One unfolding of `Tokenise` at an upper-case letter. */
  lemma {:induction false} TokeniseUpper(s: string)
    requires s != [] && IsUpper(s[0])
    ensures var n := 1 + LowerRun(s[1..]);
            var d := DigitRun(s[n..]);
            Tokenise(s) == [Element(s[..n], s[n..n + d])] + Tokenise(s[n + d..])
  {
  }

  lemma {:induction false} TokeniseElement(symbol: string, digits: string, rest: string)
    requires WellFormed(Element(symbol, digits))
    requires rest == [] || (!IsLower(rest[0]) && !IsDigit(rest[0]))
    ensures Tokenise(symbol + digits + rest) == [Element(symbol, digits)] + Tokenise(rest)
  {
    ElementRuns(symbol, digits, rest);
    TokeniseUpper(symbol + digits + rest);
  }

  lemma {:induction false} TokeniseClose(digits: string, rest: string)
    requires AllDigits(digits)
    requires rest == [] || (!IsLower(rest[0]) && !IsDigit(rest[0]))
    ensures Tokenise(")" + digits + rest) == [Close(digits)] + Tokenise(rest)
  {
    var s := ")" + digits + rest;
    assert s[0] == ')';
    assert s[1..] == digits + rest;
    DigitRunExact(digits, rest);
    assert s[1..1 + |digits|] == digits;
    assert s[1 + |digits|..] == rest;
  }

  /** Round trip: tokenising the text of well-formed tokens gives back
      exactly those tokens (maximal munch never merges two of them). */
  lemma {:induction false} TokeniseSpell(tokens: seq<Token>)
    requires forall i :: 0 <= i < |tokens| ==> WellFormed(tokens[i])
    ensures Tokenise(Spell(tokens)) == tokens
  {
    if tokens != [] {
      var rest := Spell(tokens[1..]);
      TokeniseSpell(tokens[1..]);
      SpellStart(tokens[1..]);
      assert WellFormed(tokens[0]);
      match tokens[0]
      case Element(symbol, digits) =>
        TokeniseElement(symbol, digits, rest);
      case Open =>
        var s := "(" + rest;
        assert s[0] == '(' && s[1..] == rest;
      case Close(digits) =>
        TokeniseClose(digits, rest);
    }
  }

  /** Characters that start no match (anything but an upper-case letter or
      a bracket, at a position where no match is under way) are skipped:
      a run of them in front of any text contributes no token, so a digit
      there is lost (`"5H2O"` tokenises as `"H2O"`). */
  lemma {:induction false} SkippedCharacters(s: string, rest: string)
    requires forall i :: 0 <= i < |s| ==> !IsUpper(s[i]) && s[i] != '(' && s[i] != ')'
    ensures Tokenise(s + rest) == Tokenise(rest)
  {
    if s == [] {
      assert s + rest == rest;
    } else {
      var t := s + rest;
      assert t[0] == s[0] && !IsUpper(t[0]) && t[0] != '(' && t[0] != ')';
      assert Tokenise(t) == Tokenise(t[1..]);
      assert t[1..] == s[1..] + rest;
      SkippedCharacters(s[1..], rest);
    }
  }

  // ---------------------------------------------------------------------
  // Counts arithmetic

  /** `d.get(e, 0)` */
  function Get(m: Counts, e: string): nat {
    if e in m then m[e] else 0
  }

  /** Additive merge of two count maps; a key of either is a key of the result. */
  function Add(a: Counts, b: Counts): (r: Counts)
    ensures r.Keys == a.Keys + b.Keys
  {
    map e | e in a.Keys + b.Keys :: Get(a, e) + Get(b, e)
  }

  /** Every count multiplied by `k`; the keys stay, even when `k` is 0. */
  function Scale(a: Counts, k: nat): (r: Counts)
    ensures r.Keys == a.Keys
  {
    map e | e in a :: a[e] * k
  }

  lemma {:induction false} AddAssociative(a: Counts, b: Counts, c: Counts)
    ensures Add(Add(a, b), c) == Add(a, Add(b, c))
  {
    assert Add(Add(a, b), c).Keys == Add(a, Add(b, c)).Keys;
  }

  lemma {:induction false} AddEmpty(a: Counts)
    ensures Add(map[], a) == a && Add(a, map[]) == a
  {
    assert Add(map[], a).Keys == a.Keys;
    assert Add(a, map[]).Keys == a.Keys;
  }

  function DigitValue(c: char): nat {
    if IsDigit(c) then (c as int - '0' as int) else 0
  }

  /** `int(digits)` for a non-empty string of decimal digits. */
  function DigitsValue(digits: string): nat {
    if digits == [] then 0
    else DigitsValue(digits[..|digits| - 1]) * 10 + DigitValue(digits[|digits| - 1])
  }

  /** `int(num) if num else 1`: a missing count or multiplier means 1. */
  function CountOf(digits: string): nat {
    if digits == [] then 1 else DigitsValue(digits)
  }

  // ---------------------------------------------------------------------
  // The stack machine

  /** `)` with multiplier `k`: pop the top map, then add each of its counts,
      multiplied, into the map now on top. Python's `stack.pop()` fails on an
      empty stack, and `stack[-1]` fails when the popped map has an entry and
      nothing is left below it. */
  function CloseStep(stack: seq<Counts>, k: nat): Option<seq<Counts>> {
    if stack == [] then None
    else
      var top := stack[|stack| - 1];
      var below := stack[..|stack| - 1];
      if below == [] then (if top == map[] then Some([]) else None)
      else Some(below[..|below| - 1] + [Add(below[|below| - 1], Scale(top, k))])
  }

  /** One loop iteration of `parse_formula`; `None` is an `IndexError`. */
  function Step(stack: seq<Counts>, t: Token): Option<seq<Counts>> {
    match t
    case Element(symbol, digits) =>
      if stack == [] then None
      else
        var top := stack[|stack| - 1];
        Some(stack[..|stack| - 1] + [top[symbol := Get(top, symbol) + CountOf(digits)]])
    case Open => Some(stack + [map[]])
    case Close(digits) => CloseStep(stack, CountOf(digits))
  }

  /** The stack after running all of `tokens` from `stack`. */
  function Run(stack: seq<Counts>, tokens: seq<Token>): Option<seq<Counts>>
    decreases |tokens|
  {
    if tokens == [] then Some(stack)
    else
      match Step(stack, tokens[0])
      case None => None
      case Some(next) => Run(next, tokens[1..])
  }

  /** `return stack[0]` after the loop, starting from `[{}]`. */
  function Evaluate(tokens: seq<Token>): ParseResult {
    match Run([map[]], tokens)
    case None => StackIndexError
    case Some(stack) => if stack == [] then StackIndexError else Parsed(stack[0])
  }

  /** `parse_formula(formula)` */
  function Parse(formula: string): ParseResult {
    Evaluate(Tokenise(formula))
  }

  /** One loop iteration that succeeds leaves the rest of the run to go. */
  lemma {:induction false} RunAdvance(stack: seq<Counts>, tokens: seq<Token>, i: nat, next: seq<Counts>)
    requires i < |tokens| && Step(stack, tokens[i]) == Some(next)
    ensures Run(stack, tokens[i..]) == Run(next, tokens[i + 1..])
  {
    assert tokens[i..][0] == tokens[i];
    assert tokens[i..][1..] == tokens[i + 1..];
  }

  /** One loop iteration that raises ends the whole run. */
  lemma {:induction false} RunFails(stack: seq<Counts>, tokens: seq<Token>, i: nat)
    requires i < |tokens| && Step(stack, tokens[i]) == None
    ensures Run(stack, tokens[i..]) == None
  {
    assert tokens[i..][0] == tokens[i];
  }

  /** The stack loop of `parse_formula` over the tokens of `formula`. */
  method ParseFormula(formula: string) returns (r: ParseResult)
    ensures r == Parse(formula)
    ensures WellBracketed(Tokenise(formula)) ==>
              r.Parsed? && r.counts.Keys == Symbols(Tokenise(formula))
  {
    var tokens := Tokenise(formula);
    if WellBracketed(tokens) {
      WellBracketedParse(tokens);
    }
    var stack: seq<Counts> := [map[]];
    var i := 0;
    while i < |tokens|
      invariant i <= |tokens|
      invariant Run(stack, tokens[i..]) == Run([map[]], tokens)
    {
      match tokens[i] {
        case Element(symbol, digits) =>
          if stack == [] {
            RunFails(stack, tokens, i);
            r := StackIndexError;
            return;
          }
          var count := CountOf(digits);
          var top := stack[|stack| - 1];
          var next := stack[..|stack| - 1] + [top[symbol := Get(top, symbol) + count]];
          RunAdvance(stack, tokens, i, next);
          stack := next;
        case Open =>
          RunAdvance(stack, tokens, i, stack + [map[]]);
          stack := stack + [map[]];
        case Close(digits) =>
          var multiplier := CountOf(digits);
          var next := CloseGroup(stack, multiplier);
          if next.None? {
            RunFails(stack, tokens, i);
            r := StackIndexError;
            return;
          }
          RunAdvance(stack, tokens, i, next.value);
          stack := next.value;
      }
      i := i + 1;
    }
    assert tokens[i..] == [];
    if stack == [] {
      r := StackIndexError;
    } else {
      r := Parsed(stack[0]);
    }
  }

  /** The partly merged enclosing map while the popped group's entries are
      added in: only the keys in `done` have been added so far. */
  ghost function PartialMerge(below: Counts, top: Counts, done: set<string>, k: nat): Counts
    requires done <= top.Keys
  {
    map e | e in below.Keys + done :: Get(below, e) + (if e in done then top[e] * k else 0)
  }

  /** The `)` branch of the loop: pop, then the inner loop over the popped
      map's entries. */
  method CloseGroup(stack: seq<Counts>, multiplier: nat) returns (next: Option<seq<Counts>>)
    ensures next == CloseStep(stack, multiplier)
  {
    if stack == [] {
      return None;
    }
    var top := stack[|stack| - 1];
    var below := stack[..|stack| - 1];
    ghost var base := below;
    var pending := top.Keys;
    assert top.Keys - pending == {};
    if base != [] {
      assert PartialMerge(base[|base| - 1], top, {}, multiplier) == base[|base| - 1] by {
        assert PartialMerge(base[|base| - 1], top, {}, multiplier).Keys == base[|base| - 1].Keys;
      }
      assert below == base[..|base| - 1] + [base[|base| - 1]];
    }
    while pending != {}
      invariant pending <= top.Keys
      invariant |below| == |base|
      invariant base == [] ==> below == [] && pending == top.Keys
      invariant base != [] ==>
                  below == base[..|base| - 1] + [PartialMerge(base[|base| - 1], top, top.Keys - pending, multiplier)]
      decreases pending
    {
      var e :| e in pending;
      if below == [] {
        assert e in top.Keys;
        assert top != map[];
        return None;
      }
      var enclosing := below[|below| - 1];
      ghost var done := top.Keys - pending;
      assert enclosing[e := Get(enclosing, e) + top[e] * multiplier]
          == PartialMerge(base[|base| - 1], top, done + {e}, multiplier);
      below := below[..|below| - 1] + [enclosing[e := Get(enclosing, e) + top[e] * multiplier]];
      pending := pending - {e};
      assert top.Keys - pending == done + {e};
    }
    assert top.Keys - pending == top.Keys;
    if base == [] {
      assert top.Keys == {};
      assert top == map[];
      assert CloseStep(stack, multiplier) == Some([]);
    } else {
      assert PartialMerge(base[|base| - 1], top, top.Keys, multiplier)
          == Add(base[|base| - 1], Scale(top, multiplier));
      assert CloseStep(stack, multiplier) == Some(below);
    }
    next := Some(below);
  }

  // ---------------------------------------------------------------------
  // Stack discipline on well-bracketed token sequences

  function Delta(t: Token): int {
    match t
    case Element(_, _) => 0
    case Open => 1
    case Close(_) => -1
  }

  /** Number of `(` minus number of `)`. */
  function Depth(tokens: seq<Token>): int {
    if tokens == [] then 0 else Delta(tokens[0]) + Depth(tokens[1..])
  }

  /** No prefix closes more groups than it opened, and every group is closed. */
  predicate WellBracketed(tokens: seq<Token>) {
    && (forall k :: 0 <= k <= |tokens| ==> Depth(tokens[..k]) >= 0)
    && Depth(tokens) == 0
  }

  /** The element symbols named by the tokens. */
  function Symbols(tokens: seq<Token>): set<string> {
    if tokens == [] then {}
    else (if tokens[0].Element? then {tokens[0].symbol} else {}) + Symbols(tokens[1..])
  }

  /** Every key of every map on the stack. */
  function StackKeys(stack: seq<Counts>): set<string> {
    if stack == [] then {} else StackKeys(stack[..|stack| - 1]) + stack[|stack| - 1].Keys
  }

  lemma {:induction false} StackKeysPush(stack: seq<Counts>, m: Counts)
    ensures StackKeys(stack + [m]) == StackKeys(stack) + m.Keys
  {
    assert (stack + [m])[..|stack|] == stack;
  }

  lemma {:induction false} DepthAppend(a: seq<Token>, b: seq<Token>)
    ensures Depth(a + b) == Depth(a) + Depth(b)
  {
    if a == [] {
      assert a + b == b;
    } else {
      assert (a + b)[0] == a[0];
      assert (a + b)[1..] == a[1..] + b;
      DepthAppend(a[1..], b);
    }
  }

  lemma {:induction false} ElementStepKeys(stack: seq<Counts>, symbol: string, digits: string)
    requires stack != []
    ensures var n := |stack|;
            var top := stack[n - 1];
            StackKeys(stack[..n - 1] + [top[symbol := Get(top, symbol) + CountOf(digits)]])
            == StackKeys(stack) + {symbol}
  {
    var n := |stack|;
    var top := stack[n - 1];
    assert stack == stack[..n - 1] + [top];
    StackKeysPush(stack[..n - 1], top);
    StackKeysPush(stack[..n - 1], top[symbol := Get(top, symbol) + CountOf(digits)]);
  }

  /** Merging the top two maps of a stack into one with both key sets
      keeps the stack's keys. */
  lemma {:induction false} MergeKeys(rest: seq<Counts>, below: Counts, top: Counts, merged: Counts)
    requires merged.Keys == below.Keys + top.Keys
    ensures StackKeys(rest + [merged]) == StackKeys(rest + [below] + [top])
  {
    StackKeysPush(rest, merged);
    StackKeysPush(rest, below);
    StackKeysPush(rest + [below], top);
  }

  /** One step keeps the stack non-empty when the depth allows it, changes
      its height by the token's depth, and moves keys without losing any. */
  lemma {:induction false} StepBalanced(stack: seq<Counts>, t: Token)
    requires stack != []
    requires |stack| + Delta(t) >= 1
    ensures Step(stack, t).Some?
    ensures |Step(stack, t).value| == |stack| + Delta(t)
    ensures StackKeys(Step(stack, t).value)
            == StackKeys(stack) + (if t.Element? then {t.symbol} else {})
  {
    match t
    case Element(symbol, digits) =>
      ElementStepKeys(stack, symbol, digits);
    case Open =>
      StackKeysPush(stack, map[]);
    case Close(digits) =>
      var n := |stack|;
      assert stack == stack[..n - 2] + [stack[n - 2]] + [stack[n - 1]];
      assert stack[..n - 1][..n - 2] == stack[..n - 2];
      MergeKeys(stack[..n - 2], stack[n - 2], stack[n - 1], Add(stack[n - 2], Scale(stack[n - 1], CountOf(digits))));
  }

  /** Running tokens whose every prefix leaves at least one map on the stack
      never fails, changes the height by their depth, and adds exactly their
      symbols to the stack's keys. */
  lemma {:induction false} RunBalanced(stack: seq<Counts>, tokens: seq<Token>)
    requires stack != []
    requires forall k :: 0 <= k <= |tokens| ==> |stack| + Depth(tokens[..k]) >= 1
    ensures Run(stack, tokens).Some?
    ensures |Run(stack, tokens).value| == |stack| + Depth(tokens)
    ensures StackKeys(Run(stack, tokens).value) == StackKeys(stack) + Symbols(tokens)
    decreases |tokens|
  {
    if tokens != [] {
      var t := tokens[0];
      assert tokens[..1] == [t];
      assert Depth([t]) == Delta(t) + Depth([t][1..]);
      StepBalanced(stack, t);
      var next := Step(stack, t).value;
      forall k | 0 <= k <= |tokens[1..]|
        ensures |next| + Depth(tokens[1..][..k]) >= 1
      {
        assert tokens[..k + 1] == [t] + tokens[1..][..k];
        assert tokens[..k + 1][1..] == tokens[1..][..k];
      }
      RunBalanced(next, tokens[1..]);
    }
  }

  /** On a well-bracketed token sequence exactly one map remains, and its
      keys are exactly the element symbols in the tokens. */
  lemma {:induction false} WellBracketedParse(tokens: seq<Token>)
    requires WellBracketed(tokens)
    ensures Evaluate(tokens).Parsed?
    ensures Evaluate(tokens).counts.Keys == Symbols(tokens)
    ensures Run([map[]], tokens).Some? && |Run([map[]], tokens).value| == 1
  {
    RunBalanced([map[]], tokens);
    var stack := Run([map[]], tokens).value;
    assert stack == [] + [stack[0]];
    StackKeysPush([], stack[0]);
    StackKeysPush([], map[]);
  }

  /** On a well-bracketed token sequence the stack is never empty when an
      element is counted, and holds at least two maps when a `)` pops. */
  lemma {:induction false} WellBracketedNeverEmpty(tokens: seq<Token>, k: nat)
    requires WellBracketed(tokens)
    requires k < |tokens|
    ensures Run([map[]], tokens[..k]).Some?
    ensures |Run([map[]], tokens[..k]).value| >= (if tokens[k].Close? then 2 else 1)
  {
    forall j | 0 <= j <= |tokens[..k]|
      ensures 1 + Depth(tokens[..k][..j]) >= 1
    {
      assert tokens[..k][..j] == tokens[..j];
    }
    RunBalanced([map[]], tokens[..k]);
    assert tokens[..k + 1] == tokens[..k] + [tokens[k]];
    DepthAppend(tokens[..k], [tokens[k]]);
  }

  // ---------------------------------------------------------------------
  // Meaning of a formula: its bracket structure

  /** A formula as a tree: an element with its count, or a bracketed group
      of parts with its multiplier. */
  datatype Part = Atom(symbol: string, digits: string) | Group(parts: seq<Part>, digits: string)

  /** The tokens a formula tree is written as. */
  function FlattenPart(p: Part): seq<Token>
    decreases p, 1
  {
    match p
    case Atom(symbol, digits) => [Element(symbol, digits)]
    case Group(parts, digits) => [Open] + Flatten(parts) + [Close(digits)]
  }

  function Flatten(parts: seq<Part>): seq<Token>
    decreases parts, 0
  {
    if parts == [] then [] else FlattenPart(parts[0]) + Flatten(parts[1..])
  }

  /** The atom counts a formula tree stands for: atoms add up, a group's
      total is multiplied by its multiplier. */
  function PartCounts(p: Part): Counts
    decreases p, 1
  {
    match p
    case Atom(symbol, digits) => map[symbol := CountOf(digits)]
    case Group(parts, digits) => Scale(SumCounts(parts), CountOf(digits))
  }

  function SumCounts(parts: seq<Part>): Counts
    decreases parts, 0
  {
    if parts == [] then map[] else Add(PartCounts(parts[0]), SumCounts(parts[1..]))
  }

  lemma {:induction false} RunFlattenPart(stack: seq<Counts>, m: Counts, p: Part, rest: seq<Token>)
    ensures Run(stack + [m], FlattenPart(p) + rest) == Run(stack + [Add(m, PartCounts(p))], rest)
    decreases p, 1
  {
    match p
    case Atom(symbol, digits) =>
      var tokens := FlattenPart(p) + rest;
      assert tokens[0] == Element(symbol, digits);
      assert tokens[1..] == rest;
      assert (stack + [m])[..|stack|] == stack;
      var added := m[symbol := Get(m, symbol) + CountOf(digits)];
      assert added == Add(m, PartCounts(p)) by {
        assert added.Keys == Add(m, PartCounts(p)).Keys;
      }
    case Group(parts, digits) =>
      var inner := [Close(digits)] + rest;
      var tokens := FlattenPart(p) + rest;
      assert tokens == [Open] + (Flatten(parts) + inner);
      assert tokens[0] == Open && tokens[1..] == Flatten(parts) + inner;
      assert stack + [m] + [map[]] == (stack + [m]) + [map[]];
      RunFlatten(stack + [m], map[], parts, inner);
      AddEmpty(SumCounts(parts));
      var grown := stack + [m] + [SumCounts(parts)];
      assert grown[..|grown| - 1] == stack + [m];
      assert (stack + [m])[..|stack|] == stack;
      assert inner[0] == Close(digits) && inner[1..] == rest;
  }

  /** Running the tokens of a sequence of parts adds their total into the
      map on top of the stack and leaves the rest of the stack alone. */
  lemma {:induction false} RunFlatten(stack: seq<Counts>, m: Counts, parts: seq<Part>, rest: seq<Token>)
    ensures Run(stack + [m], Flatten(parts) + rest) == Run(stack + [Add(m, SumCounts(parts))], rest)
    decreases parts, 0
  {
    if parts == [] {
      assert Flatten(parts) + rest == rest;
      AddEmpty(m);
    } else {
      var tail := Flatten(parts[1..]) + rest;
      assert Flatten(parts) + rest == FlattenPart(parts[0]) + tail;
      RunFlattenPart(stack, m, parts[0], tail);
      RunFlatten(stack, Add(m, PartCounts(parts[0])), parts[1..], rest);
      AddAssociative(m, PartCounts(parts[0]), SumCounts(parts[1..]));
    }
  }

  /** A formula whose tokens spell out a tree parses to that tree's counts:
      groups multiply, nested groups compound, and atoms add up. */
  lemma {:induction false} ParseTree(formula: string, parts: seq<Part>)
    requires Tokenise(formula) == Flatten(parts)
    ensures Parse(formula) == Parsed(SumCounts(parts))
  {
    assert Flatten(parts) + [] == Flatten(parts);
    RunFlatten([], map[], parts, []);
    AddEmpty(SumCounts(parts));
    var empty: seq<Counts> := [];
    assert empty + [map[]] == [map[]];
  }

  /** A group left open at the end is not an error: only the bottom map is
      returned, so the atoms of the open group are lost. */
  lemma {:induction false} UnclosedGroupDropped(formula: string, before: seq<Part>, inner: seq<Part>)
    requires Tokenise(formula) == Flatten(before) + [Open] + Flatten(inner)
    ensures Parse(formula) == Parsed(SumCounts(before))
  {
    var empty: seq<Counts> := [];
    var rest := [Open] + Flatten(inner);
    var b := SumCounts(before);
    assert Flatten(before) + [Open] + Flatten(inner) == Flatten(before) + rest;
    assert empty + [map[]] == [map[]];
    RunFlatten(empty, map[], before, rest);
    AddEmpty(b);
    assert empty + [b] == [b];
    assert rest[0] == Open && rest[1..] == Flatten(inner) + [];
    assert Step([b], Open) == Some([b] + [map[]]);
    RunFlatten([b], map[], inner, []);
  }

  /** A `)` before any atom pops the empty bottom map without error, and a
      following `(` pushes a fresh one: `")(H"` counts one H. */
  lemma {:induction false} LeadingCloseReopened(formula: string, digits: string, parts: seq<Part>)
    requires Tokenise(formula) == [Close(digits), Open] + Flatten(parts)
    ensures Parse(formula) == Parsed(SumCounts(parts))
  {
    var empty: seq<Counts> := [];
    var tokens := Tokenise(formula);
    assert tokens[0] == Close(digits) && tokens[1..] == [Open] + Flatten(parts);
    assert CloseStep([map[]], CountOf(digits)) == Some(empty);
    var tail := [Open] + Flatten(parts);
    assert tail[0] == Open && tail[1..] == Flatten(parts) + [];
    assert Step([map[]], tokens[0]) == Some(empty);
    assert Run([map[]], tokens) == Run(empty, tail);
    assert Step(empty, Open) == Some(empty + [map[]]);
    assert Run(empty, tail) == Run(empty + [map[]], Flatten(parts) + []);
    RunFlatten(empty, map[], parts, []);
    AddEmpty(SumCounts(parts));
    assert empty + [SumCounts(parts)] == [SumCounts(parts)];
  }

  /** A `)` that closes the bottom map while it holds atoms makes
      `stack[-1]` fail: `IndexError`, whatever follows. */
  lemma {:induction false} UnmatchedCloseRaises(formula: string, before: seq<Part>, digits: string, rest: seq<Token>)
    requires Tokenise(formula) == Flatten(before) + [Close(digits)] + rest
    requires SumCounts(before) != map[]
    ensures Parse(formula) == StackIndexError
  {
    var empty: seq<Counts> := [];
    var tail := [Close(digits)] + rest;
    var b := SumCounts(before);
    assert Flatten(before) + [Close(digits)] + rest == Flatten(before) + tail;
    assert empty + [map[]] == [map[]];
    RunFlatten(empty, map[], before, tail);
    AddEmpty(b);
    assert empty + [b] == [b];
    assert tail[0] == Close(digits);
    assert CloseStep([b], CountOf(digits)) == None;
  }

  // ---------------------------------------------------------------------
  // Formulas without groups

  /** Total count that the element tokens for `e` carry, a missing count
      being 1. */
  function Occurrences(tokens: seq<Token>, e: string): nat {
    if tokens == [] then 0
    else (if tokens[0].Element? && tokens[0].symbol == e then CountOf(tokens[0].digits) else 0)
         + Occurrences(tokens[1..], e)
  }

  /** Without brackets the stack stays one map high, and each element's
      count is the sum of its occurrences (repeats add, never overwrite). */
  lemma {:induction false} RunElements(m: Counts, tokens: seq<Token>)
    requires forall i :: 0 <= i < |tokens| ==> tokens[i].Element?
    ensures Run([m], tokens).Some? && |Run([m], tokens).value| == 1
    ensures Run([m], tokens).value[0].Keys == m.Keys + Symbols(tokens)
    ensures forall e :: e in Run([m], tokens).value[0] ==>
              Run([m], tokens).value[0][e] == Get(m, e) + Occurrences(tokens, e)
    decreases |tokens|
  {
    if tokens != [] {
      var t := tokens[0];
      var next := m[t.symbol := Get(m, t.symbol) + CountOf(t.digits)];
      assert [m][..0] + [next] == [next];
      assert Step([m], t) == Some([next]);
      assert Run([m], tokens) == Run([next], tokens[1..]);
      RunElements(next, tokens[1..]);
      var final := Run([next], tokens[1..]).value[0];
      assert Symbols(tokens) == {t.symbol} + Symbols(tokens[1..]);
      forall e | e in final
        ensures final[e] == Get(m, e) + Occurrences(tokens, e)
      {
        assert Occurrences(tokens, e)
            == (if t.symbol == e then CountOf(t.digits) else 0) + Occurrences(tokens[1..], e);
      }
    }
  }

  lemma {:induction false} ElementsOnly(formula: string)
    requires forall i :: 0 <= i < |Tokenise(formula)| ==> Tokenise(formula)[i].Element?
    ensures Parse(formula).Parsed?
    ensures Parse(formula).counts.Keys == Symbols(Tokenise(formula))
    ensures forall e :: e in Parse(formula).counts ==>
              Parse(formula).counts[e] == Occurrences(Tokenise(formula), e)
  {
    RunElements(map[], Tokenise(formula));
  }
}
