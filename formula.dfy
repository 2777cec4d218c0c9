/**
 * How the two scanners of the repository cut a chemical formula such as "C6H12O6" into
 * (symbol, subscript) tokens in one left-to-right pass.
 *
 * The scan keeps a pending symbol and a pending subscript. An uppercase letter closes the
 * pending symbol (when it is not empty) and starts a new one whose subscript is "1"; a
 * lowercase letter is appended to the pending symbol, wherever it stands; a run of digits
 * replaces the pending subscript, except that a digit at index 0 is skipped; every other
 * character is ignored. At the end the pending symbol is emitted whatever it is, the empty
 * symbol included.
 *
 * This module states that behaviour declaratively, from the right: the token of the segment
 * that starts at the last uppercase letter is that letter followed by the segment's lowercase
 * letters, and its subscript is the last maximal digit run of the segment, or "1". The
 * scanners themselves (the loops) are proved against these functions in the modules that
 * model them, through the one-character step lemmas below.
 */
module Formula {

  // Character classes, restricted to ASCII.
  predicate IsUpper(c: char) { 'A' <= c <= 'Z' }
  predicate IsLower(c: char) { 'a' <= c <= 'z' }
  predicate IsDigit(c: char) { '0' <= c <= '9' }
  predicate IsLetter(c: char) { IsUpper(c) || IsLower(c) }

  predicate AllDigits(r: string) { forall k :: 0 <= k < |r| ==> IsDigit(r[k]) }
  predicate AllLower(r: string) { forall k :: 0 <= k < |r| ==> IsLower(r[k]) }

  /** An element symbol as the scan builds it: one uppercase letter, then lowercase letters. */
  predicate IsSymbolShape(r: string) { |r| >= 1 && IsUpper(r[0]) && AllLower(r[1..]) }

  /** The lowercase letters of t, in order. */
  function Lowers(t: string): string
  {
    if t == [] then []
    else Lowers(t[..|t| - 1]) + (if IsLower(t[|t| - 1]) then [t[|t| - 1]] else [])
  }

  /** The letters of t, in order. */
  function Letters(t: string): string
  {
    if t == [] then []
    else Letters(t[..|t| - 1]) + (if IsLetter(t[|t| - 1]) then [t[|t| - 1]] else [])
  }

  /** The number of uppercase letters in t. */
  function CountUpper(t: string): nat
  {
    if t == [] then 0
    else CountUpper(t[..|t| - 1]) + (if IsUpper(t[|t| - 1]) then 1 else 0)
  }

  /** The longest suffix of r that is made of digits. */
  function TrailingDigits(r: string): string
  {
    if r == [] || !IsDigit(r[|r| - 1]) then []
    else TrailingDigits(r[..|r| - 1]) + [r[|r| - 1]]
  }

  /** The last maximal run of digits in r, or "1" when r holds no digit. */
  function LastRun(r: string): string
  {
    if r == [] then "1"
    else if IsDigit(r[|r| - 1]) then TrailingDigits(r)
    else LastRun(r[..|r| - 1])
  }

  /** The index of the last uppercase letter of t, or -1 when t has none. */
  function LastUpper(t: string): (u: int)
    ensures -1 <= u < |t|
    ensures u >= 0 ==> IsUpper(t[u])
  {
    if t == [] then -1
    else if IsUpper(t[|t| - 1]) then |t| - 1
    else LastUpper(t[..|t| - 1])
  }

  /** No uppercase letter follows the one LastUpper finds. */
  lemma {:induction false} LastUpperIsLast(t: string)
    ensures forall k :: LastUpper(t) < k < |t| ==> !IsUpper(t[k])
  {
    if t != [] && !IsUpper(t[|t| - 1]) {
      var p := t[..|t| - 1];
      LastUpperIsLast(p);
      assert forall k :: 0 <= k < |p| ==> p[k] == t[k];
    }
  }

  /** TrailingDigits is the longest suffix of digits: a suffix, all digits, and not preceded by a digit. */
  lemma {:induction false} TrailingDigitsIsMaximalSuffix(r: string)
    ensures |TrailingDigits(r)| <= |r|
    ensures TrailingDigits(r) == r[|r| - |TrailingDigits(r)|..]
    ensures AllDigits(TrailingDigits(r))
    ensures |TrailingDigits(r)| < |r| ==> !IsDigit(r[|r| - |TrailingDigits(r)| - 1])
  {
    if r != [] && IsDigit(r[|r| - 1]) {
      var p := r[..|r| - 1];
      TrailingDigitsIsMaximalSuffix(p);
      var d' := TrailingDigits(p);
      assert p[|p| - |d'|..] + [r[|r| - 1]] == r[|r| - 1 - |d'|..];
    }
  }

  /** A subscript is never empty and holds only digits. */
  lemma {:induction false} LastRunIsDigits(r: string)
    ensures LastRun(r) != [] && AllDigits(LastRun(r))
  {
    if r != [] {
      if IsDigit(r[|r| - 1]) {
        TrailingDigitsIsMaximalSuffix(r);
      } else {
        LastRunIsDigits(r[..|r| - 1]);
      }
    }
  }

  /** One scanned element: its symbol and its subscript, both still text. */
  datatype Token = Token(symbol: string, subscript: string)

  /** The token of a segment: the letter(s) that start it, its lowercase letters, and its last digit run or "1". */
  function SegmentToken(head: string, rest: string): Token
  {
    Token(head + Lowers(rest), LastRun(rest))
  }

  /**
   * The pending token after scanning t. After the last uppercase letter it is the token of
   * the segment that letter starts. Before any uppercase letter it is the lowercase letters
   * seen so far, with the last digit run that does not use index 0.
   */
  function Pending(t: string): Token
  {
    PendingAt(t, LastUpper(t))
  }

  function PendingAt(t: string, u: int): Token
    requires -1 <= u < |t|
  {
    if u >= 0 then SegmentToken([t[u]], t[u + 1..])
    else if t == [] then Token([], "1")
    else SegmentToken(Lowers(t[..1]), t[1..])
  }

  /** The token an uppercase letter closes: nothing when its symbol is empty. */
  function Emitted(p: Token): seq<Token>
  {
    if p.symbol != [] then [p] else []
  }

  /** The tokens emitted while scanning t: at each uppercase letter, the pending token, unless its symbol is empty. */
  function Closed(t: string): seq<Token>
    decreases |t|, 1
  {
    ClosedAt(t, LastUpper(t))
  }

  function ClosedAt(t: string, u: int): seq<Token>
    requires -1 <= u < |t|
    decreases |t|, 0
  {
    if u < 0 then [] else Closed(t[..u]) + Emitted(Pending(t[..u]))
  }

  /** All tokens of a formula: those emitted during the scan, then the final pending one. */
  function Tokens(formula: string): (r: seq<Token>)
    ensures |r| >= 1
  {
    Closed(formula) + [Pending(formula)]
  }

  /** The symbols of toks, written one after the other. */
  function Concat(toks: seq<Token>): string
  {
    if toks == [] then [] else Concat(toks[..|toks| - 1]) + toks[|toks| - 1].symbol
  }

  // One-character steps of the scan.

  lemma LowersSnoc(t: string, c: char)
    ensures Lowers(t + [c]) == Lowers(t) + (if IsLower(c) then [c] else [])
  {
    assert (t + [c])[..|t|] == t;
  }

  lemma LettersSnoc(t: string, c: char)
    ensures Letters(t + [c]) == Letters(t) + (if IsLetter(c) then [c] else [])
  {
    assert (t + [c])[..|t|] == t;
  }

  lemma CountUpperSnoc(t: string, c: char)
    ensures CountUpper(t + [c]) == CountUpper(t) + (if IsUpper(c) then 1 else 0)
  {
    assert (t + [c])[..|t|] == t;
  }

  lemma ConcatSnoc(toks: seq<Token>, tok: Token)
    ensures Concat(toks + [tok]) == Concat(toks) + tok.symbol
  {
    assert (toks + [tok])[..|toks|] == toks;
  }

  lemma TrailingDigitsSnoc(r: string, c: char)
    ensures TrailingDigits(r + [c]) == if IsDigit(c) then TrailingDigits(r) + [c] else []
  {
    assert (r + [c])[..|r|] == r;
  }

  lemma LastRunSnoc(r: string, c: char)
    ensures !IsDigit(c) ==> LastRun(r + [c]) == LastRun(r)
    ensures IsDigit(c) ==>
      LastRun(r + [c]) == if r != [] && IsDigit(r[|r| - 1]) then LastRun(r) + [c] else [c]
  {
    assert (r + [c])[..|r|] == r;
    TrailingDigitsSnoc(r, c);
  }

  lemma LastUpperSnoc(t: string, c: char)
    ensures LastUpper(t + [c]) == if IsUpper(c) then |t| else LastUpper(t)
  {
    assert (t + [c])[..|t|] == t;
  }

  /** An uppercase letter emits the pending token (when its symbol is not empty) and starts a new one. */
  lemma StepUpper(t: string, c: char)
    requires IsUpper(c)
    ensures Pending(t + [c]) == Token([c], "1")
    ensures Closed(t + [c]) == Closed(t) + Emitted(Pending(t))
  {
    var t' := t + [c];
    LastUpperSnoc(t, c);
    assert t'[..|t|] == t;
    assert t'[|t| + 1..] == [];
  }

  lemma SegmentSnoc(head: string, x: string, c: char)
    ensures SegmentToken(head, x + [c]).symbol == SegmentToken(head, x).symbol + (if IsLower(c) then [c] else [])
    ensures !IsDigit(c) ==> SegmentToken(head, x + [c]).subscript == SegmentToken(head, x).subscript
    ensures IsDigit(c) ==>
      SegmentToken(head, x + [c]).subscript ==
        if x != [] && IsDigit(x[|x| - 1]) then SegmentToken(head, x).subscript + [c] else [c]
  {
    LowersSnoc(x, c);
    LastRunSnoc(x, c);
  }

  /** Any other character emits nothing; a lowercase letter extends the symbol, a digit the subscript. */
  lemma StepOther(t: string, c: char)
    requires !IsUpper(c)
    ensures Closed(t + [c]) == Closed(t)
    ensures Pending(t + [c]).symbol == Pending(t).symbol + (if IsLower(c) then [c] else [])
    ensures !IsDigit(c) ==> Pending(t + [c]).subscript == Pending(t).subscript
    ensures IsDigit(c) && t == [] ==> Pending(t + [c]).subscript == "1"
    ensures IsDigit(c) && t != [] ==>
      Pending(t + [c]).subscript ==
        if |t| >= 2 && IsDigit(t[|t| - 1]) then Pending(t).subscript + [c] else [c]
  {
    LastUpperSnoc(t, c);
    ClosedAtSnoc(t, c, LastUpper(t));
    PendingAtSnoc(t, c, LastUpper(t));
  }

  lemma ClosedAtSnoc(t: string, c: char, u: int)
    requires -1 <= u < |t|
    ensures ClosedAt(t + [c], u) == ClosedAt(t, u)
  {
    if u >= 0 {
      assert (t + [c])[..u] == t[..u];
    }
  }

  lemma PendingAtSnoc(t: string, c: char, u: int)
    requires -1 <= u < |t| && (u >= 0 ==> IsUpper(t[u]))
    ensures PendingAt(t + [c], u).symbol == PendingAt(t, u).symbol + (if IsLower(c) then [c] else [])
    ensures !IsDigit(c) ==> PendingAt(t + [c], u).subscript == PendingAt(t, u).subscript
    ensures IsDigit(c) && t == [] ==> PendingAt(t + [c], u).subscript == "1"
    ensures IsDigit(c) && t != [] ==>
      PendingAt(t + [c], u).subscript ==
        if |t| >= 2 && IsDigit(t[|t| - 1]) then PendingAt(t, u).subscript + [c] else [c]
  {
    if u >= 0 {
      SegmentAfterSnoc(t, c, u);
    } else if t == [] {
      FirstSnoc(c);
    } else {
      SegmentFirstSnoc(t, c);
    }
  }

  lemma SegmentAfterSnoc(t: string, c: char, u: nat)
    requires u < |t| && IsUpper(t[u])
    ensures PendingAt(t + [c], u).symbol == PendingAt(t, u).symbol + (if IsLower(c) then [c] else [])
    ensures !IsDigit(c) ==> PendingAt(t + [c], u).subscript == PendingAt(t, u).subscript
    ensures IsDigit(c) ==>
      PendingAt(t + [c], u).subscript ==
        if |t| >= 2 && IsDigit(t[|t| - 1]) then PendingAt(t, u).subscript + [c] else [c]
  {
    var t' := t + [c];
    var x := t[u + 1..];
    assert t'[u] == t[u];
    assert t'[u + 1..] == x + [c];
    SegmentSnoc([t[u]], x, c);
    if x == [] {
      assert u == |t| - 1;
    } else {
      assert x[|x| - 1] == t[|t| - 1] && |t| >= 2;
    }
  }

  lemma FirstSnoc(c: char)
    ensures PendingAt([c], -1).symbol == if IsLower(c) then [c] else []
    ensures PendingAt([c], -1).subscript == "1"
  {
    assert [c][..1] == [] + [c];
    assert [c][1..] == [];
    LowersSnoc([], c);
  }

  lemma SegmentFirstSnoc(t: string, c: char)
    requires t != []
    ensures PendingAt(t + [c], -1).symbol == PendingAt(t, -1).symbol + (if IsLower(c) then [c] else [])
    ensures !IsDigit(c) ==> PendingAt(t + [c], -1).subscript == PendingAt(t, -1).subscript
    ensures IsDigit(c) ==>
      PendingAt(t + [c], -1).subscript ==
        if |t| >= 2 && IsDigit(t[|t| - 1]) then PendingAt(t, -1).subscript + [c] else [c]
  {
    var t' := t + [c];
    var x := t[1..];
    assert t'[..1] == t[..1];
    assert t'[1..] == x + [c];
    SegmentSnoc(Lowers(t[..1]), x, c);
    assert x != [] ==> x[|x| - 1] == t[|t| - 1];
  }

  /** StepUpper for the character at index i of a formula being scanned. */
  lemma ScanUpperAt(f: string, i: nat)
    requires i < |f| && IsUpper(f[i])
    ensures Pending(f[..i + 1]) == Token([f[i]], "1")
    ensures Closed(f[..i + 1]) == Closed(f[..i]) + Emitted(Pending(f[..i]))
  {
    assert f[..i + 1] == f[..i] + [f[i]];
    StepUpper(f[..i], f[i]);
  }

  /** StepOther for the character at index i of a formula being scanned. */
  lemma ScanOtherAt(f: string, i: nat)
    requires i < |f| && !IsUpper(f[i])
    ensures Closed(f[..i + 1]) == Closed(f[..i])
    ensures Pending(f[..i + 1]).symbol == Pending(f[..i]).symbol + (if IsLower(f[i]) then [f[i]] else [])
    ensures !IsDigit(f[i]) ==> Pending(f[..i + 1]).subscript == Pending(f[..i]).subscript
    ensures IsDigit(f[i]) && i == 0 ==> Pending(f[..i + 1]).subscript == "1"
    ensures IsDigit(f[i]) && i != 0 ==>
      Pending(f[..i + 1]).subscript ==
        if i >= 2 && IsDigit(f[i - 1]) then Pending(f[..i]).subscript + [f[i]] else [f[i]]
  {
    assert f[..i + 1] == f[..i] + [f[i]];
    StepOther(f[..i], f[i]);
  }

  /** The emitted tokens of a prefix of s are a prefix of those of s. */
  lemma {:induction false} ClosedPrefix(s: string, j: nat)
    requires j <= |s|
    ensures Closed(s[..j]) <= Closed(s)
  {
    if j < |s| {
      var p, c := s[..|s| - 1], s[|s| - 1];
      assert s == p + [c];
      assert p[..j] == s[..j];
      ClosedPrefix(p, j);
      if IsUpper(c) { StepUpper(p, c); } else { StepOther(p, c); }
    } else {
      assert s[..j] == s;
    }
  }

  // The scan as the loops perform it: a state machine that reads one character at a time.

  /** The scanner's state: the tokens emitted so far, the pending symbol and the pending subscript. */
  datatype ScanState = ScanState(emitted: seq<Token>, element: string, subscript: string)

  /**
   * Read the character at index i of f. An uppercase letter emits the pending token (unless
   * its symbol is empty) and starts a new symbol with subscript "1"; a lowercase letter
   * extends the symbol; a digit, except at index 0, extends the subscript when it continues a
   * run that did not start at index 0, and starts a new subscript otherwise; anything else is
   * ignored.
   */
  function Step(s: ScanState, f: string, i: nat): ScanState
    requires i < |f|
  {
    var c := f[i];
    if IsUpper(c) then ScanState(s.emitted + Emitted(Token(s.element, s.subscript)), [c], "1")
    else if IsLower(c) then s.(element := s.element + [c])
    else if IsDigit(c) && i != 0 then
      s.(subscript := if i >= 2 && IsDigit(f[i - 1]) then s.subscript + [c] else [c])
    else s
  }

  /** The state after reading the first n characters of f. */
  function ScanUpTo(f: string, n: nat): ScanState
    requires n <= |f|
  {
    if n == 0 then ScanState([], "", "1") else Step(ScanUpTo(f, n - 1), f, n - 1)
  }

  /** The state machine and the declarative description agree on every prefix of every input. */
  lemma {:induction false} ScanMatches(f: string, n: nat)
    requires n <= |f|
    ensures ScanUpTo(f, n) == ScanState(Closed(f[..n]), Pending(f[..n]).symbol, Pending(f[..n]).subscript)
  {
    if n == 0 {
      assert f[..0] == [];
    } else {
      ScanMatches(f, n - 1);
      if IsUpper(f[n - 1]) {
        ScanUpperAt(f, n - 1);
      } else {
        ScanOtherAt(f, n - 1);
      }
    }
  }

  /** The tokens emitted while reading any prefix are the start of the formula's tokens. */
  lemma ScanPrefix(f: string, j: nat)
    requires j <= |f|
    ensures ScanUpTo(f, j).emitted <= Tokens(f)
  {
    ScanMatches(f, j);
    ClosedPrefix(f, j);
  }

  // What the segmentation promises.

  /** No letter is lost, added or reordered: the symbols, written one after the other, are the letters of the formula. */
  lemma {:induction false} ScanKeepsLetters(t: string)
    ensures Concat(Closed(t)) + Pending(t).symbol == Letters(t)
  {
    if t != [] {
      var p, c := t[..|t| - 1], t[|t| - 1];
      assert t == p + [c];
      ScanKeepsLetters(p);
      LettersSnoc(p, c);
      if IsUpper(c) {
        StepUpper(p, c);
        if Pending(p).symbol != [] { ConcatSnoc(Closed(p), Pending(p)); }
      } else {
        StepOther(p, c);
      }
    }
  }

  /** Extending a symbol with a lowercase letter keeps its shape. */
  lemma ShapeSnoc(s: string, c: char)
    requires IsLower(c)
    ensures IsSymbolShape(s) ==> IsSymbolShape(s + [c])
    ensures AllLower(s) ==> AllLower(s + [c])
  {
    if |s| >= 1 {
      assert (s + [c])[1..] == s[1..] + [c];
    }
  }

  /** After an uppercase letter the pending symbol has the shape of an element symbol; before any, it is lowercase letters only and nothing was emitted. */
  lemma {:induction false} PendingShape(t: string)
    ensures LastUpper(t) >= 0 ==> IsSymbolShape(Pending(t).symbol)
    ensures LastUpper(t) < 0 ==> AllLower(Pending(t).symbol) && Closed(t) == []
  {
    if t == [] {
      assert Pending(t).symbol == [];
    } else {
      var p, c := t[..|t| - 1], t[|t| - 1];
      assert t == p + [c];
      PendingShape(p);
      LastUpperSnoc(p, c);
      if IsUpper(c) {
        StepUpper(p, c);
        assert [c][1..] == [];
      } else {
        StepOther(p, c);
        if IsLower(c) { ShapeSnoc(Pending(p).symbol, c); }
      }
    }
  }

  /** The shape of a sequence of emitted tokens: no empty symbol, and every symbol but the first shaped like an element symbol. */
  predicate ShapedTokens(toks: seq<Token>)
  {
    && (forall k :: 0 <= k < |toks| ==> toks[k].symbol != [])
    && (forall k :: 1 <= k < |toks| ==> IsSymbolShape(toks[k].symbol))
    && (|toks| >= 1 ==> IsSymbolShape(toks[0].symbol) || AllLower(toks[0].symbol))
  }

  lemma ShapedSnoc(toks: seq<Token>, tok: Token)
    requires ShapedTokens(toks) && tok.symbol != []
    requires IsSymbolShape(tok.symbol) || (toks == [] && AllLower(tok.symbol))
    ensures ShapedTokens(toks + [tok])
  {
  }

  /** Every emitted symbol is an uppercase letter followed by lowercase letters, except a leading one made of lowercase letters only. */
  lemma {:induction false} ScanShapes(t: string)
    ensures ShapedTokens(Closed(t))
  {
    if t != [] {
      var p, c := t[..|t| - 1], t[|t| - 1];
      assert t == p + [c];
      ScanShapes(p);
      if IsUpper(c) {
        StepUpper(p, c);
        if Pending(p).symbol != [] {
          PendingShape(p);
          ShapedSnoc(Closed(p), Pending(p));
        }
      } else {
        StepOther(p, c);
      }
    }
  }

  /** The number of tokens: one per uppercase letter, plus one leading token when the first symbol does not start with an uppercase letter. */
  lemma {:induction false} ScanCount(t: string)
    ensures |Tokens(t)| == CountUpper(t) + (if IsSymbolShape(Tokens(t)[0].symbol) then 0 else 1)
  {
    if t == [] {
      assert Tokens(t) == [Token([], "1")];
    } else {
      var p, c := t[..|t| - 1], t[|t| - 1];
      assert t == p + [c];
      ScanCount(p);
      CountUpperSnoc(p, c);
      if IsUpper(c) {
        UpperCount(p, c);
      } else {
        OtherCount(p, c);
      }
    }
  }

  lemma UpperCount(p: string, c: char)
    requires IsUpper(c)
    ensures |Tokens(p + [c])| - (if IsSymbolShape(Tokens(p + [c])[0].symbol) then 0 else 1)
         == |Tokens(p)| - (if IsSymbolShape(Tokens(p)[0].symbol) then 0 else 1) + 1
  {
    StepUpper(p, c);
    PendingShape(p);
    var t := p + [c];
    assert IsSymbolShape([c]) by { assert [c][1..] == []; }
    if Pending(p).symbol != [] {
      assert Tokens(t) == Tokens(p) + [Token([c], "1")];
    } else {
      assert !IsSymbolShape(Pending(p).symbol);
      assert Tokens(t) == [Token([c], "1")];
    }
  }

  lemma OtherCount(p: string, c: char)
    requires !IsUpper(c)
    ensures |Tokens(p + [c])| == |Tokens(p)|
    ensures IsSymbolShape(Tokens(p + [c])[0].symbol) == IsSymbolShape(Tokens(p)[0].symbol)
  {
    StepOther(p, c);
    PendingShape(p);
    if Closed(p) == [] {
      var s := Pending(p).symbol;
      if IsLower(c) {
        ShapeSnoc(s, c);
        if LastUpper(p) < 0 {
          assert AllLower(s + [c]);
          assert !IsSymbolShape(s) && !IsSymbolShape(s + [c]);
        }
      }
    }
  }

  /**
   * The segmentation of a whole formula: the symbols spell out its letters in order, each
   * symbol after the first is an uppercase letter followed by lowercase letters (the first may
   * also be lowercase letters only, or empty when the formula has no letter at all), there is
   * one token per uppercase letter plus at most that leading one, repeated symbols stay
   * separate tokens, and every subscript is a non-empty run of digits.
   */
  lemma Segmentation(s: string)
    ensures Concat(Tokens(s)) == Letters(s)
    ensures forall k :: 1 <= k < |Tokens(s)| ==> IsSymbolShape(Tokens(s)[k].symbol)
    ensures IsSymbolShape(Tokens(s)[0].symbol) || AllLower(Tokens(s)[0].symbol)
    ensures |Tokens(s)| == CountUpper(s) + (if IsSymbolShape(Tokens(s)[0].symbol) then 0 else 1)
    ensures forall k :: 0 <= k < |Tokens(s)| ==> IsSubscript(Tokens(s)[k].subscript)
  {
    ScanKeepsLetters(s);
    ConcatSnoc(Closed(s), Pending(s));
    ScanShapes(s);
    PendingShape(s);
    ScanCount(s);
    SubscriptsAreDigits(s);
    forall k | 0 <= k < |Tokens(s)| ensures IsSubscript(Tokens(s)[k].subscript) {
      assert Tokens(s)[k] in Tokens(s);
    }
  }

  /** A subscript as the scan keeps it: a non-empty run of digits. */
  predicate IsSubscript(r: string) { r != [] && AllDigits(r) }

  lemma {:induction false} SubscriptsAreDigits(t: string)
    ensures forall tok :: tok in Tokens(t) ==> IsSubscript(tok.subscript)
  {
    assert IsSubscript("1");
    if t != [] {
      var p, c := t[..|t| - 1], t[|t| - 1];
      assert t == p + [c];
      SubscriptsAreDigits(p);
      if IsUpper(c) {
        StepUpper(p, c);
        assert Tokens(t) == Closed(p) + Emitted(Pending(p)) + [Token([c], "1")];
      } else {
        StepOther(p, c);
        var d := Pending(p).subscript;
        assert IsSubscript(d);
        if IsDigit(c) {
          assert IsSubscript(d + [c]);
          assert IsSubscript([c]);
        }
        assert Tokens(t) == Closed(p) + [Pending(t)];
      }
    }
  }

  /** r holds no digit at all. */
  predicate NoDigit(r: string) { forall k :: 0 <= k < |r| ==> !IsDigit(r[k]) }

  /** r[i..j] is the last maximal run of digits of r: digits, not preceded by a digit, and no digit after it. */
  predicate IsLastRunAt(r: string, i: int, j: int)
  {
    && 0 <= i < j <= |r|
    && (forall k :: i <= k < j ==> IsDigit(r[k]))
    && (i == 0 || !IsDigit(r[i - 1]))
    && (forall k :: j <= k < |r| ==> !IsDigit(r[k]))
  }

  /** The subscript rule: LastRun is the last maximal run of digits, or "1" when there is none. */
  lemma LastRunIsLastMaximalRun(r: string)
    ensures NoDigit(r) ==> LastRun(r) == "1"
    ensures !NoDigit(r) ==> exists i, j :: IsLastRunAt(r, i, j) && LastRun(r) == r[i..j]
  {
    if NoDigit(r) {
      LastRunWithoutDigits(r);
    } else {
      var i, j := LastRunPosition(r);
    }
  }

  lemma {:induction false} LastRunWithoutDigits(r: string)
    requires NoDigit(r)
    ensures LastRun(r) == "1"
  {
    if r != [] {
      var p := r[..|r| - 1];
      assert NoDigit(p) by { assert forall k :: 0 <= k < |p| ==> p[k] == r[k]; }
      LastRunWithoutDigits(p);
    }
  }

  lemma {:induction false} LastRunPosition(r: string) returns (i: int, j: int)
    requires !NoDigit(r)
    ensures IsLastRunAt(r, i, j) && LastRun(r) == r[i..j]
  {
    var p := r[..|r| - 1];
    if IsDigit(r[|r| - 1]) {
      i, j := RunAtEnd(r);
    } else {
      assert !NoDigit(p) by {
        var k :| 0 <= k < |r| && IsDigit(r[k]);
        assert k < |p| && p[k] == r[k];
      }
      i, j := LastRunPosition(p);
      RunBeforeEnd(r, i, j);
    }
  }

  lemma RunAtEnd(r: string) returns (i: int, j: int)
    requires r != [] && IsDigit(r[|r| - 1])
    ensures IsLastRunAt(r, i, j) && LastRun(r) == r[i..j]
  {
    TrailingDigitsIsMaximalSuffix(r);
    i, j := |r| - |TrailingDigits(r)|, |r|;
    assert forall k :: i <= k < j ==> r[k] == TrailingDigits(r)[k - i];
  }

  lemma RunBeforeEnd(r: string, i: int, j: int)
    requires r != [] && !IsDigit(r[|r| - 1])
    requires IsLastRunAt(r[..|r| - 1], i, j) && LastRun(r[..|r| - 1]) == r[..|r| - 1][i..j]
    ensures IsLastRunAt(r, i, j) && LastRun(r) == r[i..j]
  {
    RunStaysLast(r, i, j);
    RunSkipsNonDigit(r, i, j);
  }

  lemma RunStaysLast(r: string, i: int, j: int)
    requires r != [] && !IsDigit(r[|r| - 1])
    requires IsLastRunAt(r[..|r| - 1], i, j)
    ensures IsLastRunAt(r, i, j)
  {
  }

  lemma RunSkipsNonDigit(r: string, i: int, j: int)
    requires r != [] && !IsDigit(r[|r| - 1])
    requires 0 <= i < j < |r|
    requires LastRun(r[..|r| - 1]) == r[..|r| - 1][i..j]
    ensures LastRun(r) == r[i..j]
  {
    var p := r[..|r| - 1];
    assert p[i..j] == r[i..j];
  }
}
