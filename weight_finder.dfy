/**
 * The formula weight finder: a periodic table keyed by symbol, and a scanner that adds up the
 * weight of a formula as it reads it, without building the entries first.
 *
 * The scanner makes no existence check: a symbol missing from the table fails the lookup
 * itself, and a weight that is not a number fails its conversion. Both are failures of the
 * result here; the first token that fails, in scan order, decides which.
 */
module WeightFinder {
  import opened Wrappers
  import opened Formula
  import opened Molecules

  /** Why reading a formula's weight failed. */
  datatype LookupError =
    | UnknownSymbol(symbol: string)      // the table has no such symbol (a KeyError)
    | NotNumericWeight(symbol: string)   // the symbol's weight is not a number (a ValueError)

  /** The weight one token adds: its element's weight times its subscript. */
  function TokenWeight(table: Table, tok: Token): Result<real, LookupError>
  {
    if tok.symbol !in table then Failure(UnknownSymbol(tok.symbol))
    else match table[tok.symbol].weight
      case NotNumeric => Failure(NotNumericWeight(tok.symbol))
      case Numeric(w) => Success(Scaled(w, tok.subscript))
  }

  lemma NumericTokenWeight(table: Table, tok: Token)
    requires tok.symbol in table && table[tok.symbol].weight.Numeric?
    ensures TokenWeight(table, tok).Success?
    ensures TokenWeight(table, tok).value == Scaled(table[tok.symbol].weight.value, tok.subscript)
  {
  }

  /** The weights of the tokens added up in order; the first token that fails decides the failure. */
  function FormulaWeight(table: Table, toks: seq<Token>): Result<real, LookupError>
  {
    if toks == [] then Success(0.0)
    else
      var prev, t := FormulaWeight(table, toks[..|toks| - 1]), TokenWeight(table, toks[|toks| - 1]);
      if prev.Failure? then prev
      else if t.Failure? then Failure(t.error)
      else Success(prev.value + t.value)
  }

  lemma FormulaWeightSnoc(table: Table, toks: seq<Token>, tok: Token)
    ensures FormulaWeight(table, toks + [tok]) ==
      var prev, t := FormulaWeight(table, toks), TokenWeight(table, tok);
      if prev.Failure? then prev else if t.Failure? then Failure(t.error) else Success(prev.value + t.value)
  {
    assert (toks + [tok])[..|toks|] == toks;
  }

  lemma AddTokenWeight(table: Table, toks: seq<Token>, tok: Token, a: real)
    requires FormulaWeight(table, toks) == Success(a)
    requires tok.symbol in table && table[tok.symbol].weight.Numeric?
    ensures FormulaWeight(table, toks + [tok]) ==
      Success(a + Scaled(table[tok.symbol].weight.value, tok.subscript))
  {
    NumericTokenWeight(table, tok);
    FormulaWeightSnoc(table, toks, tok);
  }

  /** Once the weight has failed, reading more tokens does not change the failure. */
  lemma {:induction false} WeightFailureSticks(table: Table, a: seq<Token>, b: seq<Token>)
    requires FormulaWeight(table, a).Failure?
    ensures FormulaWeight(table, a + b) == FormulaWeight(table, a)
  {
    if b != [] {
      var b', tok := b[..|b| - 1], b[|b| - 1];
      assert a + b == (a + b') + [tok];
      WeightFailureSticks(table, a, b');
      FormulaWeightSnoc(table, a + b', tok);
    } else {
      assert a + b == a;
    }
  }

  /** Failing on the tokens emitted by the first j characters fails the whole formula the same way. */
  lemma ScanWeightFails(table: Table, f: string, j: nat)
    requires j <= |f| && FormulaWeight(table, ScanUpTo(f, j).emitted).Failure?
    ensures FormulaWeight(table, Tokens(f)) == FormulaWeight(table, ScanUpTo(f, j).emitted)
  {
    var e := ScanUpTo(f, j).emitted;
    ScanPrefix(f, j);
    assert Tokens(f) == e + Tokens(f)[|e|..];
    WeightFailureSticks(table, e, Tokens(f)[|e|..]);
  }

  /** An uppercase letter that completes a symbol whose weight cannot be read fails the whole formula with that symbol's error. */
  lemma ScanWeightFailsAt(table: Table, f: string, i: nat, w: real)
    requires i < |f| && IsUpper(f[i]) && ScanUpTo(f, i).element != []
    requires FormulaWeight(table, ScanUpTo(f, i).emitted) == Success(w)
    requires TokenWeight(table, Token(ScanUpTo(f, i).element, ScanUpTo(f, i).subscript)).Failure?
    ensures FormulaWeight(table, Tokens(f)) ==
      Failure(TokenWeight(table, Token(ScanUpTo(f, i).element, ScanUpTo(f, i).subscript)).error)
  {
    var s := ScanUpTo(f, i);
    assert ScanUpTo(f, i + 1).emitted == s.emitted + [Token(s.element, s.subscript)];
    FormulaWeightSnoc(table, s.emitted, Token(s.element, s.subscript));
    ScanWeightFails(table, f, i + 1);
  }

  /** Reading one character adds the pending token's weight at an uppercase letter that completes a symbol, and nothing otherwise. */
  lemma WeightStep(table: Table, f: string, i: nat, w: real)
    requires i < |f| && FormulaWeight(table, ScanUpTo(f, i).emitted) == Success(w)
    ensures var s := ScanUpTo(f, i);
      FormulaWeight(table, ScanUpTo(f, i + 1).emitted) ==
        if IsUpper(f[i]) && s.element != [] then FormulaWeight(table, s.emitted + [Token(s.element, s.subscript)])
        else Success(w)
  {
    var s := ScanUpTo(f, i);
    if !IsUpper(f[i]) {
      assert ScanUpTo(f, i + 1).emitted == s.emitted;
    } else if s.element == [] {
      assert ScanUpTo(f, i + 1).emitted == s.emitted + [] == s.emitted;
    } else {
      assert ScanUpTo(f, i + 1).emitted == s.emitted + [Token(s.element, s.subscript)];
    }
  }

  /** After the whole formula is read, the final token decides the result. */
  lemma WeightAtEnd(table: Table, f: string, w: real)
    requires FormulaWeight(table, ScanUpTo(f, |f|).emitted) == Success(w)
    ensures var s := ScanUpTo(f, |f|);
      Tokens(f) == s.emitted + [Token(s.element, s.subscript)]
  {
    ScanMatches(f, |f|);
    assert f[..|f|] == f;
  }

  /** The table after storing each row under its symbol, in order. */
  function Indexed(m: Table, rows: seq<Element>): Table
  {
    if rows == [] then m else Indexed(m, rows[..|rows| - 1])[rows[|rows| - 1].symbol := rows[|rows| - 1]]
  }

  /** Indexing adds exactly the rows' symbols as keys. */
  lemma {:induction false} IndexedKeys(m: Table, rows: seq<Element>)
    ensures Indexed(m, rows).Keys == m.Keys + set r | r in rows :: r.symbol
  {
    if rows != [] {
      var p := rows[..|rows| - 1];
      IndexedKeys(m, p);
      assert rows == p + [rows[|rows| - 1]];
      assert (set r | r in rows :: r.symbol) == (set r | r in p :: r.symbol) + {rows[|rows| - 1].symbol};
    }
  }

  /** A row is what its symbol finds, unless a later row has the same symbol: the last one wins. */
  lemma {:induction false} IndexedLastWins(m: Table, rows: seq<Element>, k: nat)
    requires k < |rows|
    requires forall j :: k < j < |rows| ==> rows[j].symbol != rows[k].symbol
    ensures rows[k].symbol in Indexed(m, rows) && Indexed(m, rows)[rows[k].symbol] == rows[k]
  {
    if k < |rows| - 1 {
      var p := rows[..|rows| - 1];
      IndexedLastWins(m, p, k);
    }
  }

  /** A symbol no row has keeps what it had. */
  lemma {:induction false} IndexedKeepsOthers(m: Table, rows: seq<Element>, s: string)
    requires s in m && forall j :: 0 <= j < |rows| ==> rows[j].symbol != s
    ensures s in Indexed(m, rows) && Indexed(m, rows)[s] == m[s]
  {
    if rows != [] {
      IndexedKeepsOthers(m, rows[..|rows| - 1], s);
    }
  }

  class PeriodicTable {
    var elements: Table

    /** A table of the given rows, keyed by symbol. */
    constructor(rows: seq<Element>)
      ensures elements == Indexed(map[], rows)
    {
      elements := map[];
      new;
      Populate(rows);
    }

    /** Store every row under its symbol, in order, so that a later row replaces an earlier one with the same symbol. */
    method Populate(rows: seq<Element>)
      modifies this
      ensures elements == Indexed(old(elements), rows)
    {
      var k := 0;
      while k < |rows|
        invariant 0 <= k <= |rows|
        invariant elements == Indexed(old(elements), rows[..k])
      {
        assert rows[..k + 1][..k] == rows[..k];
        elements := elements[rows[k].symbol := rows[k]];
        k := k + 1;
      }
      assert rows[..k] == rows;
    }

    /** Scan the formula once, adding each symbol's weight times its subscript as soon as the symbol is complete. */
    method GetFormulaWeight(f: string) returns (r: Result<real, LookupError>)
      ensures r == FormulaWeight(elements, Tokens(f))
    {
      var table := elements;
      var element: string := "";
      var subscript: string := "1";
      var weight := 0.0;
      var i := 0;
      while i < |f|
        invariant 0 <= i <= |f|
        invariant ScanUpTo(f, i).element == element && ScanUpTo(f, i).subscript == subscript
        invariant FormulaWeight(table, ScanUpTo(f, i).emitted) == Success(weight)
        invariant 2 <= i < |f| ==> !(IsDigit(f[i - 1]) && IsDigit(f[i]))
      {
        var c := f[i];
        WeightStep(table, f, i, weight);
        // A character is at most one of uppercase, lowercase and digit, so at most one branch applies.
        if IsUpper(c) {
          if element != "" {
            if element !in table {
              ScanWeightFailsAt(table, f, i, weight);
              return Failure(UnknownSymbol(element));
            }
            var w := table[element].weight;
            if w.NotNumeric? {
              ScanWeightFailsAt(table, f, i, weight);
              return Failure(NotNumericWeight(element));
            }
            AddTokenWeight(table, ScanUpTo(f, i).emitted, Token(element, subscript), weight);
            weight := weight + Scaled(w.value, subscript);
          }
          element := [c];
          subscript := "1";
        } else if IsLower(c) {
          element := element + [c];
        } else if i != 0 && IsDigit(c) {
          subscript := [c];
          while i + 1 < |f| && IsDigit(f[i + 1])
            invariant 1 <= i < |f| && IsDigit(f[i])
            invariant ScanUpTo(f, i + 1).element == element && ScanUpTo(f, i + 1).subscript == subscript
            invariant FormulaWeight(table, ScanUpTo(f, i + 1).emitted) == Success(weight)
          {
            subscript := subscript + [f[i + 1]];
            i := i + 1;
          }
        }
        i := i + 1;
      }
      WeightAtEnd(table, f, weight);
      FormulaWeightSnoc(table, ScanUpTo(f, i).emitted, Token(element, subscript));
      if element !in table {
        return Failure(UnknownSymbol(element));
      }
      var w := table[element].weight;
      if w.NotNumeric? {
        return Failure(NotNumericWeight(element));
      }
      AddTokenWeight(table, ScanUpTo(f, i).emitted, Token(element, subscript), weight);
      weight := weight + Scaled(w.value, subscript);
      r := Success(weight);
    }
  }

  /**
   * The two scanners agree: the weight finder succeeds exactly when the calculator's
   * break-down is not empty and all its weights are numbers, and then it finds the weight
   * the calculator adds up from the entries.
   */
  lemma {:induction false} WeightMatchesEntries(table: Table, toks: seq<Token>)
    ensures FormulaWeight(table, toks).Success? <==>
      Lookup(table, toks).Some? && AllNumeric(Lookup(table, toks).value)
    ensures FormulaWeight(table, toks).Success? ==>
      FormulaWeight(table, toks).value == Sum(Lookup(table, toks).value)
  {
    if toks != [] {
      var p, tok := toks[..|toks| - 1], toks[|toks| - 1];
      assert toks == p + [tok];
      WeightMatchesEntries(table, p);
      FormulaWeightSnoc(table, p, tok);
      LookupSnoc(table, p, tok);
      var l := Lookup(table, p);
      if l.Some? && tok.symbol in table {
        var e := EntryOf(table, tok);
        SumSnoc(l.value, e);
        AllNumericSnoc(l.value, e);
      }
    }
  }

  lemma AllNumericSnoc(es: seq<Entry>, e: Entry)
    ensures AllNumeric(es + [e]) <==> AllNumeric(es) && e.weight.Numeric?
  {
    assert forall k :: 0 <= k < |es| ==> (es + [e])[k] == es[k];
    assert (es + [e])[|es|] == e;
  }

  /** The agreement of the two scanners, for a whole formula. */
  lemma ScannersAgree(table: Table, s: string)
    ensures FormulaWeight(table, Tokens(s)).Success? <==>
      BreakDown(table, s) != [] && AllNumeric(BreakDown(table, s))
    ensures FormulaWeight(table, Tokens(s)).Success? ==>
      FormulaWeight(table, Tokens(s)).value == Sum(BreakDown(table, s))
  {
    WeightMatchesEntries(table, Tokens(s));
    LookupAt(table, Tokens(s));
  }

  /** A formula without letters ends with the lookup of the empty symbol, which fails unless the table has it. */
  lemma NoLettersFails(table: Table, s: string)
    requires Letters(s) == [] && "" !in table
    ensures Tokens(s) == [Token("", Pending(s).subscript)]
    ensures FormulaWeight(table, Tokens(s)) == Failure(UnknownSymbol(""))
    ensures BreakDown(table, s) == []
  {
    ScanKeepsLetters(s);
    PendingShape(s);
    assert Closed(s) == [] && Pending(s).symbol == "" by {
      if LastUpper(s) >= 0 {
        assert false;
      }
    }
    assert Tokens(s) == [Pending(s)];
    assert [Pending(s)] == [] + [Pending(s)];
    FormulaWeightSnoc(table, [], Pending(s));
  }
}
