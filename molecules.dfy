/**
 * Elements, the entries a formula breaks down into, and the arithmetic on them: the weight
 * of an entry (its element's weight times its subscript), the total weight of a formula, and
 * the mass fraction each entry carries once the percentage composition is computed.
 *
 * Weights are exact reals. An element's weight is kept as the text the periodic table gives
 * it; reading it as a number either yields a value or fails, which is all the model needs to
 * know about that text.
 */
module Molecules {
  import opened Wrappers
  import opened Formula

  /** The weight column of the periodic table, as far as reading it as a number goes. */
  datatype WeightText = Numeric(value: real) | NotNumeric

  /** A row of the periodic table: name, symbol, atomic number and weight. */
  datatype Element = Element(name: string, symbol: string, number: int, weight: WeightText)

  /** A lookup table from some key (here, the symbol) to its element. */
  type Table = map<string, Element>

  /**
   * One entry of a broken-down formula: the symbol, its element's weight, the subscript as
   * scanned, and the mass fraction, present once the percentage composition was stored.
   */
  datatype Entry = Entry(symbol: string, weight: WeightText, subscript: string, fraction: Option<real>)

  /** Every token names a symbol of the table. */
  predicate AllKnown(table: Table, toks: seq<Token>)
  {
    forall k :: 0 <= k < |toks| ==> toks[k].symbol in table
  }

  /** The entry a known token becomes: its symbol, its element's weight, its subscript, no fraction yet. */
  function EntryOf(table: Table, tok: Token): Entry
    requires tok.symbol in table
  {
    Entry(tok.symbol, table[tok.symbol].weight, tok.subscript, None)
  }

  /** The entries of the tokens, in order, or None as soon as one symbol is not in the table. */
  function Lookup(table: Table, toks: seq<Token>): Option<seq<Entry>>
  {
    if toks == [] then Some([])
    else
      var prev, tok := Lookup(table, toks[..|toks| - 1]), toks[|toks| - 1];
      if prev.Some? && tok.symbol in table then Some(prev.value + [EntryOf(table, tok)]) else None
  }

  lemma LookupSnoc(table: Table, toks: seq<Token>, tok: Token)
    ensures Lookup(table, toks + [tok]) ==
      if Lookup(table, toks).Some? && tok.symbol in table
      then Some(Lookup(table, toks).value + [EntryOf(table, tok)]) else None
  {
    assert (toks + [tok])[..|toks|] == toks;
  }

  /** The lookup succeeds exactly when every symbol is in the table, and then yields one entry per token, in order. */
  lemma {:induction false} LookupAt(table: Table, toks: seq<Token>)
    ensures Lookup(table, toks).Some? <==> AllKnown(table, toks)
    ensures Lookup(table, toks).Some? ==>
      |Lookup(table, toks).value| == |toks| &&
      forall k :: 0 <= k < |toks| ==> Lookup(table, toks).value[k] == EntryOf(table, toks[k])
  {
    if toks != [] {
      var p := toks[..|toks| - 1];
      LookupAt(table, p);
      assert forall k :: 0 <= k < |p| ==> p[k] == toks[k];
    }
  }

  /** Once the lookup has failed, reading more tokens does not make it succeed. */
  lemma {:induction false} LookupFailureSticks(table: Table, a: seq<Token>, b: seq<Token>)
    requires Lookup(table, a) == None
    ensures Lookup(table, a + b) == None
  {
    if b != [] {
      var b', tok := b[..|b| - 1], b[|b| - 1];
      assert a + b == (a + b') + [tok];
      LookupFailureSticks(table, a, b');
      LookupSnoc(table, a + b', tok);
    } else {
      assert a + b == a;
    }
  }

  /**
   * The break-down of a formula against a symbol table: one entry per token when every
   * symbol is in the table, and nothing at all as soon as one is not.
   */
  function BreakDown(table: Table, formula: string): (r: seq<Entry>)
    ensures r == [] <==> !AllKnown(table, Tokens(formula))
    ensures r != [] ==> |r| == |Tokens(formula)|
    ensures r != [] ==> forall k :: 0 <= k < |r| ==>
      && r[k].symbol == Tokens(formula)[k].symbol
      && r[k].symbol in table
      && r[k].weight == table[r[k].symbol].weight
      && r[k].subscript == Tokens(formula)[k].subscript
      && r[k].fraction == None
  {
    LookupAt(table, Tokens(formula));
    match Lookup(table, Tokens(formula))
    case Some(es) => es
    case None => []
  }

  /** A failed lookup of the tokens emitted by the first j characters fails the whole formula. */
  lemma ScanFails(table: Table, f: string, j: nat)
    requires j <= |f| && Lookup(table, ScanUpTo(f, j).emitted) == None
    ensures Lookup(table, Tokens(f)) == None
  {
    var e := ScanUpTo(f, j).emitted;
    ScanPrefix(f, j);
    assert Tokens(f) == e + Tokens(f)[|e|..];
    LookupFailureSticks(table, e, Tokens(f)[|e|..]);
  }

  /** An uppercase letter that completes a symbol the table does not have makes the whole break-down fail. */
  lemma ScanFailsAt(table: Table, f: string, i: nat)
    requires i < |f| && IsUpper(f[i])
    requires ScanUpTo(f, i).element != [] && ScanUpTo(f, i).element !in table
    ensures BreakDown(table, f) == []
  {
    var s := ScanUpTo(f, i);
    assert ScanUpTo(f, i + 1).emitted == s.emitted + [Token(s.element, s.subscript)];
    LookupSnoc(table, s.emitted, Token(s.element, s.subscript));
    ScanFails(table, f, i + 1);
  }

  /** After the whole formula is read with every emitted symbol found, the final lookup decides the break-down. */
  lemma BreakDownAtEnd(table: Table, f: string, es: seq<Entry>)
    requires Lookup(table, ScanUpTo(f, |f|).emitted) == Some(es)
    ensures var s := ScanUpTo(f, |f|);
      BreakDown(table, f) == if s.element in table then es + [Entry(s.element, table[s.element].weight, s.subscript, None)] else []
  {
    ScanMatches(f, |f|);
    assert f[..|f|] == f;
    var s := ScanUpTo(f, |f|);
    LookupSnoc(table, s.emitted, Token(s.element, s.subscript));
  }

  /** The number int() reads from a string of digits. */
  function DigitsValue(r: string): nat
  {
    if r == [] then 0 else 10 * DigitsValue(r[..|r| - 1]) + ((r[|r| - 1] as int - '0' as int) % 10)
  }

  /** A weight taken subscript times: float(weight) * int(subscript). */
  function Scaled(weight: real, subscript: string): real
  {
    weight * (DigitsValue(subscript) as real)
  }

  /** The weight an entry contributes: its element's weight times its count (none when the weight is not a number). */
  function Mass(e: Entry): real
  {
    match e.weight
    case Numeric(w) => Scaled(w, e.subscript)
    case NotNumeric => 0.0
  }

  predicate AllNumeric(es: seq<Entry>)
  {
    forall k :: 0 <= k < |es| ==> es[k].weight.Numeric?
  }

  /** The total weight of the entries, added up in order. */
  function Sum(es: seq<Entry>): real
  {
    if es == [] then 0.0 else Sum(es[..|es| - 1]) + Mass(es[|es| - 1])
  }

  lemma SumSnoc(es: seq<Entry>, e: Entry)
    ensures Sum(es + [e]) == Sum(es) + Mass(e)
  {
    assert (es + [e])[..|es|] == es;
  }

  /** The index of the first entry whose weight is not a number, or the length when there is none. */
  function FirstNotNumeric(es: seq<Entry>): (f: nat)
    ensures f <= |es|
    ensures forall k :: 0 <= k < f ==> es[k].weight.Numeric?
    ensures f < |es| ==> es[f].weight.NotNumeric?
    ensures f == |es| <==> AllNumeric(es)
  {
    if es == [] then 0
    else if es[0].weight.NotNumeric? then 0
    else 1 + FirstNotNumeric(es[1..])
  }

  /** An entry with its mass fraction of the given total stored. */
  function WithFraction(e: Entry, total: real): Entry
    requires total != 0.0
  {
    e.(fraction := Some(Mass(e) / total))
  }

  /** Every entry with its mass fraction of the given total stored. */
  function WithComposition(es: seq<Entry>, total: real): seq<Entry>
    requires total != 0.0
  {
    if es == [] then [] else WithComposition(es[..|es| - 1], total) + [WithFraction(es[|es| - 1], total)]
  }

  lemma WithCompositionSnoc(es: seq<Entry>, e: Entry, total: real)
    requires total != 0.0
    ensures WithComposition(es + [e], total) == WithComposition(es, total) + [WithFraction(e, total)]
  {
    assert (es + [e])[..|es|] == es;
  }

  /** Storing the composition changes nothing but the fraction of each entry, which becomes its mass over the total. */
  lemma {:induction false} CompositionKeepsEntries(es: seq<Entry>, total: real)
    requires total != 0.0
    ensures |WithComposition(es, total)| == |es|
    ensures forall k :: 0 <= k < |es| ==>
      && WithComposition(es, total)[k].symbol == es[k].symbol
      && WithComposition(es, total)[k].weight == es[k].weight
      && WithComposition(es, total)[k].subscript == es[k].subscript
      && WithComposition(es, total)[k].fraction == Some(Mass(es[k]) / total)
      && WithComposition(es, total)[k] == WithFraction(es[k], total)
  {
    if es != [] {
      CompositionKeepsEntries(es[..|es| - 1], total);
    }
  }

  /** The stored fractions, added up in order (an entry without one adds nothing). */
  function FractionSum(es: seq<Entry>): real
  {
    if es == [] then 0.0
    else FractionSum(es[..|es| - 1]) + (match es[|es| - 1].fraction case Some(x) => x case None => 0.0)
  }

  lemma FractionSumSnoc(es: seq<Entry>, e: Entry, x: real)
    requires e.fraction == Some(x)
    ensures FractionSum(es + [e]) == FractionSum(es) + x
  {
    assert (es + [e])[..|es|] == es;
  }

  lemma ShareOfSum(a: real, b: real, total: real)
    requires total != 0.0
    ensures a / total + b / total == (a + b) / total
  {
  }

  lemma WholeShare(total: real)
    requires total != 0.0
    ensures total / total == 1.0
    ensures 0.0 / total == 0.0
  {
  }

  /** The stored fractions add up to the entries' total weight over the divisor. */
  lemma {:induction false} FractionSumIsShare(es: seq<Entry>, total: real)
    requires total != 0.0
    ensures FractionSum(WithComposition(es, total)) == Sum(es) / total
  {
    if es != [] {
      var p, e := es[..|es| - 1], es[|es| - 1];
      assert es == p + [e];
      FractionSumIsShare(p, total);
      WithCompositionSnoc(p, e, total);
      FractionSumSnoc(WithComposition(p, total), WithFraction(e, total), Mass(e) / total);
      SumSnoc(p, e);
      ShareOfSum(Sum(p), Mass(e), total);
    } else {
      WholeShare(total);
    }
  }

  /** When the divisor is the total weight of the entries, the stored fractions add up to exactly one. */
  lemma FractionsSumToOne(es: seq<Entry>)
    requires Sum(es) != 0.0
    ensures FractionSum(WithComposition(es, Sum(es))) == 1.0
  {
    FractionSumIsShare(es, Sum(es));
    WholeShare(Sum(es));
  }
}
