/**
 * The stoichiometry calculator's session: the periodic table it looks symbols up in, the
 * formula last entered with its entries and total weight, and the grams, moles and
 * millilitres of the last conversion.
 *
 * Each method is one branch of the calculator's prompt together with the operation it
 * calls. The amounts a conversion asks the user for arrive as arguments.
 */
module Stoichiometry {
  import opened Wrappers
  import opened Formula
  import opened Molecules

  /** How entering a formula ended. */
  datatype EntryOutcome =
    | NotRecognised       // some symbol is not in the table: only the entries are replaced
    | ZeroWeight          // the weight came out 0: the session is reset
    | Accepted            // formula, weight and composition stored
    | CompositionFailed   // a weight was not a number but a previous weight was still set: the program stops with a ValueError

  /** How a conversion ended. */
  datatype ConversionOutcome =
    | Refused             // no formula entered yet
    | Converted
    | DivisionByZero      // a molarity of 0: the program stops with a ZeroDivisionError

  function GramsFromMoles(moles: real, weight: real): real
  {
    weight * moles
  }

  function MolesFromGrams(grams: real, weight: real): real
    requires weight != 0.0
  {
    grams / weight
  }

  function MillilitresFromMoles(moles: real, molarity: real): real
    requires molarity != 0.0
  {
    moles * 1000.0 / molarity
  }

  /** Converting grams to moles and back gives the grams back. */
  lemma GramsRoundTrip(grams: real, weight: real)
    requires weight != 0.0
    ensures GramsFromMoles(MolesFromGrams(grams, weight), weight) == grams
  {
  }

  /** Converting moles to grams and back gives the moles back. */
  lemma MolesRoundTrip(moles: real, weight: real)
    requires weight != 0.0
    ensures MolesFromGrams(GramsFromMoles(moles, weight), weight) == moles
  {
  }

  /** The volume holds the moles at the molarity: millilitres times moles per litre, over 1000, is the moles. */
  lemma MillilitresHoldMoles(moles: real, molarity: real)
    requires molarity != 0.0
    ensures MillilitresFromMoles(moles, molarity) * molarity / 1000.0 == moles
  {
  }

  class StoichiometryCalculator {
    // The periodic table, indexed four ways (atomic numbers and weights as the text of their column).
    const elementsByName: Table
    const elementsBySymbol: Table
    const elementsByNumber: Table
    const elementsByWeight: Table

    var molecules: seq<Entry>
    var formula: string
    var weight: real
    var grams: real
    var moles: real
    var ml: real

    /** A formula is only ever kept together with a non-zero weight, so converting grams to moles never divides by zero. */
    predicate Valid()
      reads this
    {
      formula != "" ==> weight != 0.0
    }

    constructor(byName: Table, bySymbol: Table, byNumber: Table, byWeight: Table)
      ensures elementsByName == byName && elementsBySymbol == bySymbol
      ensures elementsByNumber == byNumber && elementsByWeight == byWeight
      ensures molecules == [] && formula == "" && weight == 0.0
      ensures grams == 0.0 && moles == 0.0 && ml == 0.0
      ensures Valid()
    {
      elementsByName, elementsBySymbol := byName, bySymbol;
      elementsByNumber, elementsByWeight := byNumber, byWeight;
      molecules, formula, weight := [], "", 0.0;
      grams, moles, ml := 0.0, 0.0, 0.0;
    }

    /** Forget the formula: no entries, no formula, and every quantity back to 0. */
    method ResetData()
      modifies this
      ensures molecules == [] && formula == "" && weight == 0.0
      ensures grams == 0.0 && moles == 0.0 && ml == 0.0
      ensures Valid()
    {
      molecules, formula, weight := [], "", 0.0;
      grams, moles, ml := 0.0, 0.0, 0.0;
    }

    /**
     * Scan the formula once, left to right, looking each symbol up as soon as it is
     * complete; stop with no entries at the first symbol the table does not have.
     */
    method BreakDownFormula(f: string) returns (entries: seq<Entry>)
      ensures entries == BreakDown(elementsBySymbol, f)
    {
      var table := elementsBySymbol;
      entries := [];
      var element: string := "";
      var subscript: string := "1";
      var i := 0;
      while i < |f|
        invariant 0 <= i <= |f|
        invariant ScanUpTo(f, i).element == element && ScanUpTo(f, i).subscript == subscript
        invariant Lookup(table, ScanUpTo(f, i).emitted) == Some(entries)
        invariant 2 <= i < |f| ==> !(IsDigit(f[i - 1]) && IsDigit(f[i]))
      {
        var c := f[i];
        // A character is at most one of uppercase, lowercase and digit, so at most one branch applies.
        if IsUpper(c) {
          if element != "" {
            if element in table {
              LookupSnoc(table, ScanUpTo(f, i).emitted, Token(element, subscript));
              entries := entries + [Entry(element, table[element].weight, subscript, None)];
            } else {
              ScanFailsAt(table, f, i);
              return [];
            }
          } else {
            assert ScanUpTo(f, i).emitted + [] == ScanUpTo(f, i).emitted;
          }
          element := [c];
          subscript := "1";
        } else if IsLower(c) {
          element := element + [c];
        } else if i != 0 && IsDigit(c) {
          subscript := [c];
          while i + 1 < |f| && IsDigit(f[i + 1])
            invariant 1 <= i < |f| && IsDigit(f[i])
            invariant ScanUpTo(f, i + 1).element == element && ScanUpTo(f, i + 1).subscript == subscript
            invariant Lookup(table, ScanUpTo(f, i + 1).emitted) == Some(entries)
          {
            subscript := subscript + [f[i + 1]];
            i := i + 1;
          }
        }
        i := i + 1;
      }
      BreakDownAtEnd(table, f, entries);
      if element in table {
        entries := entries + [Entry(element, table[element].weight, subscript, None)];
      } else {
        return [];
      }
    }

    /** Add up weight times count over the entries; leave the weight as it was when some weight is not a number. */
    method CalculateWeight()
      modifies this`weight
      ensures AllNumeric(molecules) ==> weight == Sum(molecules)
      ensures !AllNumeric(molecules) ==> weight == old(weight)
    {
      var total := 0.0;
      var k := 0;
      while k < |molecules|
        invariant 0 <= k <= |molecules|
        invariant AllNumeric(molecules[..k])
        invariant total == Sum(molecules[..k])
        invariant weight == old(weight)
      {
        var m := molecules[k];
        if m.weight.NotNumeric? {
          assert !AllNumeric(molecules);
          return;
        }
        assert molecules[..k + 1] == molecules[..k] + [m];
        SumSnoc(molecules[..k], m);
        total := total + Scaled(m.weight.value, m.subscript);
        k := k + 1;
      }
      assert molecules[..k] == molecules;
      weight := total;
    }

    /**
     * Store in each entry, in order, its mass over the current weight. Reading a weight that
     * is not a number stops the program: the entries before it keep their fraction.
     */
    method CalculatePercentageComposition() returns (ok: bool)
      requires weight != 0.0
      modifies this`molecules
      ensures ok <==> AllNumeric(old(molecules))
      ensures var f := FirstNotNumeric(old(molecules));
        molecules == WithComposition(old(molecules)[..f], weight) + old(molecules)[f..]
    {
      ghost var m0 := molecules;
      var k := 0;
      while k < |molecules|
        invariant 0 <= k <= |m0| && |molecules| == |m0|
        invariant k <= FirstNotNumeric(m0)
        invariant forall j :: 0 <= j < k ==> molecules[j] == WithFraction(m0[j], weight)
        invariant forall j :: k <= j < |m0| ==> molecules[j] == m0[j]
      {
        if molecules[k].weight.NotNumeric? {
          CompositionPrefix(m0, molecules, k, weight);
          return false;
        }
        molecules := molecules[k := WithFraction(molecules[k], weight)];
        k := k + 1;
      }
      CompositionPrefix(m0, molecules, k, weight);
      return true;
    }

    /**
     * A formula typed at the prompt: break it down (the entries are replaced even when that
     * fails), then keep it, compute its weight, and either reset on a weight of 0 or store
     * the composition.
     */
    method EnterFormula(entry: string) returns (outcome: EntryOutcome)
      requires Valid()
      modifies this
      ensures Valid()
      ensures var parsed := BreakDown(elementsBySymbol, entry);
        && (parsed == [] ==>
              outcome == NotRecognised && molecules == [] && formula == old(formula) && weight == old(weight)
              && grams == old(grams) && moles == old(moles) && ml == old(ml))
        && (parsed != [] && AllNumeric(parsed) && Sum(parsed) != 0.0 ==>
              outcome == Accepted && formula == entry && weight == Sum(parsed)
              && molecules == WithComposition(parsed, Sum(parsed)) && FractionSum(molecules) == 1.0
              && grams == old(grams) && moles == old(moles) && ml == old(ml))
        && (parsed != [] && AllNumeric(parsed) && Sum(parsed) == 0.0 ==>
              outcome == ZeroWeight && molecules == [] && formula == "" && weight == 0.0
              && grams == 0.0 && moles == 0.0 && ml == 0.0)
        && (parsed != [] && !AllNumeric(parsed) && old(weight) == 0.0 ==>
              outcome == ZeroWeight && molecules == [] && formula == "" && weight == 0.0
              && grams == 0.0 && moles == 0.0 && ml == 0.0)
        && (parsed != [] && !AllNumeric(parsed) && old(weight) != 0.0 ==>
              outcome == CompositionFailed && formula == entry && weight == old(weight)
              && molecules == WithComposition(parsed[..FirstNotNumeric(parsed)], old(weight)) + parsed[FirstNotNumeric(parsed)..]
              && grams == old(grams) && moles == old(moles) && ml == old(ml))
    {
      var parsed := BreakDownFormula(entry);
      molecules := parsed;
      if molecules == [] {
        return NotRecognised;
      }
      formula := entry;
      CalculateWeight();
      if weight == 0.0 {
        ResetData();
        return ZeroWeight;
      }
      var ok := CalculatePercentageComposition();
      if ok {
        assert FirstNotNumeric(parsed) == |parsed| && parsed[..|parsed|] == parsed && parsed[|parsed|..] == [];
        FractionsSumToOne(parsed);
        outcome := Accepted;
      } else {
        outcome := CompositionFailed;
      }
    }

    /** Moles to grams: the grams are the weight times the moles. */
    method MolesToGrams(amount: real) returns (outcome: ConversionOutcome)
      modifies this`moles, this`grams
      ensures formula == "" ==> outcome == Refused && moles == old(moles) && grams == old(grams)
      ensures formula != "" ==> outcome == Converted && moles == amount && grams == GramsFromMoles(amount, weight)
    {
      if formula == "" {
        return Refused;
      }
      moles := amount;
      grams := weight * moles;
      outcome := Converted;
    }

    /** Grams to moles: the moles are the grams over the weight, which a kept formula never has at 0. */
    method GramsToMoles(amount: real) returns (outcome: ConversionOutcome)
      requires Valid()
      modifies this`grams, this`moles
      ensures formula == "" ==> outcome == Refused && grams == old(grams) && moles == old(moles)
      ensures formula != "" ==> outcome == Converted && grams == amount && moles == MolesFromGrams(amount, weight)
    {
      if formula == "" {
        return Refused;
      }
      grams := amount;
      moles := grams / weight;
      outcome := Converted;
    }

    /** Moles to millilitres of a solution of the given molarity (moles per 1000 ml). */
    method MolesToMillilitres(amount: real, molarity: real) returns (outcome: ConversionOutcome)
      modifies this`moles, this`ml
      ensures formula == "" ==> outcome == Refused && moles == old(moles) && ml == old(ml)
      ensures formula != "" && molarity == 0.0 ==> outcome == DivisionByZero && moles == amount && ml == old(ml)
      ensures formula != "" && molarity != 0.0 ==>
        outcome == Converted && moles == amount && ml == MillilitresFromMoles(amount, molarity)
    {
      if formula == "" {
        return Refused;
      }
      moles := amount;
      if molarity == 0.0 {
        return DivisionByZero;
      }
      ml := moles * 1000.0 / molarity;
      outcome := Converted;
    }

    /** Look a key up as a name, then as a symbol, then as an atomic number, then as a weight. */
    function Search(key: string): (r: Option<Element>)
      reads this
      ensures r == None <==>
        key !in elementsByName && key !in elementsBySymbol && key !in elementsByNumber && key !in elementsByWeight
      ensures r != None ==>
        r.value in (elementsByName.Values + elementsBySymbol.Values + elementsByNumber.Values + elementsByWeight.Values)
      ensures key in elementsByName ==> r == Some(elementsByName[key])
      ensures key !in elementsByName && key in elementsBySymbol ==> r == Some(elementsBySymbol[key])
      ensures key !in elementsByName && key !in elementsBySymbol && key in elementsByNumber ==>
        r == Some(elementsByNumber[key])
      ensures key !in elementsByName && key !in elementsBySymbol && key !in elementsByNumber && key in elementsByWeight ==>
        r == Some(elementsByWeight[key])
    {
      if key in elementsByName then Some(elementsByName[key])
      else if key in elementsBySymbol then Some(elementsBySymbol[key])
      else if key in elementsByNumber then Some(elementsByNumber[key])
      else if key in elementsByWeight then Some(elementsByWeight[key])
      else None
    }
  }

  /** Entries whose first f members carry their fraction and whose others are unchanged are the composition of the first f, followed by the rest. */
  lemma CompositionPrefix(m0: seq<Entry>, ms: seq<Entry>, f: nat, total: real)
    requires total != 0.0 && f <= |m0| == |ms|
    requires forall j :: 0 <= j < f ==> ms[j] == WithFraction(m0[j], total)
    requires forall j :: f <= j < |m0| ==> ms[j] == m0[j]
    ensures ms == WithComposition(m0[..f], total) + m0[f..]
  {
    CompositionKeepsEntries(m0[..f], total);
  }
}
