/**
 * The electron-shell structure: subshell types with their fixed orbital counts, orbitals with
 * two spin slots each, subshells, and shells whose subshells depend on the principal quantum
 * number. A call that the program ends with an error message becomes a refusing outcome, or a
 * precondition where the program would never get past its constructor.
 */
module Shells {
  import opened Wrappers

  /** The subshell types, by azimuthal quantum number: s, p, d, f. */
  datatype Kind = S | P | D | F

  /** The subshell types in the order the program lists them. */
  const Kinds: seq<Kind> := [S, P, D, F]

  /** The letter a subshell type is written with. */
  function KindName(k: Kind): char
  {
    match k
    case S => 's'
    case P => 'p'
    case D => 'd'
    case F => 'f'
  }

  /** The subshell type a string names, if it names one. */
  function ParseKind(t: string): (r: Option<Kind>)
    ensures r.Some? <==> t in ["s", "p", "d", "f"]
    ensures r.Some? ==> t == [KindName(r.value)]
  {
    if t == "s" then Some(S)
    else if t == "p" then Some(P)
    else if t == "d" then Some(D)
    else if t == "f" then Some(F)
    else None
  }

  /** Writing a subshell type and reading it back gives the same type. */
  lemma KindRoundTrip(k: Kind)
    ensures ParseKind([KindName(k)]) == Some(k)
  {
  }

  /** The azimuthal quantum number of a subshell type: its position in the list of types. */
  function Azimuthal(k: Kind): (l: nat)
    ensures l < |Kinds| && Kinds[l] == k
  {
    match k
    case S => 0
    case P => 1
    case D => 2
    case F => 3
  }

  /** How many orbitals a subshell of the given type has: one per magnetic quantum number from -l to l. */
  function OrbitalAmount(k: Kind): nat
  {
    2 * Azimuthal(k) + 1
  }

  /** The orbital counts are 1, 3, 5 and 7 for s, p, d and f. */
  lemma OrbitalAmounts()
    ensures OrbitalAmount(S) == 1 && OrbitalAmount(P) == 3 && OrbitalAmount(D) == 5 && OrbitalAmount(F) == 7
  {
  }

  /** Build the table of orbital counts the way the program does: walk the types, counting up by two from one. */
  method BuildOrbitalAmounts() returns (m: map<Kind, nat>)
    ensures forall k :: k in m && m[k] == OrbitalAmount(k)
  {
    m := map[];
    var amount := 1;
    for j := 0 to |Kinds|
      invariant amount == 2 * j + 1
      invariant forall k :: k in m <==> Azimuthal(k) < j
      invariant forall k :: k in m ==> m[k] == OrbitalAmount(k)
    {
      m := m[Kinds[j] := amount];
      amount := amount + 2;
    }
  }

  /** The two spin states an electron can have. */
  datatype Spin = Up | Down

  /** An electron, known only by its spin. */
  datatype Electron = Electron(spin: Spin)

  /** The spin quantum number a spin is written as: 0 for up, 1 for down. */
  function SpinNumber(s: Spin): int
  {
    match s
    case Up => 0
    case Down => 1
  }

  /** A spin quantum number the program accepts: one of the keys 0 and 1. */
  predicate ValidSpin(ms: int)
  {
    ms == 0 || ms == 1
  }

  /** The electron with the given spin number, or nothing when the number is not a valid spin. */
  function NewElectron(ms: int): (r: Option<Electron>)
    ensures r.Some? <==> ValidSpin(ms)
    ensures r.Some? ==> SpinNumber(r.value.spin) == ms
  {
    if ms == 0 then Some(Electron(Up)) else if ms == 1 then Some(Electron(Down)) else None
  }

  /** Writing a spin as its number and making an electron from that number gives back the spin. */
  lemma SpinRoundTrip(s: Spin)
    ensures NewElectron(SpinNumber(s)) == Some(Electron(s))
  {
  }

  /** How an update of an orbital's electron slot ends. */
  datatype UpdateOutcome =
    | BadMagnetic       // the magnetic quantum number is refused
    | BadSpin           // the spin quantum number is refused
    | SlotOutOfRange    // the number got past the check but names no orbital (an IndexError)
    | Updated           // the slot now holds an electron of that spin

  /** The magnetic-number check as written: only numbers above the orbital count, or below zero, are refused. */
  predicate MagneticAccepted(ml: int, count: nat)
  {
    !(ml > count || ml < 0)
  }

  /** The check as evidently intended: exactly the positions of the orbital list. */
  predicate MagneticInRange(ml: int, count: nat)
  {
    0 <= ml < count
  }

  /** The check as written accepts every position of the list and exactly one number more: the count itself. */
  lemma {:induction false} AcceptedPastTheEnd(ml: int, count: nat)
    ensures MagneticInRange(ml, count) ==> MagneticAccepted(ml, count)
    ensures MagneticAccepted(ml, count) && !MagneticInRange(ml, count) <==> ml == count
  {
  }

  /** The orbitals of one subshell: two spin slots each, a slot being empty or holding an electron. */
  class Orbital {
    const kind: Kind
    const count: nat
    var electrons: seq<seq<Option<Electron>>>

    /** One pair of slots per orbital of the subshell type. */
    predicate Valid()
      reads this
    {
      && count == OrbitalAmount(kind)
      && |electrons| == count
      && forall j :: 0 <= j < |electrons| ==> |electrons[j]| == 2
    }

    /** No slot holds an electron. */
    predicate Empty()
      reads this
    {
      forall j :: 0 <= j < |electrons| ==> electrons[j] == [None, None]
    }

    /** The orbitals of a subshell of the given type, every slot empty. */
    constructor(kind: Kind)
      ensures Valid() && this.kind == kind
      ensures Empty()
    {
      this.kind := kind;
      count := OrbitalAmount(kind);
      electrons := [];
      new;
      for j := 0 to count
        invariant |electrons| == j
        invariant forall i :: 0 <= i < j ==> electrons[i] == [None, None]
      {
        electrons := electrons + [[None, None]];
      }
    }

    /**
     * Put an electron of spin ms in slot ms of orbital ml, with the program's checks: the
     * magnetic number first, then the spin. A magnetic number equal to the count gets past
     * the first check and then names no orbital.
     */
    method UpdateElectron(ml: int, ms: int) returns (outcome: UpdateOutcome)
      requires Valid()
      modifies this`electrons
      ensures Valid()
      ensures outcome == BadMagnetic <==> !MagneticAccepted(ml, count)
      ensures outcome == BadSpin <==> MagneticAccepted(ml, count) && !ValidSpin(ms)
      ensures outcome == SlotOutOfRange <==> ml == count && ValidSpin(ms)
      ensures outcome == Updated <==> MagneticInRange(ml, count) && ValidSpin(ms)
      ensures outcome != Updated ==> electrons == old(electrons)
      ensures outcome == Updated ==> electrons == old(electrons)[ml := old(electrons)[ml][ms := NewElectron(ms)]]
    {
      if !MagneticAccepted(ml, count) {
        return BadMagnetic;
      }
      if !ValidSpin(ms) {
        return BadSpin;
      }
      if ml >= |electrons| {
        return SlotOutOfRange;
      }
      electrons := electrons[ml := electrons[ml][ms := NewElectron(ms)]];
      outcome := Updated;
    }

    /** The same update with the magnetic number checked against the positions of the list: every accepted update lands in a slot. */
    method UpdateElectronBounded(ml: int, ms: int) returns (outcome: UpdateOutcome)
      requires Valid()
      modifies this`electrons
      ensures Valid()
      ensures outcome != SlotOutOfRange
      ensures outcome == BadMagnetic <==> !MagneticInRange(ml, count)
      ensures outcome == BadSpin <==> MagneticInRange(ml, count) && !ValidSpin(ms)
      ensures outcome == Updated <==> MagneticInRange(ml, count) && ValidSpin(ms)
      ensures outcome != Updated ==> electrons == old(electrons)
      ensures outcome == Updated ==> electrons == old(electrons)[ml := old(electrons)[ml][ms := NewElectron(ms)]]
    {
      if !MagneticInRange(ml, count) {
        return BadMagnetic;
      }
      if !ValidSpin(ms) {
        return BadSpin;
      }
      electrons := electrons[ml := electrons[ml][ms := NewElectron(ms)]];
      outcome := Updated;
    }
  }

  /** An update that lands changes slot [ml][ms] to an electron of spin ms, and no other slot. */
  lemma OnlyOneSlotChanges(before: seq<seq<Option<Electron>>>, ml: nat, ms: nat)
    requires ml < |before| && ms < |before[ml]| && ValidSpin(ms)
    ensures var after := before[ml := before[ml][ms := NewElectron(ms)]];
      && |after| == |before|
      && (forall j :: 0 <= j < |after| ==> |after[j]| == |before[j]|)
      && after[ml][ms].Some? && SpinNumber(after[ml][ms].value.spin) == ms
      && (forall j, k :: 0 <= j < |after| && 0 <= k < |after[j]| && (j != ml || k != ms) ==> after[j][k] == before[j][k])
  {
  }

  /** A subshell: its type and its orbitals. */
  class Subshell {
    const kind: Kind
    const orbitals: Orbital

    constructor(kind: Kind)
      ensures this.kind == kind && orbitals.kind == kind && fresh(orbitals)
      ensures orbitals.Valid() && orbitals.Empty()
    {
      this.kind := kind;
      orbitals := new Orbital(kind);
    }
  }

  /** Whether a shell of principal quantum number n has a subshell of the given type. */
  predicate HasSubshell(n: int, k: Kind)
  {
    match k
    case S => true
    case P => n > 1
    case D => n > 3
    case F => n > 5
  }

  /** A shell: its principal quantum number and its subshells, by type. */
  class Shell {
    const n: int
    var subshells: map<Kind, Subshell>

    /** Every subshell is stored under its own type, with that type's number of orbitals. */
    predicate WellFormed()
      reads this
    {
      forall k :: k in subshells ==>
        subshells[k].kind == k && subshells[k].orbitals.kind == k && subshells[k].orbitals.count == OrbitalAmount(k)
    }

    /** Every subshell's orbitals are well formed and have every slot empty. */
    predicate Pristine()
      reads this, set k | k in subshells :: subshells[k].orbitals
    {
      forall k :: k in subshells ==> subshells[k].orbitals.Valid() && subshells[k].orbitals.Empty()
    }

    /**
     * The shell of principal quantum number n, which the program refuses above 7 (there are
     * seven periods). It always has an s subshell, a p subshell from n = 2, a d subshell from
     * n = 4 and an f subshell from n = 6, each with orbitals of its own and every slot empty.
     */
    constructor(n: int)
      requires n <= 7
      ensures this.n == n && WellFormed()
      ensures S in subshells
      ensures P in subshells <==> n > 1
      ensures D in subshells <==> n > 3
      ensures F in subshells <==> n > 5
      ensures Pristine()
      ensures forall k, k' :: k in subshells && k' in subshells && k != k' ==>
        subshells[k].orbitals != subshells[k'].orbitals
    {
      this.n := n;
      subshells := map[];
      new;
      AddSubshell(S);
      if n > 1 {
        AddSubshell(P);
      }
      if n > 3 {
        AddSubshell(D);
      }
      if n > 5 {
        AddSubshell(F);
      }
    }

    /** Store a new subshell of the given type, replacing any subshell of that type. */
    method AddSubshell(k: Kind)
      modifies this`subshells
      ensures k in subshells && subshells == old(subshells)[k := subshells[k]]
      ensures fresh(subshells[k]) && fresh(subshells[k].orbitals)
      ensures subshells[k].kind == k && subshells[k].orbitals.kind == k
      ensures subshells[k].orbitals.Valid() && subshells[k].orbitals.Empty()
      ensures old(WellFormed()) ==> WellFormed()
      ensures old(Pristine()) ==> Pristine()
    {
      var s := new Subshell(k);
      subshells := subshells[k := s];
    }
  }

  /** How many electrons the subshells of a shell of principal quantum number n hold, two per orbital. */
  function ShellCapacity(n: int): nat
  {
    (if HasSubshell(n, S) then 2 * OrbitalAmount(S) else 0)
    + (if HasSubshell(n, P) then 2 * OrbitalAmount(P) else 0)
    + (if HasSubshell(n, D) then 2 * OrbitalAmount(D) else 0)
    + (if HasSubshell(n, F) then 2 * OrbitalAmount(F) else 0)
  }

  /** The shells of the seven periods hold 2, 8, 8, 18, 18, 32 and 32 electrons: the lengths of the periods of the table. */
  lemma CapacitiesArePeriodLengths()
    ensures ShellCapacity(1) == 2 && ShellCapacity(2) == 8 && ShellCapacity(3) == 8
    ensures ShellCapacity(4) == 18 && ShellCapacity(5) == 18
    ensures ShellCapacity(6) == 32 && ShellCapacity(7) == 32
  {
  }
}
