/** A model of the parameter descriptors of moldesign: the `Parameter` record
    built from optional arguments, and `named_dict`, which keys a sequence of
    descriptors by name. Physical units are symbolic tags; nothing is ever
    converted between them. */
module Parameters {

  datatype Option<+T> = None | Some(value: T)

  /** A physical unit, known only by the expression that names it
      (`nm`, `fs`, `default.time`, `1/ps`, ...). */
  datatype Unit = Unit(symbol: string)

  /** A physical quantity: a magnitude carrying a unit. */
  datatype Quantity = Quantity(magnitude: real, unit: Unit)

  /** The values a parameter can hold as its default or among its choices. */
  datatype Value =
    | NoneValue
    | BoolValue(b: bool)
    | IntValue(i: int)
    | FloatValue(f: real)
    | StrValue(s: string)
    | QuantityValue(q: Quantity)

  /** A Python class passed as a parameter's type. */
  datatype Kind = FloatKind | IntKind | StrKind | BoolKind | ClassKind(className: string)

  /** What may be passed as the `type` argument: nothing, a class, a bare
      unit, or a quantity (whose unit is what matters). */
  datatype TypeSpec =
    | NoType
    | Prim(kind: Kind)
    | UnitSpec(unit: Unit)
    | QuantitySpec(q: Quantity)
  {
    /** True for the arguments that declare a physical unit. */
    predicate CarriesUnit() {
      UnitSpec? || QuantitySpec?
    }
  }

  /** A method's parameter. Everything but `value` is fixed at construction;
      `value` is the slot a consumer later binds user input to. */
  class Parameter {
    const name: string
    const displayname: string
    var value: Value
    const default: Value
    const choices: seq<Value>
    const declaredType: TypeSpec
    const helpUrl: Option<string>
    const units: Option<Unit>
    const selectMultiple: bool

    /** A recorded unit always comes with the float type, and the stored
        type is never itself a unit or a quantity. */
    predicate Valid()
    {
      && !declaredType.CarriesUnit()
      && (units.Some? ==> declaredType == Prim(FloatKind))
    }

    constructor (name: string,
                 shortDescription: Option<string> := None,
                 typeArg: TypeSpec := NoType,
                 default: Value := NoneValue,
                 choices: Option<seq<Value>> := None,
                 selectMultiple: bool := false,
                 helpUrl: Option<string> := None)
      ensures Valid()
      ensures this.name == name
      ensures shortDescription.None? ==> displayname == name
      ensures shortDescription.Some? ==> displayname == shortDescription.value
      ensures value == NoneValue
      ensures this.default == default
      ensures choices.None? ==> this.choices == []
      ensures choices.Some? ==> this.choices == choices.value
      ensures typeArg.UnitSpec? ==> declaredType == Prim(FloatKind) && units == Some(typeArg.unit)
      ensures typeArg.QuantitySpec? ==> declaredType == Prim(FloatKind) && units == Some(typeArg.q.unit)
      ensures !typeArg.CarriesUnit() ==> declaredType == typeArg && units == None
      ensures this.helpUrl == helpUrl
      ensures this.selectMultiple == selectMultiple
    {
      this.name := name;
      this.displayname := if shortDescription.Some? then shortDescription.value else name;
      this.value := NoneValue;
      this.default := default;
      this.choices := if choices.Some? then choices.value else [];
      this.declaredType := typeArg;
      this.helpUrl := helpUrl;
      var t := typeArg;
      if t.QuantitySpec? {
        t := UnitSpec(t.q.unit);
      }
      if t.UnitSpec? {
        this.declaredType := Prim(FloatKind);
        this.units := Some(t.unit);
      } else {
        this.units := None;
      }
      this.selectMultiple := selectMultiple;
    }
  }

  /** The names carried by the descriptors of `l`. */
  ghost function Names(l: seq<Parameter>): set<string>
  {
    set i | 0 <= i < |l| :: l[i].name
  }

  /** `i` is the position of the last descriptor of `l` with its name. */
  ghost predicate IsLastNamed(l: seq<Parameter>, i: int)
  {
    0 <= i < |l| && forall j :: i < j < |l| ==> l[j].name != l[i].name
  }

  /** No two of the first `n` descriptors of `l` share a name. */
  ghost predicate DistinctNamesUpTo(l: seq<Parameter>, n: nat)
    requires n <= |l|
  {
    forall i, j :: 0 <= i < j < n ==> l[i].name != l[j].name
  }

  /** No two descriptors of `l` share a name. */
  ghost predicate DistinctNames(l: seq<Parameter>)
  {
    DistinctNamesUpTo(l, |l|)
  }

  /** The mapping once the first `n` descriptors of `l` have been inserted,
      each under its name, in order. */
  function InsertAll(l: seq<Parameter>, n: nat): map<string, Parameter>
    requires n <= |l|
  {
    if n == 0 then map[] else InsertAll(l, n - 1)[l[n - 1].name := l[n - 1]]
  }

  /** The mapping from name to descriptor that `named_dict` builds with a
      dict comprehension: every descriptor is inserted in order, so a later
      one replaces an earlier one with the same name. */
  function NamedDict(l: seq<Parameter>): map<string, Parameter>
  {
    InsertAll(l, |l|)
  }

  /** The keys after `n` insertions are the first `n` names. */
  lemma {:induction false} InsertAllKeys(l: seq<Parameter>, n: nat)
    requires n <= |l|
    ensures InsertAll(l, n).Keys == set i | 0 <= i < n :: l[i].name
  {
    if n > 0 {
      InsertAllKeys(l, n - 1);
      assert (set i | 0 <= i < n :: l[i].name)
          == (set i | 0 <= i < n - 1 :: l[i].name) + {l[n - 1].name};
    }
  }

  /** The keys of the mapping are exactly the names occurring in `l`. */
  lemma NamedDictKeys(l: seq<Parameter>)
    ensures NamedDict(l).Keys == Names(l)
  {
    InsertAllKeys(l, |l|);
  }

  /** A descriptor not shadowed within the first `n` is what its name maps
      to after `n` insertions. */
  lemma {:induction false} InsertAllLastWins(l: seq<Parameter>, n: nat, i: nat)
    requires i < n <= |l|
    requires forall j :: i < j < n ==> l[j].name != l[i].name
    ensures l[i].name in InsertAll(l, n) && InsertAll(l, n)[l[i].name] == l[i]
  {
    if i < n - 1 {
      InsertAllLastWins(l, n - 1, i);
    }
  }

  /** Each descriptor that no later one shadows is what its name looks up. */
  lemma NamedDictLastWins(l: seq<Parameter>, i: int)
    requires IsLastNamed(l, i)
    ensures l[i].name in NamedDict(l) && NamedDict(l)[l[i].name] == l[i]
  {
    InsertAllLastWins(l, |l|, i);
  }

  /** Every entry of the mapping is the last descriptor of `l` with its name. */
  lemma NamedDictEntryIsLast(l: seq<Parameter>, k: string)
    requires k in NamedDict(l)
    ensures exists i :: IsLastNamed(l, i) && l[i].name == k && NamedDict(l)[k] == l[i]
  {
    NamedDictKeys(l);
    var i :| 0 <= i < |l| && l[i].name == k;
    while exists j :: i < j < |l| && l[j].name == k
      invariant 0 <= i < |l| && l[i].name == k
      decreases |l| - i
    {
      var j :| i < j < |l| && l[j].name == k;
      i := j;
    }
    NamedDictLastWins(l, i);
  }

  /** With distinct names, every descriptor is found under its own name. */
  lemma NamedDictDistinctLookup(l: seq<Parameter>)
    requires DistinctNames(l)
    ensures forall i :: 0 <= i < |l| ==> l[i].name in NamedDict(l) && NamedDict(l)[l[i].name] == l[i]
  {
    forall i | 0 <= i < |l|
      ensures l[i].name in NamedDict(l) && NamedDict(l)[l[i].name] == l[i]
    {
      NamedDictLastWins(l, i);
    }
  }

  /** Extending a prefix keeps its names distinct exactly when the added
      name is new. */
  lemma DistinctNamesStep(l: seq<Parameter>, n: nat)
    requires 0 < n <= |l|
    ensures DistinctNamesUpTo(l, n) <==>
            DistinctNamesUpTo(l, n - 1) && l[n - 1].name !in (set i | 0 <= i < n - 1 :: l[i].name)
  {
  }

  /** After `n` insertions there are at most `n` entries, and exactly `n`
      when the first `n` names are distinct. */
  lemma {:induction false} InsertAllSize(l: seq<Parameter>, n: nat)
    requires n <= |l|
    ensures |InsertAll(l, n)| <= n
    ensures |InsertAll(l, n)| == n <==> DistinctNamesUpTo(l, n)
  {
    if n > 0 {
      InsertAllSize(l, n - 1);
      InsertAllKeys(l, n - 1);
      DistinctNamesStep(l, n);
      var d, d' := InsertAll(l, n - 1), InsertAll(l, n);
      var k := l[n - 1].name;
      if k in d {
        assert d'.Keys == d.Keys;
      } else {
        assert d'.Keys == d.Keys + {k};
      }
    }
  }

  /** The mapping never has more entries than there are descriptors, and it
      has exactly as many precisely when the names are distinct. */
  lemma NamedDictSize(l: seq<Parameter>)
    ensures |NamedDict(l)| <= |l|
    ensures |NamedDict(l)| == |l| <==> DistinctNames(l)
  {
    InsertAllSize(l, |l|);
  }

  /** Inserting all of `l1` and then `n` descriptors of `l2` overrides the
      mapping of `l1` with that of those `n` descriptors. */
  lemma {:induction false} InsertAllAppend(l1: seq<Parameter>, l2: seq<Parameter>, n: nat)
    requires n <= |l2|
    ensures InsertAll(l1 + l2, |l1| + n) == NamedDict(l1) + InsertAll(l2, n)
  {
    if n == 0 {
      InsertAllSameFirst(l1 + l2, l1, |l1|);
    } else {
      InsertAllAppend(l1, l2, n - 1);
      assert (l1 + l2)[|l1| + n - 1] == l2[n - 1];
    }
  }

  /** The mapping after `n` insertions depends only on the first `n`
      descriptors. */
  lemma {:induction false} InsertAllSameFirst(l: seq<Parameter>, l': seq<Parameter>, n: nat)
    requires n <= |l| && n <= |l'|
    requires forall i :: 0 <= i < n ==> l[i] == l'[i]
    ensures InsertAll(l, n) == InsertAll(l', n)
  {
    if n > 0 {
      InsertAllSameFirst(l, l', n - 1);
    }
  }

  /** Building from a concatenation is building both halves and letting the
      second half's entries override the first's. */
  lemma NamedDictAppend(l1: seq<Parameter>, l2: seq<Parameter>)
    ensures NamedDict(l1 + l2) == NamedDict(l1) + NamedDict(l2)
  {
    InsertAllAppend(l1, l2, |l2|);
  }
}
