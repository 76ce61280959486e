/** Rules of a line-item legend: raw JSON, the parser that types it, and the validator in front of the parser. */
module LegendRules {
  import opened Basics

  /** A parsed number is finite or, from a literal such as 1e999, infinite. */
  datatype Num = Finite(value: real) | Infinite(negative: bool)

  datatype Json = Null | Bool(b: bool) | Number(n: Num) | String(s: string) | Array(items: seq<Json>)
                | Object(fields: map<string, Json>)

  /** `typeof x === 'object' && x !== null`, which arrays are too. */
  predicate IsObject(j: Json) { j.Object? || j.Array? }

  /** A property read; None is undefined. None of the properties asked for below exists on an array. */
  function Get(j: Json, key: string): Option<Json> {
    if j.Object? && key in j.fields then Some(j.fields[key]) else None
  }

  const OPERATORS: seq<string> := ["<=", ">=", "===", "!==", "<", ">"]

  datatype LinearOperand = LinearOperand(code: string, sign: int)

  datatype Rule =
    | Comparison(operator: string, value: real)
    | Sum(operands: seq<string>)
    | Diff(operands: seq<string>)
    | Linear(linear: seq<LinearOperand>)

  // ----- what a raw rule means

  predicate IsString(j: Option<Json>) { j.Some? && j.value.String? }

  predicate IsFinite(j: Option<Json>) { j.Some? && j.value.Number? && j.value.n.Finite? }

  predicate IsOperator(j: Option<Json>) { IsString(j) && j.value.s in OPERATORS }

  predicate IsSign(j: Option<Json>) { IsFinite(j) && (j.value.n.value == 1.0 || j.value.n.value == -1.0) }

  predicate IsLinearOperand(j: Json) { IsObject(j) && IsString(Get(j, "code")) && IsSign(Get(j, "sign")) }

  function ToLinear(j: Json): LinearOperand
    requires IsLinearOperand(j)
  {
    LinearOperand(Get(j, "code").value.s, if Get(j, "sign").value.n.value == 1.0 then 1 else -1)
  }

  predicate HasType(j: Json, type_: string) { Get(j, "type") == Some(String(type_)) }

  predicate HasOperation(j: Json, operation: string) { Get(j, "operation") == Some(String(operation)) }

  function Operands(j: Json): seq<Json> {
    var ops := Get(j, "operands");
    if ops.Some? && ops.value.Array? then ops.value.items else []
  }

  predicate AllStrings(items: seq<Json>) { forall i :: 0 <= i < |items| ==> items[i].String? }

  predicate AllLinear(items: seq<Json>) { forall i :: 0 <= i < |items| ==> IsLinearOperand(items[i]) }

  function Strings(items: seq<Json>): seq<string>
    requires AllStrings(items)
  {
    seq(|items|, i requires 0 <= i < |items| => items[i].s)
  }

  function Linears(items: seq<Json>): seq<LinearOperand>
    requires AllLinear(items)
  {
    seq(|items|, i requires 0 <= i < |items| => ToLinear(items[i]))
  }

  /** The rule a raw value stands for, if any. */
  function Meaning(j: Json): Option<Rule> {
    var ops := Operands(j);
    if HasType(j, "comparison") && IsOperator(Get(j, "operator")) && IsFinite(Get(j, "value")) then
      Some(Comparison(Get(j, "operator").value.s, Get(j, "value").value.n.value))
    else if HasType(j, "formula") && ops != [] && HasOperation(j, "sum") && AllStrings(ops) then Some(Sum(Strings(ops)))
    else if HasType(j, "formula") && ops != [] && HasOperation(j, "diff") && AllStrings(ops) then Some(Diff(Strings(ops)))
    else if HasType(j, "formula") && ops != [] && HasOperation(j, "linear") && AllLinear(ops) then Some(Linear(Linears(ops)))
    else None
  }

  method ParseRule(rule: Json) returns (r: Option<Rule>)
    ensures r == Meaning(rule)
  {
    if !IsObject(rule) { return None; }
    if Get(rule, "type") == Some(String("comparison")) {
      var operator, value := Get(rule, "operator"), Get(rule, "value");
      if !(IsString(operator) && operator.value.s in OPERATORS) { return None; }
      if !IsFinite(value) { return None; }
      return Some(Comparison(operator.value.s, value.value.n.value));
    }
    if Get(rule, "type") == Some(String("formula")) {
      var operation, operands := Get(rule, "operation"), Get(rule, "operands");
      if operands.None? || !operands.value.Array? || operands.value.items == [] { return None; }
      var items := operands.value.items;
      if operation == Some(String("sum")) || operation == Some(String("diff")) {
        if exists i :: 0 <= i < |items| && !items[i].String? { return None; }
        return Some(if operation == Some(String("sum")) then Sum(Strings(items)) else Diff(Strings(items)));
      }
      if operation == Some(String("linear")) {
        var parsed: seq<LinearOperand> := [];
        for i := 0 to |items|
          invariant AllLinear(items[..i]) && parsed == Linears(items[..i])
        {
          var op := items[i];
          if !IsLinearOperand(op) { return None; }
          assert items[..i + 1] == items[..i] + [op];
          parsed := parsed + [ToLinear(op)];
        }
        assert items[..|items|] == items;
        return Some(Linear(parsed));
      }
    }
    r := None;
  }

  // ----- the validator

  datatype Fault = NotAnObject | BadType | BadOperation | LinearOperandsKey | NoOperands | BadOperand(index: nat)
                 | BadOperator | BadValue

  method CheckOperands(items: seq<Json>, linear: bool) returns (faults: seq<Fault>)
    ensures faults == [] <==> if linear then AllLinear(items) else AllStrings(items)
    ensures forall k: nat :: BadOperand(k) in faults <==>
              k < |items| && !(if linear then IsLinearOperand(items[k]) else items[k].String?)
  {
    faults := [];
    for i := 0 to |items|
      invariant faults == [] <==> if linear then AllLinear(items[..i]) else AllStrings(items[..i])
      invariant forall k: nat :: BadOperand(k) in faults <==>
                  k < i && !(if linear then IsLinearOperand(items[k]) else items[k].String?)
    {
      assert items[..i + 1] == items[..i] + [items[i]];
      if linear {
        if !IsLinearOperand(items[i]) { faults := faults + [BadOperand(i)]; }
      } else {
        if !items[i].String? { faults := faults + [BadOperand(i)]; }
      }
    }
    assert items[..|items|] == items;
  }

  predicate ShapeOk(rule: Json) { Meaning(rule).Some? && !(HasType(rule, "formula") && Get(rule,
      "linearOperands").Some?) }

  /**
   The validator accepts exactly the values the parser gives a meaning to, except a formula that carries a key
   `linearOperands`, which the parser would silently drop.
   */
  method ValidateRuleShape(rule: Json) returns (faults: seq<Fault>)
    ensures faults == [] <==> ShapeOk(rule)
  {
    if !IsObject(rule) { return [NotAnObject]; }
    if !HasType(rule, "formula") && !HasType(rule, "comparison") { return [BadType]; }
    faults := [];
    if HasType(rule, "formula") {
      if !HasOperation(rule, "sum") && !HasOperation(rule, "diff") && !HasOperation(rule, "linear") {
        faults := faults + [BadOperation];
      }
      if Get(rule, "linearOperands").Some? {
        faults := faults + [LinearOperandsKey];
      }
      var operands := Get(rule, "operands");
      if operands.None? || !operands.value.Array? || operands.value.items == [] {
        faults := faults + [NoOperands];
      } else {
        var more := CheckOperands(operands.value.items, HasOperation(rule, "linear"));
        faults := faults + more;
      }
    }
    if HasType(rule, "comparison") {
      if !IsOperator(Get(rule, "operator")) {
        faults := faults + [BadOperator];
      }
      if !IsFinite(Get(rule, "value")) {
        faults := faults + [BadValue];
      }
    }
  }

  // ----- storing and reading back

  function FromLinear(o: LinearOperand): Json {
    Object(map["code" := String(o.code), "sign" := Number(Finite(o.sign as real))])
  }

  /** A typed rule as it is stored. */
  function ToJson(r: Rule): Json {
    match r
    case Comparison(operator, value) =>
      Object(map["type" := String("comparison"), "operator" := String(operator), "value" := Number(Finite(value))])
    case Sum(operands) => Formula("sum", seq(|operands|, i requires 0 <= i < |operands| => String(operands[i])))
    case Diff(operands) => Formula("diff", seq(|operands|, i requires 0 <= i < |operands| => String(operands[i])))
    case Linear(operands) => Formula("linear", seq(|operands|, i requires 0 <= i < |operands| => FromLinear(operands[i])))
  }

  function Formula(operation: string, operands: seq<Json>): Json {
    Object(map["type" := String("formula"), "operation" := String(operation), "operands" := Array(operands)])
  }

  /** Storing a parsed rule and parsing it again gives the same rule, and the stored form passes the validator. */
  lemma StoredRuleReadsBack(raw: Json)
    requires Meaning(raw).Some?
    ensures Meaning(ToJson(Meaning(raw).value)) == Meaning(raw) && ShapeOk(ToJson(Meaning(raw).value))
  {
    var r := Meaning(raw).value;
    var ops := Operands(ToJson(r));
    match r
    case Comparison(_, _) =>
    case Sum(operands) => assert Strings(ops) == operands;
    case Diff(operands) => assert Strings(ops) == operands;
    case Linear(operands) => assert Linears(ops) == operands;
  }

  // ----- a rule and the raw value that spells it

  predicate SpellsCodes(items: seq<Json>, codes: seq<string>) {
    |items| == |codes| && forall k :: 0 <= k < |items| ==> items[k] == String(codes[k])
  }

  predicate SpellsOperand(j: Json, o: LinearOperand) {
    && Get(j, "code") == Some(String(o.code))
    && Get(j, "sign") == Some(Number(Finite(o.sign as real))) && (o.sign == 1 || o.sign == -1)
  }

  predicate SpellsFormula(j: Json, operation: string) {
    && Get(j, "type") == Some(String("formula")) && Get(j, "operation") == Some(String(operation))
    && Get(j, "operands").Some? && Get(j, "operands").value.Array? && Get(j, "operands").value.items != []
  }

  /** The raw value has the kind of the rule, and its parts one by one. */
  predicate Spells(j: Json, r: Rule) {
    match r
    case Comparison(operator, value) =>
      && Get(j, "type") == Some(String("comparison")) && Get(j, "operator") == Some(String(operator))
      && operator in ["<=", ">=", "===", "!==", "<", ">"] && Get(j, "value") == Some(Number(Finite(value)))
    case Sum(codes) => SpellsFormula(j, "sum") && SpellsCodes(Get(j, "operands").value.items, codes)
    case Diff(codes) => SpellsFormula(j, "diff") && SpellsCodes(Get(j, "operands").value.items, codes)
    case Linear(operands) =>
      SpellsFormula(j, "linear") &&
      var items := Get(j, "operands").value.items;
      |items| == |operands| && forall k :: 0 <= k < |items| ==> SpellsOperand(items[k], operands[k])
  }

  lemma CodesSpelled(items: seq<Json>, codes: seq<string>)
    ensures SpellsCodes(items, codes) <==> AllStrings(items) && Strings(items) == codes
  {
    if SpellsCodes(items, codes) {
      assert Strings(items) == codes;
    }
  }

  lemma OperandsSpelled(items: seq<Json>, operands: seq<LinearOperand>)
    ensures (|items| == |operands| && forall k :: 0 <= k < |items| ==> SpellsOperand(items[k], operands[k]))
       <==> AllLinear(items) && Linears(items) == operands
  {
    if |items| == |operands| && forall k :: 0 <= k < |items| ==> SpellsOperand(items[k], operands[k]) {
      forall k | 0 <= k < |items| ensures IsLinearOperand(items[k]) && ToLinear(items[k]) == operands[k] {
        assert SpellsOperand(items[k], operands[k]);
      }
      assert Linears(items) == operands;
    } else if AllLinear(items) && Linears(items) == operands {
      forall k | 0 <= k < |items| ensures SpellsOperand(items[k], operands[k]) {
        assert Linears(items)[k] == ToLinear(items[k]) && IsLinearOperand(items[k]);
      }
    }
  }

  /** A raw value is parsed as exactly the rule it spells. */
  lemma MeaningIsSpelled(j: Json, r: Rule)
    ensures Meaning(j) == Some(r) <==> Spells(j, r)
  {
    match r
    case Comparison(_, _) =>
    case Sum(codes) => CodesSpelled(Operands(j), codes);
    case Diff(codes) => CodesSpelled(Operands(j), codes);
    case Linear(operands) => OperandsSpelled(Operands(j), operands);
  }
}
