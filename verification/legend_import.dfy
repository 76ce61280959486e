/** Import of line-item legends: validate the whole batch, check operand references, upsert. */
module LegendImport {
  import opened Basics
  import opened Text
  import opened LegendRules

  type Item = map<string, Json>

  const COMPUTED_CODES: seq<string> :=
    ["computed.totIncome", "computed.totExpenditure", "computed.totRevenue", "computed.totOwnRevenue"]

  const NORMAL_HEADS: seq<string> := ["INCOME", "EXPENDITURE", "BALANCE_SHEET", "ASSET", "LIABILITY"]

  function Field(item: Item, key: string): Option<Json> { if key in item then Some(item[key]) else None }

  function Code(item: Item): Option<string> { if IsString(Field(item,
      "nmamCode")) then Some(item["nmamCode"].s) else None }

  function CodeText(item: Item): string { if Code(item).Some? then Trim(Code(item).value) else "" }

  predicate IsComputed(item: Item) { Field(item, "isComputed") == Some(Bool(true)) }

  predicate IsActive(item: Item) { Field(item, "isActive") != Some(Bool(false)) }

  predicate IsMissing(item: Item, key: string) {
    Field(item, key) == None || Field(item, key) == Some(Null) || Field(item, key) == Some(String(""))
  }

  predicate SaysComputed(s: string) { |s| >= 9 && s[..9] == "computed." }

  function Items(j: Option<Json>): seq<Json> { if j.Some? && j.value.Array? then j.value.items else [] }

  // ----- one rule of a computed legend

  function OperandCode(rule: Json, k: nat): Option<string>
    requires k < |Operands(rule)|
  {
    var op := Operands(rule)[k];
    if HasOperation(rule, "linear") then
      if IsObject(op) && IsString(Get(op, "code")) then Some(Get(op, "code").value.s) else None
    else if op.String? then Some(op.s) else None
  }

  /** No reference to another computed legend, and no code twice. */
  predicate OperandsOk(rule: Json, n: nat)
    requires n <= |Operands(rule)|
  {
    && (forall k: nat :: k < n && OperandCode(rule, k).Some? ==> !SaysComputed(OperandCode(rule, k).value))
    && (forall k: nat, l: nat :: k < l < n && OperandCode(rule, l).Some? ==> OperandCode(rule, k) != OperandCode(rule, l))
  }

  predicate RuleOperandsOk(rule: Json) { HasType(rule, "formula") ==> OperandsOk(rule, |Operands(rule)|) }

  function CountFormulas(rules: seq<Json>): nat {
    if rules == [] then 0 else CountFormulas(rules[..|rules| - 1]) + if HasType(rules[|rules| - 1], "formula") then 1 else 0
  }

  method CheckOperandCodes(rule: Json) returns (ok: bool)
    ensures ok <==> OperandsOk(rule, |Operands(rule)|)
  {
    var operands := Operands(rule);
    var seenOperands: set<string> := {};
    ok := true;
    for k := 0 to |operands|
      invariant ok <==> OperandsOk(rule, k)
      invariant forall c :: c in seenOperands <==> exists l: nat :: l < k && OperandCode(rule, l) == Some(c)
    {
      var code := OperandCode(rule, k);
      if code.Some? {
        if SaysComputed(code.value) || code.value in seenOperands {
          ok := false;
        }
        seenOperands := seenOperands + {code.value};
      }
    }
  }

  // ----- one item

  datatype Problem = BadCode | DuplicateCode | WrongVersion | BadHead | MissingField | BadRules | BadRule
                   | NotOneFormula | BadOperands | BadPath | BadParent | WrongKind

  datatype Report = Report(item: nat, problem: Problem)

  predicate RulesOk(rules: seq<Json>) { forall j :: 0 <= j < |rules| ==> ShapeOk(rules[j]) }

  predicate AllOperandsOk(rules: seq<Json>) { forall j :: 0 <= j < |rules| ==> RuleOperandsOk(rules[j]) }

  predicate ComputedOk(item: Item) {
    var rules := Items(Field(item, "rules"));
    && (CodeText(item) != "" ==> CodeText(item) in COMPUTED_CODES)
    && Field(item, "accountHead") == Some(String("COMPUTED"))
    && !IsMissing(item, "name") && !IsMissing(item, "sortOrder")
    && rules != [] && RulesOk(rules) && CountFormulas(rules) == 1 && AllOperandsOk(rules)
  }

  predicate HeadOk(item: Item) {
    IsString(Field(item, "accountHead")) && item["accountHead"].s in NORMAL_HEADS
  }

  predicate FieldsOk(item: Item) {
    !IsMissing(item, "majorCode") && !IsMissing(item, "segmentCode") && !IsMissing(item, "name")
    && !IsMissing(item, "level") && !IsMissing(item, "sortOrder") && Items(Field(item, "segmentPath")) != []
  }

  predicate PathOk(item: Item) {
    var path := Items(Field(item, "codePath"));
    path != [] && (Code(item).Some? ==> path[|path| - 1] == String(Code(item).value))
  }

  predicate ParentOk(item: Item, batchCodes: set<string>) {
    var parent := Field(item, "parentCode");
    parent == None || parent == Some(Null) || (parent.value.String? && parent.value.s in batchCodes)
  }

  predicate NormalRulesOk(item: Item) {
    Field(item, "rules") == None || (item["rules"].Array? && RulesOk(item["rules"].items))
  }

  predicate NormalOk(item: Item, batchCodes: set<string>) {
    HeadOk(item) && !SaysComputed(CodeText(item)) && FieldsOk(item) && PathOk(item)
    && ParentOk(item, batchCodes) && NormalRulesOk(item)
  }

  function BatchCodes(items: seq<Item>): set<string> {
    set i | 0 <= i < |items| && CodeText(items[i]) != "" :: Code(items[i]).value
  }

  predicate ItemOk(items: seq<Item>, i: nat, version: string)
    requires i < |items|
  {
    var item := items[i];
    && CodeText(item) != "" && Code(item).value !in BatchCodes(items[..i])
    && (Field(item, "templateVersion") == None || Field(item, "templateVersion") == Some(String(version)))
    && if IsComputed(item) then ComputedOk(item) else NormalOk(item, BatchCodes(items))
  }

  method CheckRules(rules: seq<Json>) returns (ok: bool)
    ensures ok <==> RulesOk(rules)
  {
    ok := true;
    for j := 0 to |rules|
      invariant ok <==> RulesOk(rules[..j])
    {
      var faults := ValidateRuleShape(rules[j]);
      assert rules[..j + 1] == rules[..j] + [rules[j]];
      ok := ok && faults == [];
    }
    assert rules[..|rules|] == rules;
  }

  method CheckOperands(rules: seq<Json>) returns (ok: bool)
    ensures ok <==> AllOperandsOk(rules)
  {
    ok := true;
    for j := 0 to |rules|
      invariant ok <==> AllOperandsOk(rules[..j])
    {
      assert rules[..j + 1] == rules[..j] + [rules[j]];
      if HasType(rules[j], "formula") {
        var distinct := CheckOperandCodes(rules[j]);
        ok := ok && distinct;
      }
    }
    assert rules[..|rules|] == rules;
  }

  method CheckComputedRules(rules: seq<Json>) returns (problems: seq<Problem>)
    ensures problems == [] <==> RulesOk(rules) && CountFormulas(rules) == 1 && AllOperandsOk(rules)
  {
    problems := [];
    var shapesOk := CheckRules(rules);
    if !shapesOk { problems := problems + [BadRule]; }
    if CountFormulas(rules) != 1 { problems := problems + [NotOneFormula]; }
    var operandsOk := CheckOperands(rules);
    if !operandsOk { problems := problems + [BadOperands]; }
  }

  method CheckComputed(item: Item) returns (problems: seq<Problem>)
    ensures problems == [] <==> ComputedOk(item)
  {
    problems := [];
    if CodeText(item) != "" && CodeText(item) !in COMPUTED_CODES { problems := problems + [WrongKind]; }
    if Field(item, "accountHead") != Some(String("COMPUTED")) { problems := problems + [BadHead]; }
    if IsMissing(item, "name") || IsMissing(item, "sortOrder") { problems := problems + [MissingField]; }
    var rules := Items(Field(item, "rules"));
    if rules == [] {
      problems := problems + [BadRules];
    } else {
      var more := CheckComputedRules(rules);
      problems := problems + more;
    }
  }

  method CheckNormal(item: Item, batchCodes: set<string>) returns (problems: seq<Problem>)
    ensures problems == [] <==> NormalOk(item, batchCodes)
  {
    problems := [];
    if !HeadOk(item) { problems := problems + [BadHead]; }
    if SaysComputed(CodeText(item)) { problems := problems + [WrongKind]; }
    if !FieldsOk(item) { problems := problems + [MissingField]; }
    if !PathOk(item) { problems := problems + [BadPath]; }
    if !ParentOk(item, batchCodes) { problems := problems + [BadParent]; }
    if Field(item, "rules") != None {
      if !item["rules"].Array? {
        problems := problems + [BadRules];
      } else {
        var ok := CheckRules(item["rules"].items);
        if !ok { problems := problems + [BadRule]; }
      }
    }
  }

  method CheckItem(items: seq<Item>, i: nat, version: string, seenCodes: set<string>, batchCodes: set<string>)
    returns (problems: seq<Problem>)
    requires i < |items| && seenCodes == BatchCodes(items[..i]) && batchCodes == BatchCodes(items)
    ensures problems == [] <==> ItemOk(items, i, version)
  {
    var item := items[i];
    problems := [];
    if CodeText(item) == "" {
      problems := problems + [BadCode];
    } else if Code(item).value in seenCodes {
      problems := problems + [DuplicateCode];
    }
    var itemVersion := Field(item, "templateVersion");
    if itemVersion != None && itemVersion != Some(String(version)) {
      problems := problems + [WrongVersion];
    }
    var more;
    if IsComputed(item) {
      more := CheckComputed(item);
    } else {
      more := CheckNormal(item, batchCodes);
    }
    problems := problems + more;
  }

  function Tagged(i: nat, problems: seq<Problem>): seq<Report> {
    seq(|problems|, k requires 0 <= k < |problems| => Report(i, problems[k]))
  }

  predicate Blames(errors: seq<Report>, i: nat) { exists e :: 0 <= e < |errors| && errors[e].item == i }

  lemma BlamesSplit(errors: seq<Report>, i: nat, problems: seq<Problem>, k: nat)
    ensures Blames(errors + Tagged(i, problems), k) <==> Blames(errors, k) || (k == i && problems != [])
  {
    var all := errors + Tagged(i, problems);
    if Blames(errors, k) {
      var e :| 0 <= e < |errors| && errors[e].item == k;
      assert all[e].item == k;
    }
    if problems != [] {
      assert all[|errors|].item == i;
    }
  }

  /** The errors name exactly the items that are not acceptable. */
  method ValidateItems(items: seq<Item>, version: string) returns (errors: seq<Report>)
    ensures forall i: nat :: Blames(errors, i) <==> i < |items| && !ItemOk(items, i, version)
  {
    var batchCodes := BatchCodes(items);
    var seenCodes: set<string> := {};
    errors := [];
    for i := 0 to |items|
      invariant seenCodes == BatchCodes(items[..i])
      invariant forall k: nat :: Blames(errors, k) <==> k < i && !ItemOk(items, k, version)
    {
      var problems := CheckItem(items, i, version, seenCodes, batchCodes);
      forall k: nat ensures Blames(errors + Tagged(i, problems), k) <==> Blames(errors, k) || (k == i && problems != []) {
        BlamesSplit(errors, i, problems, k);
      }
      errors := errors + Tagged(i, problems);
      SeenNext(items, i);
      if CodeText(items[i]) != "" {
        seenCodes := seenCodes + {Code(items[i]).value};
      }
    }
  }

  lemma SeenNext(items: seq<Item>, i: nat)
    requires i < |items|
    ensures BatchCodes(items[..i + 1]) == BatchCodes(items[..i]) + if CodeText(items[i]) != "" then {Code(items[i]).value} else {}
  {
    var a, b := items[..i + 1], items[..i];
    forall c | c in BatchCodes(b) ensures c in BatchCodes(a) {
      var k :| 0 <= k < |b| && CodeText(b[k]) != "" && Code(b[k]).value == c;
      assert a[k] == b[k];
    }
    assert a[i] == items[i];
  }

  // ----- what an acceptable item looks like, field by field

  /** A string with something besides white space in it, and no earlier item with the same one. */
  predicate OwnCode(items: seq<Item>, i: nat)
    requires i < |items|
  {
    && Field(items[i], "nmamCode").Some? && items[i]["nmamCode"].String? && Trim(items[i]["nmamCode"].s) != ""
    && forall j :: 0 <= j < i ==> Field(items[j], "nmamCode") != Field(items[i], "nmamCode")
  }

  predicate Filled(item: Item, key: string) { key in item && item[key] != Null && item[key] != String("") }

  predicate ValidRule(rule: Json) {
    Meaning(rule).Some? && !(Get(rule, "type") == Some(String("formula")) && Get(rule, "linearOperands").Some?)
  }

  lemma OwnCodeMeans(items: seq<Item>, i: nat)
    requires i < |items|
    ensures OwnCode(items, i) <==> CodeText(items[i]) != "" && Code(items[i]).value !in BatchCodes(items[..i])
  {
    if CodeText(items[i]) != "" {
      if j :| 0 <= j < i && Field(items[j], "nmamCode") == Field(items[i], "nmamCode") {
        assert items[..i][j] == items[j];
      }
    }
  }

  lemma FieldsMean(item: Item)
    ensures FieldsOk(item) <==>
              && (forall key | key in {"majorCode", "segmentCode", "name", "level", "sortOrder"} :: Filled(item, key))
              && Field(item, "segmentPath").Some? && item["segmentPath"].Array? && item["segmentPath"].items != []
  {
    var keys := {"majorCode", "segmentCode", "name", "level", "sortOrder"};
    if forall key | key in keys :: Filled(item, key) {
      assert "majorCode" in keys && "segmentCode" in keys && "name" in keys && "level" in keys && "sortOrder" in keys;
      assert Filled(item, "majorCode") && Filled(item, "segmentCode") && Filled(item, "name") && Filled(item, "level");
      assert Filled(item, "sortOrder");
    }
  }

  lemma SaysComputedMeans(s: string)
    ensures SaysComputed(s) <==> "computed." <= s
  {
    assert |"computed."| == 9;
  }

  /** A normal item is acceptable exactly with these fields. */
  lemma NormalItemExactlyWhen(items: seq<Item>, i: nat, version: string)
    requires i < |items| && Field(items[i], "isComputed") != Some(Bool(true))
    ensures var item := items[i];
            ItemOk(items, i, version) <==>
              && OwnCode(items, i)
              && ("templateVersion" in item ==> item["templateVersion"] == String(version))
              && Field(item, "accountHead").Some? && item["accountHead"].String?
              && item["accountHead"].s in {"INCOME", "EXPENDITURE", "BALANCE_SHEET", "ASSET", "LIABILITY"}
              && !("computed." <= Trim(item["nmamCode"].s))
              && (forall key | key in {"majorCode", "segmentCode", "name", "level", "sortOrder"} :: Filled(item, key))
              && Field(item, "segmentPath").Some? && item["segmentPath"].Array? && item["segmentPath"].items != []
              && Field(item, "codePath").Some? && item["codePath"].Array? && item["codePath"].items != []
              && item["codePath"].items[|item["codePath"].items| - 1] == item["nmamCode"]
              && ("parentCode" in item && item["parentCode"] != Null ==>
                    item["parentCode"].String? && Trim(item["parentCode"].s) != ""
                    && exists j :: 0 <= j < |items| && Field(items[j], "nmamCode") == Some(item["parentCode"]))
              && ("rules" in item ==>
                    item["rules"].Array? && forall k :: 0 <= k < |item["rules"].items| ==> ValidRule(item["rules"].items[k]))
  {
    var item := items[i];
    OwnCodeMeans(items, i);
    ParentMeans(items, i);
    FieldsMean(item);
    SaysComputedMeans(CodeText(item));
  }

  lemma ParentMeans(items: seq<Item>, i: nat)
    requires i < |items|
    ensures var item := items[i];
            ParentOk(item, BatchCodes(items)) <==>
              ("parentCode" in item && item["parentCode"] != Null ==>
                 item["parentCode"].String? && Trim(item["parentCode"].s) != ""
                 && exists j :: 0 <= j < |items| && Field(items[j], "nmamCode") == Some(item["parentCode"]))
  {
  }

  /** A computed item is acceptable exactly with these. */
  lemma ComputedItemExactlyWhen(items: seq<Item>, i: nat, version: string)
    requires i < |items| && Field(items[i], "isComputed") == Some(Bool(true))
    ensures var item := items[i];
            ItemOk(items, i, version) <==>
              && OwnCode(items, i)
              && ("templateVersion" in item ==> item["templateVersion"] == String(version))
              && Field(item, "accountHead") == Some(String("COMPUTED"))
              && Trim(item["nmamCode"].s) in {"computed.totIncome", "computed.totExpenditure", "computed.totRevenue", "computed.totOwnRevenue"}
              && Filled(item, "name") && Filled(item, "sortOrder")
              && Field(item, "rules").Some? && item["rules"].Array? && item["rules"].items != []
              && (forall k :: 0 <= k < |item["rules"].items| ==> ValidRule(item["rules"].items[k]))
              && CountFormulas(item["rules"].items) == 1 && AllOperandsOk(item["rules"].items)
  {
    OwnCodeMeans(items, i);
  }
}
