/** What imports leave in the legend collection. */
module LegendStore {
  import opened Basics
  import opened Text
  import opened LegendRules
  import opened LegendImport
  import opened LegendSchema
  import LegendTree

  // ----- operand references

  /** The normal codes a formula refers to. */
  function CodesIn(rule: Json, n: nat): set<string>
    requires n <= |Operands(rule)|
  {
    if n == 0 then {}
    else
      var code := OperandCode(rule, n - 1);
      CodesIn(rule, n - 1) + if code.Some? && !SaysComputed(code.value) then {code.value} else {}
  }

  function CodesOfRules(rules: seq<Json>): set<string> {
    if rules == [] then {}
    else
      var rule := rules[|rules| - 1];
      CodesOfRules(rules[..|rules| - 1]) + if HasType(rule, "formula") then CodesIn(rule, |Operands(rule)|) else {}
  }

  function CodesOfItem(item: Item): set<string> {
    if IsComputed(item) then CodesOfRules(Items(Field(item, "rules"))) else {}
  }

  function Referenced(items: seq<Item>): set<string> {
    if items == [] then {} else Referenced(items[..|items| - 1]) + CodesOfItem(items[|items| - 1])
  }

  predicate IsBatchNormal(item: Item) { Code(item).Some? && !SaysComputed(Code(item).value) && IsActive(item) }

  function BatchNormalCodes(items: seq<Item>): set<string> {
    if items == [] then {}
    else
      var item := items[|items| - 1];
      BatchNormalCodes(items[..|items| - 1]) + if IsBatchNormal(item) then {Code(item).value} else {}
  }

  method CollectCodes(item: Item) returns (codes: set<string>)
    ensures codes == CodesOfItem(item)
  {
    codes := {};
    if !IsComputed(item) { return; }
    var rules := Items(Field(item, "rules"));
    for j := 0 to |rules|
      invariant codes == CodesOfRules(rules[..j])
    {
      var rule := rules[j];
      var ofRule: set<string> := {};
      if HasType(rule, "formula") {
        for k := 0 to |Operands(rule)|
          invariant ofRule == CodesIn(rule, k)
        {
          var code := OperandCode(rule, k);
          if code.Some? && !SaysComputed(code.value) {
            ofRule := ofRule + {code.value};
          }
        }
      }
      assert rules[..j + 1][..j] == rules[..j];
      codes := codes + ofRule;
    }
    assert rules[..|rules|] == rules;
  }

  function Trims(codes: set<string>): set<string> { set c | c in codes :: Trim(c) }

  /**
   The referenced codes that are found neither in the batch nor among the `active` ones in the database; the query for
   the latter trims the codes it looks for, the comparison with what it found does not.
   */
  function Unknown(items: seq<Item>, active: set<string>): set<string> {
    var codesNeedingDbCheck := Referenced(items) - BatchNormalCodes(items);
    codesNeedingDbCheck - (active * Trims(codesNeedingDbCheck))
  }

  lemma {:induction false} UnknownAmongTrimmed(items: seq<Item>, active: set<string>)
    requires forall c :: c in active ==> IsTrimmed(c)
    ensures Unknown(items, active) == Referenced(items) - BatchNormalCodes(items) - active
  {
    var codes := Referenced(items) - BatchNormalCodes(items);
    forall c | c in codes && c in active ensures c in Trims(codes) {
      TrimTrimmed(c);
    }
  }

  method UnknownOperands(items: seq<Item>, active: set<string>) returns (unknown: set<string>)
    ensures unknown == Unknown(items, active)
  {
    var batchNormalCodes: set<string> := {};
    var allOperandCodes: set<string> := {};
    for i := 0 to |items|
      invariant batchNormalCodes == BatchNormalCodes(items[..i])
      invariant allOperandCodes == Referenced(items[..i])
    {
      assert items[..i + 1][..i] == items[..i];
      if IsBatchNormal(items[i]) {
        batchNormalCodes := batchNormalCodes + {Code(items[i]).value};
      }
      var codes := CollectCodes(items[i]);
      allOperandCodes := allOperandCodes + codes;
    }
    assert items[..|items|] == items;
    var codesNeedingDbCheck := allOperandCodes - batchNormalCodes;
    var dbCodes := active * Trims(codesNeedingDbCheck);
    unknown := codesNeedingDbCheck - dbCodes;
  }

  // ----- stored legends

  /** Path elements are strings or null. */
  datatype Hierarchy = Hierarchy(parentCode: Option<string>, codePath: seq<Option<string>>)

  /** `hierarchy` is missing for computed legends. */
  datatype Legend = Legend(isComputed: bool, accountHead: string, isActive: bool, rules: seq<Rule>, hierarchy: Option<Hierarchy>)

  /** The schema trims both parts, in queries as in writes. */
  datatype Key = Key(version: string, code: string)

  type Legends = map<Key, Legend>

  /** What is kept of a list of raw rules: those that parse. */
  function KeptRules(raw: seq<Json>): seq<Rule> {
    if raw == [] then []
    else KeptRules(raw[..|raw| - 1]) + match Meaning(raw[|raw| - 1]) case Some(r) => [r] case None => []
  }

  lemma {:induction false} NoRuleIsDropped(raw: seq<Json>)
    requires RulesOk(raw)
    ensures |KeptRules(raw)| == |raw|
    ensures forall j :: 0 <= j < |raw| ==> Meaning(raw[j]) == Some(KeptRules(raw)[j])
  {
    if raw != [] {
      NoRuleIsDropped(raw[..|raw| - 1]);
    }
  }

  function StringOrEmpty(j: Option<Json>): string { if IsString(j) then j.value.s else "" }

  /** The `$set` of one upsert, applied to what was there before. */
  function Sanitized(rt: Runtime, item: Item, before: Option<Legend>): Legend
    requires Casts(rt, item)
  {
    var rules := KeptRules(Items(Field(item, "rules")));
    if IsComputed(item) then
      Legend(true, "COMPUTED", IsActive(item), rules, if before.Some? then before.value.hierarchy else None)
    else
      var parent := Field(item, "parentCode");
      Legend(false, StringOrEmpty(Field(item, "accountHead")), IsActive(item), rules,
             Some(Hierarchy(if IsString(parent) then Some(parent.value.s) else None, Texts(rt, Items(Field(item, "codePath"))))))
  }

  /** An upsert that cannot be cast is left out. */
  function Upserted(rt: Runtime, docs: Legends, version: string, item: Item): Legends
    requires Code(item).Some?
  {
    var k := Key(Trim(version), CodeText(item));
    if Casts(rt, item) then docs[k := Sanitized(rt, item, if k in docs then Some(docs[k]) else None)] else docs
  }

  predicate AllCoded(items: seq<Item>) { forall i :: 0 <= i < |items| ==> Code(items[i]).Some? }

  function Imported(rt: Runtime, docs: Legends, version: string, items: seq<Item>): Legends
    requires AllCoded(items)
  {
    if items == [] then docs
    else Upserted(rt, Imported(rt, docs, version, items[..|items| - 1]), version, items[|items| - 1])
  }

  function StoredCodes(docs: Legends,
      version: string): set<string> { set k | k in docs && k.version == Trim(version) :: k.code }

  function ActiveCodes(docs: Legends, version: string): set<string> {
    set k | k in docs && k.version == Trim(version) && docs[k].isActive :: k.code
  }

  function NormalCodes(docs: Legends, version: string): set<string> {
    set k | k in docs && k.version == Trim(version) && docs[k].isActive && !docs[k].isComputed :: k.code
  }

  predicate BatchOk(items: seq<Item>, version: string) { forall i :: 0 <= i < |items| ==> ItemOk(items, i, version) }

  predicate Accepts(docs: Legends, version: string, items: seq<Item>) {
    BatchOk(items, version) && Unknown(items, ActiveCodes(docs, version)) == {}
  }

  class LegendCollection {
    var docs: Legends

    constructor ()
      ensures docs == map[]
    {
      docs := map[];
    }

    method BulkUpsert(items: seq<Item>, version: string, rt: Runtime)
      requires AllCoded(items)
      modifies this
      ensures docs == Imported(rt, old(docs), version, items)
    {
      for i := 0 to |items|
        invariant docs == Imported(rt, old(docs), version, items[..i])
      {
        assert items[..i + 1][..i] == items[..i];
        docs := Upserted(rt, docs, version, items[i]);
      }
      assert items[..|items|] == items;
    }

    /** Returns whether the batch was accepted; nothing is written otherwise, nor on a dry run. */
    method ImportFromJson(items: seq<Item>, version: string, dryRun: bool, rt: Runtime) returns (accepted: bool)
      modifies this
      ensures accepted <==> Accepts(old(docs), version, items)
      ensures accepted && !dryRun ==> AllCoded(items) && docs == Imported(rt, old(docs), version, items)
      ensures !accepted || dryRun ==> docs == old(docs)
    {
      var syncErrors := ValidateItems(items, version);
      NoErrorsMeansOk(items, version, syncErrors);
      if syncErrors != [] { return false; }
      var asyncErrors := UnknownOperands(items, ActiveCodes(docs, version));
      if asyncErrors != {} { return false; }
      if !dryRun {
        BulkUpsert(items, version, rt);
      }
      accepted := true;
    }
  }

  lemma NoErrorsMeansOk(items: seq<Item>, version: string, errors: seq<Report>)
    requires forall i: nat :: Blames(errors, i) <==> i < |items| && !ItemOk(items, i, version)
    ensures errors == [] <==> BatchOk(items, version)
    ensures errors == [] ==> AllCoded(items)
  {
    if errors != [] {
      assert Blames(errors, errors[0].item);
    } else {
      assert forall i: nat :: !Blames(errors, i);
      forall i | 0 <= i < |items| ensures Code(items[i]).Some? { assert ItemOk(items, i, version); }
    }
  }

  // ----- what every run of imports keeps

  function RuleCodes(r: Rule): seq<string> {
    match r
    case Comparison(_, _) => []
    case Sum(codes) => codes
    case Diff(codes) => codes
    case Linear(operands) => seq(|operands|, i requires 0 <= i < |operands| => operands[i].code)
  }

  function FormulaCount(rules: seq<Rule>): nat {
    if rules == [] then 0 else FormulaCount(rules[..|rules| - 1]) + if rules[|rules| - 1].Comparison? then 0 else 1
  }

  /** Distinct operands, none of them computed. */
  predicate CodesOk(codes: seq<string>) {
    && (forall k :: 0 <= k < |codes| ==> !SaysComputed(codes[k]))
    && (forall k, l :: 0 <= k < l < |codes| ==> codes[k] != codes[l])
  }

  /** The path of a normal legend ends with its code as the batch spelled it, white space included. */
  predicate LegendOk(code: string, g: Legend) {
    && IsTrimmed(code)
    && (g.isComputed <==> SaysComputed(code))
    && (g.isComputed ==> g.accountHead == "COMPUTED" && g.hierarchy == None && FormulaCount(g.rules) == 1
                         && forall j :: 0 <= j < |g.rules| ==> CodesOk(RuleCodes(g.rules[j])))
    && (!g.isComputed ==> g.accountHead in NORMAL_HEADS && g.hierarchy.Some?
                          && var path := g.hierarchy.value.codePath;
                             path != [] && path[|path| - 1].Some? && Trim(path[|path| - 1].value) == code)
  }

  predicate StoreOk(docs: Legends) { forall k :: k in docs ==> LegendOk(k.code, docs[k]) }

  lemma {:induction false} FormulasKept(raw: seq<Json>)
    requires RulesOk(raw)
    ensures FormulaCount(KeptRules(raw)) == CountFormulas(raw)
  {
    if raw != [] {
      var before := raw[..|raw| - 1];
      FormulasKept(before);
      assert KeptRules(raw)[..|KeptRules(before)|] == KeptRules(before);
    }
  }

  lemma {:induction false} OperandCodes(rule: Json)
    requires ShapeOk(rule) && HasType(rule, "formula")
    ensures var codes := RuleCodes(Meaning(rule).value);
            |codes| == |Operands(rule)| && forall k: nat :: k < |codes| ==> OperandCode(rule, k) == Some(codes[k])
  {
  }

  /** The operands of a rule are accepted exactly if the parsed ones are distinct and none of them is computed. */
  lemma OperandsAreOkExactlyWhen(rule: Json)
    requires ShapeOk(rule)
    ensures RuleOperandsOk(rule) <==> CodesOk(RuleCodes(Meaning(rule).value))
  {
    var codes := RuleCodes(Meaning(rule).value);
    if HasType(rule, "formula") {
      OperandCodes(rule);
      if CodesOk(codes) {
        assert OperandsOk(rule, |codes|);
      } else if OperandsOk(rule, |codes|) {
        forall k | 0 <= k < |codes| ensures !SaysComputed(codes[k]) { assert OperandCode(rule, k) == Some(codes[k]); }
        forall k, l | 0 <= k < l < |codes| ensures codes[k] != codes[l] {
          assert OperandCode(rule, k) == Some(codes[k]) && OperandCode(rule, l) == Some(codes[l]);
        }
      }
    }
  }

  lemma SaysComputedCodes(code: string)
    requires code in COMPUTED_CODES
    ensures SaysComputed(code)
  {
  }

  lemma {:induction false} KeptRulesAreOk(raw: seq<Json>)
    requires RulesOk(raw) && AllOperandsOk(raw)
    ensures FormulaCount(KeptRules(raw)) == CountFormulas(raw)
    ensures forall j :: 0 <= j < |KeptRules(raw)| ==> CodesOk(RuleCodes(KeptRules(raw)[j]))
  {
    NoRuleIsDropped(raw);
    FormulasKept(raw);
    forall j | 0 <= j < |raw| ensures CodesOk(RuleCodes(KeptRules(raw)[j])) {
      OperandsAreOkExactlyWhen(raw[j]);
    }
  }

  lemma ComputedIsOk(rt: Runtime, item: Item, before: Option<Legend>)
    requires IsComputed(item) && CodeText(item) != "" && ComputedOk(item) && Casts(rt, item)
    requires before.Some? ==> LegendOk(CodeText(item), before.value)
    ensures LegendOk(CodeText(item), Sanitized(rt, item, before)) && SaysComputed(CodeText(item))
  {
    TrimIsTrimmed(Code(item).value);
    SaysComputedCodes(CodeText(item));
    KeptRulesAreOk(Items(Field(item, "rules")));
  }

  lemma NormalIsOk(rt: Runtime, item: Item, batchCodes: set<string>, before: Option<Legend>)
    requires !IsComputed(item) && CodeText(item) != "" && NormalOk(item, batchCodes) && Casts(rt, item)
    ensures LegendOk(CodeText(item), Sanitized(rt, item, before)) && !SaysComputed(CodeText(item))
    ensures var path := Sanitized(rt, item, before).hierarchy.value.codePath; path != [] && path[|path| - 1] == Code(item)
  {
    TrimIsTrimmed(Code(item).value);
    var path := Items(Field(item, "codePath"));
    assert AsText(rt, path[|path| - 1]) == Code(item);
  }

  /** A path ends with the code of its record if and only if the batch spelled the code without white space around it. */
  lemma SanitizedIsOk(rt: Runtime, items: seq<Item>, i: nat, version: string, before: Option<Legend>)
    requires i < |items| && ItemOk(items, i, version) && Casts(rt, items[i])
    requires before.Some? ==> LegendOk(CodeText(items[i]), before.value)
    ensures LegendOk(CodeText(items[i]), Sanitized(rt, items[i], before))
    ensures before.Some? ==> before.value.isComputed == IsComputed(items[i])
    ensures !IsComputed(items[i]) ==>
              var path := Sanitized(rt, items[i], before).hierarchy.value.codePath;
              path[|path| - 1] == Some(CodeText(items[i])) <==> Code(items[i]) == Some(CodeText(items[i]))
  {
    if IsComputed(items[i]) {
      ComputedIsOk(rt, items[i], before);
    } else {
      NormalIsOk(rt, items[i], BatchCodes(items), before);
    }
  }

  lemma PutKeepsStoreOk(docs: Legends, k: Key, g: Legend)
    requires StoreOk(docs) && LegendOk(k.code, g) && (k in docs ==> docs[k].isComputed == g.isComputed)
    ensures StoreOk(docs[k := g])
    ensures forall j :: j in docs ==> j in docs[k := g] && docs[k := g][j].isComputed == docs[j].isComputed
  {
  }

  lemma UpsertKeepsStoreOk(rt: Runtime, docs: Legends, items: seq<Item>, i: nat, version: string)
    requires StoreOk(docs) && i < |items| && ItemOk(items, i, version)
    ensures var after := Upserted(rt, docs, version, items[i]);
            StoreOk(after) && forall k :: k in docs ==> k in after && after[k].isComputed == docs[k].isComputed
  {
    var k := Key(Trim(version), CodeText(items[i]));
    if Casts(rt, items[i]) {
      var before := if k in docs then Some(docs[k]) else None;
      SanitizedIsOk(rt, items, i, version, before);
      PutKeepsStoreOk(docs, k, Sanitized(rt, items[i], before));
    }
  }

  lemma {:induction false} ImportKeepsStoreOk(rt: Runtime, docs: Legends, version: string, items: seq<Item>, n: nat)
    requires StoreOk(docs) && BatchOk(items, version) && AllCoded(items) && n <= |items|
    ensures StoreOk(Imported(rt, docs, version, items[..n]))
    ensures forall k :: k in docs ==> k in Imported(rt, docs, version, items[..n])
                                      && Imported(rt, docs, version, items[..n])[k].isComputed == docs[k].isComputed
  {
    if n > 0 {
      ImportKeepsStoreOk(rt, docs, version, items, n - 1);
      assert items[..n][..n - 1] == items[..n - 1];
      UpsertKeepsStoreOk(rt, Imported(rt, docs, version, items[..n - 1]), items, n - 1, version);
    }
  }

  datatype Import = Import(version: string, items: seq<Item>)

  /** The collection after a list of import requests, refused ones included. */
  function AfterImports(rt: Runtime, requests: seq<Import>): Legends {
    if requests == [] then map[]
    else
      var before, r := AfterImports(rt, requests[..|requests| - 1]), requests[|requests| - 1];
      if Accepts(before, r.version, r.items) && AllCoded(r.items) then Imported(rt, before, r.version, r.items) else before
  }

  /**
   After any imports codes are stored without white space around them, the kind of a legend is fixed by its code, and
   every computed legend has exactly one formula, whose operands are distinct and not computed; one more import flips
   no legend's kind.
   */
  lemma {:induction false} EveryImportRunIsSafe(rt: Runtime, requests: seq<Import>)
    ensures StoreOk(AfterImports(rt, requests))
    ensures requests != [] ==>
              var before, after := AfterImports(rt, requests[..|requests| - 1]), AfterImports(rt, requests);
              forall k :: k in before ==> k in after && after[k].isComputed == before[k].isComputed
  {
    if requests != [] {
      var before, r := AfterImports(rt, requests[..|requests| - 1]), requests[|requests| - 1];
      EveryImportRunIsSafe(rt, requests[..|requests| - 1]);
      if Accepts(before, r.version, r.items) && AllCoded(r.items) {
        ImportKeepsStoreOk(rt, before, r.version, r.items, |r.items|);
        assert r.items[..|r.items|] == r.items;
      }
    }
  }

  // ----- operands and parents after the write

  /** The item whose upsert is the last to write the record of a code. */
  function LastWritten(rt: Runtime, items: seq<Item>, code: string): Option<Item> {
    if items == [] then None
    else
      var item := items[|items| - 1];
      if Code(item).Some? && CodeText(item) == code && Casts(rt, item) then Some(item)
      else LastWritten(rt, items[..|items| - 1], code)
  }

  lemma {:induction false} ImportedAt(rt: Runtime, docs: Legends, version: string, items: seq<Item>, k: Key)
    requires AllCoded(items)
    ensures var last := LastWritten(rt, items, k.code);
            var after := Imported(rt, docs, version, items);
            if k.version == Trim(version) && last.Some? then k in after && after[k].isActive == IsActive(last.value)
            else (k in after <==> k in docs) && (k in docs ==> after[k] == docs[k])
  {
    if items != [] {
      ImportedAt(rt, docs, version, items[..|items| - 1], k);
    }
  }

  /** The text the schema makes of a path element. */
  predicate CastsTo(rt: Runtime, j: Json, t: Option<string>) {
    match j
    case Null => t == None
    case Bool(b) => t == Some(if b then "true" else "false")
    case Number(n) => t == Some(rt.text(n))
    case String(s) => t == Some(s)
    case Array(_) => false
    case Object(_) => t.Some? && t.value != "" && Get(j, "_id") == Some(String(t.value))
  }

  /** The record has what the item says, field by field. */
  predicate Records(rt: Runtime, item: Item, g: Legend) {
    && (g.isComputed <==> Field(item, "isComputed") == Some(Bool(true)))
    && (g.isActive <==> Field(item, "isActive") != Some(Bool(false)))
    && (g.isComputed ==> g.accountHead == "COMPUTED")
    && (!g.isComputed ==>
          && (IsString(Field(item, "accountHead")) ==> String(g.accountHead) == item["accountHead"])
          && g.hierarchy.Some?
          && (match g.hierarchy.value.parentCode
              case Some(p) => Field(item, "parentCode") == Some(String(p))
              case None => !IsString(Field(item, "parentCode")))
          && var path, raw := g.hierarchy.value.codePath, Items(Field(item, "codePath"));
             |path| == |raw| && forall j :: 0 <= j < |raw| ==> CastsTo(rt, raw[j], path[j]))
    && var raw := Items(Field(item, "rules"));
       RulesOk(raw) ==> |g.rules| == |raw| && forall j :: 0 <= j < |raw| ==> Spells(raw[j], g.rules[j])
  }

  lemma SanitizedRecords(rt: Runtime, item: Item, before: Option<Legend>)
    requires Casts(rt, item)
    ensures Records(rt, item, Sanitized(rt, item, before))
    ensures IsComputed(item) ==> Sanitized(rt, item, before).hierarchy == if before.Some? then before.value.hierarchy else None
  {
    var g, raw := Sanitized(rt, item, before), Items(Field(item, "rules"));
    if RulesOk(raw) {
      NoRuleIsDropped(raw);
      forall j | 0 <= j < |raw| ensures Spells(raw[j], g.rules[j]) { MeaningIsSpelled(raw[j], g.rules[j]); }
    }
  }

  /** After an import the record of a code is made from the last item that writes it, and others are as before. */
  lemma {:induction false} RecordOfLastItem(rt: Runtime, docs: Legends, version: string, items: seq<Item>, k: Key)
    requires AllCoded(items) && k.version == Trim(version) && LastWritten(rt, items, k.code).Some?
    ensures var after := Imported(rt, docs, version, items);
            k in after && Records(rt, LastWritten(rt, items, k.code).value, after[k])
  {
    var n := |items| - 1;
    if CodeText(items[n]) == k.code && Casts(rt, items[n]) {
      var before := Imported(rt, docs, version, items[..n]);
      SanitizedRecords(rt, items[n], if k in before then Some(before[k]) else None);
    } else {
      RecordOfLastItem(rt, docs, version, items[..n], k);
    }
  }

  lemma {:induction false} CodesInExactly(rule: Json, n: nat, c: string)
    requires n <= |Operands(rule)|
    ensures c in CodesIn(rule, n) <==> !SaysComputed(c) && exists k: nat :: k < n && OperandCode(rule, k) == Some(c)
  {
    if n > 0 {
      CodesInExactly(rule, n - 1, c);
      if k: nat :| k < n && OperandCode(rule, k) == Some(c) {
        assert k < n - 1 || k == n - 1;
      }
    }
  }

  lemma {:induction false} CodesOfRulesExactly(rules: seq<Json>, c: string)
    ensures c in CodesOfRules(rules) <==>
              exists j :: 0 <= j < |rules| && HasType(rules[j], "formula") && c in CodesIn(rules[j], |Operands(rules[j])|)
  {
    if rules != [] {
      var most := rules[..|rules| - 1];
      CodesOfRulesExactly(most, c);
      if j :| 0 <= j < |rules| && HasType(rules[j], "formula") && c in CodesIn(rules[j], |Operands(rules[j])|) {
        assert j < |most| ==> most[j] == rules[j];
      }
      if j :| 0 <= j < |most| && HasType(most[j], "formula") && c in CodesIn(most[j], |Operands(most[j])|) {
        assert rules[j] == most[j];
      }
    }
  }

  lemma {:induction false} ReferencedExactly(items: seq<Item>, c: string)
    ensures c in Referenced(items) <==> exists i :: 0 <= i < |items| && c in CodesOfItem(items[i])
  {
    if items != [] {
      var most := items[..|items| - 1];
      ReferencedExactly(most, c);
      if i :| 0 <= i < |items| && c in CodesOfItem(items[i]) {
        assert i < |most| ==> most[i] == items[i];
      }
      if i :| 0 <= i < |most| && c in CodesOfItem(most[i]) {
        assert items[i] == most[i];
      }
    }
  }

  /** A computed item refers to exactly the operands of its parsed formulas that do not say they are computed. */
  lemma CodesOfItemExactly(item: Item, c: string)
    requires RulesOk(Items(Field(item, "rules")))
    ensures c in CodesOfItem(item) <==>
              && Field(item, "isComputed") == Some(Bool(true)) && !("computed." <= c)
              && var rules := Items(Field(item, "rules"));
                 exists j :: 0 <= j < |rules| && c in RuleCodes(Meaning(rules[j]).value)
  {
    var rules := Items(Field(item, "rules"));
    SaysComputedMeans(c);
    CodesOfRulesExactly(rules, c);
    forall j | 0 <= j < |rules|
      ensures HasType(rules[j], "formula") && c in CodesIn(rules[j], |Operands(rules[j])|)
              <==> !SaysComputed(c) && c in RuleCodes(Meaning(rules[j]).value)
    {
      RuleReferences(rules[j], c);
    }
  }

  lemma {:induction false} RuleReferences(rule: Json, c: string)
    requires ShapeOk(rule)
    ensures HasType(rule, "formula") && c in CodesIn(rule, |Operands(rule)|)
       <==> !SaysComputed(c) && c in RuleCodes(Meaning(rule).value)
  {
    var codes := RuleCodes(Meaning(rule).value);
    CodesInExactly(rule, |Operands(rule)|, c);
    if HasType(rule, "formula") {
      OperandCodes(rule);
      if c in codes {
        var k: nat :| k < |codes| && codes[k] == c;
        assert OperandCode(rule, k) == Some(c);
      }
    }
  }

  /** The batch itself offers the codes of its active items that do not say they are computed. */
  lemma {:induction false} BatchOffersExactly(items: seq<Item>, c: string)
    ensures c in BatchNormalCodes(items) <==>
              !("computed." <= c) && exists i :: 0 <= i < |items| && Field(items[i], "nmamCode") == Some(String(c))
                                                && Field(items[i], "isActive") != Some(Bool(false))
  {
    SaysComputedMeans(c);
    if items != [] {
      var most := items[..|items| - 1];
      BatchOffersExactly(most, c);
      if i :| 0 <= i < |items| && Field(items[i], "nmamCode") == Some(String(c)) && Field(items[i], "isActive") != Some(Bool(false)) {
        assert i < |most| ==> most[i] == items[i];
      }
      if i :| 0 <= i < |most| && Field(most[i], "nmamCode") == Some(String(c)) && Field(most[i], "isActive") != Some(Bool(false)) {
        assert items[i] == most[i];
      }
    }
  }

  /** Some code is given with white space around it, so that nothing is ever stored under it. */
  predicate Misspelled(codes: set<string>) { exists c | c in codes :: Trim(c) != c }

  /** The batch writes the record of some code, and writes it inactive. */
  predicate Deactivates(rt: Runtime, items: seq<Item>, codes: set<string>) {
    exists c | c in codes :: LastWritten(rt, items, c).Some? && !IsActive(LastWritten(rt, items, c).value)
  }

  /** Some code, though spelled well, is neither known before nor written, since no item for it can be cast. */
  predicate NotWritten(rt: Runtime, items: seq<Item>, codes: set<string>, known: set<string>) {
    exists c | c in codes :: Trim(c) == c && c !in known && LastWritten(rt, items, c).None?
  }

  lemma {:induction false} ActiveAfterwards(rt: Runtime, docs: Legends, version: string, items: seq<Item>, c: string)
    requires AllCoded(items)
    ensures var last := LastWritten(rt, items, c);
            c in ActiveCodes(Imported(rt, docs, version, items), version)
            <==> if last.Some? then IsActive(last.value) else c in ActiveCodes(docs, version)
  {
    var k, after := Key(Trim(version), c), Imported(rt, docs, version, items);
    ImportedAt(rt, docs, version, items, k);
    assert c in ActiveCodes(after, version) <==> k in after && after[k].isActive;
    assert c in ActiveCodes(docs, version) <==> k in docs && docs[k].isActive;
  }

  lemma CodesAreTrimmed(docs: Legends, version: string, c: string)
    requires StoreOk(docs) && c in StoredCodes(docs, version)
    ensures Trim(c) == c && (c in ActiveCodes(docs, version) ==> (c in NormalCodes(docs, version) <==> !SaysComputed(c)))
  {
    assert LegendOk(c, docs[Key(Trim(version), c)]);
    TrimTrimmed(c);
  }

  lemma {:induction false} OperandsSayNormal(rule: Json, n: nat, c: string)
    requires n <= |Operands(rule)| && c in CodesIn(rule, n)
    ensures !SaysComputed(c)
  {
    if c in CodesIn(rule, n - 1) { OperandsSayNormal(rule, n - 1, c); }
  }

  lemma {:induction false} RulesSayNormal(rules: seq<Json>, c: string)
    requires c in CodesOfRules(rules)
    ensures !SaysComputed(c)
  {
    var rule := rules[|rules| - 1];
    if c in CodesOfRules(rules[..|rules| - 1]) {
      RulesSayNormal(rules[..|rules| - 1], c);
    } else {
      OperandsSayNormal(rule, |Operands(rule)|, c);
    }
  }

  lemma {:induction false} ReferencedSayNormal(items: seq<Item>, c: string)
    requires c in Referenced(items)
    ensures !SaysComputed(c)
  {
    if c in Referenced(items[..|items| - 1]) {
      ReferencedSayNormal(items[..|items| - 1], c);
    } else {
      RulesSayNormal(Items(Field(items[|items| - 1], "rules")), c);
    }
  }

  /**
   After an accepted import the operands its computed legends refer to are active normal legends if and only if none
   of them is given with white space around it, is deactivated by the batch itself, or is missing because the items
   that carry it could not be cast.
   */
  lemma {:induction false} OperandsResolveAfterwards(rt: Runtime, docs: Legends, version: string, items: seq<Item>)
    requires StoreOk(docs) && Accepts(docs, version, items) && AllCoded(items)
    ensures var after, codes := Imported(rt, docs, version, items), Referenced(items);
            && (codes <= ActiveCodes(after, version) <==> codes <= NormalCodes(after, version))
            && (codes <= ActiveCodes(after, version)
                <==> !Misspelled(codes) && !Deactivates(rt, items, codes)
                     && !NotWritten(rt, items, codes, ActiveCodes(docs, version)))
  {
    var after, codes := Imported(rt, docs, version, items), Referenced(items);
    ImportKeepsStoreOk(rt, docs, version, items, |items|);
    assert items[..|items|] == items;
    forall c | c in codes
      ensures c in ActiveCodes(after, version) <==> c in NormalCodes(after, version)
      ensures c in ActiveCodes(after, version) ==> Trim(c) == c
      ensures var last := LastWritten(rt, items, c);
              c in ActiveCodes(after, version)
              <==> if last.Some? then IsActive(last.value) else c in ActiveCodes(docs, version)
    {
      ActiveAfterwards(rt, docs, version, items, c);
      ReferencedSayNormal(items, c);
      if c in StoredCodes(after, version) { CodesAreTrimmed(after, version, c); }
    }
  }

  /** The parents that a batch names. */
  function ParentCodes(items: seq<Item>): set<string> {
    set i | 0 <= i < |items| && !IsComputed(items[i]) && IsString(Field(items[i], "parentCode")) :: items[i]["parentCode"].s
  }

  /** After an accepted import the parents it names are stored under the same two conditions, whatever is active. */
  lemma {:induction false} ParentsResolveAfterwards(rt: Runtime, docs: Legends, version: string, items: seq<Item>)
    requires StoreOk(docs) && Accepts(docs, version, items) && AllCoded(items)
    ensures var codes := ParentCodes(items);
            codes <= StoredCodes(Imported(rt, docs, version, items), version)
            <==> !Misspelled(codes) && !NotWritten(rt, items, codes, StoredCodes(docs, version))
  {
    var after, codes := Imported(rt, docs, version, items), ParentCodes(items);
    ImportKeepsStoreOk(rt, docs, version, items, |items|);
    assert items[..|items|] == items;
    forall c | c in codes
      ensures c in StoredCodes(after, version) ==> Trim(c) == c
      ensures c in StoredCodes(after, version) <==> LastWritten(rt, items, c).Some? || c in StoredCodes(docs, version)
    {
      var k := Key(Trim(version), c);
      ImportedAt(rt, docs, version, items, k);
      assert c in StoredCodes(after, version) <==> k in after;
      assert c in StoredCodes(docs, version) <==> k in docs;
      if c in StoredCodes(after, version) { CodesAreTrimmed(after, version, c); }
    }
  }

  // ----- deletion, as LegendTree describes it

  /** No code equals a null on a path. */
  function PathCodes(path: seq<Option<string>>): seq<string> {
    if path == [] then []
    else if path[0].Some? then [path[0].value] + PathCodes(path[1..])
    else PathCodes(path[1..])
  }

  function NodeOf(g: Legend): LegendTree.Node {
    match g.hierarchy
    case None => LegendTree.Node(None, [])
    case Some(h) => LegendTree.Node(h.parentCode, PathCodes(h.codePath))
  }

  function TreeOf(docs: Legends, version: string): LegendTree.Tree {
    map k | k in docs && k.version == Trim(version) :: k.code := NodeOf(docs[k])
  }

  function Deleted(docs: Legends, version: string, op: LegendTree.Delete): Legends {
    map k | k in docs && (k.version == Trim(version) ==> k.code in LegendTree.AfterDelete(TreeOf(docs, version), op)) :: docs[k]
  }

  /** Deleting from the collection and then looking at the tree of a version is deleting from the tree. */
  lemma DeletedTree(docs: Legends, version: string, op: LegendTree.Delete)
    ensures TreeOf(Deleted(docs, version, op), version) == LegendTree.AfterDelete(TreeOf(docs, version), op)
  {
    var tree := TreeOf(docs, version);
    forall c ensures c in tree <==> Key(Trim(version), c) in docs { }
    forall c ensures c in TreeOf(Deleted(docs, version, op), version) <==> Key(Trim(version), c) in Deleted(docs, version, op) { }
  }

  /** No subtree deletion of any code removes a computed legend that imports have made; only a leaf deletion does. */
  lemma ComputedLegendSurvivesSubtrees(docs: Legends, k: Key, c: string)
    requires StoreOk(docs) && k in docs && docs[k].isComputed && Trim(k.version) == k.version
    ensures k in Deleted(docs, k.version, LegendTree.Subtree(c))
  {
    assert LegendOk(k.code, docs[k]);
    var tree := TreeOf(docs, k.version);
    assert k.code in tree && tree[k.code] == LegendTree.Node(None, []);
  }
}
