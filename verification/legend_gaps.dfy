/** Batches that an import accepts and that do not leave what its checks are there for. */
module LegendGaps {
  import opened Basics
  import opened Text
  import opened LegendRules
  import opened LegendImport
  import opened LegendSchema
  import opened LegendStore
  import LegendTree

  // ----- the items of these batches

  /** A complete normal item whose path is only its own code. */
  predicate IsPlainItem(o: Item, code: string, parent: Option<string>, active: bool, level: Json) {
    && Field(o, "nmamCode") == Some(String(code)) && Field(o, "isComputed") == None
    && Field(o, "templateVersion") == None && Field(o, "accountHead") == Some(String("INCOME"))
    && Field(o, "majorCode") == Some(String("1")) && Field(o, "segmentCode") == Some(String("1"))
    && Field(o, "name") == Some(String("Tax")) && Field(o, "level") == Some(level)
    && Field(o, "sortOrder") == Some(Bool(true)) && Field(o, "segmentPath") == Some(Array([String("1")]))
    && Field(o, "codePath") == Some(Array([String(code)]))
    && Field(o, "parentCode") == Some(if parent.Some? then String(parent.value) else Null)
    && Field(o, "rules") == None && Field(o, "isActive") == Some(Bool(active))
  }

  /** A complete computed item with one formula, the sum of one operand. */
  predicate IsTotalItem(t: Item, operand: string) {
    && Field(t, "nmamCode") == Some(String("computed.totIncome")) && Field(t, "isComputed") == Some(Bool(true))
    && Field(t, "templateVersion") == None && Field(t, "accountHead") == Some(String("COMPUTED"))
    && Field(t, "name") == Some(String("Total")) && Field(t, "sortOrder") == Some(Bool(true))
    && Field(t, "isActive") == None && Field(t, "rules") == Some(Array([ToJson(Sum([operand]))]))
  }

  lemma PlainItemExists(code: string, parent: Option<string>, active: bool, level: Json) returns (o: Item)
    ensures IsPlainItem(o, code, parent, active, level)
  {
    o := map["nmamCode" := String(code), "accountHead" := String("INCOME"), "majorCode" := String("1"),
             "segmentCode" := String("1"), "name" := String("Tax"), "level" := level, "sortOrder" := Bool(true),
             "segmentPath" := Array([String("1")]), "codePath" := Array([String(code)]),
             "parentCode" := if parent.Some? then String(parent.value) else Null, "isActive" := Bool(active)];
  }

  lemma TotalItemExists(operand: string) returns (t: Item)
    ensures IsTotalItem(t, operand)
  {
    t := map["nmamCode" := String("computed.totIncome"), "isComputed" := Bool(true), "accountHead" := String("COMPUTED"),
             "name" := String("Total"), "sortOrder" := Bool(true), "rules" := Array([ToJson(Sum([operand]))])];
  }

  /** A code that is no computed one, with or without a space in front. */
  predicate IsPlainCode(code: string) {
    Trim(code) != "" && !SaysComputed(code) && !SaysComputed(Trim(code))
  }

  lemma PlainIsOk(rt: Runtime, items: seq<Item>, i: nat, version: string, code: string, parent: Option<string>,
                  active: bool, level: Json)
    requires i < |items| && IsPlainItem(items[i], code, parent, active, level) && IsPlainCode(code)
    requires level != Null && level != String("") && code !in BatchCodes(items[..i])
    requires parent.Some? ==> parent.value in BatchCodes(items)
    ensures ItemOk(items, i, version) && Code(items[i]) == Some(code) && CodeText(items[i]) == Trim(code)
    ensures IsActive(items[i]) == active && CodesOfItem(items[i]) == {}
    ensures Casts(rt, items[i]) <==> IsNumeric(rt, level)
  {
  }

  lemma TotalRuleIsOk(operand: string)
    requires !SaysComputed(operand)
    ensures var rules := [ToJson(Sum([operand]))];
            RulesOk(rules) && CountFormulas(rules) == 1 && AllOperandsOk(rules) && CodesOfRules(rules) == {operand}
  {
    var rule := ToJson(Sum([operand]));
    var rules := [rule];
    assert Operands(rule) == [String(operand)] && OperandCode(rule, 0) == Some(operand);
    assert Strings(Operands(rule)) == [operand] && Meaning(rule) == Some(Sum([operand]));
    assert rules[..0] == [];
    assert CodesIn(rule, 0) == {} && CodesIn(rule, 1) == {operand};
  }

  lemma TotalIsOk(o: Item, t: Item, version: string, operand: string)
    requires IsTotalItem(t, operand) && !SaysComputed(operand) && Code(o).Some? && !SaysComputed(Code(o).value)
    ensures ItemOk([o, t], 1, version) && CodeText(t) == "computed.totIncome" && CodesOfItem(t) == {operand}
    ensures Code(t) == Some("computed.totIncome")
  {
    TrimTrimmed("computed.totIncome");
    TotalRuleIsOk(operand);
    assert [o, t][..1] == [o];
    assert COMPUTED_CODES[0] == "computed.totIncome" && SaysComputed("computed.totIncome");
  }

  lemma {:induction false} OfTwo(rt: Runtime, o: Item, t: Item, c: string)
    ensures Referenced([o, t]) == CodesOfItem(o) + CodesOfItem(t)
    ensures LastWritten(rt, [o, t], c) == if Code(t).Some? && CodeText(t) == c && Casts(rt, t) then Some(t)
                                          else if Code(o).Some? && CodeText(o) == c && Casts(rt, o) then Some(o) else None
    ensures BatchNormalCodes([o, t]) == (if IsBatchNormal(o) then {Code(o).value} else {})
                                        + if IsBatchNormal(t) then {Code(t).value} else {}
  {
    assert [o, t][..1] == [o] && [o][..0] == [];
    assert Referenced([o]) == Referenced([]) + CodesOfItem(o);
    assert BatchNormalCodes([o]) == BatchNormalCodes([]) + if IsBatchNormal(o) then {Code(o).value} else {};
    assert LastWritten(rt, [o], c) == if Code(o).Some? && CodeText(o) == c && Casts(rt, o) then Some(o) else None;
  }

  lemma TotalOverIsOk(rt: Runtime, version: string, o: Item, t: Item, code: string, active: bool, level: Json)
    requires IsPlainItem(o, code, None, active, level) && IsTotalItem(t, code)
    requires IsPlainCode(code) && level != Null && level != String("")
    ensures BatchOk([o, t], version) && AllCoded([o, t]) && CodesOfItem(o) == {} && CodesOfItem(t) == {code}
    ensures Code(o) == Some(code) && CodeText(o) == Trim(code) && IsActive(o) == active
    ensures CodeText(t) == "computed.totIncome" && (Casts(rt, o) <==> IsNumeric(rt, level))
  {
    var items := [o, t];
    assert items[..0] == [] && BatchCodes([]) == {};
    PlainIsOk(rt, items, 0, version, code, None, active, level);
    TotalIsOk(o, t, version, code);
    forall i | 0 <= i < 2 ensures ItemOk(items, i, version) && Code(items[i]).Some? { }
  }

  /** One normal item and one total over it. */
  lemma TotalOver(rt: Runtime, version: string, code: string, active: bool, level: Json) returns (items: seq<Item>)
    requires IsPlainCode(code) && Trim(code) != "computed.totIncome" && level != Null && level != String("")
    ensures |items| == 2 && BatchOk(items, version) && AllCoded(items) && Referenced(items) == {code}
    ensures active ==> code in BatchNormalCodes(items)
    ensures CodeText(items[0]) == Trim(code) && IsActive(items[0]) == active
    ensures LastWritten(rt, items, Trim(code)) == if IsNumeric(rt, level) then Some(items[0]) else None
  {
    var o := PlainItemExists(code, None, active, level);
    var t := TotalItemExists(code);
    items := [o, t];
    TotalOverIsOk(rt, version, o, t, code, active, level);
    OfTwo(rt, o, t, Trim(code));
  }

  // ----- operands that do not resolve afterwards

  lemma PlainCodeOk()
    ensures IsPlainCode("110") && IsPlainCode(" 110") && Trim("110") == "110" == Trim(" 110")
    ensures IsPlainCode("100") && Trim("100") == "100"
  {
    TrimTrimmed("110");
    assert " " + "110" == " 110";
    TrimTrimmed("100");
  }

  /** The batch deactivates the operand of its own formula. */
  lemma AcceptedBatchDeactivatesItsOperand(rt: Runtime, docs: Legends, version: string) returns (items: seq<Item>)
    requires StoreOk(docs) && "110" in ActiveCodes(docs, version)
    ensures Accepts(docs, version, items) && AllCoded(items) && Referenced(items) == {"110"}
    ensures "110" !in ActiveCodes(Imported(rt, docs, version, items), version)
  {
    PlainCodeOk();
    items := TotalOver(rt, version, "110", false, Bool(true));
    ActiveCodesAreTrimmed(docs, version);
    UnknownAmongTrimmed(items, ActiveCodes(docs, version));
    ActiveAfterwards(rt, docs, version, items, "110");
  }

  /** The operand is a code of the batch, spelled as there with a space in front, and the record is stored without. */
  lemma AcceptedBatchMisspellsItsOperand(rt: Runtime, docs: Legends, version: string) returns (items: seq<Item>)
    requires StoreOk(docs)
    ensures Accepts(docs, version, items) && AllCoded(items) && Referenced(items) == {" 110"}
    ensures var after := Imported(rt, docs, version, items);
            "110" in ActiveCodes(after, version) && " 110" !in StoredCodes(after, version)
  {
    PlainCodeOk();
    items := TotalOver(rt, version, " 110", true, Bool(true));
    assert Referenced(items) - BatchNormalCodes(items) == {};
    ActiveAfterwards(rt, docs, version, items, "110");
    ImportKeepsStoreOk(rt, docs, version, items, |items|);
    assert items[..|items|] == items;
    if " 110" in StoredCodes(Imported(rt, docs, version, items), version) {
      CodesAreTrimmed(Imported(rt, docs, version, items), version, " 110");
    }
  }

  /** The operand is a code of the batch whose item has a list for its level, which is left out of the write. */
  lemma AcceptedBatchIsNotWritten(rt: Runtime, docs: Legends, version: string) returns (items: seq<Item>)
    requires "110" !in ActiveCodes(docs, version)
    ensures Accepts(docs, version, items) && AllCoded(items) && Referenced(items) == {"110"}
    ensures "110" !in ActiveCodes(Imported(rt, docs, version, items), version)
  {
    PlainCodeOk();
    items := TotalOver(rt, version, "110", true, Array([]));
    assert Referenced(items) - BatchNormalCodes(items) == {};
    ActiveAfterwards(rt, docs, version, items, "110");
  }

  lemma ActiveCodesAreTrimmed(docs: Legends, version: string)
    requires StoreOk(docs)
    ensures forall c :: c in ActiveCodes(docs, version) ==> IsTrimmed(c)
  {
    forall c | c in ActiveCodes(docs, version) ensures IsTrimmed(c) {
      assert LegendOk(c, docs[Key(Trim(version), c)]);
    }
  }

  // ----- a child that a subtree deletion leaves behind

  lemma ParentAndChild(rt: Runtime, version: string) returns (items: seq<Item>)
    ensures |items| == 2 && BatchOk(items, version) && AllCoded(items) && Referenced(items) == {}
    ensures IsPlainItem(items[0], "100", None, true, Bool(true)) && IsPlainItem(items[1], "110", Some("100"), true, Bool(true))
    ensures CodeText(items[0]) == "100" && CodeText(items[1]) == "110" && Casts(rt, items[0]) && Casts(rt, items[1])
  {
    PlainCodeOk();
    var o := PlainItemExists("100", None, true, Bool(true));
    var t := PlainItemExists("110", Some("100"), true, Bool(true));
    items := [o, t];
    assert items[..0] == [] && BatchCodes([]) == {} && items[..1] == [o];
    PlainIsOk(rt, items, 0, version, "100", None, true, Bool(true));
    assert CodeText(items[0]) != "" && Code(items[0]).value in BatchCodes(items);
    PlainIsOk(rt, items, 1, version, "110", Some("100"), true, Bool(true));
    OfTwo(rt, o, t, "");
    assert Code(items[0]).Some? && Code(items[1]).Some?;
  }

  lemma PlainNode(rt: Runtime, o: Item, code: string, parent: Option<string>, before: Option<Legend>)
    requires IsPlainItem(o, code, parent, true, Bool(true)) && Casts(rt, o)
    ensures NodeOf(Sanitized(rt, o, before)) == LegendTree.Node(parent, [code])
  {
    var path := Texts(rt, [String(code)]);
    assert path == [Some(code)] && path[1..] == [];
    assert PathCodes(path) == [code] + PathCodes(path[1..]);
  }

  lemma TreeWith(docs: Legends, version: string, code: string, g: Legend)
    ensures TreeOf(docs[Key(Trim(version), code) := g], version) == TreeOf(docs, version)[code := NodeOf(g)]
  {
    var after := docs[Key(Trim(version), code) := g];
    forall c ensures c in TreeOf(after, version) <==> Key(Trim(version), c) in after { }
    forall c ensures c in TreeOf(docs, version) <==> Key(Trim(version), c) in docs { }
  }

  lemma TreeAfterUpsert(rt: Runtime, docs: Legends, version: string, o: Item, code: string, parent: Option<string>)
    requires IsPlainItem(o, code, parent, true, Bool(true)) && Casts(rt, o) && CodeText(o) == code
    ensures TreeOf(Upserted(rt, docs, version, o), version) == TreeOf(docs, version)[code := LegendTree.Node(parent, [code])]
  {
    var k := Key(Trim(version), code);
    var before := if k in docs then Some(docs[k]) else None;
    PlainNode(rt, o, code, parent, before);
    TreeWith(docs, version, code, Sanitized(rt, o, before));
  }

  lemma {:induction false} TreeOfParentAndChild(rt: Runtime, docs: Legends, version: string, items: seq<Item>)
    requires |items| == 2 && AllCoded(items)
    requires IsPlainItem(items[0], "100", None, true, Bool(true)) && IsPlainItem(items[1], "110", Some("100"), true, Bool(true))
    requires CodeText(items[0]) == "100" && CodeText(items[1]) == "110" && Casts(rt, items[0]) && Casts(rt, items[1])
    ensures TreeOf(Imported(rt, docs, version, items), version)
         == TreeOf(docs, version)["100" := LegendTree.Node(None, ["100"])]["110" := LegendTree.Node(Some("100"), ["110"])]
  {
    var first := items[..1];
    assert first == [items[0]] && first[..0] == [];
    assert Imported(rt, docs, version, first) == Upserted(rt, Imported(rt, docs, version, []), version, items[0]);
    TreeAfterUpsert(rt, docs, version, items[0], "100", None);
    TreeAfterUpsert(rt, Imported(rt, docs, version, first), version, items[1], "110", Some("100"));
  }

  lemma OrphanedChild(t: LegendTree.Tree, t': LegendTree.Tree)
    requires LegendTree.Resolvable(t)
    requires t' == t["100" := LegendTree.Node(None, ["100"])]["110" := LegendTree.Node(Some("100"), ["110"])]
    ensures LegendTree.Resolvable(t') && !LegendTree.Resolvable(LegendTree.AfterDelete(t', LegendTree.Subtree("100")))
  {
    LegendTree.SubtreeOrphans(t', "110");
  }

  /** The import only looks at the last code of a path, so a child may be stored without its parent on its path. */
  lemma AcceptedBatchLeavesOrphan(rt: Runtime, docs: Legends, version: string) returns (items: seq<Item>)
    requires LegendTree.Resolvable(TreeOf(docs, version))
    ensures Accepts(docs, version, items) && AllCoded(items)
    ensures var after := Imported(rt, docs, version, items);
            && LegendTree.Resolvable(TreeOf(after, version))
            && !LegendTree.Resolvable(TreeOf(Deleted(after, version, LegendTree.Subtree("100")), version))
  {
    items := ParentAndChild(rt, version);
    TreeOfParentAndChild(rt, docs, version, items);
    OrphanedChild(TreeOf(docs, version), TreeOf(Imported(rt, docs, version, items), version));
    DeletedTree(Imported(rt, docs, version, items), version, LegendTree.Subtree("100"));
  }
}
