/** How the legend schema casts an import item on its way into the collection. */
module LegendSchema {
  import opened Basics
  import opened Text
  import opened LegendRules
  import opened LegendImport

  /** The text the runtime gives a number, and the texts it reads as numbers. */
  datatype Runtime = Runtime(text: Num -> string, isNumber: string -> bool)

  /** A value that can be cast to a string: no array, and an object only for its `_id`. */
  predicate HasText(j: Json) {
    match j
    case Array(_) => false
    case Object(_) => IsString(Get(j, "_id")) && Get(j, "_id").value.s != ""
    case _ => true
  }

  /** The cast itself; None is null. */
  function AsText(rt: Runtime, j: Json): Option<string>
    requires HasText(j)
  {
    match j
    case Null => None
    case Bool(b) => Some(if b then "true" else "false")
    case Number(n) => Some(rt.text(n))
    case String(s) => Some(s)
    case Object(_) => Some(Get(j, "_id").value.s)
  }

  predicate IsNumeric(rt: Runtime, j: Json) {
    match j
    case Array(_) => false
    case Object(_) => false
    case String(s) => s == "" || rt.isNumber(s)
    case _ => true
  }

  predicate FieldHasText(item: Item, key: string) { Field(item, key).Some? ==> HasText(item[key]) }

  predicate FieldIsNumeric(rt: Runtime, item: Item, key: string) { Field(item, key).Some? ==> IsNumeric(rt, item[key]) }

  predicate AllHaveText(items: seq<Json>) { forall i :: 0 <= i < |items| ==> HasText(items[i]) }

  function Texts(rt: Runtime, items: seq<Json>): seq<Option<string>>
    requires AllHaveText(items)
  {
    seq(|items|, i requires 0 <= i < |items| => AsText(rt, items[i]))
  }

  /** All fields that are written can be cast. The bulk write leaves out an upsert that cannot, and reports no error. */
  predicate Casts(rt: Runtime, item: Item) {
    && FieldHasText(item, "name") && FieldIsNumeric(rt, item, "sortOrder")
    && (!IsComputed(item) ==>
          && FieldHasText(item, "majorCode") && FieldHasText(item, "segmentCode") && FieldIsNumeric(rt, item, "level")
          && AllHaveText(Items(Field(item, "segmentPath"))) && AllHaveText(Items(Field(item, "codePath"))))
  }
}
