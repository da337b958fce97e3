/**
 * The compiled CDS model as the stages read it: `csn.definitions` maps a
 * definition name to a definition, and a definition may hold `elements`.
 */
module Csn {
  import opened Js

  /**
   * What every stage receives: the compiled model, the ORD namespace, the
   * override document as loaded (null when there is none or it does not
   * parse) and the date check, which turns a value into a canonical date
   * string or rejects it.
   */
  datatype Context = Context(csn: Json, namespace: Json, customConfig: Json, validateDate: Json -> Option<string>)

  /** `validateDate(v)`: the canonical date string, or null. */
  function DateValue(ctx: Context, v: Json): (r: Json)
    ensures r.Str? || r.Null?
  {
    match ctx.validateDate(v)
    case Some(s) => Str(s)
    case None => Null
  }

  /** `Object.entries(csn.definitions)`: throws when the model or its definitions are missing. */
  function Definitions(csn: Json): (r: Result<seq<Field>>)
    ensures r.Err? <==> IsNullish(csn) || IsNullish(Get(csn, "definitions"))
    ensures r.Ok? ==> r.value == OwnEntries(Get(csn, "definitions"))
  {
    if IsNullish(csn) then Err(TypeError)
    else
      var defs := Get(csn, "definitions");
      if IsNullish(defs) then Err(TypeError) else Ok(OwnEntries(defs))
  }

  /** `csn.definitions[name]`: the name is converted to a property key. */
  function Definition(csn: Json, name: Json): (r: Result<Json>)
    ensures r.Err? <==> IsNullish(csn) || IsNullish(Get(csn, "definitions"))
    ensures r.Ok? ==> r.value == Get(Get(csn, "definitions"), JsString(name))
  {
    if IsNullish(csn) then Err(TypeError)
    else
      var defs := Get(csn, "definitions");
      if IsNullish(defs) then Err(TypeError) else Ok(Get(defs, JsString(name)))
  }

  /** `def.elements || {}` */
  function ElementsOf(def: Json): Json
  {
    Or(Get(def, "elements"), Obj([]))
  }

  /** `Object.entries(def.elements || {})` */
  function ElementEntries(def: Json): seq<Field>
  {
    OwnEntries(ElementsOf(def))
  }

  /** `Object.values(def.elements || {})` */
  function ElementValues(def: Json): (r: seq<Json>)
    ensures |r| == |ElementEntries(def)|
    ensures forall i :: 0 <= i < |r| ==> r[i] == ElementEntries(def)[i].value
  {
    OwnValues(ElementsOf(def))
  }

  /** The service a record was generated for: `csn.definitions[dp.serviceName]`. */
  function ServiceOf(ctx: Context, dp: Object): Result<Json>
  {
    Definition(ctx.csn, Lookup(dp, "serviceName"))
  }

  /** `Array.isArray(v) ? v : [v]` */
  function AsList(v: Json): (r: seq<Json>)
    ensures v.Arr? ==> r == v.items
    ensures !v.Arr? ==> r == [v]
  {
    if v.Arr? then v.items else [v]
  }
}
