/**
 * `validateDpd` (lib/dataProducts/dpd/validator.js) and the weaker copy
 * kept next to the second `buildDpd` (lib/dataProducts/dpdBuilder.js):
 * a sequence of checks on a built descriptor, each logging its message and
 * returning false, the first failing one deciding. The message logged is
 * modelled as the value of `Failure`; the logger itself is left out.
 */
module DpdValidator {
  import opened Js
  import opened Text

  /** Line 25: the properties that must be truthy, in the order they are checked. */
  const REQUIRED_FIELDS: seq<string> := ["name", "version", "title", "type", "category"]
  /** Line 34. */
  const VALID_TYPES: seq<string> := ["primary", "derived"]
  /** Line 41. */
  const VALID_CATEGORIES: seq<string> := ["business-object", "master-data", "analytical", "event"]

  /** Lines 26-31: the first required property that is not truthy, if any. */
  function FirstMissing(dpd: Object, fields: seq<string>): (r: Option<string>)
    ensures r.None? <==> forall i :: 0 <= i < |fields| ==> Truthy(Lookup(dpd, fields[i]))
    ensures r.Some? ==>
              exists k :: 0 <= k < |fields| && r.value == fields[k] && !Truthy(Lookup(dpd, fields[k])) &&
                          forall i :: 0 <= i < k ==> Truthy(Lookup(dpd, fields[i]))
  {
    if fields == [] then None
    else if !Truthy(Lookup(dpd, fields[0])) then Some(fields[0])
    else
      var rest := FirstMissing(dpd, fields[1..]);
      if rest.Some? then
        ghost var k :| 0 <= k < |fields[1..]| && rest.value == fields[1..][k] && !Truthy(Lookup(dpd, fields[1..][k])) &&
                       forall i :: 0 <= i < k ==> Truthy(Lookup(dpd, fields[1..][i]));
        assert forall i :: 0 <= i < k + 1 ==> Truthy(Lookup(dpd, fields[i])) by {
          forall i | 0 <= i < k + 1 ensures Truthy(Lookup(dpd, fields[i])) {
            if i > 0 {
              assert fields[i] == fields[1..][i - 1];
            }
          }
        }
        assert rest.value == fields[k + 1];
        rest
      else
        assert forall i :: 1 <= i < |fields| ==> fields[i] == fields[1..][i - 1];
        rest
  }

  /** No required property is missing exactly when all five are truthy. */
  lemma RequiredFields(dpd: Object)
    ensures FirstMissing(dpd, REQUIRED_FIELDS).None? <==>
            Truthy(Lookup(dpd, "name")) && Truthy(Lookup(dpd, "version")) && Truthy(Lookup(dpd, "title")) &&
            Truthy(Lookup(dpd, "type")) && Truthy(Lookup(dpd, "category"))
  {
    var f := REQUIRED_FIELDS;
    assert f[0] == "name" && f[1] == "version" && f[2] == "title" && f[3] == "type" && f[4] == "category";
  }

  /** Lines 10-31, shared by both versions: the naming, version and required-field checks. */
  function CommonFailure(dpd: Object): Option<string>
  {
    var name := Lookup(dpd, "name");
    var version := Lookup(dpd, "version");
    if !IsDpdName(JsString(name)) then
      Some("Invalid DPD name: " + JsString(name) + ". Only alphanumeric characters, underscores, and dots are allowed.")
    else if !IsSemVer(JsString(version)) then
      Some("Invalid version format: " + JsString(version) + ". Use semantic versioning (x.x.x).")
    else
      var missing := FirstMissing(dpd, REQUIRED_FIELDS);
      if missing.Some? then Some("Missing required field: " + missing.value) else None
  }

  /** lib/dataProducts/dpd/validator.js:8-48: the message of the first failing check, if any. */
  function Failure(dpd: Object): Option<string>
  {
    var common := CommonFailure(dpd);
    var t := Lookup(dpd, "type");
    var category := Lookup(dpd, "category");
    if common.Some? then common
    else if !IsOneOf(t, VALID_TYPES) then
      Some("Invalid type: " + JsString(t) + ". Must be 'primary' or 'derived'.")
    else if !IsOneOf(category, VALID_CATEGORIES) then
      Some("Invalid category: " + JsString(category) + ". Must be one of: business-object, master-data, analytical, event")
    else None
  }

  /** `validateDpd(dpd)` of lib/dataProducts/dpd/validator.js. */
  function ValidateDpd(dpd: Object): (valid: bool)
    ensures valid <==>
            IsDpdName(JsString(Lookup(dpd, "name"))) && IsSemVer(JsString(Lookup(dpd, "version"))) &&
            Truthy(Lookup(dpd, "name")) && Truthy(Lookup(dpd, "version")) && Truthy(Lookup(dpd, "title")) &&
            Truthy(Lookup(dpd, "type")) && Truthy(Lookup(dpd, "category")) &&
            IsOneOf(Lookup(dpd, "type"), VALID_TYPES) && IsOneOf(Lookup(dpd, "category"), VALID_CATEGORIES)
  {
    RequiredFields(dpd);
    Failure(dpd).None?
  }

  /** `validateDpd(dpd)` of lib/dataProducts/dpdBuilder.js:205-231: no type or category check. */
  function ValidateDpdWeak(dpd: Object): (valid: bool)
    ensures valid <==>
            IsDpdName(JsString(Lookup(dpd, "name"))) && IsSemVer(JsString(Lookup(dpd, "version"))) &&
            Truthy(Lookup(dpd, "name")) && Truthy(Lookup(dpd, "version")) && Truthy(Lookup(dpd, "title")) &&
            Truthy(Lookup(dpd, "type")) && Truthy(Lookup(dpd, "category"))
  {
    RequiredFields(dpd);
    CommonFailure(dpd).None?
  }

  /**
   * The weak copy accepts everything the strict validator accepts, and
   * exactly those descriptors once type and category are among the
   * allowed values.
   */
  lemma StrictImpliesWeak(dpd: Object)
    ensures ValidateDpd(dpd) ==> ValidateDpdWeak(dpd)
    ensures ValidateDpdWeak(dpd) ==>
              (ValidateDpd(dpd) <==> IsOneOf(Lookup(dpd, "type"), VALID_TYPES) && IsOneOf(Lookup(dpd, "category"), VALID_CATEGORIES))
  {
  }

  /** A message is logged exactly for a descriptor that fails; the shared checks come first. */
  lemma FailureMessage(dpd: Object)
    ensures Failure(dpd).Some? <==> !ValidateDpd(dpd)
    ensures CommonFailure(dpd).Some? ==> Failure(dpd) == CommonFailure(dpd)
  {
  }

  /**
   * On a descriptor `buildDpd` returns, the validator decides on the
   * configuration: the name and version are copied, and the category
   * defaults to `business-object`, which is allowed.
   */
  lemma ValidBuilt(dpd: Object, config: Json)
    requires Lookup(dpd, "name") == Get(config, "name") && Lookup(dpd, "title") == Get(config, "title")
    requires Lookup(dpd, "version") == Get(config, "version") && Get(config, "version").Str?
    requires Lookup(dpd, "type") == Get(config, "type")
    requires Lookup(dpd, "category") == if Truthy(Get(config, "category")) then Get(config, "category") else Str("business-object")
    ensures ValidateDpd(dpd) <==>
              IsDpdName(JsString(Get(config, "name"))) && IsSemVer(Get(config, "version").s) &&
              Truthy(Get(config, "name")) && Truthy(Get(config, "title")) &&
              IsOneOf(Get(config, "type"), VALID_TYPES) &&
              (!Truthy(Get(config, "category")) || IsOneOf(Get(config, "category"), VALID_CATEGORIES))
  {
    assert IsSemVer(Get(config, "version").s) ==> Truthy(Get(config, "version"));
  }
}
