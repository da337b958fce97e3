/**
 * Helpers shared by the processing stages: data product ids, the
 * validators that fall back to defaults, and tag normalisation
 * (lib/dataProducts/utils.js).
 */
module Utils {
  import opened Js
  import opened Text
  import opened Constants

  /** The version suffix of an id: `v` and the major version, or `v1` when no version is given. */
  function VersionSuffix(version: Json): (r: Result<string>)
    ensures r.Ok? <==> !Truthy(version) || version.Str?
    ensures !Truthy(version) ==> r == Ok("v1")
    ensures Truthy(version) && version.Str? ==> r == Ok("v" + BeforeFirst(version.s, '.'))
  {
    if !Truthy(version) then Ok("v1")
    else if version.Str? then Ok("v" + BeforeFirst(version.s, '.'))
    else Err(TypeError)
  }

  /**
   * `namespace:dataProduct:serviceName:v<major>`. A version that is given
   * but is not a string cannot be split and throws.
   */
  function GenerateDataProductId(namespace: Json, serviceName: Json, version: Json): (r: Result<string>)
    ensures r.Ok? <==> !Truthy(version) || version.Str?
    ensures r.Ok? ==> r.value == JsString(namespace) + ":dataProduct:" + JsString(serviceName) + ":" + VersionSuffix(version).value
  {
    var suffix :- VersionSuffix(version);
    Ok(JsString(namespace) + ":dataProduct:" + JsString(serviceName) + ":" + suffix)
  }

  /**
   * An id generated from names without colons splits back, on `:`, into the
   * namespace, `dataProduct`, the service name and the version suffix.
   */
  lemma {:induction false} GeneratedIdSplits(namespace: string, serviceName: string, version: Json)
    requires ':' !in namespace && ':' !in serviceName
    requires !Truthy(version) || version.Str?
    requires Truthy(version) ==> ':' !in BeforeFirst(version.s, '.')
    ensures GenerateDataProductId(Str(namespace), Str(serviceName), version).Ok?
    ensures Split(GenerateDataProductId(Str(namespace), Str(serviceName), version).value, ':')
            == [namespace, "dataProduct", serviceName, VersionSuffix(version).value]
  {
    var suffix := VersionSuffix(version).value;
    assert ':' !in suffix by {
      if Truthy(version) {
        assert suffix == "v" + BeforeFirst(version.s, '.');
      } else {
        assert suffix == "v1";
      }
    }
    assert ':' !in "dataProduct";
    IdLayout(namespace, serviceName, suffix);
    SplitFour(namespace, "dataProduct", serviceName, suffix);
  }

  lemma IdLayout(namespace: string, serviceName: string, suffix: string)
    ensures namespace + ":dataProduct:" + serviceName + ":" + suffix
         == namespace + ":" + ("dataProduct" + ":" + (serviceName + ":" + suffix))
  {
    assert ":dataProduct:" == ":" + "dataProduct" + ":";
  }

  /** Four colon-free pieces joined with colons split back into themselves. */
  lemma SplitFour(a: string, b: string, c: string, d: string)
    requires ':' !in a && ':' !in b && ':' !in c && ':' !in d
    ensures Split(a + ":" + (b + ":" + (c + ":" + d)), ':') == [a, b, c, d]
  {
    SplitThree(b, c, d);
    SplitAfter(a, ":", b + ":" + (c + ":" + d));
  }

  lemma SplitThree(b: string, c: string, d: string)
    requires ':' !in b && ':' !in c && ':' !in d
    ensures Split(b + ":" + (c + ":" + d), ':') == [b, c, d]
  {
    var cd := c + ":" + d;
    assert Split(cd, ':') == [c, d] by {
      SplitAfter(c, ":", d);
    }
    SplitAfter(b, ":", cd);
  }

  /** Splitting `a:b` where `a` has no colon peels `a` off the front. */
  lemma SplitAfter(a: string, colon: string, b: string)
    requires colon == ":" && ':' !in a
    ensures Split(a + colon + b, ':') == [a] + Split(b, ':')
  {
    var s := a + colon + b;
    assert s[|a|] == ':';
    assert ':' in s;
    var i := IndexOf(s, ':');
    assert s[..|a|] == a;
    assert i == |a|;
    assert s[i + 1..] == b;
  }

  /**
   * Rewriting the version suffix of a default id (the one with `v1`) with the
   * major version of an annotated version gives the id generated directly
   * from that version.
   */
  lemma {:induction false} VersionRewriteOfDefaultId(namespace: Json, serviceName: Json, version: string)
    requires version != ""
    ensures GenerateDataProductId(namespace, serviceName, Undef).Ok?
    ensures GenerateDataProductId(namespace, serviceName, Str(version)).Ok?
    ensures ReplaceVersionSuffix(GenerateDataProductId(namespace, serviceName, Undef).value, "v" + BeforeFirst(version, '.'))
            == GenerateDataProductId(namespace, serviceName, Str(version)).value
  {
    var prefix := JsString(namespace) + ":dataProduct:" + JsString(serviceName) + ":";
    var id := prefix + "v1";
    assert GenerateDataProductId(namespace, serviceName, Undef).value == id;
    assert VersionSuffixAt(id, |prefix|) by {
      assert id[|prefix|] == 'v';
      assert id[|prefix| + 1..] == "1";
    }
    assert id[..|prefix|] == prefix;
  }

  /** `type` when it is one of the valid types, otherwise the default type. */
  function ValidateType(t: Json): (r: Json)
    ensures IsOneOf(r, VALID_TYPES)
    ensures IsOneOf(t, VALID_TYPES) ==> r == t
    ensures !IsOneOf(t, VALID_TYPES) ==> r == Str(DEFAULT_TYPE)
  {
    if IsOneOf(t, VALID_TYPES) then t else Str(DEFAULT_TYPE)
  }

  /** `visibility` when it is a resource visibility, otherwise the default visibility. */
  function ValidateVisibility(visibility: Json): (r: Json)
    ensures IsOneOf(r, RESOURCE_VISIBILITIES)
    ensures IsOneOf(visibility, RESOURCE_VISIBILITIES) ==> r == visibility
    ensures !IsOneOf(visibility, RESOURCE_VISIBILITIES) ==> r == Str(DEFAULT_VISIBILITY)
  {
    if IsOneOf(visibility, RESOURCE_VISIBILITIES) then visibility else Str(DEFAULT_VISIBILITY)
  }

  /** `status` when it is a release status, otherwise null. */
  function ValidateReleaseStatus(status: Json): (r: Json)
    ensures Truthy(r) <==> IsOneOf(status, RELEASE_STATUSES)
    ensures IsOneOf(status, RELEASE_STATUSES) ==> r == status
    ensures !IsOneOf(status, RELEASE_STATUSES) ==> r == Null
  {
    if IsOneOf(status, RELEASE_STATUSES) then status else Null
  }

  // ---------------------------------------------------------------------------
  // Tags
  // ---------------------------------------------------------------------------

  /** A tag object `{key, value}`. */
  function Tag(key: Json, value: string): (t: Json)
    ensures Get(t, "key") == key && Get(t, "value") == Str(value)
  {
    var fs := [Field("key", key), Field("value", Str(value))];
    assert fs[1..] == [Field("value", Str(value))];
    assert Lookup(fs, "key") == key;
    assert Lookup(fs[1..], "value") == Str(value);
    assert "key" != "value";
    assert Lookup(fs, "value") == Lookup(fs[1..], "value");
    Obj(fs)
  }

  /**
   * One element of a tag array: a string becomes a tag with value "true";
   * anything else keeps its own `key` (or itself when that is falsy) and the
   * text of its own `value` (or "true"). Reading `key` of null throws.
   */
  function TagOf(tag: Json): (r: Result<Json>)
    ensures r.Err? <==> IsNullish(tag)
    ensures tag.Str? ==> r == Ok(Tag(tag, "true"))
    ensures r.Ok? ==> Get(r.value, "value").Str?
    ensures r.Ok? && !tag.Obj? ==> r == Ok(Tag(tag, "true"))
  {
    if tag.Str? then Ok(Tag(tag, "true"))
    else if IsNullish(tag) then Err(TypeError)
    else Ok(Tag(Or(Get(tag, "key"), tag), JsString(Or(Get(tag, "value"), Str("true")))))
  }

  /**
   * `processTags`: a tag array maps element by element, a plain object maps
   * each property to a tag with the text of its value, and anything else
   * (falsy values included) gives no tags.
   */
  function ProcessTags(tags: Json): Result<seq<Json>>
  {
    if !Truthy(tags) then Ok([])
    else if tags.Arr? then
      var items := tags.items;
      if exists i :: 0 <= i < |items| && IsNullish(items[i]) then Err(TypeError)
      else Ok(seq(|items|, i requires 0 <= i < |items| => TagOf(items[i]).value))
    else if IsObjectType(tags) then
      var fs := tags.fields;
      Ok(seq(|fs|, i requires 0 <= i < |fs| => Tag(Str(fs[i].key), JsString(fs[i].value))))
    else Ok([])
  }

  /**
   * `processTags` throws exactly on an array holding null or undefined; an
   * array maps element by element, an object property by property, and
   * anything else gives no tags.
   */
  lemma ProcessTagsSpec(tags: Json)
    ensures ProcessTags(tags).Err? <==> tags.Arr? && exists i :: 0 <= i < |tags.items| && IsNullish(tags.items[i])
    ensures ProcessTags(tags).Ok? && tags.Arr? ==>
              (|ProcessTags(tags).value| == |tags.items| &&
               forall i :: 0 <= i < |tags.items| ==> Ok(ProcessTags(tags).value[i]) == TagOf(tags.items[i]))
    ensures tags.Obj? ==>
              (ProcessTags(tags).Ok? && |ProcessTags(tags).value| == |tags.fields| &&
               forall i :: 0 <= i < |tags.fields| ==>
                 ProcessTags(tags).value[i] == Tag(Str(tags.fields[i].key), JsString(tags.fields[i].value)))
    ensures !tags.Arr? && !tags.Obj? ==> ProcessTags(tags) == Ok([])
  {
  }

  /** Every tag `processTags` produces has a string value. */
  lemma ProcessedTagsHaveStringValues(tags: Json)
    requires ProcessTags(tags).Ok?
    ensures forall t :: t in ProcessTags(tags).value ==> Get(t, "value").Str?
  {
    ProcessTagsSpec(tags);
    var r := ProcessTags(tags).value;
    forall t | t in r ensures Get(t, "value").Str? {
      var i :| 0 <= i < |r| && r[i] == t;
      if tags.Arr? {
        assert Ok(r[i]) == TagOf(tags.items[i]);
      }
    }
  }

  /** A string array becomes the tags whose keys are those strings, each with value "true". */
  lemma StringTagsRoundTrip(names: seq<string>)
    ensures ProcessTags(Arr(seq(|names|, i requires 0 <= i < |names| => Str(names[i])))).Ok?
    ensures var r := ProcessTags(Arr(seq(|names|, i requires 0 <= i < |names| => Str(names[i])))).value;
            |r| == |names| && forall i :: 0 <= i < |names| ==> Get(r[i], "key") == Str(names[i]) && Get(r[i], "value") == Str("true")
  {
    var items := seq(|names|, i requires 0 <= i < |names| => Str(names[i]));
    forall i | 0 <= i < |items| ensures !IsNullish(items[i]) { }
    ProcessTagsSpec(Arr(items));
    var r := ProcessTags(Arr(items)).value;
    forall i | 0 <= i < |names| ensures Get(r[i], "key") == Str(names[i]) && Get(r[i], "value") == Str("true") {
      assert Ok(r[i]) == TagOf(items[i]);
    }
  }
}
