/**
 * The data-product-links stage
 * (lib/dataProducts/processors/DataProductLinksProcessor.js): structured
 * data product links and general links from a service's annotations, then
 * the per-type link annotations appended to the data product links. Each
 * record is enriched on a copy.
 */
module Links {
  import opened Js
  import opened Csn
  import opened StageMap

  const ANN_DATA_PRODUCT_LINKS := "@ORD.dataProductLinks"
  const ANN_LINKS := "@ORD.links"
  const ANN_CUSTOM_LINK_TYPE := "@ORD.customLinkType"
  const DEFAULT_LINK_TYPE := "support"
  const DEFAULT_LINK_TITLE := "Related Link"

  /** The link types with an annotation of their own, in the order they are appended. */
  const LINK_TYPES: seq<string> := ["support", "payment", "service-level-agreement", "custom"]

  /** `@ORD.${type}Link` */
  function LinkAnnotation(linkType: string): string
  {
    "@ORD." + linkType + "Link"
  }

  // ---------------------------------------------------------------------------
  // processDataProductLinks
  // ---------------------------------------------------------------------------

  /**
   * One structured data product link: a string is a support link to that
   * URL; an object with a `url` keeps its type (support by default) and, for
   * a custom link, its custom type; anything else is dropped. `typeof null`
   * is `'object'`, so reading `url` of null throws.
   */
  function ProductLink(link: Json): Result<Option<Json>>
  {
    if link.Str? then Ok(Some(Obj([Field("type", Str(DEFAULT_LINK_TYPE)), Field("url", link)])))
    else if IsObjectType(link) then
      var url :- Member(link, "url");
      if !Truthy(url) then Ok(None)
      else
        var base := [Field("type", Or(Get(link, "type"), Str(DEFAULT_LINK_TYPE))), Field("url", url)];
        var custom := Get(link, "customType");
        if Get(link, "type") == Str("custom") && Truthy(custom) then Ok(Some(Obj(base + [Field("customType", custom)])))
        else Ok(Some(Obj(base)))
    else Ok(None)
  }

  /** The links pushed onto `processed`, front to back. */
  function ProductLinks(links: seq<Json>): Result<seq<Json>>
  {
    if links == [] then Ok([])
    else
      var l :- ProductLink(links[0]);
      Prepend(match l case Some(x) => [x] case None => [], ProductLinks(links[1..]))
  }

  /** `processDataProductLinks`: undefined for a falsy annotation and for no links. */
  function ProcessedProductLinks(links: Json): Result<Json>
  {
    if !Truthy(links) then Ok(Undef)
    else
      var processed :- ProductLinks(AsList(links));
      Ok(if |processed| > 0 then Arr(processed) else Undef)
  }

  /** `processDataProductLinks`, pushing each link in a `forEach`. */
  method ProcessDataProductLinks(links: Json) returns (r: Result<Json>)
    ensures r == ProcessedProductLinks(links)
  {
    if !Truthy(links) {
      return Ok(Undef);
    }
    var linkArray := AsList(links);
    var processed: seq<Json> := [];
    assert linkArray[0..] == linkArray;
    PrependLaws([], [], ProductLinks(linkArray));
    for i := 0 to |linkArray|
      invariant ProductLinks(linkArray) == Prepend(processed, ProductLinks(linkArray[i..]))
    {
      assert linkArray[i..][1..] == linkArray[i + 1..];
      var l := ProductLink(linkArray[i]);
      if l.Err? {
        return Err(l.error);
      }
      var pushed := match l.value case Some(x) => [x] case None => [];
      PrependLaws(processed, pushed, ProductLinks(linkArray[i + 1..]));
      processed := processed + pushed;
    }
    assert linkArray[|linkArray|..] == [];
    assert processed + [] == processed;
    if |processed| > 0 {
      r := Ok(Arr(processed));
    } else {
      r := Ok(Undef);
    }
  }

  /** A link object: its first field is its type and its second its URL. */
  predicate IsTypedLink(l: Json)
  {
    l.Obj? && |l.fields| >= 2 && l.fields[0].key == "type" && l.fields[1].key == "url"
  }

  /**
   * A string is a support link to itself; null throws; an object with a
   * URL gives a link of its type (support when it has none), with its
   * custom type exactly when it is a custom link that names one; any other
   * value is dropped.
   */
  lemma ProductLinkSpec(link: Json)
    ensures ProductLink(link).Err? <==> link.Null?
    ensures link.Str? ==> ProductLink(link) == Ok(Some(Obj([Field("type", Str(DEFAULT_LINK_TYPE)), Field("url", link)])))
    ensures ProductLink(link).Ok? && ProductLink(link).value.Some? ==>
              var l := ProductLink(link).value.value;
              (link.Str? || Truthy(Get(link, "url"))) && IsTypedLink(l) &&
              (link.Obj? ==> l.fields[0].value == Or(Get(link, "type"), Str(DEFAULT_LINK_TYPE)) && l.fields[1].value == Get(link, "url")) &&
              (|l.fields| == 3 <==> link.Obj? && Get(link, "type") == Str("custom") && Truthy(Get(link, "customType")))
    ensures ProductLink(link) == Ok(None) <==> !link.Str? && !link.Null? && !Truthy(Get(link, "url"))
  {
  }

  /**
   * The links throw exactly when one of them is null; otherwise every
   * result is a typed link and every link that gives one contributes it.
   */
  lemma {:induction false} ProductLinksSpec(links: seq<Json>)
    ensures ProductLinks(links).Err? <==> exists i :: 0 <= i < |links| && links[i].Null?
    ensures ProductLinks(links).Ok? ==> forall l :: l in ProductLinks(links).value ==> IsTypedLink(l)
    ensures ProductLinks(links).Ok? ==> forall i :: 0 <= i < |links| && ProductLink(links[i]).value.Some? ==>
              ProductLink(links[i]).value.value in ProductLinks(links).value
    decreases |links|
  {
    if links != [] {
      ProductLinksSpec(links[1..]);
      ProductLinkSpec(links[0]);
      assert forall i :: 1 <= i < |links| ==> links[1..][i - 1] == links[i];
      if exists i :: 0 <= i < |links| && links[i].Null? {
        var i :| 0 <= i < |links| && links[i].Null?;
        if i > 0 {
          assert links[1..][i - 1] == links[i];
        }
      }
      if ProductLinks(links[1..]).Err? {
        var i :| 0 <= i < |links[1..]| && links[1..][i].Null?;
        assert links[i + 1] == links[1..][i];
      }
    }
  }

  // ---------------------------------------------------------------------------
  // processGeneralLinks
  // ---------------------------------------------------------------------------

  /** One general link: a URL string, or an object with a URL, given a title and a description. */
  function GeneralLink(link: Json): Result<Option<Json>>
  {
    if link.Str? then Ok(Some(Obj([Field("url", link), Field("title", Str(DEFAULT_LINK_TITLE)), Field("description", Str(""))])))
    else if IsObjectType(link) then
      var url :- Member(link, "url");
      if !Truthy(url) then Ok(None)
      else
        Ok(Some(Obj([Field("title", Or(Get(link, "title"), Str(DEFAULT_LINK_TITLE))),
                     Field("description", Or(Get(link, "description"), Str(""))),
                     Field("url", url)])))
    else Ok(None)
  }

  function GeneralLinks(links: seq<Json>): Result<seq<Json>>
  {
    if links == [] then Ok([])
    else
      var l :- GeneralLink(links[0]);
      Prepend(match l case Some(x) => [x] case None => [], GeneralLinks(links[1..]))
  }

  /** `processGeneralLinks`: undefined for a falsy annotation and for no links. */
  function ProcessedGeneralLinks(links: Json): Result<Json>
  {
    if !Truthy(links) then Ok(Undef)
    else
      var processed :- GeneralLinks(AsList(links));
      Ok(if |processed| > 0 then Arr(processed) else Undef)
  }

  /** `processGeneralLinks`, pushing each link in a `forEach`. */
  method ProcessGeneralLinks(links: Json) returns (r: Result<Json>)
    ensures r == ProcessedGeneralLinks(links)
  {
    if !Truthy(links) {
      return Ok(Undef);
    }
    var linkArray := AsList(links);
    var processed: seq<Json> := [];
    assert linkArray[0..] == linkArray;
    PrependLaws([], [], GeneralLinks(linkArray));
    for i := 0 to |linkArray|
      invariant GeneralLinks(linkArray) == Prepend(processed, GeneralLinks(linkArray[i..]))
    {
      assert linkArray[i..][1..] == linkArray[i + 1..];
      var l := GeneralLink(linkArray[i]);
      if l.Err? {
        return Err(l.error);
      }
      var pushed := match l.value case Some(x) => [x] case None => [];
      PrependLaws(processed, pushed, GeneralLinks(linkArray[i + 1..]));
      processed := processed + pushed;
    }
    assert linkArray[|linkArray|..] == [];
    assert processed + [] == processed;
    if |processed| > 0 {
      r := Ok(Arr(processed));
    } else {
      r := Ok(Undef);
    }
  }

  /**
   * A general link always has a title, a description and a URL: the
   * defaults `Related Link` and the empty string stand in for a missing
   * title or description; null throws.
   */
  lemma GeneralLinkSpec(link: Json)
    ensures GeneralLink(link).Err? <==> link.Null?
    ensures GeneralLink(link).Ok? && GeneralLink(link).value.Some? ==>
              var l := GeneralLink(link).value.value;
              l.Obj? && |l.fields| == 3 &&
              Lookup(l.fields, "url") == (if link.Str? then link else Get(link, "url")) &&
              Truthy(Lookup(l.fields, "title")) &&
              Lookup(l.fields, "title") == (if link.Str? then Str(DEFAULT_LINK_TITLE) else Or(Get(link, "title"), Str(DEFAULT_LINK_TITLE))) &&
              Lookup(l.fields, "description") == (if link.Str? then Str("") else Or(Get(link, "description"), Str("")))
    ensures GeneralLink(link) == Ok(None) <==> !link.Str? && !link.Null? && !Truthy(Get(link, "url"))
  {
    if GeneralLink(link).Ok? && GeneralLink(link).value.Some? {
      var l := GeneralLink(link).value.value;
      LookupAt(l.fields, 0);
      LookupAt(l.fields, 1);
      LookupAt(l.fields, 2);
    }
  }

  // ---------------------------------------------------------------------------
  // Per-type links
  // ---------------------------------------------------------------------------

  /** The link `@ORD.${type}Link` gives, if the service has it. */
  function TypedLink(service: Json, linkType: string): Option<Json>
  {
    var url := Get(service, LinkAnnotation(linkType));
    if !Truthy(url) then None
    else
      var custom := Get(service, ANN_CUSTOM_LINK_TYPE);
      if linkType == "custom" && Truthy(custom) then Some(Obj([Field("type", Str(linkType)), Field("url", url), Field("customType", custom)]))
      else Some(Obj([Field("type", Str(linkType)), Field("url", url)]))
  }

  function OptionList(o: Option<Json>): seq<Json>
  {
    match o
    case Some(x) => [x]
    case None => []
  }

  /** The links pushed for `types`, in order. */
  function TypedLinksOf(service: Json, types: seq<string>): seq<Json>
  {
    if types == [] then []
    else TypedLinksOf(service, types[..|types| - 1]) + OptionList(TypedLink(service, types[|types| - 1]))
  }

  /** `types.forEach(...)`, pushing onto `dataProductLinks` the link of each type the service has. */
  method PushTypedLinks(service: Json, types: seq<string>) returns (links: seq<Json>)
    ensures links == TypedLinksOf(service, types)
  {
    links := [];
    for i := 0 to |types|
      invariant links == TypedLinksOf(service, types[..i])
    {
      assert types[..i + 1][..i] == types[..i];
      var l := TypedLink(service, types[i]);
      if l.Some? {
        links := links + [l.value];
      }
    }
    assert types[..|types|] == types;
  }

  /** The loop over `linkTypes`. */
  method CollectTypedLinks(service: Json) returns (links: seq<Json>)
    ensures links == TypedLinksOf(service, LINK_TYPES)
  {
    links := PushTypedLinks(service, LINK_TYPES);
  }

  /**
   * The per-type links come in the fixed order support, payment,
   * service-level agreement, custom, one for each annotation present; only
   * the custom link carries `@ORD.customLinkType`.
   */
  lemma TypedLinksOrder(service: Json)
    ensures TypedLinksOf(service, LINK_TYPES) ==
              OptionList(TypedLink(service, "support")) + OptionList(TypedLink(service, "payment")) +
              OptionList(TypedLink(service, "service-level-agreement")) + OptionList(TypedLink(service, "custom"))
    ensures forall t :: t in LINK_TYPES && TypedLink(service, t).Some? ==>
              var l := TypedLink(service, t).value;
              IsTypedLink(l) && l.fields[0].value == Str(t) && l.fields[1].value == Get(service, LinkAnnotation(t)) &&
              (|l.fields| == 3 <==> t == "custom" && Truthy(Get(service, ANN_CUSTOM_LINK_TYPE)))
    ensures |TypedLinksOf(service, LINK_TYPES)| <= |LINK_TYPES|
  {
    var a := OptionList(TypedLink(service, "support"));
    var b := OptionList(TypedLink(service, "payment"));
    var c := OptionList(TypedLink(service, "service-level-agreement"));
    var d := OptionList(TypedLink(service, "custom"));
    var t1, t2, t3 := ["support"], ["support", "payment"], ["support", "payment", "service-level-agreement"];
    assert LINK_TYPES[..3] == t3 && t3[..2] == t2 && t2[..1] == t1 && t1[..0] == [];
    assert TypedLinksOf(service, t1) == a;
    assert TypedLinksOf(service, t2) == a + b;
    assert TypedLinksOf(service, t3) == a + b + c;
  }

  // ---------------------------------------------------------------------------
  // The enrichment
  // ---------------------------------------------------------------------------

  /** The structured data product links, when the service has some. */
  function ProductLinksStep(dp: Object, service: Json): (r: Result<Object>)
    ensures var ann := Get(service, ANN_DATA_PRODUCT_LINKS);
            r.Err? <==> Truthy(ann) && ProcessedProductLinks(ann).Err?
    ensures var ann := Get(service, ANN_DATA_PRODUCT_LINKS);
            r.Ok? ==> Lookup(r.value, "dataProductLinks") ==
                        if Truthy(ann) then ProcessedProductLinks(ann).value else Lookup(dp, "dataProductLinks")
    ensures r.Ok? ==> forall k :: k != "dataProductLinks" ==> Lookup(r.value, k) == Lookup(dp, k)
  {
    var ann := Get(service, ANN_DATA_PRODUCT_LINKS);
    if Truthy(ann) then
      var links :- ProcessedProductLinks(ann);
      Ok(Set(dp, "dataProductLinks", links))
    else Ok(dp)
  }

  /** The general links, when the service has some. */
  function GeneralLinksStep(r: Object, service: Json): (out: Result<Object>)
    ensures var ann := Get(service, ANN_LINKS);
            out.Err? <==> Truthy(ann) && ProcessedGeneralLinks(ann).Err?
    ensures var ann := Get(service, ANN_LINKS);
            out.Ok? ==> Lookup(out.value, "links") == if Truthy(ann) then ProcessedGeneralLinks(ann).value else Lookup(r, "links")
    ensures out.Ok? ==> forall k :: k != "links" ==> Lookup(out.value, k) == Lookup(r, k)
  {
    var ann := Get(service, ANN_LINKS);
    if Truthy(ann) then
      var links :- ProcessedGeneralLinks(ann);
      Ok(Set(r, "links", links))
    else Ok(r)
  }

  /**
   * `typed` appended after the links the record has: spreading a value
   * that is neither an array nor a string throws.
   */
  function AppendLinks(r: Object, typed: seq<Json>): (out: Result<Object>)
    ensures var existing := Or(Lookup(r, "dataProductLinks"), Arr([]));
            out.Err? <==> |typed| > 0 && Iterate(existing).Err?
    ensures var existing := Or(Lookup(r, "dataProductLinks"), Arr([]));
            out.Ok? ==> Lookup(out.value, "dataProductLinks") ==
                          if |typed| > 0 then Arr(Iterate(existing).value + typed) else Lookup(r, "dataProductLinks")
    ensures out.Ok? ==> forall k :: k != "dataProductLinks" ==> Lookup(out.value, k) == Lookup(r, k)
  {
    if |typed| > 0 then
      var existing :- Iterate(Or(Lookup(r, "dataProductLinks"), Arr([])));
      Ok(Set(r, "dataProductLinks", Arr(existing + typed)))
    else Ok(r)
  }

  /** The per-type links, appended after the links the record has. */
  function TypedLinksStep(r: Object, service: Json): (out: Result<Object>)
  {
    AppendLinks(r, TypedLinksOf(service, LINK_TYPES))
  }

  /** `enrichWithDataProductLinks` */
  function Enrich(dp: Object, ctx: Context): Result<Object>
  {
    var service :- ServiceOf(ctx, dp);
    if !Truthy(service) then Ok(dp)
    else
      var r :- ProductLinksStep(dp, service);
      var r :- GeneralLinksStep(r, service);
      TypedLinksStep(r, service)
  }

  /** `process`: every record enriched, a record whose enrichment throws kept as it was. */
  function Process(records: seq<Object>, ctx: Context): seq<Object>
  {
    MapGuarded(records, dp => Enrich(dp, ctx), dp => dp)
  }

  lemma EnrichIs(dp: Object, ctx: Context)
    requires Enrich(dp, ctx).Ok? && Truthy(ServiceOf(ctx, dp).value)
    ensures var service := ServiceOf(ctx, dp).value;
            var a := ProductLinksStep(dp, service);
            a.Ok? && GeneralLinksStep(a.value, service).Ok? &&
            Enrich(dp, ctx) == TypedLinksStep(GeneralLinksStep(a.value, service).value, service)
  {
  }

  /** A successful enrichment writes nothing but the two kinds of links. */
  lemma EnrichWrites(dp: Object, ctx: Context, k: string)
    requires Enrich(dp, ctx).Ok? && k != "dataProductLinks" && k != "links"
    ensures Lookup(Enrich(dp, ctx).value, k) == Lookup(dp, k)
  {
    if Truthy(ServiceOf(ctx, dp).value) {
      EnrichIs(dp, ctx);
    }
  }

  /** The three steps one after the other, on values: the general links leave the data product links alone. */
  lemma StepsProductLinks(dp: Object, service: Json, a: Object, b: Object, typed: seq<Json>, out: Object)
    requires ProductLinksStep(dp, service) == Ok(a) && GeneralLinksStep(a, service) == Ok(b) && AppendLinks(b, typed) == Ok(out)
    ensures (|typed| > 0 ==> Iterate(Or(Lookup(a, "dataProductLinks"), Arr([]))).Ok?) &&
            Lookup(out, "dataProductLinks") ==
              if |typed| > 0 then Arr(Iterate(Or(Lookup(a, "dataProductLinks"), Arr([]))).value + typed) else Lookup(a, "dataProductLinks")
  {
    assert Lookup(b, "dataProductLinks") == Lookup(a, "dataProductLinks");
  }

  /**
   * The data product links: the structured links (or the record's own),
   * followed by the per-type links when there are some.
   */
  lemma EnrichProductLinks(dp: Object, ctx: Context, service: Json)
    requires ServiceOf(ctx, dp) == Ok(service) && Truthy(service) && Enrich(dp, ctx).Ok?
    ensures var ann := Get(service, ANN_DATA_PRODUCT_LINKS);
            var structured := if Truthy(ann) then ProcessedProductLinks(ann) else Ok(Lookup(dp, "dataProductLinks"));
            var typed := TypedLinksOf(service, LINK_TYPES);
            structured.Ok? && (|typed| > 0 ==> Iterate(Or(structured.value, Arr([]))).Ok?) &&
            Lookup(Enrich(dp, ctx).value, "dataProductLinks") ==
              if |typed| > 0 then Arr(Iterate(Or(structured.value, Arr([]))).value + typed) else structured.value
  {
    EnrichIs(dp, ctx);
    var a := ProductLinksStep(dp, service).value;
    var b := GeneralLinksStep(a, service).value;
    StepsProductLinks(dp, service, a, b, TypedLinksOf(service, LINK_TYPES), Enrich(dp, ctx).value);
  }

  /** The general links replace the record's wholesale. */
  lemma EnrichGeneralLinks(dp: Object, ctx: Context)
    requires Enrich(dp, ctx).Ok? && Truthy(ServiceOf(ctx, dp).value)
    ensures var service := ServiceOf(ctx, dp).value;
            var ann := Get(service, ANN_LINKS);
            Lookup(Enrich(dp, ctx).value, "links") == if Truthy(ann) then ProcessedGeneralLinks(ann).value else Lookup(dp, "links")
  {
    EnrichIs(dp, ctx);
    var service := ServiceOf(ctx, dp).value;
    var a := ProductLinksStep(dp, service).value;
    var b := GeneralLinksStep(a, service).value;
    assert Lookup(Enrich(dp, ctx).value, "links") == Lookup(b, "links");
    assert Lookup(a, "links") == Lookup(dp, "links");
  }

  /** The stage keeps the number and order of the records and every field but the links. */
  lemma ProcessKeepsFields(records: seq<Object>, ctx: Context, k: string)
    requires k != "dataProductLinks" && k != "links"
    ensures |Process(records, ctx)| == |records|
    ensures forall i :: 0 <= i < |records| ==> Lookup(Process(records, ctx)[i], k) == Lookup(records[i], k)
  {
    forall i | 0 <= i < |records|
      ensures Lookup(Process(records, ctx)[i], k) == Lookup(records[i], k)
    {
      if Enrich(records[i], ctx).Ok? {
        EnrichWrites(records[i], ctx, k);
      }
    }
  }

  /** A record whose service is not defined, or whose enrichment throws, comes out unchanged. */
  lemma ProcessKeepsUnenriched(records: seq<Object>, ctx: Context, i: nat)
    requires i < |records|
    requires ServiceOf(ctx, records[i]).Err? || !Truthy(ServiceOf(ctx, records[i]).value) || Enrich(records[i], ctx).Err?
    ensures Process(records, ctx)[i] == records[i]
  {
  }
}
