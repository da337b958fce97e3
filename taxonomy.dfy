/**
 * The taxonomy stage (lib/dataProducts/processors/TaxonomyProcessor.js):
 * industry, line of business and countries from a service's
 * `@ORD.taxonomy` block or from the individual annotations, then labels,
 * documentation labels and correlation ids. Each record is enriched on a
 * copy.
 */
module Taxonomy {
  import opened Js
  import opened Text
  import opened Csn
  import opened StageMap

  const ANN_TAXONOMY := "@ORD.taxonomy"
  const ANN_INDUSTRY := "@ORD.industry"
  const ANN_LINE_OF_BUSINESS := "@ORD.lineOfBusiness"
  const ANN_COUNTRIES := "@ORD.countries"
  const ANN_LABELS := "@ORD.labels"
  const ANN_DOCUMENTATION_LABELS := "@ORD.documentationLabels"
  const ANN_CORRELATION_IDS := "@ORD.correlationIds"

  /** The record keys the stage may write. */
  predicate IsTaxonomyKey(k: string)
  {
    k == "industry" || k == "lineOfBusiness" || k == "countries" ||
    k == "labels" || k == "documentationLabels" || k == "correlationIds"
  }

  // ---------------------------------------------------------------------------
  // normalizeArray
  // ---------------------------------------------------------------------------

  /** `.map(v => v.trim()).filter(v => v)` over the parts of a split string. */
  function TrimmedParts(parts: seq<string>): seq<Json>
  {
    NonEmptyImages(parts, Trim)
  }

  /** `.map(f).filter(v => v)`: the images under `f` that are not empty, as strings. */
  function NonEmptyImages(parts: seq<string>, f: string -> string): seq<Json>
  {
    if parts == [] then []
    else
      var t := f(parts[0]);
      (if t != "" then [Str(t)] else []) + NonEmptyImages(parts[1..], f)
  }

  /** The non-empty images are exactly the images of the parts that are not empty. */
  lemma {:induction false} NonEmptyImagesSpec(parts: seq<string>, f: string -> string)
    ensures forall x :: x in NonEmptyImages(parts, f) ==> exists p :: p in parts && f(p) != "" && x == Str(f(p))
    ensures forall p :: p in parts && f(p) != "" ==> Str(f(p)) in NonEmptyImages(parts, f)
  {
    if parts != [] {
      NonEmptyImagesSpec(parts[1..], f);
      assert parts == [parts[0]] + parts[1..];
      forall x | x in NonEmptyImages(parts[1..], f) ensures exists p :: p in parts && f(p) != "" && x == Str(f(p)) {
        var p :| p in parts[1..] && f(p) != "" && x == Str(f(p));
        assert p in parts;
      }
      forall p | p in parts && f(p) != "" ensures Str(f(p)) in NonEmptyImages(parts, f) {
        if p != parts[0] {
          assert p in parts[1..];
        }
      }
    }
  }

  /**
   * `normalizeArray`: an array as it is, a string as its comma-separated
   * parts, trimmed and without the empty ones, anything else as no values.
   */
  function NormalizeArray(v: Json): seq<Json>
  {
    if v.Arr? then v.items
    else if v.Str? then TrimmedParts(Split(v.s, ','))
    else []
  }

  /** The trimmed parts are exactly the non-empty trims of the parts. */
  lemma TrimmedPartsSpec(parts: seq<string>)
    ensures forall x :: x in TrimmedParts(parts) ==> exists p :: p in parts && Trim(p) != "" && x == Str(Trim(p))
    ensures forall p :: p in parts && Trim(p) != "" ==> Str(Trim(p)) in TrimmedParts(parts)
  {
    NonEmptyImagesSpec(parts, Trim);
  }

  /** A trimmed slice of a string holds no character the string does not. */
  lemma TrimKeepsOut(p: string, c: char)
    requires c !in p
    ensures c !in Trim(p)
  {
    TrimIsSlice(p);
    var i :| SlicedAt(p, Trim(p), i);
    forall k | 0 <= k < |Trim(p)| ensures Trim(p)[k] != c {
      assert Trim(p)[k] == p[i + k];
    }
  }

  /**
   * An array is kept as it is; a string gives exactly the non-empty trimmed
   * parts between its commas, each a string without a comma and without
   * white space at either end; any other value gives no values.
   */
  lemma NormalizeArraySpec(v: Json)
    ensures v.Arr? ==> NormalizeArray(v) == v.items
    ensures v.Str? ==> forall x :: x in NormalizeArray(v) <==>
              exists p :: p in Split(v.s, ',') && Trim(p) != "" && x == Str(Trim(p))
    ensures v.Str? ==> forall x :: x in NormalizeArray(v) ==>
              x.Str? && x.s != "" && ',' !in x.s && !IsSpace(x.s[0]) && !IsSpace(x.s[|x.s| - 1])
    ensures !v.Arr? && !v.Str? ==> NormalizeArray(v) == []
  {
    if v.Str? {
      var parts := Split(v.s, ',');
      TrimmedPartsSpec(parts);
      forall x | x in NormalizeArray(v)
        ensures x.Str? && x.s != "" && ',' !in x.s && !IsSpace(x.s[0]) && !IsSpace(x.s[|x.s| - 1])
      {
        var p :| p in parts && Trim(p) != "" && x == Str(Trim(p));
        TrimKeepsOut(p, ',');
      }
    }
  }

  // ---------------------------------------------------------------------------
  // Countries
  // ---------------------------------------------------------------------------

  /**
   * `.map(c => c.toUpperCase()).filter(c => /^[A-Z]{2}$/.test(c))`: a value
   * that is not a string has no `toUpperCase` method, so the call throws.
   */
  function CountryCodes(xs: seq<Json>): Result<seq<Json>>
  {
    if xs == [] then Ok([])
    else if !xs[0].Str? then Err(TypeError)
    else
      var c := ToUpper(xs[0].s);
      Prepend(if IsCountryCode(c) then [Str(c)] else [], CountryCodes(xs[1..]))
  }

  /** The countries of an annotation value. */
  function Countries(v: Json): Result<seq<Json>>
  {
    CountryCodes(NormalizeArray(v))
  }

  /**
   * The codes throw exactly when some value is not a string; otherwise they
   * are exactly the upper-cased values of the two-letter A–Z shape.
   */
  lemma {:induction false} CountryCodesSpec(xs: seq<Json>)
    ensures CountryCodes(xs).Err? <==> exists i :: 0 <= i < |xs| && !xs[i].Str?
    ensures CountryCodes(xs).Ok? ==> forall x :: x in CountryCodes(xs).value <==>
              exists y :: y in xs && x == Str(ToUpper(y.s)) && IsCountryCode(ToUpper(y.s))
    ensures CountryCodes(xs).Ok? ==> forall x :: x in CountryCodes(xs).value ==> x.Str? && IsCountryCode(x.s)
  {
    if xs != [] {
      CountryCodesSpec(xs[1..]);
      assert xs == [xs[0]] + xs[1..];
      if CountryCodes(xs[1..]).Err? {
        var i :| 0 <= i < |xs[1..]| && !xs[1..][i].Str?;
        assert !xs[i + 1].Str?;
      }
      if exists i :: 0 <= i < |xs| && !xs[i].Str? {
        var i :| 0 <= i < |xs| && !xs[i].Str?;
        if i > 0 {
          assert !xs[1..][i - 1].Str?;
        }
      }
      if CountryCodes(xs).Ok? {
        forall x | x in CountryCodes(xs[1..]).value
          ensures exists y :: y in xs && x == Str(ToUpper(y.s)) && IsCountryCode(ToUpper(y.s))
        {
          var y :| y in xs[1..] && x == Str(ToUpper(y.s)) && IsCountryCode(ToUpper(y.s));
          assert y in xs;
        }
      }
    }
  }

  /** Countries given as a comma-separated string never throw. */
  lemma CountriesOfString(s: string)
    ensures Countries(Str(s)).Ok?
  {
    NormalizeArraySpec(Str(s));
    CountryCodesSpec(NormalizeArray(Str(s)));
    forall i | 0 <= i < |NormalizeArray(Str(s))| ensures NormalizeArray(Str(s))[i].Str? {
      assert NormalizeArray(Str(s))[i] in NormalizeArray(Str(s));
    }
  }

  // ---------------------------------------------------------------------------
  // processLabels
  // ---------------------------------------------------------------------------

  /** The list a label value becomes, or undefined for a value that is dropped. */
  function LabelOf(v: Json): (r: Json)
    ensures r.Undef? <==> !v.Arr? && !v.Str?
  {
    if v.Arr? then Arr(StringsOnly(v.items))
    else if v.Str? then Arr([v])
    else Undef
  }

  /** The object `processed` after the `forEach` has visited `entries`. */
  function Labels(entries: seq<Field>): Object
  {
    if entries == [] then []
    else
      var processed := Labels(entries[..|entries| - 1]);
      var e := entries[|entries| - 1];
      if e.value.Arr? || e.value.Str? then Set(processed, e.key, LabelOf(e.value)) else processed
  }

  /** `processLabels`: undefined for a value that is not an object, or when no label is kept. */
  function ProcessedLabels(labels: Json): Json
  {
    if !Truthy(labels) || !IsObjectType(labels) then Undef
    else
      var processed := Labels(OwnEntries(labels));
      if |processed| > 0 then Obj(processed) else Undef
  }

  /** `processLabels`, visiting the entries in order. */
  method ProcessLabels(labels: Json) returns (r: Json)
    ensures r == ProcessedLabels(labels)
  {
    if !Truthy(labels) || !IsObjectType(labels) {
      return Undef;
    }
    var entries := OwnEntries(labels);
    var processed: Object := [];
    var i := 0;
    while i < |entries|
      invariant 0 <= i <= |entries|
      invariant processed == Labels(entries[..i])
    {
      var e := entries[i];
      assert entries[..i + 1][..i] == entries[..i];
      if e.value.Arr? {
        processed := Set(processed, e.key, Arr(StringsOnly(e.value.items)));
      } else if e.value.Str? {
        processed := Set(processed, e.key, Arr([e.value]));
      }
      i := i + 1;
    }
    assert entries[..|entries|] == entries;
    if |processed| > 0 {
      r := Obj(processed);
    } else {
      r := Undef;
    }
  }

  /** With distinct names, each label reads as its entry's value made into a list. */
  lemma {:induction false} LabelsLookup(entries: seq<Field>, k: string)
    requires UniqueKeys(entries)
    ensures Lookup(Labels(entries), k) == LabelOf(Lookup(entries, k))
  {
    if entries != [] {
      var p := entries[..|entries| - 1];
      var e := entries[|entries| - 1];
      assert entries == p + [e];
      assert UniqueKeys(p);
      LabelsLookup(p, k);
      if e.key == k {
        LookupAt(entries, |entries| - 1);
        if !(e.value.Arr? || e.value.Str?) {
          assert !HasKey(p, k);
          LookupMissing(p, k);
        }
      } else {
        LookupSnoc(p, e, k);
      }
    }
  }

  /** No label is kept exactly when no entry holds an array or a string. */
  lemma {:induction false} LabelsEmpty(entries: seq<Field>)
    ensures Labels(entries) == [] <==> forall i :: 0 <= i < |entries| ==> !entries[i].value.Arr? && !entries[i].value.Str?
  {
    if entries != [] {
      var p := entries[..|entries| - 1];
      var e := entries[|entries| - 1];
      LabelsEmpty(p);
      if e.value.Arr? || e.value.Str? {
        SetKeys(Labels(p), e.key, LabelOf(e.value));
        var r := Set(Labels(p), e.key, LabelOf(e.value));
        assert |Keys(r)| >= 1;
      }
    }
  }

  /**
   * `processLabels` gives undefined for a value that is not an object and
   * when no entry holds an array or a string; otherwise an object in which
   * an array value is filtered to its strings, a string becomes a list of
   * itself and any other value is dropped.
   */
  lemma ProcessedLabelsSpec(labels: Json)
    requires labels.Obj? ==> UniqueKeys(labels.fields)
    ensures var r := ProcessedLabels(labels);
            r.Undef? <==> (!labels.Obj? && !labels.Arr?) ||
                          forall i :: 0 <= i < |OwnEntries(labels)| ==> !OwnEntries(labels)[i].value.Arr? && !OwnEntries(labels)[i].value.Str?
    ensures var r := ProcessedLabels(labels);
            r.Obj? ==> forall k :: Lookup(r.fields, k) == LabelOf(Lookup(OwnEntries(labels), k))
  {
    if !labels.Obj? {
      IndexKeysUnique(labels);
    }
    LabelsEmpty(OwnEntries(labels));
    forall k ensures Lookup(Labels(OwnEntries(labels)), k) == LabelOf(Lookup(OwnEntries(labels), k)) {
      LabelsLookup(OwnEntries(labels), k);
    }
  }

  /** Every kept label is a list of strings. */
  lemma LabelOfStrings(v: Json)
    requires LabelOf(v).Arr?
    ensures forall x :: x in LabelOf(v).items ==> x.Str?
  {
    if v.Arr? {
      StringsOnlySpec(v.items);
    }
  }

  // ---------------------------------------------------------------------------
  // The enrichment
  // ---------------------------------------------------------------------------

  /** `if (cond) o[k] = v` */
  function SetIf(o: Object, cond: bool, k: string, v: Json): (r: Object)
    ensures Lookup(r, k) == if cond then v else Lookup(o, k)
    ensures forall k' :: k' != k ==> Lookup(r, k') == Lookup(o, k')
  {
    if cond then Set(o, k, v) else o
  }

  /** `if (value) o.countries = <the countries of value>`, which may throw. */
  function CountriesStep(o: Object, cond: bool, v: Json): (r: Result<Object>)
    ensures r.Err? <==> cond && Countries(v).Err?
    ensures r.Ok? ==> Lookup(r.value, "countries") == if cond then Arr(Countries(v).value) else Lookup(o, "countries")
    ensures r.Ok? ==> forall k' :: k' != "countries" ==> Lookup(r.value, k') == Lookup(o, k')
  {
    if cond then
      var codes :- Countries(v);
      Ok(Set(o, "countries", Arr(codes)))
    else Ok(o)
  }

  /** The `@ORD.taxonomy` block. */
  function Block(dp: Object, taxonomy: Json): Result<Object>
  {
    var industry := Get(taxonomy, "industry");
    var lineOfBusiness := Get(taxonomy, "lineOfBusiness");
    var r := SetIf(dp, Truthy(industry), "industry", Arr(NormalizeArray(industry)));
    var r := SetIf(r, Truthy(lineOfBusiness), "lineOfBusiness", Arr(NormalizeArray(lineOfBusiness)));
    CountriesStep(r, Truthy(Get(taxonomy, "countries")), Get(taxonomy, "countries"))
  }

  /** The individual annotations, each only for a field still unset. */
  function Individual(r: Object, service: Json): Result<Object>
  {
    var industry := Get(service, ANN_INDUSTRY);
    var lineOfBusiness := Get(service, ANN_LINE_OF_BUSINESS);
    var countries := Get(service, ANN_COUNTRIES);
    var r := SetIf(r, Truthy(industry) && !Truthy(Lookup(r, "industry")), "industry", Arr(NormalizeArray(industry)));
    var r := SetIf(r, Truthy(lineOfBusiness) && !Truthy(Lookup(r, "lineOfBusiness")), "lineOfBusiness", Arr(NormalizeArray(lineOfBusiness)));
    CountriesStep(r, Truthy(countries) && !Truthy(Lookup(r, "countries")), countries)
  }

  /** Labels, documentation labels and correlation ids. */
  function LabelSteps(r: Object, service: Json): Object
  {
    var labels := Get(service, ANN_LABELS);
    var documentationLabels := Get(service, ANN_DOCUMENTATION_LABELS);
    var correlationIds := Get(service, ANN_CORRELATION_IDS);
    var r := SetIf(r, Truthy(labels), "labels", ProcessedLabels(labels));
    var r := SetIf(r, Truthy(documentationLabels), "documentationLabels", ProcessedLabels(documentationLabels));
    SetIf(r, Truthy(correlationIds), "correlationIds", Arr(NormalizeArray(correlationIds)))
  }

  /** The copy after the taxonomy block, when the service has one. */
  function AfterBlock(dp: Object, service: Json): Result<Object>
  {
    var taxonomy := Get(service, ANN_TAXONOMY);
    if Truthy(taxonomy) then Block(dp, taxonomy) else Ok(dp)
  }

  /** `enrichWithTaxonomyFields` */
  function Enrich(dp: Object, ctx: Context): Result<Object>
  {
    var service :- ServiceOf(ctx, dp);
    if !Truthy(service) then Ok(dp)
    else
      var r :- AfterBlock(dp, service);
      var r :- Individual(r, service);
      Ok(LabelSteps(r, service))
  }

  /** `process`: every record enriched, a record whose enrichment throws kept as it was. */
  function Process(records: seq<Object>, ctx: Context): seq<Object>
  {
    MapGuarded(records, dp => Enrich(dp, ctx), dp => dp)
  }

  // ---------------------------------------------------------------------------
  // What the stage writes
  // ---------------------------------------------------------------------------

  lemma BlockKeeps(dp: Object, taxonomy: Json, k: string)
    requires Block(dp, taxonomy).Ok? && k != "industry" && k != "lineOfBusiness" && k != "countries"
    ensures Lookup(Block(dp, taxonomy).value, k) == Lookup(dp, k)
  {
  }

  lemma IndividualKeeps(r: Object, service: Json, k: string)
    requires Individual(r, service).Ok? && k != "industry" && k != "lineOfBusiness" && k != "countries"
    ensures Lookup(Individual(r, service).value, k) == Lookup(r, k)
  {
  }

  lemma LabelStepsKeep(r: Object, service: Json, k: string)
    requires k != "labels" && k != "documentationLabels" && k != "correlationIds"
    ensures Lookup(LabelSteps(r, service), k) == Lookup(r, k)
  {
  }

  /** A successful enrichment writes no key outside the taxonomy keys. */
  lemma EnrichWrites(dp: Object, ctx: Context, k: string)
    requires !IsTaxonomyKey(k) && Enrich(dp, ctx).Ok?
    ensures Lookup(Enrich(dp, ctx).value, k) == Lookup(dp, k)
  {
    var service := ServiceOf(ctx, dp).value;
    if Truthy(service) {
      var taxonomy := Get(service, ANN_TAXONOMY);
      if Truthy(taxonomy) {
        BlockKeeps(dp, taxonomy, k);
      }
      var r := AfterBlock(dp, service).value;
      IndividualKeeps(r, service, k);
      LabelStepsKeep(Individual(r, service).value, service, k);
    }
  }

  /** The stage keeps the number and order of the records and every field it does not own. */
  lemma ProcessKeepsFields(records: seq<Object>, ctx: Context, k: string)
    requires !IsTaxonomyKey(k)
    ensures |Process(records, ctx)| == |records|
    ensures forall i :: 0 <= i < |records| ==> Lookup(Process(records, ctx)[i], k) == Lookup(records[i], k)
  {
    forall i | 0 <= i < |records|
      ensures Lookup(Process(records, ctx)[i], k) == Lookup(records[i], k)
    {
      if Enrich(records[i], ctx).Ok? {
        EnrichWrites(records[i], ctx, k);
      }
    }
  }

  /** A record whose service is not defined, or whose enrichment throws, comes out unchanged. */
  lemma ProcessKeepsUnenriched(records: seq<Object>, ctx: Context, i: nat)
    requires i < |records|
    requires ServiceOf(ctx, records[i]).Err? || !Truthy(ServiceOf(ctx, records[i]).value) || Enrich(records[i], ctx).Err?
    ensures Process(records, ctx)[i] == records[i]
  {
  }

  /**
   * The enrichment throws exactly when the model has no definitions, or
   * when countries are written from a value holding something that is not
   * a string.
   */
  lemma EnrichThrows(dp: Object, ctx: Context)
    ensures Enrich(dp, ctx).Err? <==>
              ServiceOf(ctx, dp).Err? ||
              (Truthy(ServiceOf(ctx, dp).value) && AfterBlock(dp, ServiceOf(ctx, dp).value).Err?) ||
              (Truthy(ServiceOf(ctx, dp).value) && AfterBlock(dp, ServiceOf(ctx, dp).value).Ok? &&
               Individual(AfterBlock(dp, ServiceOf(ctx, dp).value).value, ServiceOf(ctx, dp).value).Err?)
    ensures ServiceOf(ctx, dp).Ok? && Truthy(ServiceOf(ctx, dp).value) ==>
              var service := ServiceOf(ctx, dp).value;
              var taxonomy := Get(service, ANN_TAXONOMY);
              (AfterBlock(dp, service).Err? <==> Truthy(taxonomy) && Truthy(Get(taxonomy, "countries")) && Countries(Get(taxonomy, "countries")).Err?)
  {
  }

  /** A successful enrichment of a record with a service is the three steps in turn. */
  lemma EnrichIs(dp: Object, ctx: Context)
    requires Enrich(dp, ctx).Ok? && Truthy(ServiceOf(ctx, dp).value)
    ensures var service := ServiceOf(ctx, dp).value;
            AfterBlock(dp, service).Ok? && Individual(AfterBlock(dp, service).value, service).Ok? &&
            Enrich(dp, ctx).value == LabelSteps(Individual(AfterBlock(dp, service).value, service).value, service)
  {
  }

  /** The field `k` after the block: the block's normalized value when it has one. */
  lemma AfterBlockList(dp: Object, service: Json, k: string)
    requires AfterBlock(dp, service).Ok? && (k == "industry" || k == "lineOfBusiness")
    ensures var fromBlock := Get(Get(service, ANN_TAXONOMY), k);
            Lookup(AfterBlock(dp, service).value, k) ==
              if Truthy(Get(service, ANN_TAXONOMY)) && Truthy(fromBlock) then Arr(NormalizeArray(fromBlock)) else Lookup(dp, k)
  {
  }

  lemma AfterBlockCountries(dp: Object, service: Json)
    requires AfterBlock(dp, service).Ok?
    ensures var fromBlock := Get(Get(service, ANN_TAXONOMY), "countries");
            Truthy(Get(service, ANN_TAXONOMY)) && Truthy(fromBlock) ==>
              Countries(fromBlock).Ok? && Lookup(AfterBlock(dp, service).value, "countries") == Arr(Countries(fromBlock).value)
    ensures var fromBlock := Get(Get(service, ANN_TAXONOMY), "countries");
            !(Truthy(Get(service, ANN_TAXONOMY)) && Truthy(fromBlock)) ==>
              Lookup(AfterBlock(dp, service).value, "countries") == Lookup(dp, "countries")
  {
  }

  /** The field `k` after the individual annotations: set only when it was unset. */
  lemma IndividualList(r: Object, service: Json, k: string, ann: string)
    requires Individual(r, service).Ok?
    requires (k == "industry" && ann == ANN_INDUSTRY) || (k == "lineOfBusiness" && ann == ANN_LINE_OF_BUSINESS)
    ensures Lookup(Individual(r, service).value, k) ==
              if Truthy(Get(service, ann)) && !Truthy(Lookup(r, k)) then Arr(NormalizeArray(Get(service, ann))) else Lookup(r, k)
  {
  }

  lemma IndividualCountries(r: Object, service: Json)
    requires Individual(r, service).Ok?
    ensures var individual := Get(service, ANN_COUNTRIES);
            Truthy(individual) && !Truthy(Lookup(r, "countries")) ==>
              Countries(individual).Ok? && Lookup(Individual(r, service).value, "countries") == Arr(Countries(individual).value)
    ensures var individual := Get(service, ANN_COUNTRIES);
            !(Truthy(individual) && !Truthy(Lookup(r, "countries"))) ==>
              Lookup(Individual(r, service).value, "countries") == Lookup(r, "countries")
  {
  }

  /** Countries already set survive the individual annotations. */
  lemma IndividualKeepsCountries(r: Object, service: Json)
    requires Individual(r, service).Ok? && Truthy(Lookup(r, "countries"))
    ensures Lookup(Individual(r, service).value, "countries") == Lookup(r, "countries")
  {
    IndividualCountries(r, service);
  }

  /**
   * Industry: the block's value when it has one; otherwise the individual
   * annotation, but only when the record had no industry yet; otherwise
   * what the record had.
   */
  lemma EnrichIndustry(dp: Object, ctx: Context)
    requires Enrich(dp, ctx).Ok? && Truthy(ServiceOf(ctx, dp).value)
    ensures var service := ServiceOf(ctx, dp).value;
            var fromBlock := Get(Get(service, ANN_TAXONOMY), "industry");
            var individual := Get(service, ANN_INDUSTRY);
            Lookup(Enrich(dp, ctx).value, "industry") ==
              if Truthy(Get(service, ANN_TAXONOMY)) && Truthy(fromBlock) then Arr(NormalizeArray(fromBlock))
              else if Truthy(individual) && !Truthy(Lookup(dp, "industry")) then Arr(NormalizeArray(individual))
              else Lookup(dp, "industry")
  {
    EnrichList(dp, ctx, "industry", ANN_INDUSTRY);
  }

  /** Line of business, with the same precedence. */
  lemma EnrichLineOfBusiness(dp: Object, ctx: Context)
    requires Enrich(dp, ctx).Ok? && Truthy(ServiceOf(ctx, dp).value)
    ensures var service := ServiceOf(ctx, dp).value;
            var fromBlock := Get(Get(service, ANN_TAXONOMY), "lineOfBusiness");
            var individual := Get(service, ANN_LINE_OF_BUSINESS);
            Lookup(Enrich(dp, ctx).value, "lineOfBusiness") ==
              if Truthy(Get(service, ANN_TAXONOMY)) && Truthy(fromBlock) then Arr(NormalizeArray(fromBlock))
              else if Truthy(individual) && !Truthy(Lookup(dp, "lineOfBusiness")) then Arr(NormalizeArray(individual))
              else Lookup(dp, "lineOfBusiness")
  {
    EnrichList(dp, ctx, "lineOfBusiness", ANN_LINE_OF_BUSINESS);
  }

  /** The precedence the two list fields share. */
  lemma EnrichList(dp: Object, ctx: Context, k: string, ann: string)
    requires Enrich(dp, ctx).Ok? && Truthy(ServiceOf(ctx, dp).value)
    requires (k == "industry" && ann == ANN_INDUSTRY) || (k == "lineOfBusiness" && ann == ANN_LINE_OF_BUSINESS)
    ensures var service := ServiceOf(ctx, dp).value;
            var fromBlock := Get(Get(service, ANN_TAXONOMY), k);
            var individual := Get(service, ann);
            Lookup(Enrich(dp, ctx).value, k) ==
              if Truthy(Get(service, ANN_TAXONOMY)) && Truthy(fromBlock) then Arr(NormalizeArray(fromBlock))
              else if Truthy(individual) && !Truthy(Lookup(dp, k)) then Arr(NormalizeArray(individual))
              else Lookup(dp, k)
  {
    var service := ServiceOf(ctx, dp).value;
    EnrichIs(dp, ctx);
    var a := AfterBlock(dp, service).value;
    var b := Individual(a, service).value;
    var fromBlock := Get(Get(service, ANN_TAXONOMY), k);
    var individual := Get(service, ann);
    assert Lookup(a, k) == if Truthy(Get(service, ANN_TAXONOMY)) && Truthy(fromBlock) then Arr(NormalizeArray(fromBlock)) else Lookup(dp, k) by {
      AfterBlockList(dp, service, k);
    }
    assert Lookup(b, k) == if Truthy(individual) && !Truthy(Lookup(a, k)) then Arr(NormalizeArray(individual)) else Lookup(a, k) by {
      IndividualList(a, service, k, ann);
    }
    assert Lookup(Enrich(dp, ctx).value, k) == Lookup(b, k) by {
      LabelStepsKeep(b, service, k);
    }
    Precedence(Truthy(Get(service, ANN_TAXONOMY)) && Truthy(fromBlock), Arr(NormalizeArray(fromBlock)),
               Truthy(individual), Arr(NormalizeArray(individual)),
               Lookup(dp, k), Lookup(a, k), Lookup(b, k), Lookup(Enrich(dp, ctx).value, k));
  }

  /** A block value wins; an individual value only fills a field left falsy. */
  lemma Precedence(onBlock: bool, fromBlock: Json, onIndividual: bool, individual: Json,
                   before: Json, afterBlock: Json, afterIndividual: Json, result: Json)
    requires afterBlock == if onBlock then fromBlock else before
    requires fromBlock.Arr?
    requires afterIndividual == if onIndividual && !Truthy(afterBlock) then individual else afterBlock
    requires result == afterIndividual
    ensures result == if onBlock then fromBlock else if onIndividual && !Truthy(before) then individual else before
  {
  }

  /** Countries, with the same precedence. */
  lemma EnrichCountries(dp: Object, ctx: Context)
    requires Enrich(dp, ctx).Ok? && Truthy(ServiceOf(ctx, dp).value)
    ensures var service := ServiceOf(ctx, dp).value;
            var fromBlock := Get(Get(service, ANN_TAXONOMY), "countries");
            Truthy(Get(service, ANN_TAXONOMY)) && Truthy(fromBlock) ==>
              Countries(fromBlock).Ok? && Lookup(Enrich(dp, ctx).value, "countries") == Arr(Countries(fromBlock).value)
    ensures var service := ServiceOf(ctx, dp).value;
            var fromBlock := Get(Get(service, ANN_TAXONOMY), "countries");
            var individual := Get(service, ANN_COUNTRIES);
            !(Truthy(Get(service, ANN_TAXONOMY)) && Truthy(fromBlock)) && Truthy(individual) && !Truthy(Lookup(dp, "countries")) ==>
              Countries(individual).Ok? && Lookup(Enrich(dp, ctx).value, "countries") == Arr(Countries(individual).value)
    ensures var service := ServiceOf(ctx, dp).value;
            var fromBlock := Get(Get(service, ANN_TAXONOMY), "countries");
            var individual := Get(service, ANN_COUNTRIES);
            !(Truthy(Get(service, ANN_TAXONOMY)) && Truthy(fromBlock)) && !(Truthy(individual) && !Truthy(Lookup(dp, "countries"))) ==>
              Lookup(Enrich(dp, ctx).value, "countries") == Lookup(dp, "countries")
  {
    var service := ServiceOf(ctx, dp).value;
    EnrichIs(dp, ctx);
    var a := AfterBlock(dp, service).value;
    var b := Individual(a, service).value;
    var fromBlock := Get(Get(service, ANN_TAXONOMY), "countries");
    var individual := Get(service, ANN_COUNTRIES);
    if Truthy(Get(service, ANN_TAXONOMY)) && Truthy(fromBlock) {
      CountriesFromBlock(dp, service, a, b);
    } else if Truthy(individual) && !Truthy(Lookup(dp, "countries")) {
      CountriesFromAnnotation(dp, service, a, b);
    } else {
      CountriesKept(dp, service, a, b);
    }
  }

  /** The block's countries win. */
  lemma CountriesFromBlock(dp: Object, service: Json, a: Object, b: Object)
    requires AfterBlock(dp, service) == Ok(a) && Individual(a, service) == Ok(b)
    requires Truthy(Get(service, ANN_TAXONOMY)) && Truthy(Get(Get(service, ANN_TAXONOMY), "countries"))
    ensures var fromBlock := Get(Get(service, ANN_TAXONOMY), "countries");
            Countries(fromBlock).Ok? && Lookup(LabelSteps(b, service), "countries") == Arr(Countries(fromBlock).value)
  {
    var fromBlock := Get(Get(service, ANN_TAXONOMY), "countries");
    assert Countries(fromBlock).Ok? && Lookup(a, "countries") == Arr(Countries(fromBlock).value) by {
      AfterBlockCountries(dp, service);
    }
    IndividualKeepsCountries(a, service);
    LabelStepsKeep(b, service, "countries");
  }

  /** Without the block's countries, the annotation fills a record that has none. */
  lemma CountriesFromAnnotation(dp: Object, service: Json, a: Object, b: Object)
    requires AfterBlock(dp, service) == Ok(a) && Individual(a, service) == Ok(b)
    requires !(Truthy(Get(service, ANN_TAXONOMY)) && Truthy(Get(Get(service, ANN_TAXONOMY), "countries")))
    requires Truthy(Get(service, ANN_COUNTRIES)) && !Truthy(Lookup(dp, "countries"))
    ensures var individual := Get(service, ANN_COUNTRIES);
            Countries(individual).Ok? && Lookup(LabelSteps(b, service), "countries") == Arr(Countries(individual).value)
  {
    AfterBlockCountries(dp, service);
    IndividualCountries(a, service);
    LabelStepsKeep(b, service, "countries");
  }

  /** Otherwise the record keeps its countries. */
  lemma CountriesKept(dp: Object, service: Json, a: Object, b: Object)
    requires AfterBlock(dp, service) == Ok(a) && Individual(a, service) == Ok(b)
    requires !(Truthy(Get(service, ANN_TAXONOMY)) && Truthy(Get(Get(service, ANN_TAXONOMY), "countries")))
    requires !(Truthy(Get(service, ANN_COUNTRIES)) && !Truthy(Lookup(dp, "countries")))
    ensures Lookup(LabelSteps(b, service), "countries") == Lookup(dp, "countries")
  {
    AfterBlockCountries(dp, service);
    IndividualCountries(a, service);
    LabelStepsKeep(b, service, "countries");
  }

  /** Every country a successful enrichment writes is a two-letter upper-case code. */
  lemma EnrichCountryCodes(dp: Object, ctx: Context)
    requires Enrich(dp, ctx).Ok? && Truthy(ServiceOf(ctx, dp).value)
    requires Lookup(Enrich(dp, ctx).value, "countries") != Lookup(dp, "countries")
    ensures Lookup(Enrich(dp, ctx).value, "countries").Arr?
    ensures forall x :: x in Lookup(Enrich(dp, ctx).value, "countries").items ==> x.Str? && IsCountryCode(x.s)
  {
    var service := ServiceOf(ctx, dp).value;
    EnrichCountries(dp, ctx);
    var fromBlock := Get(Get(service, ANN_TAXONOMY), "countries");
    if Truthy(Get(service, ANN_TAXONOMY)) && Truthy(fromBlock) {
      CountryCodesSpec(NormalizeArray(fromBlock));
    } else {
      CountryCodesSpec(NormalizeArray(Get(service, ANN_COUNTRIES)));
    }
  }

  /** The three label steps write what their annotations give. */
  lemma LabelStepsLists(r: Object, service: Json)
    ensures var labels := Get(service, ANN_LABELS);
            Lookup(LabelSteps(r, service), "labels") == if Truthy(labels) then ProcessedLabels(labels) else Lookup(r, "labels")
    ensures var labels := Get(service, ANN_DOCUMENTATION_LABELS);
            Lookup(LabelSteps(r, service), "documentationLabels") ==
              if Truthy(labels) then ProcessedLabels(labels) else Lookup(r, "documentationLabels")
    ensures var ids := Get(service, ANN_CORRELATION_IDS);
            Lookup(LabelSteps(r, service), "correlationIds") == if Truthy(ids) then Arr(NormalizeArray(ids)) else Lookup(r, "correlationIds")
  {
  }

  /** Labels and documentation labels replace the record's wholesale, and correlation ids are normalized. */
  lemma EnrichLabels(dp: Object, ctx: Context)
    requires Enrich(dp, ctx).Ok? && Truthy(ServiceOf(ctx, dp).value)
    ensures var service := ServiceOf(ctx, dp).value;
            var labels := Get(service, ANN_LABELS);
            Lookup(Enrich(dp, ctx).value, "labels") == if Truthy(labels) then ProcessedLabels(labels) else Lookup(dp, "labels")
    ensures var service := ServiceOf(ctx, dp).value;
            var labels := Get(service, ANN_DOCUMENTATION_LABELS);
            Lookup(Enrich(dp, ctx).value, "documentationLabels") ==
              if Truthy(labels) then ProcessedLabels(labels) else Lookup(dp, "documentationLabels")
    ensures var service := ServiceOf(ctx, dp).value;
            var ids := Get(service, ANN_CORRELATION_IDS);
            Lookup(Enrich(dp, ctx).value, "correlationIds") == if Truthy(ids) then Arr(NormalizeArray(ids)) else Lookup(dp, "correlationIds")
  {
    var service := ServiceOf(ctx, dp).value;
    EnrichIs(dp, ctx);
    var a := AfterBlock(dp, service).value;
    var b := Individual(a, service).value;
    LabelStepsLists(b, service);
    var taxonomy := Get(service, ANN_TAXONOMY);
    if Truthy(taxonomy) {
      BlockKeeps(dp, taxonomy, "labels");
      BlockKeeps(dp, taxonomy, "documentationLabels");
      BlockKeeps(dp, taxonomy, "correlationIds");
    }
    IndividualKeeps(a, service, "labels");
    IndividualKeeps(a, service, "documentationLabels");
    IndividualKeeps(a, service, "correlationIds");
  }

  // ---------------------------------------------------------------------------
  // The stage as written
  // ---------------------------------------------------------------------------

  /**
   * As written, the stage's `catch` calls a method that does not exist: one
   * record whose service annotates, without a taxonomy block, countries
   * holding something that is not a string (`@ORD.countries: [1]`) makes
   * the whole stage throw. With the `catch` falling back to the record,
   * that record comes out as it went in and every other record is enriched.
   */
  lemma CountriesAsWritten(records: seq<Object>, ctx: Context, i: nat, j: nat)
    requires i < |records| && ServiceOf(ctx, records[i]).Ok?
    requires var service := ServiceOf(ctx, records[i]).value;
             Truthy(service) && !Truthy(Get(service, ANN_TAXONOMY)) && !Truthy(Lookup(records[i], "countries")) &&
             Get(service, ANN_COUNTRIES).Arr? && j < |Get(service, ANN_COUNTRIES).items| &&
             !Get(service, ANN_COUNTRIES).items[j].Str?
    ensures MapAsWritten(records, dp => Enrich(dp, ctx)) == Err(TypeError)
    ensures Process(records, ctx)[i] == records[i]
  {
    var service := ServiceOf(ctx, records[i]).value;
    assert Enrich(records[i], ctx).Err? by {
      assert Individual(records[i], service).Err? by {
        CountryCodesSpec(Get(service, ANN_COUNTRIES).items);
      }
    }
    AsWrittenVersusGuarded(records, dp => Enrich(dp, ctx), dp => dp);
  }
}
