/**
 * The lifecycle stage (lib/dataProducts/processors/LifecycleProcessor.js):
 * release and lifecycle status, lifecycle dates, successors and changelog
 * from a service's `@ORD.lifecycle` block, then the `@ORD.deprecated` and
 * `@ORD.successor` shorthands. Each record is enriched on a copy.
 */
module Lifecycle {
  import opened Js
  import opened Constants
  import opened Utils
  import opened Csn
  import opened StageMap

  const ANN_LIFECYCLE := "@ORD.lifecycle"
  const ANN_DEPRECATED := "@ORD.deprecated"
  const ANN_SUCCESSOR := "@ORD.successor"

  /** The record keys the stage may write. */
  predicate IsLifecycleKey(k: string)
  {
    k == "releaseStatus" || k == "lifecycleStatus" || k == "deprecationDate" || k == "sunsetDate" ||
    k == "successors" || k == "changelogEntries" || k == "lastUpdate"
  }

  // ---------------------------------------------------------------------------
  // Successors and changelog
  // ---------------------------------------------------------------------------

  /** `entry.date && entry.version`: reading a property of null or undefined throws. */
  function KeepsEntry(entry: Json): (r: Result<bool>)
    ensures r.Err? <==> IsNullish(entry)
    ensures r.Ok? ==> (r.value <==> Truthy(Get(entry, "date")) && Truthy(Get(entry, "version")))
  {
    if IsNullish(entry) then Err(TypeError)
    else Ok(Truthy(Get(entry, "date")) && Truthy(Get(entry, "version")))
  }

  /** The `filter` over the changelog entries. */
  function KeptEntries(entries: seq<Json>): Result<seq<Json>>
  {
    if entries == [] then Ok([])
    else
      var keep :- KeepsEntry(entries[0]);
      Prepend(if keep then [entries[0]] else [], KeptEntries(entries[1..]))
  }

  /**
   * The filter throws exactly on a null or undefined entry; otherwise it
   * keeps exactly the entries with a truthy date and a truthy version.
   */
  lemma {:induction false} KeptEntriesSpec(entries: seq<Json>)
    ensures KeptEntries(entries).Err? <==> exists i :: 0 <= i < |entries| && IsNullish(entries[i])
    ensures KeptEntries(entries).Ok? ==>
              forall e :: e in KeptEntries(entries).value <==>
                e in entries && Truthy(Get(e, "date")) && Truthy(Get(e, "version"))
  {
    if entries != [] {
      KeptEntriesSpec(entries[1..]);
      assert entries == [entries[0]] + entries[1..];
      if !IsNullish(entries[0]) && exists i :: 0 <= i < |entries| && IsNullish(entries[i]) {
        var i :| 0 <= i < |entries| && IsNullish(entries[i]);
        assert entries[1..][i - 1] == entries[i];
      }
    }
  }

  /** The `map` over the kept entries: defaults for description and release status. */
  function ChangelogEntry(entry: Json): Json
  {
    Obj([Field("date", Get(entry, "date")),
         Field("description", Or(Get(entry, "description"), Str(""))),
         Field("releaseStatus", Or(ValidateReleaseStatus(Get(entry, "releaseStatus")), Str(DEFAULT_RELEASE_STATUS))),
         Field("version", Get(entry, "version")),
         Field("url", Get(entry, "url"))])
  }

  /**
   * A built entry keeps the date, version and url, takes '' for a falsy
   * description and 'active' for a release status that is not valid.
   */
  lemma ChangelogEntryFields(entry: Json)
    ensures var r := ChangelogEntry(entry);
            Get(r, "date") == Get(entry, "date") && Get(r, "version") == Get(entry, "version") && Get(r, "url") == Get(entry, "url")
    ensures Get(ChangelogEntry(entry), "description") == Or(Get(entry, "description"), Str(""))
    ensures Get(ChangelogEntry(entry), "releaseStatus") ==
              if IsOneOf(Get(entry, "releaseStatus"), RELEASE_STATUSES) then Get(entry, "releaseStatus") else Str(DEFAULT_RELEASE_STATUS)
  {
    var fs := ChangelogEntry(entry).fields;
    LookupAt(fs, 0); LookupAt(fs, 1); LookupAt(fs, 2); LookupAt(fs, 3); LookupAt(fs, 4);
  }

  /** `changelogEntries.filter(...).map(...)` */
  function Changelog(entries: seq<Json>): Result<seq<Json>>
  {
    var kept :- KeptEntries(entries);
    Ok(seq(|kept|, i requires 0 <= i < |kept| => ChangelogEntry(kept[i])))
  }

  /** Every changelog entry built has a truthy date and version and a valid release status. */
  lemma ChangelogEntriesValid(entries: seq<Json>)
    requires Changelog(entries).Ok?
    ensures forall e :: e in Changelog(entries).value ==>
              Truthy(Get(e, "date")) && Truthy(Get(e, "version")) && IsOneOf(Get(e, "releaseStatus"), RELEASE_STATUSES)
  {
    var kept := KeptEntries(entries).value;
    KeptEntriesSpec(entries);
    forall e | e in Changelog(entries).value
      ensures Truthy(Get(e, "date")) && Truthy(Get(e, "version")) && IsOneOf(Get(e, "releaseStatus"), RELEASE_STATUSES)
    {
      var i :| 0 <= i < |kept| && e == ChangelogEntry(kept[i]);
      assert kept[i] in kept;
      ChangelogEntryFields(kept[i]);
    }
  }

  // ---------------------------------------------------------------------------
  // The steps of `enrichWithLifecycleFields`
  // ---------------------------------------------------------------------------

  /** `releaseStatus` from the block, only when it is a valid release status. */
  function ReleaseStatusStep(dp: Object, lifecycle: Json): (r: Object)
    ensures IsOneOf(Get(lifecycle, "releaseStatus"), RELEASE_STATUSES) ==> Lookup(r, "releaseStatus") == Get(lifecycle, "releaseStatus")
    ensures !IsOneOf(Get(lifecycle, "releaseStatus"), RELEASE_STATUSES) ==> r == dp
    ensures forall k :: k != "releaseStatus" ==> Lookup(r, k) == Lookup(dp, k)
  {
    var status := Get(lifecycle, "releaseStatus");
    if Truthy(status) && Truthy(ValidateReleaseStatus(status)) then Set(dp, "releaseStatus", ValidateReleaseStatus(status))
    else dp
  }

  /** `lifecycleStatus` from the block, only when it is one of the lifecycle statuses. */
  function LifecycleStatusStep(dp: Object, lifecycle: Json): (r: Object)
    ensures IsOneOf(Get(lifecycle, "lifecycleStatus"), LIFECYCLE_STATUSES) ==> Lookup(r, "lifecycleStatus") == Get(lifecycle, "lifecycleStatus")
    ensures !IsOneOf(Get(lifecycle, "lifecycleStatus"), LIFECYCLE_STATUSES) ==> r == dp
    ensures forall k :: k != "lifecycleStatus" ==> Lookup(r, k) == Lookup(dp, k)
  {
    var status := Get(lifecycle, "lifecycleStatus");
    if Truthy(status) && IsOneOf(status, LIFECYCLE_STATUSES) then Set(dp, "lifecycleStatus", status) else dp
  }

  /** A date field, only when the annotated value is truthy and passes the date check. */
  function DateStep(dp: Object, key: string, v: Json, ctx: Context): (r: Object)
    ensures Truthy(v) && Truthy(DateValue(ctx, v)) ==> Lookup(r, key) == DateValue(ctx, v) && Lookup(r, key).Str?
    ensures !(Truthy(v) && Truthy(DateValue(ctx, v))) ==> r == dp
    ensures forall k :: k != key ==> Lookup(r, k) == Lookup(dp, k)
  {
    if Truthy(v) && Truthy(DateValue(ctx, v)) then Set(dp, key, DateValue(ctx, v)) else dp
  }

  /** `successors` from the block, keeping only its strings, when it is an array. */
  function SuccessorsStep(dp: Object, lifecycle: Json): (r: Object)
    ensures Get(lifecycle, "successors").Arr? ==> Lookup(r, "successors") == Arr(StringsOnly(Get(lifecycle, "successors").items))
    ensures !Get(lifecycle, "successors").Arr? ==> r == dp
    ensures forall k :: k != "successors" ==> Lookup(r, k) == Lookup(dp, k)
  {
    var successors := Get(lifecycle, "successors");
    if Truthy(successors) && successors.Arr? then Set(dp, "successors", Arr(StringsOnly(successors.items))) else dp
  }

  /** `changelogEntries` from the block when it is an array; a null or undefined entry throws. */
  function ChangelogStep(dp: Object, lifecycle: Json): (r: Result<Object>)
    ensures r.Err? <==> Get(lifecycle, "changelogEntries").Arr? && Changelog(Get(lifecycle, "changelogEntries").items).Err?
    ensures r.Ok? && Get(lifecycle, "changelogEntries").Arr? ==>
              Lookup(r.value, "changelogEntries") == Arr(Changelog(Get(lifecycle, "changelogEntries").items).value)
    ensures r.Ok? && !Get(lifecycle, "changelogEntries").Arr? ==> r.value == dp
    ensures r.Ok? ==> forall k :: k != "changelogEntries" ==> Lookup(r.value, k) == Lookup(dp, k)
  {
    var entries := Get(lifecycle, "changelogEntries");
    if Truthy(entries) && entries.Arr? then
      var changelog :- Changelog(entries.items);
      Ok(Set(dp, "changelogEntries", Arr(changelog)))
    else Ok(dp)
  }

  /** The two statuses and the two dates that open the block. */
  function StatusAndDates(dp: Object, lifecycle: Json, ctx: Context): (r: Object)
    ensures forall k :: k != "releaseStatus" && k != "lifecycleStatus" && k != "deprecationDate" && k != "sunsetDate" ==>
              Lookup(r, k) == Lookup(dp, k)
  {
    var r1 := LifecycleStatusStep(ReleaseStatusStep(dp, lifecycle), lifecycle);
    DateStep(DateStep(r1, "deprecationDate", Get(lifecycle, "deprecationDate"), ctx), "sunsetDate", Get(lifecycle, "sunsetDate"), ctx)
  }

  /** The last step of the block, which sets only `lastUpdate`. */
  function LastUpdateStep(r2: Object, lifecycle: Json, ctx: Context): Object
  {
    DateStep(r2, "lastUpdate", Get(lifecycle, "lastUpdate"), ctx)
  }

  /** Everything the `@ORD.lifecycle` block sets, in the order the source sets it. */
  function Block(dp: Object, lifecycle: Json, ctx: Context): (r: Result<Object>)
    ensures r.Ok? ==> forall k :: !IsLifecycleKey(k) ==> Lookup(r.value, k) == Lookup(dp, k)
  {
    var r1 := SuccessorsStep(StatusAndDates(dp, lifecycle, ctx), lifecycle);
    var r2 :- ChangelogStep(r1, lifecycle);
    Ok(LastUpdateStep(r2, lifecycle, ctx))
  }

  /** `@ORD.deprecated`: forces 'deprecated' when no release status is set yet; a string is also a date. */
  function DeprecatedStep(dp: Object, service: Json, ctx: Context): (r: Object)
    ensures Truthy(Lookup(dp, "releaseStatus")) || !Truthy(Get(service, ANN_DEPRECATED)) ==> r == dp
    ensures !Truthy(Lookup(dp, "releaseStatus")) && Truthy(Get(service, ANN_DEPRECATED)) ==>
              Lookup(r, "releaseStatus") == Str("deprecated") &&
              Lookup(r, "deprecationDate") == if Get(service, ANN_DEPRECATED).Str? then DateValue(ctx, Get(service, ANN_DEPRECATED))
                                              else Lookup(dp, "deprecationDate")
    ensures forall k :: k != "releaseStatus" && k != "deprecationDate" ==> Lookup(r, k) == Lookup(dp, k)
  {
    var deprecated := Get(service, ANN_DEPRECATED);
    if Truthy(deprecated) && !Truthy(Lookup(dp, "releaseStatus")) then
      var r := Set(dp, "releaseStatus", Str("deprecated"));
      if deprecated.Str? then Set(r, "deprecationDate", DateValue(ctx, deprecated)) else r
    else dp
  }

  /** `@ORD.successor`: only when no successors are set yet, a single value becoming a one-element list. */
  function SuccessorStep(dp: Object, service: Json): (r: Object)
    ensures Truthy(Lookup(dp, "successors")) || !Truthy(Get(service, ANN_SUCCESSOR)) ==> r == dp
    ensures !Truthy(Lookup(dp, "successors")) && Truthy(Get(service, ANN_SUCCESSOR)) ==>
              Lookup(r, "successors") == Arr(AsList(Get(service, ANN_SUCCESSOR)))
    ensures forall k :: k != "successors" ==> Lookup(r, k) == Lookup(dp, k)
  {
    var successor := Get(service, ANN_SUCCESSOR);
    if Truthy(successor) && !Truthy(Lookup(dp, "successors")) then Set(dp, "successors", Arr(AsList(successor))) else dp
  }

  /** The record after the block, or the record itself when the service has no `@ORD.lifecycle`. */
  function AfterBlock(dp: Object, service: Json, ctx: Context): Result<Object>
  {
    var lifecycle := Get(service, ANN_LIFECYCLE);
    if Truthy(lifecycle) then Block(dp, lifecycle, ctx) else Ok(dp)
  }

  /** The `@ORD.deprecated` and `@ORD.successor` shorthands, after the block. */
  function Shorthands(r: Object, service: Json, ctx: Context): Object
  {
    SuccessorStep(DeprecatedStep(r, service, ctx), service)
  }

  /** `enrichWithLifecycleFields(dp, context)` */
  function Enrich(dp: Object, ctx: Context): Result<Object>
  {
    var service :- ServiceOf(ctx, dp);
    if !Truthy(service) then Ok(dp)
    else
      var r :- AfterBlock(dp, service, ctx);
      Ok(Shorthands(r, service, ctx))
  }

  /** `process`: every record enriched, a record whose enrichment throws kept as it was. */
  function Process(records: seq<Object>, ctx: Context): seq<Object>
  {
    MapGuarded(records, dp => Enrich(dp, ctx), dp => dp)
  }

  // ---------------------------------------------------------------------------
  // Properties
  // ---------------------------------------------------------------------------

  /** The stage writes no key outside the lifecycle keys. */
  lemma EnrichWrites(dp: Object, ctx: Context, k: string)
    requires !IsLifecycleKey(k) && Enrich(dp, ctx).Ok?
    ensures Lookup(Enrich(dp, ctx).value, k) == Lookup(dp, k)
  {
  }

  /**
   * The stage keeps the number and order of the records and every field
   * outside the lifecycle keys; a record whose service is not defined, or
   * whose enrichment throws, comes out unchanged.
   */
  lemma ProcessKeepsFields(records: seq<Object>, ctx: Context, k: string)
    requires !IsLifecycleKey(k)
    ensures |Process(records, ctx)| == |records|
    ensures forall i :: 0 <= i < |records| ==> Lookup(Process(records, ctx)[i], k) == Lookup(records[i], k)
  {
    forall i | 0 <= i < |records|
      ensures Lookup(Process(records, ctx)[i], k) == Lookup(records[i], k)
    {
      if Enrich(records[i], ctx).Ok? {
        EnrichWrites(records[i], ctx, k);
      }
    }
  }

  /** A record without a defined service, or whose enrichment throws, is left as it was. */
  lemma ProcessKeepsUnserviced(records: seq<Object>, ctx: Context, i: nat)
    requires i < |records|
    requires ServiceOf(ctx, records[i]).Err? || !Truthy(ServiceOf(ctx, records[i]).value) || Enrich(records[i], ctx).Err?
    ensures Process(records, ctx)[i] == records[i]
  {
  }

  /** The lifecycle block throws only on a null or undefined changelog entry. */
  lemma BlockThrows(dp: Object, lifecycle: Json, ctx: Context)
    ensures Block(dp, lifecycle, ctx).Err? <==>
              Get(lifecycle, "changelogEntries").Arr? &&
              exists i :: 0 <= i < |Get(lifecycle, "changelogEntries").items| && IsNullish(Get(lifecycle, "changelogEntries").items[i])
  {
    if Get(lifecycle, "changelogEntries").Arr? {
      KeptEntriesSpec(Get(lifecycle, "changelogEntries").items);
    }
  }

  /** The shorthands write only the release status, the deprecation date and the successors. */
  lemma ShorthandsKeep(r: Object, service: Json, ctx: Context, k: string)
    requires k != "releaseStatus" && k != "deprecationDate" && k != "successors"
    ensures Lookup(Shorthands(r, service, ctx), k) == Lookup(r, k)
  {
  }

  /** `@ORD.deprecated` sets 'deprecated' exactly when no release status is set yet. */
  lemma ShorthandsReleaseStatus(r: Object, service: Json, ctx: Context)
    ensures Lookup(Shorthands(r, service, ctx), "releaseStatus") ==
              if !Truthy(Lookup(r, "releaseStatus")) && Truthy(Get(service, ANN_DEPRECATED)) then Str("deprecated")
              else Lookup(r, "releaseStatus")
    ensures !Truthy(Lookup(r, "releaseStatus")) && Get(service, ANN_DEPRECATED).Str? && Truthy(Get(service, ANN_DEPRECATED)) ==>
              Lookup(Shorthands(r, service, ctx), "deprecationDate") == DateValue(ctx, Get(service, ANN_DEPRECATED))
  {
    var d := DeprecatedStep(r, service, ctx);
    assert Lookup(Shorthands(r, service, ctx), "releaseStatus") == Lookup(d, "releaseStatus");
    assert Lookup(Shorthands(r, service, ctx), "deprecationDate") == Lookup(d, "deprecationDate");
  }

  /** The shorthands keep the deprecation date unless a string `@ORD.deprecated` applies. */
  lemma ShorthandsDeprecationDate(r: Object, service: Json, ctx: Context)
    ensures Lookup(Shorthands(r, service, ctx), "deprecationDate") == Lookup(r, "deprecationDate") ||
            (Get(service, ANN_DEPRECATED).Str? &&
             Lookup(Shorthands(r, service, ctx), "deprecationDate") == DateValue(ctx, Get(service, ANN_DEPRECATED)))
  {
    var d := DeprecatedStep(r, service, ctx);
    assert Lookup(Shorthands(r, service, ctx), "deprecationDate") == Lookup(d, "deprecationDate");
  }

  /** `@ORD.successor` sets the successors exactly when none are set yet. */
  lemma ShorthandsSuccessors(r: Object, service: Json, ctx: Context)
    ensures Lookup(Shorthands(r, service, ctx), "successors") ==
              if !Truthy(Lookup(r, "successors")) && Truthy(Get(service, ANN_SUCCESSOR)) then Arr(AsList(Get(service, ANN_SUCCESSOR)))
              else Lookup(r, "successors")
  {
    var d := DeprecatedStep(r, service, ctx);
    assert Lookup(d, "successors") == Lookup(r, "successors");
  }

  /** What a successful enrichment of a record with a defined service is made of. */
  lemma EnrichIs(dp: Object, ctx: Context)
    requires Enrich(dp, ctx).Ok? && ServiceOf(ctx, dp).Ok? && Truthy(ServiceOf(ctx, dp).value)
    ensures AfterBlock(dp, ServiceOf(ctx, dp).value, ctx).Ok?
    ensures Enrich(dp, ctx).value == Shorthands(AfterBlock(dp, ServiceOf(ctx, dp).value, ctx).value, ServiceOf(ctx, dp).value, ctx)
  {
  }

  /** The two statuses and two dates that open the block. */
  lemma StatusAndDatesStatuses(dp: Object, lifecycle: Json, ctx: Context)
    ensures Lookup(StatusAndDates(dp, lifecycle, ctx), "releaseStatus") ==
              if IsOneOf(Get(lifecycle, "releaseStatus"), RELEASE_STATUSES) then Get(lifecycle, "releaseStatus") else Lookup(dp, "releaseStatus")
    ensures Lookup(StatusAndDates(dp, lifecycle, ctx), "lifecycleStatus") ==
              if IsOneOf(Get(lifecycle, "lifecycleStatus"), LIFECYCLE_STATUSES) then Get(lifecycle, "lifecycleStatus") else Lookup(dp, "lifecycleStatus")
  {
    var r0 := ReleaseStatusStep(dp, lifecycle);
    var r1 := LifecycleStatusStep(r0, lifecycle);
    var r2 := DateStep(r1, "deprecationDate", Get(lifecycle, "deprecationDate"), ctx);
    assert Lookup(r1, "releaseStatus") == Lookup(r0, "releaseStatus");
    assert Lookup(r2, "releaseStatus") == Lookup(r1, "releaseStatus") && Lookup(r2, "lifecycleStatus") == Lookup(r1, "lifecycleStatus");
  }

  /** The steps after the first four keep a key they do not write. */
  lemma BlockRestKeeps(r: Object, lifecycle: Json, ctx: Context, k: string)
    requires k != "successors" && k != "changelogEntries" && k != "lastUpdate"
    requires Block(r, lifecycle, ctx).Ok?
    ensures Lookup(Block(r, lifecycle, ctx).value, k) == Lookup(StatusAndDates(r, lifecycle, ctx), k)
  {
    var r1 := SuccessorsStep(StatusAndDates(r, lifecycle, ctx), lifecycle);
    var r2 := ChangelogStep(r1, lifecycle).value;
    assert Lookup(r2, k) == Lookup(r1, k);
  }

  /**
   * After the block, the release status is the block's when that one is
   * valid and the old one otherwise; the same holds for the lifecycle status.
   */
  lemma BlockStatuses(dp: Object, lifecycle: Json, ctx: Context)
    requires Block(dp, lifecycle, ctx).Ok?
    ensures Lookup(Block(dp, lifecycle, ctx).value, "releaseStatus") ==
              if IsOneOf(Get(lifecycle, "releaseStatus"), RELEASE_STATUSES) then Get(lifecycle, "releaseStatus") else Lookup(dp, "releaseStatus")
    ensures Lookup(Block(dp, lifecycle, ctx).value, "lifecycleStatus") ==
              if IsOneOf(Get(lifecycle, "lifecycleStatus"), LIFECYCLE_STATUSES) then Get(lifecycle, "lifecycleStatus") else Lookup(dp, "lifecycleStatus")
  {
    StatusAndDatesStatuses(dp, lifecycle, ctx);
    BlockRestKeeps(dp, lifecycle, ctx, "releaseStatus");
    BlockRestKeeps(dp, lifecycle, ctx, "lifecycleStatus");
  }

  /** After the block, successors come from the block's array, strings only, or stay as they were. */
  lemma BlockSuccessors(dp: Object, lifecycle: Json, ctx: Context)
    requires Block(dp, lifecycle, ctx).Ok?
    ensures Lookup(Block(dp, lifecycle, ctx).value, "successors") ==
              if Get(lifecycle, "successors").Arr? then Arr(StringsOnly(Get(lifecycle, "successors").items)) else Lookup(dp, "successors")
  {
    var r0 := StatusAndDates(dp, lifecycle, ctx);
    var r1 := SuccessorsStep(r0, lifecycle);
    assert Block(dp, lifecycle, ctx) == Ok(LastUpdateStep(ChangelogStep(r1, lifecycle).value, lifecycle, ctx));
    TailKeeps(r1, lifecycle, ctx, "successors");
    StatusAndDatesKeepSuccessors(dp, lifecycle, ctx);
  }

  /** The statuses and dates leave `successors` alone. */
  lemma StatusAndDatesKeepSuccessors(dp: Object, lifecycle: Json, ctx: Context)
    ensures Lookup(StatusAndDates(dp, lifecycle, ctx), "successors") == Lookup(dp, "successors")
  {
    assert "successors"[2] != "sunsetDate"[2];
    assert |"successors"| != |"releaseStatus"| && |"successors"| != |"lifecycleStatus"| && |"successors"| != |"deprecationDate"|;
    StatusAndDatesKeeps(dp, lifecycle, ctx, "successors");
  }

  /** The statuses and dates leave every other key alone. */
  lemma StatusAndDatesKeeps(dp: Object, lifecycle: Json, ctx: Context, key: string)
    requires key != "releaseStatus" && key != "lifecycleStatus" && key != "deprecationDate" && key != "sunsetDate"
    ensures Lookup(StatusAndDates(dp, lifecycle, ctx), key) == Lookup(dp, key)
  {
  }

  /** After the block, the changelog is the filtered and completed list of entries. */
  lemma BlockChangelog(dp: Object, lifecycle: Json, ctx: Context)
    requires Block(dp, lifecycle, ctx).Ok? && Get(lifecycle, "changelogEntries").Arr?
    ensures Lookup(Block(dp, lifecycle, ctx).value, "changelogEntries") == Arr(Changelog(Get(lifecycle, "changelogEntries").items).value)
  {
    var r1 := SuccessorsStep(StatusAndDates(dp, lifecycle, ctx), lifecycle);
    assert Block(dp, lifecycle, ctx) == Ok(LastUpdateStep(ChangelogStep(r1, lifecycle).value, lifecycle, ctx));
    ChangelogThroughDate(r1, lifecycle, ctx);
  }

  /** The steps after `successors` leave every key but the change log and the last update alone. */
  lemma TailKeeps(r1: Object, lifecycle: Json, ctx: Context, key: string)
    requires ChangelogStep(r1, lifecycle).Ok? && key != "changelogEntries" && key != "lastUpdate"
    ensures Lookup(LastUpdateStep(ChangelogStep(r1, lifecycle).value, lifecycle, ctx), key) == Lookup(r1, key)
  {
  }

  /** The last update leaves the change log alone. */
  lemma ChangelogThroughDate(r1: Object, lifecycle: Json, ctx: Context)
    requires ChangelogStep(r1, lifecycle).Ok? && Get(lifecycle, "changelogEntries").Arr?
    ensures Lookup(LastUpdateStep(ChangelogStep(r1, lifecycle).value, lifecycle, ctx), "changelogEntries") ==
              Arr(Changelog(Get(lifecycle, "changelogEntries").items).value)
  {
  }

  /** `key` holds the checked date when `v` is truthy and passes the date check, and its old value otherwise. */
  predicate DateFrom(r: Object, dp: Object, key: string, v: Json, ctx: Context)
  {
    Lookup(r, key) == if Truthy(v) && Truthy(DateValue(ctx, v)) then DateValue(ctx, v) else Lookup(dp, key)
  }

  /** The two dates that open the block. */
  lemma StatusAndDatesDates(dp: Object, lifecycle: Json, ctx: Context)
    ensures DateFrom(StatusAndDates(dp, lifecycle, ctx), dp, "deprecationDate", Get(lifecycle, "deprecationDate"), ctx)
    ensures DateFrom(StatusAndDates(dp, lifecycle, ctx), dp, "sunsetDate", Get(lifecycle, "sunsetDate"), ctx)
  {
    var r1 := LifecycleStatusStep(ReleaseStatusStep(dp, lifecycle), lifecycle);
    var r2 := DateStep(r1, "deprecationDate", Get(lifecycle, "deprecationDate"), ctx);
    assert Lookup(r1, "deprecationDate") == Lookup(dp, "deprecationDate") && Lookup(r1, "sunsetDate") == Lookup(dp, "sunsetDate");
    assert Lookup(r2, "sunsetDate") == Lookup(r1, "sunsetDate");
    assert Lookup(StatusAndDates(dp, lifecycle, ctx), "deprecationDate") == Lookup(r2, "deprecationDate");
  }

  /** The block sets each of its three dates only when the date check returns one. */
  lemma BlockDates(dp: Object, lifecycle: Json, ctx: Context)
    requires Block(dp, lifecycle, ctx).Ok?
    ensures DateFrom(Block(dp, lifecycle, ctx).value, dp, "deprecationDate", Get(lifecycle, "deprecationDate"), ctx)
    ensures DateFrom(Block(dp, lifecycle, ctx).value, dp, "sunsetDate", Get(lifecycle, "sunsetDate"), ctx)
    ensures DateFrom(Block(dp, lifecycle, ctx).value, dp, "lastUpdate", Get(lifecycle, "lastUpdate"), ctx)
  {
    StatusAndDatesDates(dp, lifecycle, ctx);
    BlockRestKeeps(dp, lifecycle, ctx, "deprecationDate");
    BlockRestKeeps(dp, lifecycle, ctx, "sunsetDate");
    BlockLastUpdate(dp, lifecycle, ctx);
  }

  /** The last step of the block. */
  lemma BlockLastUpdate(dp: Object, lifecycle: Json, ctx: Context)
    requires Block(dp, lifecycle, ctx).Ok?
    ensures DateFrom(Block(dp, lifecycle, ctx).value, dp, "lastUpdate", Get(lifecycle, "lastUpdate"), ctx)
  {
    var r0 := StatusAndDates(dp, lifecycle, ctx);
    var r1 := SuccessorsStep(r0, lifecycle);
    var r2 := ChangelogStep(r1, lifecycle).value;
    assert Block(dp, lifecycle, ctx) == Ok(LastUpdateStep(r2, lifecycle, ctx));
    assert Lookup(r2, "lastUpdate") == Lookup(r1, "lastUpdate") by {
      assert |"lastUpdate"| != |"changelogEntries"|;
    }
    assert Lookup(r1, "lastUpdate") == Lookup(r0, "lastUpdate") by {
      assert |"lastUpdate"| == |"successors"| && "lastUpdate"[0] != "successors"[0];
    }
    assert "lastUpdate"[0] != "sunsetDate"[0];
    assert |"lastUpdate"| != |"releaseStatus"| && |"lastUpdate"| != |"lifecycleStatus"| && |"lastUpdate"| != |"deprecationDate"|;
    StatusAndDatesKeeps(dp, lifecycle, ctx, "lastUpdate");
  }

  /**
   * The sunset date and the last update are set only from the lifecycle
   * block and only when the date check returns a date; the deprecation date
   * is the old one, the block's checked date, or what the date check makes
   * of a string `@ORD.deprecated`, which may be null.
   */
  lemma EnrichDates(dp: Object, ctx: Context)
    requires Enrich(dp, ctx).Ok? && ServiceOf(ctx, dp).Ok? && Truthy(ServiceOf(ctx, dp).value)
    ensures var lifecycle := Get(ServiceOf(ctx, dp).value, ANN_LIFECYCLE);
            DateFrom(Enrich(dp, ctx).value, dp, "sunsetDate", Get(lifecycle, "sunsetDate"), ctx) &&
            DateFrom(Enrich(dp, ctx).value, dp, "lastUpdate", Get(lifecycle, "lastUpdate"), ctx)
    ensures var service := ServiceOf(ctx, dp).value;
            var date := Lookup(Enrich(dp, ctx).value, "deprecationDate");
            DateFrom(Enrich(dp, ctx).value, dp, "deprecationDate", Get(Get(service, ANN_LIFECYCLE), "deprecationDate"), ctx) ||
            (Get(service, ANN_DEPRECATED).Str? && date == DateValue(ctx, Get(service, ANN_DEPRECATED)))
  {
    var service := ServiceOf(ctx, dp).value;
    var lifecycle := Get(service, ANN_LIFECYCLE);
    EnrichIs(dp, ctx);
    var r := AfterBlock(dp, service, ctx).value;
    ShorthandsKeep(r, service, ctx, "sunsetDate");
    ShorthandsKeep(r, service, ctx, "lastUpdate");
    ShorthandsDeprecationDate(r, service, ctx);
    if Truthy(lifecycle) {
      BlockDates(dp, lifecycle, ctx);
    } else {
      assert r == dp;
    }
  }

  /** An annotated release status that is valid wins; the shorthand never overrides a set status. */
  lemma EnrichReleaseStatus(dp: Object, ctx: Context)
    requires Enrich(dp, ctx).Ok? && ServiceOf(ctx, dp).Ok? && Truthy(ServiceOf(ctx, dp).value)
    ensures var lifecycle := Get(ServiceOf(ctx, dp).value, ANN_LIFECYCLE);
            Truthy(lifecycle) && IsOneOf(Get(lifecycle, "releaseStatus"), RELEASE_STATUSES) ==>
              Lookup(Enrich(dp, ctx).value, "releaseStatus") == Get(lifecycle, "releaseStatus")
    ensures var lifecycle := Get(ServiceOf(ctx, dp).value, ANN_LIFECYCLE);
            Truthy(Lookup(dp, "releaseStatus")) && !(Truthy(lifecycle) && IsOneOf(Get(lifecycle, "releaseStatus"), RELEASE_STATUSES)) ==>
              Lookup(Enrich(dp, ctx).value, "releaseStatus") == Lookup(dp, "releaseStatus")
    ensures var status := Lookup(Enrich(dp, ctx).value, "releaseStatus");
            status == Lookup(dp, "releaseStatus") || IsOneOf(status, RELEASE_STATUSES)
  {
    var service := ServiceOf(ctx, dp).value;
    var lifecycle := Get(service, ANN_LIFECYCLE);
    var status := Get(lifecycle, "releaseStatus");
    EnrichIs(dp, ctx);
    var r := AfterBlock(dp, service, ctx).value;
    assert Lookup(r, "releaseStatus") ==
             if Truthy(lifecycle) && IsOneOf(status, RELEASE_STATUSES) then status else Lookup(dp, "releaseStatus") by {
      if Truthy(lifecycle) {
        BlockStatuses(dp, lifecycle, ctx);
      }
    }
    ShorthandsReleaseStatus(r, service, ctx);
    ReleaseStatusesTruthy(status);
    StatusPrecedence(Truthy(lifecycle), status, Lookup(dp, "releaseStatus"), Lookup(r, "releaseStatus"),
                     Truthy(Get(service, ANN_DEPRECATED)), Lookup(Enrich(dp, ctx).value, "releaseStatus"), RELEASE_STATUSES);
  }

  /** 'deprecated' is a release status, and no release status is the empty string. */
  lemma ReleaseStatusesTruthy(v: Json)
    ensures IsOneOf(Str("deprecated"), RELEASE_STATUSES) && (IsOneOf(v, RELEASE_STATUSES) ==> Truthy(v))
  {
  }

  /** A valid status from the block wins; the shorthand only fills a status left falsy. */
  lemma StatusPrecedence(onBlock: bool, fromBlock: Json, before: Json, afterBlock: Json,
                         deprecated: bool, result: Json, allowed: seq<string>)
    requires afterBlock == if onBlock && IsOneOf(fromBlock, allowed) then fromBlock else before
    requires IsOneOf(Str("deprecated"), allowed) && (IsOneOf(fromBlock, allowed) ==> Truthy(fromBlock))
    requires result == if !Truthy(afterBlock) && deprecated then Str("deprecated") else afterBlock
    ensures onBlock && IsOneOf(fromBlock, allowed) ==> result == fromBlock
    ensures Truthy(before) && !(onBlock && IsOneOf(fromBlock, allowed)) ==> result == before
    ensures !Truthy(before) && !(onBlock && IsOneOf(fromBlock, allowed)) && deprecated ==> result == Str("deprecated")
    ensures result == before || IsOneOf(result, allowed)
  {
  }

  /**
   * `@ORD.deprecated` on a service whose record has no release status yet,
   * and whose lifecycle block sets none, gives 'deprecated'; a string value
   * also sets the deprecation date to what the date check returns, null
   * included.
   */
  lemma EnrichDeprecated(dp: Object, ctx: Context)
    requires Enrich(dp, ctx).Ok? && ServiceOf(ctx, dp).Ok? && Truthy(ServiceOf(ctx, dp).value)
    requires var service := ServiceOf(ctx, dp).value;
             var lifecycle := Get(service, ANN_LIFECYCLE);
             Truthy(Get(service, ANN_DEPRECATED)) && !Truthy(Lookup(dp, "releaseStatus")) &&
             !(Truthy(lifecycle) && IsOneOf(Get(lifecycle, "releaseStatus"), RELEASE_STATUSES))
    ensures Lookup(Enrich(dp, ctx).value, "releaseStatus") == Str("deprecated")
    ensures var deprecated := Get(ServiceOf(ctx, dp).value, ANN_DEPRECATED);
            deprecated.Str? ==> Lookup(Enrich(dp, ctx).value, "deprecationDate") == DateValue(ctx, deprecated)
  {
    var service := ServiceOf(ctx, dp).value;
    var lifecycle := Get(service, ANN_LIFECYCLE);
    var status := Get(lifecycle, "releaseStatus");
    EnrichIs(dp, ctx);
    var r := AfterBlock(dp, service, ctx).value;
    assert Lookup(r, "releaseStatus") ==
             if Truthy(lifecycle) && IsOneOf(status, RELEASE_STATUSES) then status else Lookup(dp, "releaseStatus") by {
      if Truthy(lifecycle) {
        BlockStatuses(dp, lifecycle, ctx);
      }
    }
    ShorthandsReleaseStatus(r, service, ctx);
    ReleaseStatusesTruthy(status);
    StatusPrecedence(Truthy(lifecycle), status, Lookup(dp, "releaseStatus"), Lookup(r, "releaseStatus"),
                     Truthy(Get(service, ANN_DEPRECATED)), Lookup(Enrich(dp, ctx).value, "releaseStatus"), RELEASE_STATUSES);
  }

  /** The lifecycle status is the old one or one of the lifecycle statuses. */
  lemma EnrichLifecycleStatus(dp: Object, ctx: Context)
    requires Enrich(dp, ctx).Ok? && ServiceOf(ctx, dp).Ok? && Truthy(ServiceOf(ctx, dp).value)
    ensures var status := Lookup(Enrich(dp, ctx).value, "lifecycleStatus");
            status == Lookup(dp, "lifecycleStatus") || IsOneOf(status, LIFECYCLE_STATUSES)
  {
    var service := ServiceOf(ctx, dp).value;
    var lifecycle := Get(service, ANN_LIFECYCLE);
    EnrichIs(dp, ctx);
    var r := AfterBlock(dp, service, ctx).value;
    ShorthandsKeep(r, service, ctx, "lifecycleStatus");
    if Truthy(lifecycle) {
      BlockStatuses(dp, lifecycle, ctx);
    }
  }

  /**
   * Successors from the block's array are its strings; `@ORD.successor`
   * applies only when no successors are set after the block.
   */
  lemma EnrichSuccessors(dp: Object, ctx: Context)
    requires Enrich(dp, ctx).Ok? && ServiceOf(ctx, dp).Ok? && Truthy(ServiceOf(ctx, dp).value)
    ensures var lifecycle := Get(ServiceOf(ctx, dp).value, ANN_LIFECYCLE);
            Truthy(lifecycle) && Get(lifecycle, "successors").Arr? ==>
              Lookup(Enrich(dp, ctx).value, "successors") == Arr(StringsOnly(Get(lifecycle, "successors").items))
    ensures var service := ServiceOf(ctx, dp).value;
            var lifecycle := Get(service, ANN_LIFECYCLE);
            !(Truthy(lifecycle) && Get(lifecycle, "successors").Arr?) && !Truthy(Lookup(dp, "successors")) &&
            Truthy(Get(service, ANN_SUCCESSOR)) ==>
              Lookup(Enrich(dp, ctx).value, "successors") == Arr(AsList(Get(service, ANN_SUCCESSOR)))
  {
    var service := ServiceOf(ctx, dp).value;
    var lifecycle := Get(service, ANN_LIFECYCLE);
    EnrichIs(dp, ctx);
    var r := AfterBlock(dp, service, ctx).value;
    if Truthy(lifecycle) && Get(lifecycle, "successors").Arr? {
      SuccessorsFromBlock(dp, service, ctx, r);
    } else if !Truthy(Lookup(dp, "successors")) && Truthy(Get(service, ANN_SUCCESSOR)) {
      SuccessorFromShorthand(dp, service, ctx, r);
    }
  }

  /** Successors from the block win over the shorthand. */
  lemma SuccessorsFromBlock(dp: Object, service: Json, ctx: Context, r: Object)
    requires AfterBlock(dp, service, ctx) == Ok(r)
    requires Truthy(Get(service, ANN_LIFECYCLE)) && Get(Get(service, ANN_LIFECYCLE), "successors").Arr?
    ensures var lifecycle := Get(service, ANN_LIFECYCLE);
            Lookup(Shorthands(r, service, ctx), "successors") == Arr(StringsOnly(Get(lifecycle, "successors").items))
  {
    var lifecycle := Get(service, ANN_LIFECYCLE);
    assert Lookup(r, "successors") == Arr(StringsOnly(Get(lifecycle, "successors").items)) by {
      BlockSuccessors(dp, lifecycle, ctx);
    }
    ShorthandsSuccessors(r, service, ctx);
  }

  /** Without successors from the block, the shorthand fills a record that has none. */
  lemma SuccessorFromShorthand(dp: Object, service: Json, ctx: Context, r: Object)
    requires AfterBlock(dp, service, ctx) == Ok(r)
    requires !(Truthy(Get(service, ANN_LIFECYCLE)) && Get(Get(service, ANN_LIFECYCLE), "successors").Arr?)
    requires !Truthy(Lookup(dp, "successors")) && Truthy(Get(service, ANN_SUCCESSOR))
    ensures Lookup(Shorthands(r, service, ctx), "successors") == Arr(AsList(Get(service, ANN_SUCCESSOR)))
  {
    var lifecycle := Get(service, ANN_LIFECYCLE);
    if Truthy(lifecycle) {
      BlockSuccessors(dp, lifecycle, ctx);
    }
    assert Lookup(r, "successors") == Lookup(dp, "successors");
    ShorthandsSuccessors(r, service, ctx);
  }
}
