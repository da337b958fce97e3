/**
 * The stage chain (lib/dataProducts/processors/BaseProcessor.js and
 * lib/dataProducts/processors/processor.js): each stage object holds a
 * link to its successor; `handle` runs the stage's `process` and hands the
 * result to the successor, and the chain object builds the nine stages in
 * their fixed order and starts them from the empty list.
 */
module Chain {
  import opened Js
  import opened Csn
  import Defaults
  import Annotations
  import Lifecycle
  import Taxonomy
  import EntityTypes
  import InputPorts
  import Links
  import Governance
  import CustomOrd

  /** Which `process` a stage object runs; `Base` is the abstract base class. */
  datatype StageKind =
    | Base
    | DefaultsStage
    | AnnotationsStage
    | LifecycleStage
    | TaxonomyStage
    | EntityTypesStage
    | InputPortsStage
    | DataProductLinksStage
    | GovernanceStage
    | CustomOrdStage

  /** The stages `buildChain` links, in order. */
  const PIPELINE: seq<StageKind> := [DefaultsStage, AnnotationsStage, LifecycleStage, TaxonomyStage,
                                     EntityTypesStage, InputPortsStage, DataProductLinksStage, GovernanceStage, CustomOrdStage]

  const ABSTRACT_PROCESS_MESSAGE := "Process method must be implemented by subclass"

  /**
   * The stage's `process`. The override document is the one the override
   * stage loads, carried in the context.
   */
  function StageProcess(kind: StageKind, records: seq<Object>, ctx: Context): Result<seq<Object>>
  {
    match kind
    case Base => Err(Thrown(ABSTRACT_PROCESS_MESSAGE))
    case DefaultsStage => Defaults.Process(records, ctx)
    case AnnotationsStage => Ok(Annotations.Process(records, ctx))
    case LifecycleStage => Ok(Lifecycle.Process(records, ctx))
    case TaxonomyStage => Ok(Taxonomy.Process(records, ctx))
    case EntityTypesStage => Ok(EntityTypes.Process(records, ctx))
    case InputPortsStage => Ok(InputPorts.Process(records, ctx))
    case DataProductLinksStage => Ok(Links.Process(records, ctx))
    case GovernanceStage => Ok(Governance.Process(records, ctx))
    case CustomOrdStage => CustomOrd.Process(records, ctx.customConfig)
  }

  /** The stages run one after the other, the first exception ending the run. */
  function Run(kinds: seq<StageKind>, records: seq<Object>, ctx: Context): Result<seq<Object>>
  {
    if kinds == [] then Ok(records)
    else
      var result :- StageProcess(kinds[0], records, ctx);
      Run(kinds[1..], result, ctx)
  }

  /** `new DataProductProcessorChain().process(context)`: the whole chain from the empty list. */
  function Pipeline(ctx: Context): Result<seq<Object>>
  {
    Run(PIPELINE, [], ctx)
  }

  class Stage {
    const kind: StageKind
    var next: Stage?

    /** A fresh stage has no successor. */
    constructor(kind: StageKind)
      ensures this.kind == kind && next == null
    {
      this.kind := kind;
      next := null;
    }

    /** `setNext(processor)`: stores the successor and returns it, so calls chain. */
    method SetNext(processor: Stage) returns (r: Stage)
      modifies this
      ensures next == processor && r == processor
    {
      next := processor;
      r := processor;
    }

    /**
     * `handle(dataProducts, context)`: this stage's `process`, then the
     * successor's `handle` on its result; an exception from either is
     * rethrown as it is.
     */
    method Handle(records: seq<Object>, ctx: Context, ghost stages: seq<Stage>) returns (r: Result<seq<Object>>)
      requires |stages| > 0 && stages[0] == this && Linked(stages)
      ensures r == Run(Kinds(stages), records, ctx)
      decreases |stages|
    {
      var result := StageProcess(kind, records, ctx);
      if result.Err? {
        return Err(result.error);
      }
      if |stages| > 1 {
        assert stages[0].next == stages[1];
      }
      if next != null {
        assert |stages| > 1 && next == stages[1];
        assert Kinds(stages)[1..] == Kinds(stages[1..]);
        r := next.Handle(result.value, ctx, stages[1..]);
      } else {
        assert |stages| == 1;
        assert Kinds(stages) == [kind];
        r := result;
      }
    }
  }

  /** `stages` is a chain: each stage's successor is the next one, and the last has none. */
  ghost predicate Linked(stages: seq<Stage>)
    reads stages
  {
    |stages| > 0 &&
    (forall i :: 0 <= i < |stages| - 1 ==> stages[i].next == stages[i + 1]) &&
    stages[|stages| - 1].next == null
  }

  ghost function Kinds(stages: seq<Stage>): (ks: seq<StageKind>)
    ensures |ks| == |stages|
    ensures forall i :: 0 <= i < |stages| ==> ks[i] == stages[i].kind
  {
    seq(|stages|, i requires 0 <= i < |stages| => stages[i].kind)
  }

  /** `buildChain()`: nine fresh stages linked in the fixed order; the first is returned. */
  method BuildChain() returns (head: Stage, ghost stages: seq<Stage>)
    ensures |stages| == |PIPELINE| && stages[0] == head && Linked(stages) && Kinds(stages) == PIPELINE
    ensures forall s :: s in stages ==> fresh(s)
  {
    var defaults := new Stage(DefaultsStage);
    var annotations := new Stage(AnnotationsStage);
    var lifecycle := new Stage(LifecycleStage);
    var taxonomy := new Stage(TaxonomyStage);
    var entityTypes := new Stage(EntityTypesStage);
    var inputPorts := new Stage(InputPortsStage);
    var links := new Stage(DataProductLinksStage);
    var governance := new Stage(GovernanceStage);
    var customOrd := new Stage(CustomOrdStage);
    stages := [defaults, annotations, lifecycle, taxonomy, entityTypes, inputPorts, links, governance, customOrd];
    assert forall s :: s in stages ==> fresh(s);
    assert defaults != annotations && annotations != lifecycle && lifecycle != taxonomy && taxonomy != entityTypes;
    assert entityTypes != inputPorts && inputPorts != links && links != governance && governance != customOrd;
    var last := defaults.SetNext(annotations);
    last := last.SetNext(lifecycle);
    last := last.SetNext(taxonomy);
    last := last.SetNext(entityTypes);
    last := last.SetNext(inputPorts);
    last := last.SetNext(links);
    last := last.SetNext(governance);
    last := last.SetNext(customOrd);
    head := defaults;
    assert defaults.next == annotations && annotations.next == lifecycle && lifecycle.next == taxonomy;
    assert taxonomy.next == entityTypes && entityTypes.next == inputPorts && inputPorts.next == links;
    assert links.next == governance && governance.next == customOrd && customOrd.next == null;
    NineKinds(defaults, annotations, lifecycle, taxonomy, entityTypes, inputPorts, links, governance, customOrd);
    NineLinked(defaults, annotations, lifecycle, taxonomy, entityTypes, inputPorts, links, governance, customOrd);
  }

  /** Nine stages of the pipeline's kinds, in its order. */
  lemma NineKinds(s0: Stage, s1: Stage, s2: Stage, s3: Stage, s4: Stage, s5: Stage, s6: Stage, s7: Stage, s8: Stage)
    requires s0.kind == DefaultsStage && s1.kind == AnnotationsStage && s2.kind == LifecycleStage
    requires s3.kind == TaxonomyStage && s4.kind == EntityTypesStage && s5.kind == InputPortsStage
    requires s6.kind == DataProductLinksStage && s7.kind == GovernanceStage && s8.kind == CustomOrdStage
    ensures Kinds([s0, s1, s2, s3, s4, s5, s6, s7, s8]) == PIPELINE
  {
  }

  /** Nine stages each pointing to the following one form a chain. */
  lemma NineLinked(s0: Stage, s1: Stage, s2: Stage, s3: Stage, s4: Stage, s5: Stage, s6: Stage, s7: Stage, s8: Stage)
    requires s0.next == s1 && s1.next == s2 && s2.next == s3 && s3.next == s4 && s4.next == s5
    requires s5.next == s6 && s6.next == s7 && s7.next == s8 && s8.next == null
    ensures Linked([s0, s1, s2, s3, s4, s5, s6, s7, s8])
  {
  }

  /** `DataProductProcessorChain`: the head of its own chain. */
  class ProcessorChain {
    var chain: Stage
    ghost var stages: seq<Stage>

    ghost predicate Valid()
      reads this, stages
    {
      |stages| == |PIPELINE| && stages[0] == chain && Linked(stages) && Kinds(stages) == PIPELINE
    }

    constructor()
      ensures Valid()
      ensures forall s :: s in stages ==> fresh(s)
    {
      var head: Stage;
      ghost var built: seq<Stage>;
      head, built := BuildChain();
      chain := head;
      stages := built;
    }

    /** `process(context)`: the chain handles the empty list; its result or its exception is the run's. */
    method Process(ctx: Context) returns (r: Result<seq<Object>>)
      requires Valid()
      ensures r == Pipeline(ctx)
    {
      r := chain.Handle([], ctx, stages);
    }
  }

  /** `createDataProductProcessor()`: a new chain object with stage objects of its own. */
  method CreateDataProductProcessor() returns (p: ProcessorChain)
    ensures fresh(p) && p.Valid()
    ensures forall s :: s in p.stages ==> fresh(s)
  {
    p := new ProcessorChain();
  }

  // ---------------------------------------------------------------------------
  // Properties of the run
  // ---------------------------------------------------------------------------

  /** Running two chains one after the other is running the joined chain. */
  lemma {:induction false} RunAppend(a: seq<StageKind>, b: seq<StageKind>, records: seq<Object>, ctx: Context)
    ensures Run(a + b, records, ctx) ==
              match Run(a, records, ctx)
              case Err(e) => Err(e)
              case Ok(mid) => Run(b, mid, ctx)
    decreases |a|
  {
    if a == [] {
      assert a + b == b;
    } else {
      assert (a + b)[1..] == a[1..] + b;
      var first := StageProcess(a[0], records, ctx);
      if first.Ok? {
        RunAppend(a[1..], b, first.value, ctx);
      }
    }
  }

  /** A chain holding the abstract base stage always throws its message, or an earlier stage's exception. */
  lemma {:induction false} BaseStageThrows(kinds: seq<StageKind>, records: seq<Object>, ctx: Context)
    requires Base in kinds
    ensures Run(kinds, records, ctx).Err?
    decreases |kinds|
  {
    if kinds[0] != Base {
      var first := StageProcess(kinds[0], records, ctx);
      if first.Ok? {
        BaseStageThrows(kinds[1..], first.value, ctx);
      }
    }
  }

  /**
   * The first stage ignores the empty list it is given: when it throws (a
   * model without definitions, a null model among them) the run throws
   * the same exception.
   */
  lemma DefaultsFailureEndsRun(ctx: Context)
    requires Defaults.Process([], ctx).Err?
    ensures Pipeline(ctx) == Err(Defaults.Process([], ctx).error)
  {
  }

  /** A null or undefined model makes the run throw a TypeError. */
  lemma NullModelFails(ctx: Context)
    requires IsNullish(ctx.csn)
    ensures Pipeline(ctx) == Err(TypeError)
  {
    DefaultsFailureEndsRun(ctx);
  }

  /** The stages after the first keep the number of records. */
  lemma {:induction false} LaterStagesKeepCount(kinds: seq<StageKind>, records: seq<Object>, ctx: Context)
    requires forall i :: 0 <= i < |kinds| ==> kinds[i] != Base && kinds[i] != DefaultsStage
    ensures Run(kinds, records, ctx).Ok? ==> |Run(kinds, records, ctx).value| == |records|
    decreases |kinds|
  {
    if kinds != [] {
      var first := StageProcess(kinds[0], records, ctx);
      if first.Ok? {
        assert |first.value| == |records|;
        LaterStagesKeepCount(kinds[1..], first.value, ctx);
      }
    }
  }

  /**
   * A run that completes yields exactly one record per service definition
   * of the model: every stage after the first maps over the records, and
   * the override merge never adds one.
   */
  lemma PipelineCount(ctx: Context)
    ensures Pipeline(ctx).Ok? ==>
              Defaults.Process([], ctx).Ok? &&
              |Pipeline(ctx).value| == |Defaults.ServiceNames(Definitions(ctx.csn).value)|
  {
    if Pipeline(ctx).Ok? {
      RunAppend([DefaultsStage], PIPELINE[1..], [], ctx);
      assert [DefaultsStage] + PIPELINE[1..] == PIPELINE;
      var first := Defaults.Process([], ctx);
      assert Run([DefaultsStage], [], ctx) == first by {
        assert [DefaultsStage][1..] == [];
      }
      Defaults.ProcessYieldsServices([], ctx);
      LaterStagesKeepCount(PIPELINE[1..], first.value, ctx);
    }
  }

  // ---------------------------------------------------------------------------
  // The chain as written: three stages are `async`
  // ---------------------------------------------------------------------------

  /**
   * What a stage hands to its successor: a plain array, or the Promise an
   * `async process` returns, with the outcome it settles to.
   */
  datatype Flow = Plain(records: seq<Object>) | Promise(outcome: Result<seq<Object>>)

  /** The stages whose `process` is declared `async`. */
  predicate IsAsync(kind: StageKind)
  {
    kind == DefaultsStage || kind == AnnotationsStage || kind == CustomOrdStage
  }

  /**
   * One stage's `process` as written. An `async` stage never throws: its
   * exception becomes the rejection of the Promise it returns. Given a
   * Promise instead of an array, the first stage ignores it; the
   * annotation stage calls `map` on it and rejects; the override stage
   * returns it when there are no overrides and otherwise rejects inside
   * the merge; every synchronous stage calls `map` on it and throws.
   */
  function StageAsWritten(kind: StageKind, input: Flow, ctx: Context): (r: Result<Flow>)
    ensures IsAsync(kind) ==> r.Ok? && r.value.Promise?
    ensures !IsAsync(kind) && input.Promise? ==> r.Err?
  {
    match input
    case Plain(records) =>
      if IsAsync(kind) then Ok(Promise(StageProcess(kind, records, ctx)))
      else
        var result :- StageProcess(kind, records, ctx);
        Ok(Plain(result))
    case Promise(outcome) =>
      match kind
      case Base => Err(Thrown(ABSTRACT_PROCESS_MESSAGE))
      case DefaultsStage => Ok(Promise(Defaults.Process([], ctx)))
      case AnnotationsStage => Ok(Promise(Err(TypeError)))
      case CustomOrdStage =>
        if CustomOrd.NoOverrides(ctx.customConfig) then Ok(Promise(outcome)) else Ok(Promise(Err(TypeError)))
      case _ => Err(TypeError)
  }

  /** `handle` as written: each stage's return value, Promise or not, goes to the next. */
  function RunAsWritten(kinds: seq<StageKind>, input: Flow, ctx: Context): Result<Flow>
  {
    if kinds == [] then Ok(input)
    else
      var result :- StageAsWritten(kinds[0], input, ctx);
      RunAsWritten(kinds[1..], result, ctx)
  }

  /**
   * As written, the chain throws a TypeError for every model: the first
   * stage returns a Promise, the annotation stage returns another, and the
   * lifecycle stage calls `map` on it.
   */
  lemma AsyncChainThrows(ctx: Context)
    ensures RunAsWritten(PIPELINE, Plain([]), ctx) == Err(TypeError)
  {
    var afterDefaults := StageAsWritten(DefaultsStage, Plain([]), ctx).value;
    var afterAnnotations := StageAsWritten(AnnotationsStage, afterDefaults, ctx).value;
    var rest := PIPELINE[2..];
    assert rest[0] == LifecycleStage;
    assert RunAsWritten(rest, afterAnnotations, ctx) == Err(TypeError);
    assert PIPELINE[1..][1..] == rest;
    assert RunAsWritten(PIPELINE[1..], afterDefaults, ctx) == RunAsWritten(rest, afterAnnotations, ctx);
  }

  /**
   * On synchronous stages the run as written is the run of `Run`, the one
   * the rest of the model uses (every `process` awaited before its result
   * is handed on).
   */
  lemma {:induction false} SyncStagesAgree(kinds: seq<StageKind>, records: seq<Object>, ctx: Context)
    requires forall i :: 0 <= i < |kinds| ==> !IsAsync(kinds[i])
    ensures RunAsWritten(kinds, Plain(records), ctx) ==
              match Run(kinds, records, ctx)
              case Err(e) => Err(e)
              case Ok(out) => Ok(Plain(out))
    decreases |kinds|
  {
    if kinds != [] {
      var first := StageProcess(kinds[0], records, ctx);
      if first.Ok? {
        SyncStagesAgree(kinds[1..], first.value, ctx);
      }
    }
  }
}
