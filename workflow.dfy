/** The structure-review workflow of workflow.py (`PresenterWorkflow`).

    The llama_index runtime routes each event to the one step that accepts
    its type; here that routing is the pure function `Step` over the
    `Event` datatype, and the runtime's loop is the driver method
    `PresenterWorkflow.Run`, specified by the recursive function `Execute`.
    The three structure collaborators are opaque functions held in
    `Agents`; every call made to them is recorded as a `Call`, so that the
    model can say how often, and with what, each one is called. */
module Workflow {
  import opened Models

  /** The per-run `Context`: keyed values shared by the steps. */
  type Context = map<string, string>

  const TopicKey := "topic"

  /** The events of workflow.py, plus llama_index's `StartEvent` (whose
      `query` is the topic passed to `run`) and `StopEvent`. */
  datatype Event =
    | StartEvent(query: string)
    | StructureRequestReceived(topic: string)
    | ValidateStructureRequestReceived(structure: PresentationStructure)
    | UpdateStructureRequestReceived(structure: PresentationStructure, feedback: StructureFeedback)
    | StructureFinalized(structure: PresentationStructure)
    | SlideCreated(slideIndex: int, content: string, narration: string)
    | StopEvent(result: PresentationStructure)

  /** The structure creator, validator and updater: calls into a language
      model whose behaviour is not modelled. */
  datatype Agents = Agents(
    create: string -> PresentationStructure,
    validate: (string, PresentationStructure) -> StructureFeedback,
    update: (string, PresentationStructure, StructureFeedback) -> PresentationStructure)

  /** One call made to a collaborator, with its arguments. */
  datatype Call =
    | CreateCall(topic: string)
    | ValidateCall(topic: string, structure: PresentationStructure)
    | UpdateCall(topic: string, structure: PresentationStructure, feedback: StructureFeedback)

  datatype CallKind = Creating | Validating | Updating

  function Kind(c: Call): CallKind {
    match c
    case CreateCall(_) => Creating
    case ValidateCall(_, _) => Validating
    case UpdateCall(_, _, _) => Updating
  }

  /** The stage of the step that makes calls of kind `k`. */
  function KindStage(k: CallKind): nat {
    match k
    case Creating => 4
    case Validating => 3
    case Updating => 2
  }

  /** How many of `calls` are of kind `k`. */
  function Count(calls: seq<Call>, k: CallKind): nat {
    if |calls| == 0 then 0 else (if Kind(calls[0]) == k then 1 else 0) + Count(calls[1..], k)
  }

  lemma {:induction false} CountAppend(a: seq<Call>, b: seq<Call>, k: CallKind)
    ensures Count(a + b, k) == Count(a, k) + Count(b, k)
  {
    if |a| == 0 {
      assert a + b == b;
    } else {
      assert (a + b)[1..] == a[1..] + b;
      CountAppend(a[1..], b, k);
    }
  }

  /** The calls of one step followed by those of the rest of the run: a
      kind is counted once more only when the step is the one for it. */
  lemma StepCount(calls: seq<Call>, rest: seq<Call>, k: CallKind)
    requires |calls| <= 1
    ensures Count(calls + rest, k)
         == Count(rest, k) + (if |calls| == 1 && Kind(calls[0]) == k then 1 else 0)
  {
    CountAppend(calls, rest, k);
    if |calls| == 1 {
      assert calls[1..] == [];
    }
  }

  /** What makes a step fail: `ctx.get` of an absent key raises, and an
      event that no step accepts cannot be dispatched. */
  datatype StepError = MissingKey(key: string) | NoStepAccepts(ev: Event)

  /** A step either emits its next event, with the context afterwards and
      the collaborator calls it made, or fails. */
  datatype StepResult =
    | Emit(next: Event, ctx: Context, calls: seq<Call>)
    | Fail(error: StepError)

  /** The most steps that can still follow `ev` before the stop event. */
  function Stage(ev: Event): nat {
    match ev
    case StartEvent(_) => 5
    case StructureRequestReceived(_) => 4
    case ValidateStructureRequestReceived(_) => 3
    case UpdateStructureRequestReceived(_, _) => 2
    case StructureFinalized(_) => 1
    case SlideCreated(_, _, _) => 0
    case StopEvent(_) => 0
  }

  /** The step of `PresenterWorkflow` that accepts `ev`. Every step moves
      strictly forward (nothing routes back to validation), only `start`
      writes the context, each step calls at most one collaborator, the
      validator and updater get the topic read back from the context, and
      a step fails exactly when the topic is missing or no step accepts `ev`
      (the collaborators are total functions, so their exceptions are not
      modelled). */
  function Step(agents: Agents, ctx: Context, ev: Event): (r: StepResult)
    ensures r.Emit? ==> Stage(r.next) < Stage(ev)
    ensures r.Emit? && !ev.StartEvent? ==> r.ctx == ctx
    ensures r.Emit? ==> |r.calls| <= 1
    ensures r.Emit? && |r.calls| == 1 ==> KindStage(Kind(r.calls[0])) == Stage(ev)
    ensures r.Emit? && |r.calls| == 1 && !ev.StructureRequestReceived? ==>
              TopicKey in ctx && r.calls[0].topic == ctx[TopicKey]
    ensures r.Fail? <==> ev.SlideCreated? || ev.StopEvent?
                         || ((ev.ValidateStructureRequestReceived? || ev.UpdateStructureRequestReceived?)
                             && TopicKey !in ctx)
  {
    match ev
    case StartEvent(query) =>
      Emit(StructureRequestReceived(query), ctx[TopicKey := query], [])
    case StructureRequestReceived(topic) =>
      Emit(ValidateStructureRequestReceived(agents.create(topic)), ctx, [CreateCall(topic)])
    case ValidateStructureRequestReceived(structure) =>
      if TopicKey !in ctx then Fail(MissingKey(TopicKey))
      else
        var topic := ctx[TopicKey];
        var feedback := agents.validate(topic, structure);
        var call := [ValidateCall(topic, structure)];
        if feedback.isPerfect then Emit(StructureFinalized(structure), ctx, call)
        else Emit(UpdateStructureRequestReceived(structure, feedback), ctx, call)
    case UpdateStructureRequestReceived(structure, feedback) =>
      if TopicKey !in ctx then Fail(MissingKey(TopicKey))
      else
        var topic := ctx[TopicKey];
        Emit(StructureFinalized(agents.update(topic, structure, feedback)), ctx,
             [UpdateCall(topic, structure, feedback)])
    case StructureFinalized(structure) =>
      Emit(StopEvent(structure), ctx, [])
    case SlideCreated(_, _, _) => Fail(NoStepAccepts(ev))
    case StopEvent(_) => Fail(NoStepAccepts(ev))
  }

  /** How a run ends: the stop event's result with the final context, or the
      error that aborted it; either way with the calls made. */
  datatype Outcome =
    | Finished(result: PresentationStructure, ctx: Context, calls: seq<Call>)
    | Aborted(error: StepError, calls: seq<Call>)

  /** `o`, preceded by the calls `earlier`. */
  function After(earlier: seq<Call>, o: Outcome): Outcome {
    match o
    case Finished(result, ctx, calls) => Finished(result, ctx, earlier + calls)
    case Aborted(error, calls) => Aborted(error, earlier + calls)
  }

  lemma AfterAfter(a: seq<Call>, b: seq<Call>, o: Outcome)
    ensures After(a, After(b, o)) == After(a + b, o)
  {
    assert a + (b + o.calls) == (a + b) + o.calls;
  }

  /** Executing from an event that a step accepts is taking that step and
      executing from the event it emits. */
  lemma ExecuteEmit(agents: Agents, ctx: Context, ev: Event)
    requires !ev.StopEvent? && Step(agents, ctx, ev).Emit?
    ensures var step := Step(agents, ctx, ev);
      Execute(agents, ctx, ev) == After(step.calls, Execute(agents, step.ctx, step.next))
  {
  }

  /** The runtime's dispatch loop: step from `ev` until the stop event.
      From any event and context, the creator, validator and updater are
      each called at most once, and not at all once the run is past them. */
  function Execute(agents: Agents, ctx: Context, ev: Event): (o: Outcome)
    ensures Count(o.calls, Creating) <= (if Stage(ev) >= 4 then 1 else 0)
    ensures Count(o.calls, Validating) <= (if Stage(ev) >= 3 then 1 else 0)
    ensures Count(o.calls, Updating) <= (if Stage(ev) >= 2 then 1 else 0)
    ensures o.Finished? && !ev.StartEvent? ==> o.ctx == ctx
    decreases Stage(ev)
  {
    if ev.StopEvent? then Finished(ev.result, ctx, [])
    else
      match Step(agents, ctx, ev)
      case Fail(error) => Aborted(error, [])
      case Emit(next, ctx', calls) =>
        var rest := Execute(agents, ctx', next);
        StepCount(calls, rest.calls, Creating);
        StepCount(calls, rest.calls, Validating);
        StepCount(calls, rest.calls, Updating);
        After(calls, rest)
  }

  /** The structure a run for `query` is meant to end with: the created
      structure if the validator finds it perfect, otherwise the single
      revision of it. */
  function Planned(agents: Agents, query: string): PresentationStructure {
    var initial := agents.create(query);
    var feedback := agents.validate(query, initial);
    if feedback.isPerfect then initial else agents.update(query, initial, feedback)
  }

  /** The collaborator calls a run for `query` should make, in order. */
  function PlannedCalls(agents: Agents, query: string): seq<Call> {
    var initial := agents.create(query);
    var feedback := agents.validate(query, initial);
    [CreateCall(query), ValidateCall(query, initial)]
      + (if feedback.isPerfect then [] else [UpdateCall(query, initial, feedback)])
  }

  /** A run started with `query` is not aborted (no step lacks the topic
      and every emitted event has a step), ends with the planned structure,
      leaves `topic` = `query` in the context, and makes exactly the planned
      calls. The collaborators are total here, so their exceptions are not
      part of this statement. */
  lemma RunFromStart(agents: Agents, ctx: Context, query: string)
    ensures Execute(agents, ctx, StartEvent(query))
         == Finished(Planned(agents, query), ctx[TopicKey := query], PlannedCalls(agents, query))
  {
    var c := ctx[TopicKey := query];
    var initial := agents.create(query);
    var feedback := agents.validate(query, initial);
    var final := Planned(agents, query);
    var validated := Execute(agents, c, ValidateStructureRequestReceived(initial));
    FinalizedStructureReturned(agents, c, final);
    if feedback.isPerfect {
      PerfectStructureFinalized(agents, c, initial);
      ExecuteEmit(agents, c, ValidateStructureRequestReceived(initial));
      assert validated == Finished(final, c, [ValidateCall(query, initial)]);
    } else {
      ImperfectStructureUpdated(agents, c, initial);
      UpdateFinalizes(agents, c, initial, feedback);
      ExecuteEmit(agents, c, UpdateStructureRequestReceived(initial, feedback));
      ExecuteEmit(agents, c, ValidateStructureRequestReceived(initial));
      AfterAfter([ValidateCall(query, initial)], [UpdateCall(query, initial, feedback)], Finished(final, c, []));
      assert validated == Finished(final, c, [ValidateCall(query, initial), UpdateCall(query, initial, feedback)]);
    }
    CreateRequestsValidation(agents, c, query);
    ExecuteEmit(agents, c, StructureRequestReceived(query));
    assert [CreateCall(query)] + validated.calls == PlannedCalls(agents, query);
    StartRecordsTopic(agents, ctx, query);
    ExecuteEmit(agents, ctx, StartEvent(query));
  }

  /** One revision round at most: in a run the creator and the validator are
      called exactly once, the updater once exactly when the validator
      rejects the structure; the validator only ever sees the created
      structure, never the revised one; and every call gets the run's topic. */
  lemma RevisionBound(agents: Agents, ctx: Context, query: string)
    ensures var o := Execute(agents, ctx, StartEvent(query));
      && o.Finished?
      && Count(o.calls, Creating) == 1
      && Count(o.calls, Validating) == 1
      && Count(o.calls, Updating) == (if agents.validate(query, agents.create(query)).isPerfect then 0 else 1)
      && (forall i :: 0 <= i < |o.calls| && o.calls[i].ValidateCall? ==>
            o.calls[i].structure == agents.create(query))
      && (forall i :: 0 <= i < |o.calls| ==> o.calls[i].topic == query)
  {
    RunFromStart(agents, ctx, query);
    var calls := PlannedCalls(agents, query);
    var initial := agents.create(query);
    var feedback := agents.validate(query, initial);
    var tail := if feedback.isPerfect then [] else [UpdateCall(query, initial, feedback)];
    CountAppend([CreateCall(query), ValidateCall(query, initial)], tail, Creating);
    CountAppend([CreateCall(query), ValidateCall(query, initial)], tail, Validating);
    CountAppend([CreateCall(query), ValidateCall(query, initial)], tail, Updating);
  }

  /** `start` stores the query under `topic` and asks for a structure on it. */
  lemma StartRecordsTopic(agents: Agents, ctx: Context, query: string)
    ensures Step(agents, ctx, StartEvent(query))
         == Emit(StructureRequestReceived(query), ctx[TopicKey := query], [])
  {
  }

  /** The create step hands the creator's structure for the event's topic to validation. */
  lemma CreateRequestsValidation(agents: Agents, ctx: Context, topic: string)
    ensures Step(agents, ctx, StructureRequestReceived(topic))
         == Emit(ValidateStructureRequestReceived(agents.create(topic)), ctx, [CreateCall(topic)])
  {
  }

  /** A perfect verdict finalizes the structure unchanged. */
  lemma PerfectStructureFinalized(agents: Agents, ctx: Context, s: PresentationStructure)
    requires TopicKey in ctx && agents.validate(ctx[TopicKey], s).isPerfect
    ensures Step(agents, ctx, ValidateStructureRequestReceived(s))
         == Emit(StructureFinalized(s), ctx, [ValidateCall(ctx[TopicKey], s)])
  {
  }

  /** Any other verdict asks for an update, carrying the structure and the verdict. */
  lemma ImperfectStructureUpdated(agents: Agents, ctx: Context, s: PresentationStructure)
    requires TopicKey in ctx && !agents.validate(ctx[TopicKey], s).isPerfect
    ensures Step(agents, ctx, ValidateStructureRequestReceived(s))
         == Emit(UpdateStructureRequestReceived(s, agents.validate(ctx[TopicKey], s)), ctx,
                 [ValidateCall(ctx[TopicKey], s)])
  {
  }

  /** The update step finalizes the updater's result; it never goes back to validation. */
  lemma UpdateFinalizes(agents: Agents, ctx: Context, s: PresentationStructure, f: StructureFeedback)
    requires TopicKey in ctx
    ensures Step(agents, ctx, UpdateStructureRequestReceived(s, f))
         == Emit(StructureFinalized(agents.update(ctx[TopicKey], s, f)), ctx,
                 [UpdateCall(ctx[TopicKey], s, f)])
  {
  }

  /** Without a stored topic the validate and update steps raise. */
  lemma MissingTopicRaises(agents: Agents, ctx: Context, s: PresentationStructure, f: StructureFeedback)
    requires TopicKey !in ctx
    ensures Step(agents, ctx, ValidateStructureRequestReceived(s)) == Fail(MissingKey(TopicKey))
    ensures Step(agents, ctx, UpdateStructureRequestReceived(s, f)) == Fail(MissingKey(TopicKey))
  {
  }

  /** The terminal step stops with the finalized structure, unchanged. */
  lemma FinalizedStructureReturned(agents: Agents, ctx: Context, s: PresentationStructure)
    ensures Execute(agents, ctx, StructureFinalized(s)) == Finished(s, ctx, [])
  {
  }

  /** The workflow object: the context of the current run and, for the
      model's sake, the log of collaborator calls made in it. */
  class PresenterWorkflow {
    const agents: Agents
    var ctx: Context
    ghost var log: seq<Call>

    constructor (agents: Agents)
      ensures this.agents == agents && ctx == map[] && log == []
    {
      this.agents := agents;
      ctx := map[];
      log := [];
    }

    /** `workflow.run(query=topic)`: a fresh context, then steps dispatched
        from the start event until the stop event, whose result is returned. */
    method Run(query: string) returns (result: PresentationStructure)
      modifies this
      ensures result == Planned(agents, query)
      ensures ctx == map[TopicKey := query]
      ensures log == PlannedCalls(agents, query)
    {
      ctx := map[];
      log := [];
      var ev := StartEvent(query);
      while !ev.StopEvent?
        invariant Execute(agents, map[], StartEvent(query)) == After(log, Execute(agents, ctx, ev))
        decreases Stage(ev)
      {
        var step := Step(agents, ctx, ev);
        if step.Fail? {
          RunFromStart(agents, map[], query);
          assert false;
        }
        AfterAfter(log, step.calls, Execute(agents, step.ctx, step.next));
        ctx, ev := step.ctx, step.next;
        log := log + step.calls;
      }
      RunFromStart(agents, map[], query);
      assert log + [] == log;
      assert map[][TopicKey := query] == map[TopicKey := query];
      result := ev.result;
    }
  }
}
