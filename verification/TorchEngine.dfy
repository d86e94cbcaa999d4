/** A node's stage runtime: what is prepared, what is active, and one stage of a forward pass
    (backends/torch_layered_engine.py). Tensors are values of an arbitrary type H. */
module TorchEngine {
  import opened Types

  /** The numeric part of the model. A layer's weights depend only on its id, so a layer is a function of id and hidden state. */
  datatype Net<!H> = Net(embed: Prompt -> H, layer: (int, H) -> H, readout: (H, int) -> string)

  /** The activation handed from one stage to the next; the payload is the hidden state itself. */
  datatype Envelope<+H> = Envelope(
    requestId: string, epoch: int, stageIndex: int, layerRange: LayerRange,
    source: NodeId, destination: Option<NodeId>, payload: H)

  datatype Task<+H> = Task(
    taskId: nat, requestId: string, nodeId: NodeId, layerRange: Option<LayerRange>,
    prompt: Prompt, maxTokens: int, stageIndex: int, stageCount: int, epoch: int,
    activation: Option<Envelope<H>>, retries: int, kvBlockIds: seq<int>, progressTokens: int)

  datatype GenerationResult<+H> = GenerationResult(
    requestId: string, text: string, numTokens: int, stageIndex: int, activation: Envelope<H>)

  datatype PreparedStage = PreparedStage(assignment: StageAssignment, modelSource: string, layers: seq<int>)

  datatype EngineState = EngineState(totalLayers: int, prepared: map<int, PreparedStage>, active: Option<int>)

  datatype EngineError =
    | WrongNode
    | InvalidRange(range: LayerRange)
    | NotPrepared(epoch: int)
    | NotActive(epoch: int, active: Option<int>)
    | RangeMismatch(asked: Option<LayerRange>, prepared: LayerRange)
    | MissingActivation
    | ForeignRequest
    | ForeignEpoch
    | WrongDestination

  // ---------------------------------------------------------------- running layers

  /** Applies the listed layers, first to last. */
  function RunLayers<H>(net: Net<H>, ids: seq<int>, h: H): H {
    if ids == [] then h
    else (net.layer)(ids[|ids| - 1], RunLayers(net, ids[..|ids| - 1], h))
  }

  function LayerIds(start: int, end: int): (ids: seq<int>) {
    if end <= start then [] else seq(end - start, i requires 0 <= i < end - start => start + i)
  }

  /** The whole model on one machine. */
  function WholeModel<H>(net: Net<H>, numLayers: int, prompt: Prompt): H {
    RunLayers(net, LayerIds(0, numLayers), (net.embed)(prompt))
  }

  lemma {:induction false} RunLayersAppend<H>(net: Net<H>, a: seq<int>, b: seq<int>, h: H)
    ensures RunLayers(net, a + b, h) == RunLayers(net, b, RunLayers(net, a, h))
  {
    if b == [] {
      assert a + b == a;
    } else {
      RunLayersAppend(net, a, b[..|b| - 1], h);
      assert (a + b)[..|a + b| - 1] == a + b[..|b| - 1];
    }
  }

  /** One layer is applied once; with RunLayersAppend this says what any list of layers does. */
  lemma OneLayerOnce<H>(net: Net<H>, id: int, h: H)
    ensures RunLayers(net, [id], h) == (net.layer)(id, h) && RunLayers(net, [], h) == h
  {
    assert [id][..0] == [];
  }

  /** The ids of a range are its layers, each once, in rising order. */
  lemma LayerIdsRise(start: int, end: int)
    ensures forall k :: k in LayerIds(start, end) <==> start <= k < end
    ensures forall i, j :: 0 <= i < j < |LayerIds(start, end)| ==> LayerIds(start, end)[i] < LayerIds(start, end)[j]
  {
    forall k | start <= k < end
      ensures k in LayerIds(start, end)
    {
      assert LayerIds(start, end)[k - start] == k;
    }
  }

  // ---------------------------------------------------------------- the runtime as a value

  predicate RangeFits(s: EngineState, r: LayerRange) {
    0 <= r.start < r.end <= s.totalLayers
  }

  function PrepareResult(nodeId: NodeId, s: EngineState, a: StageAssignment, modelSource: string)
    : Result<EngineState, EngineError>
  {
    if a.nodeId != nodeId then Failure(WrongNode)
    else if !RangeFits(s, a.layerRange) then Failure(InvalidRange(a.layerRange))
    else
      var stage := PreparedStage(a, modelSource, LayerIds(a.layerRange.start, a.layerRange.end));
      Success(s.(prepared := s.prepared[a.epoch := stage]))
  }

  function ActivateResult(s: EngineState, epoch: int): Result<EngineState, EngineError> {
    if epoch !in s.prepared then Failure(NotPrepared(epoch)) else Success(s.(active := Some(epoch)))
  }

  function RetireResult(s: EngineState, epoch: int): EngineState {
    s.(active := if s.active == Some(epoch) then None else s.active, prepared := s.prepared - {epoch})
  }

  /** The checks a stage makes before it touches a hidden state. */
  function TaskError<H>(nodeId: NodeId, s: EngineState, t: Task<H>): Option<EngineError> {
    if t.epoch !in s.prepared then Some(NotPrepared(t.epoch))
    else if s.active != Some(t.epoch) then Some(NotActive(t.epoch, s.active))
    else if Some(s.prepared[t.epoch].assignment.layerRange) != t.layerRange then
      Some(RangeMismatch(t.layerRange, s.prepared[t.epoch].assignment.layerRange))
    else if t.stageIndex == 0 then None
    else if t.activation.None? then Some(MissingActivation)
    else if t.activation.value.requestId != t.requestId then Some(ForeignRequest)
    else if t.activation.value.epoch != t.epoch then Some(ForeignEpoch)
    else if t.activation.value.destination != Some(nodeId) then Some(WrongDestination)
    else None
  }

  function StageInput<H>(net: Net<H>, t: Task<H>): H
    requires t.stageIndex == 0 || t.activation.Some?
  {
    if t.stageIndex == 0 then (net.embed)(t.prompt) else t.activation.value.payload
  }

  function GenerateResult<H>(net: Net<H>, nodeId: NodeId, s: EngineState, t: Task<H>)
    : Result<GenerationResult<H>, EngineError>
  {
    var e := TaskError(nodeId, s, t);
    if e.Some? then Failure(e.value)
    else
      var stage := s.prepared[t.epoch];
      Success(StageOutput(net, nodeId, t, stage.assignment.layerRange,
                          RunLayers(net, stage.layers, StageInput(net, t))))
  }

  function StageOutput<H>(net: Net<H>, nodeId: NodeId, t: Task<H>, r: LayerRange, hidden: H): GenerationResult<H> {
    var isFinal := t.stageIndex == t.stageCount - 1;
    GenerationResult(
      t.requestId,
      if isFinal then (net.readout)(hidden, t.maxTokens) else "",
      if !isFinal then 0 else if t.maxTokens > 1 then t.maxTokens else 1,
      t.stageIndex,
      Envelope(t.requestId, t.epoch, t.stageIndex, r, nodeId, None, hidden))
  }

  // ---------------------------------------------------------------- what stays true on a node

  /** Whatever is prepared is a real range of the model with exactly its layers; only prepared epochs are active. */
  ghost predicate EngineOk(nodeId: NodeId, s: EngineState) {
    && (s.active.Some? ==> s.active.value in s.prepared)
    && forall e :: e in s.prepared ==> StageOk(nodeId, s, e, s.prepared[e])
  }

  ghost predicate StageOk(nodeId: NodeId, s: EngineState, e: int, p: PreparedStage) {
    && p.assignment.epoch == e
    && p.assignment.nodeId == nodeId
    && RangeFits(s, p.assignment.layerRange)
    && p.layers == LayerIds(p.assignment.layerRange.start, p.assignment.layerRange.end)
  }

  lemma RuntimeStepsKeepEngineOk(nodeId: NodeId, s: EngineState, a: StageAssignment, src: string, e: int)
    requires EngineOk(nodeId, s)
    ensures PrepareResult(nodeId, s, a, src).Success? ==> EngineOk(nodeId, PrepareResult(nodeId, s, a, src).value)
    ensures ActivateResult(s, e).Success? ==> EngineOk(nodeId, ActivateResult(s, e).value)
    ensures EngineOk(nodeId, RetireResult(s, e))
  {
  }

  /** A stage that answers has run exactly the layers its task names, on its task's input. */
  lemma GenerateRunsTaskRange<H>(net: Net<H>, nodeId: NodeId, s: EngineState, t: Task<H>)
    requires EngineOk(nodeId, s)
    requires GenerateResult(net, nodeId, s, t).Success?
    ensures t.layerRange.Some? && s.active == Some(t.epoch)
    ensures t.stageIndex == 0 || t.activation.Some?
    ensures GenerateResult(net, nodeId, s, t).value.activation.payload
         == RunLayers(net, LayerIds(t.layerRange.value.start, t.layerRange.value.end), StageInput(net, t))
  {
    assert StageOk(nodeId, s, t.epoch, s.prepared[t.epoch]);
  }

  /** Preparing stores the assignment with its source and its layers, for a range of the model and an assignment of the node
      itself, and touches nothing else; otherwise it says what is wrong. */
  lemma PrepareStoresStage(nodeId: NodeId, s: EngineState, a: StageAssignment, src: string)
    ensures var r := PrepareResult(nodeId, s, a, src);
      && (r.Success? <==> a.nodeId == nodeId && 0 <= a.layerRange.start < a.layerRange.end <= s.totalLayers)
      && (r.Failure? ==> r.error == if a.nodeId != nodeId then WrongNode else InvalidRange(a.layerRange))
      && (r.Success? ==>
        && a.epoch in r.value.prepared
        && r.value.prepared[a.epoch].assignment == a && r.value.prepared[a.epoch].modelSource == src
        && (forall k :: k in r.value.prepared[a.epoch].layers <==> a.layerRange.start <= k < a.layerRange.end)
        && r.value.prepared - {a.epoch} == s.prepared - {a.epoch}
        && r.value.active == s.active && r.value.totalLayers == s.totalLayers)
  {
    LayerIdsRise(a.layerRange.start, a.layerRange.end);
  }

  /** Retiring forgets the epoch, switches the node off if it was running it, and touches nothing else. */
  lemma RetireForgetsStage(s: EngineState, epoch: int, other: int)
    ensures var t := RetireResult(s, epoch);
      && epoch !in t.prepared && t.active != Some(epoch) && t.totalLayers == s.totalLayers
      && (s.active != Some(epoch) ==> t.active == s.active)
      && (other != epoch ==>
        && (other in t.prepared <==> other in s.prepared)
        && (other in s.prepared ==> t.prepared[other] == s.prepared[other]))
  {
  }

  /** Which activations a stage works on: only one that is addressed to it and belongs to the task's own request and epoch. */
  predicate Admissible<H>(nodeId: NodeId, t: Task<H>) {
    t.stageIndex == 0
    || (t.activation.Some? && t.activation.value.requestId == t.requestId && t.activation.value.epoch == t.epoch
        && t.activation.value.destination == Some(nodeId))
  }

  /** The truth behind each refusal, in the order in which they are made. */
  predicate RefusalTrue<H>(e: EngineError, nodeId: NodeId, s: EngineState, t: Task<H>) {
    match e
    case NotPrepared(x) => x == t.epoch && t.epoch !in s.prepared
    case NotActive(x, a) => x == t.epoch && t.epoch in s.prepared && a == s.active && a != Some(t.epoch)
    case RangeMismatch(asked, has) =>
      t.epoch in s.prepared && has == s.prepared[t.epoch].assignment.layerRange && asked == t.layerRange && asked != Some(has)
    case MissingActivation => t.stageIndex != 0 && t.activation.None?
    case ForeignRequest => t.stageIndex != 0 && t.activation.Some? && t.activation.value.requestId != t.requestId
    case ForeignEpoch =>
      t.stageIndex != 0 && t.activation.Some? && t.activation.value.requestId == t.requestId && t.activation.value.epoch != t.epoch
    case WrongDestination =>
      && t.stageIndex != 0 && t.activation.Some?
      && t.activation.value.requestId == t.requestId && t.activation.value.epoch == t.epoch
      && t.activation.value.destination != Some(nodeId)
    case _ => false
  }

  /** A stage answers exactly when it is active in the task's epoch with the task's range and the input is admissible. */
  lemma AnswersIff<H>(net: Net<H>, nodeId: NodeId, s: EngineState, t: Task<H>)
    ensures var r := GenerateResult(net, nodeId, s, t);
      && (r.Success? <==>
        && t.epoch in s.prepared && s.active == Some(t.epoch)
        && t.layerRange == Some(s.prepared[t.epoch].assignment.layerRange) && Admissible(nodeId, t))
      && (r.Failure? ==> RefusalTrue(r.error, nodeId, s, t))
  {
  }

  /** What an answer says: it is labelled with the task and sent by this node to nobody yet; the last stage gives the text and
      counts at least one token, the others give none. */
  lemma AnswerSays<H>(net: Net<H>, nodeId: NodeId, s: EngineState, t: Task<H>)
    requires GenerateResult(net, nodeId, s, t).Success?
    ensures var g := GenerateResult(net, nodeId, s, t).value;
      && g.requestId == g.activation.requestId == t.requestId && g.activation.epoch == t.epoch
      && g.stageIndex == g.activation.stageIndex == t.stageIndex
      && t.layerRange == Some(g.activation.layerRange) && g.activation.source == nodeId && g.activation.destination == None
      && (t.stageIndex != t.stageCount - 1 ==> g.text == "" && g.numTokens == 0)
      && (t.stageIndex == t.stageCount - 1 ==>
        && g.text == (net.readout)(g.activation.payload, t.maxTokens)
        && g.numTokens >= 1 && g.numTokens >= t.maxTokens && (g.numTokens == 1 || g.numTokens == t.maxTokens))
  {
  }

  // ---------------------------------------------------------------- the runtime

  class TorchLayeredEngine<H(!new)> {
    const nodeId: NodeId
    const totalLayers: int
    const net: Net<H>
    var prepared: map<int, PreparedStage>
    var activeEpoch: Option<int>

    constructor (nodeId: NodeId, totalLayers: int, net: Net<H>)
      ensures this.nodeId == nodeId && this.net == net
      ensures State() == EngineState(if totalLayers > 1 then totalLayers else 1, map[], None)
    {
      this.nodeId := nodeId;
      this.totalLayers := if totalLayers > 1 then totalLayers else 1;
      this.net := net;
      prepared := map[];
      activeEpoch := None;
    }

    function State(): EngineState
      reads this
    {
      EngineState(totalLayers, prepared, activeEpoch)
    }

    method PrepareEpoch(a: StageAssignment, modelSource: string) returns (r: Result<(), EngineError>)
      modifies this
      ensures match PrepareResult(nodeId, old(State()), a, modelSource)
        case Success(s) => r.Success? && State() == s
        case Failure(e) => r == Failure(e) && State() == old(State())
    {
      if a.nodeId != nodeId {
        return Failure(WrongNode);
      }
      var start, end := a.layerRange.start, a.layerRange.end;
      if start < 0 || end <= start || end > totalLayers {
        return Failure(InvalidRange(a.layerRange));
      }
      var layers := [];
      for id := start to end
        invariant layers == LayerIds(start, id)
      {
        layers := layers + [id];
      }
      prepared := prepared[a.epoch := PreparedStage(a, modelSource, layers)];
      return Success(());
    }

    method ActivateEpoch(epoch: int) returns (r: Result<(), EngineError>)
      modifies this`activeEpoch
      ensures match ActivateResult(old(State()), epoch)
        case Success(s) => r.Success? && State() == s
        case Failure(e) => r == Failure(e) && State() == old(State())
    {
      if epoch !in prepared {
        return Failure(NotPrepared(epoch));
      }
      activeEpoch := Some(epoch);
      return Success(());
    }

    method RetireEpoch(epoch: int)
      modifies this
      ensures State() == RetireResult(old(State()), epoch)
    {
      if activeEpoch == Some(epoch) {
        activeEpoch := None;
      }
      prepared := prepared - {epoch};
    }

    /** generate: the layers run one after the other, each on the hidden state the previous one left. */
    method Generate(t: Task<H>) returns (r: Result<GenerationResult<H>, EngineError>)
      ensures r == GenerateResult(net, nodeId, State(), t)
    {
      var e := TaskError(nodeId, State(), t);
      if e.Some? {
        return Failure(e.value);
      }
      var stage := prepared[t.epoch];
      var hidden := StageInput(net, t);
      for i := 0 to |stage.layers|
        invariant hidden == RunLayers(net, stage.layers[..i], StageInput(net, t))
      {
        assert stage.layers[..i + 1][..i] == stage.layers[..i];
        hidden := (net.layer)(stage.layers[i], hidden);
      }
      assert stage.layers[..|stage.layers|] == stage.layers;
      return Success(StageOutput(net, nodeId, t, stage.assignment.layerRange, hidden));
    }
  }
}
