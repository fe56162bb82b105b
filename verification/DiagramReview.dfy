/**
 Reviewing a parsed diagram before comparing it: removing a service, classifying an unresolved node, adding a
 service by hand (apps/web/src/App.tsx). The three handlers are updaters of the parse result.
 */
module DiagramReview {
  import opened Wrappers
  import opened ServiceCatalog

  datatype ServiceOption = ServiceOption(name: string, serviceCategory: string, serviceType: string)

  const DIAGRAM_REVIEW_SERVICE_OPTIONS: seq<ServiceOption> := [
    ServiceOption("Compute / VM", "compute", "vm-compute"),
    ServiceOption("Container app", "containers", "container-app"),
    ServiceOption("Object storage", "storage", "object-storage"),
    ServiceOption("Relational database", "database", "relational-database"),
    ServiceOption("Load balancer", "networking", "load-balancer"),
    ServiceOption("CDN", "networking", "cdn"),
    ServiceOption("Message queue", "integration", "queue"),
    ServiceOption("Analytics warehouse", "analytics", "warehouse")
  ]

  datatype Component = Component(
    nodeId: string, displayLabel: string, serviceCategory: string, serviceType: string, sourceRef: string)

  /** A node that is unresolved or ignored. */
  datatype OpenNode = OpenNode(id: string, displayLabel: string, reason: string, sourceRef: string)

  /** A requirement of the draft; the node id is its `scaleParams.diagramNodeId`. */
  datatype Requirement = Requirement(serviceCategory: string, serviceType: string, diagramNodeId: Option<string>)

  datatype NodeKind = Resource | Decorative | Unknown

  datatype GraphNode = GraphNode(id: string, displayLabel: string, kind: NodeKind, sourceRef: string)

  datatype ParseResult = ParseResult(
    requirements: seq<Requirement>,
    traces: Option<seq<TraceEntry>>,
    components: seq<Component>,
    unresolved: seq<OpenNode>,
    ignored: seq<OpenNode>,
    graphNodes: seq<GraphNode>,
    graphIgnored: seq<OpenNode>)

  /** What the user does; the id of an added node is made by the handler. */
  datatype Action =
    | Remove(nodeId: string)
    | Classify(nodeId: string, serviceType: string)
    | Add(nodeId: string, serviceType: string)

  // ---- The updaters ------------------------------------------------------------------------

  /** `items.filter((item) => !drop(item))` */
  function Without<T>(items: seq<T>, drop: T -> bool): seq<T> {
    if items == [] then []
    else if drop(items[0]) then Without(items[1..], drop)
    else [items[0]] + Without(items[1..], drop)
  }

  function WithoutComponent(components: seq<Component>, nodeId: string): seq<Component> {
    Without(components, (c: Component) => c.nodeId == nodeId)
  }

  function WithoutNode(nodes: seq<OpenNode>, id: string): seq<OpenNode> {
    Without(nodes, (n: OpenNode) => n.id == id)
  }

  function WithoutRequirement(requirements: seq<Requirement>, nodeId: string): seq<Requirement> {
    Without(requirements, (r: Requirement) => r.diagramNodeId == Some(nodeId))
  }

  function WithoutTrace(traces: seq<TraceEntry>, sourceRef: string): seq<TraceEntry> {
    Without(traces, (t: TraceEntry) => t.sourceRef == sourceRef)
  }

  function WithoutGraphNode(nodes: seq<GraphNode>, id: string): seq<GraphNode> {
    Without(nodes, (n: GraphNode) => n.id == id)
  }

  function FindComponent(components: seq<Component>, nodeId: string): Option<Component> {
    if components == [] then None
    else if components[0].nodeId == nodeId then Some(components[0])
    else FindComponent(components[1..], nodeId)
  }

  function FindNode(nodes: seq<OpenNode>, id: string): Option<OpenNode> {
    if nodes == [] then None
    else if nodes[0].id == id then Some(nodes[0])
    else FindNode(nodes[1..], id)
  }

  function FindOption(options: seq<ServiceOption>, serviceType: string): Option<ServiceOption> {
    if options == [] then None
    else if options[0].serviceType == serviceType then Some(options[0])
    else FindOption(options[1..], serviceType)
  }

  function DiagramServiceOptionForType(serviceType: string): ServiceOption {
    var found := FindOption(DIAGRAM_REVIEW_SERVICE_OPTIONS, serviceType);
    if found.Some? then found.value else DIAGRAM_REVIEW_SERVICE_OPTIONS[0]
  }

  function ManualRequirement(nodeId: string, serviceType: string): Requirement {
    var option := DiagramServiceOptionForType(serviceType);
    Requirement(option.serviceCategory, option.serviceType, Some(nodeId))
  }

  function ComponentFor(id: string, displayLabel: string, sourceRef: string, requirement: Requirement): Component {
    Component(id, displayLabel, requirement.serviceCategory, requirement.serviceType, sourceRef)
  }

  function TraceFor(nodeId: string, sourceRef: string): TraceEntry {
    TraceEntry("serviceRequirements." + nodeId, sourceRef)
  }

  function MoreTraces(traces: Option<seq<TraceEntry>>, trace: TraceEntry): Option<seq<TraceEntry>> {
    Some((if traces.Some? then traces.value else []) + [trace])
  }

  function RemoveComponent(current: ParseResult, nodeId: string): ParseResult {
    var removed := FindComponent(current.components, nodeId);
    var gone :=
      if removed.None? then []
      else [OpenNode(nodeId, removed.value.displayLabel, "removed during review", removed.value.sourceRef)];
    ParseResult(
      WithoutRequirement(current.requirements, nodeId),
      if current.traces.None? || removed.None? then current.traces
      else Some(WithoutTrace(current.traces.value, removed.value.sourceRef)),
      WithoutComponent(current.components, nodeId),
      current.unresolved,
      current.ignored + gone,
      WithoutGraphNode(current.graphNodes, nodeId),
      current.graphIgnored + gone)
  }

  function AsResource(nodes: seq<GraphNode>, id: string): seq<GraphNode> {
    if nodes == [] then []
    else [if nodes[0].id == id then nodes[0].(kind := Resource) else nodes[0]] + AsResource(nodes[1..], id)
  }

  function ClassifyNode(current: ParseResult, nodeId: string, serviceType: string): ParseResult {
    var node := FindNode(current.unresolved, nodeId);
    if serviceType == "" || node.None? then current
    else
      var requirement := ManualRequirement(nodeId, serviceType);
      ParseResult(
        current.requirements + [requirement],
        MoreTraces(current.traces, TraceFor(nodeId, node.value.sourceRef)),
        current.components + [ComponentFor(node.value.id, node.value.displayLabel, node.value.sourceRef, requirement)],
        WithoutNode(current.unresolved, nodeId),
        current.ignored,
        AsResource(current.graphNodes, nodeId),
        current.graphIgnored)
  }

  function ManualRef(nodeId: string): string {
    "diagram:manual:" + nodeId
  }

  function AddRequirement(current: ParseResult, nodeId: string, serviceType: string): ParseResult {
    if serviceType == "" then current
    else
      var requirement := ManualRequirement(nodeId, serviceType);
      var displayLabel := DiagramServiceOptionForType(serviceType).name;
      ParseResult(
        current.requirements + [requirement],
        MoreTraces(current.traces, TraceFor(nodeId, ManualRef(nodeId))),
        current.components + [ComponentFor(nodeId, displayLabel, ManualRef(nodeId), requirement)],
        current.unresolved,
        current.ignored,
        current.graphNodes + [GraphNode(nodeId, displayLabel, Resource, ManualRef(nodeId))],
        current.graphIgnored)
  }

  function Review(current: ParseResult, action: Action): ParseResult {
    match action
    case Remove(nodeId) => RemoveComponent(current, nodeId)
    case Classify(nodeId, serviceType) => ClassifyNode(current, nodeId, serviceType)
    case Add(nodeId, serviceType) => AddRequirement(current, nodeId, serviceType)
  }

  // ---- Where each node is ------------------------------------------------------------------

  function ComponentCount(components: seq<Component>, id: string): nat {
    if components == [] then 0
    else (if components[0].nodeId == id then 1 else 0) + ComponentCount(components[1..], id)
  }

  function NodeCount(nodes: seq<OpenNode>, id: string): nat {
    if nodes == [] then 0 else (if nodes[0].id == id then 1 else 0) + NodeCount(nodes[1..], id)
  }

  /** In how many places the node is. */
  function Places(result: ParseResult, id: string): nat {
    ComponentCount(result.components, id) + NodeCount(result.unresolved, id) + NodeCount(result.ignored, id)
  }

  /** No node is in two places. */
  ghost predicate IsPartition(result: ParseResult) {
    forall id: string :: Places(result, id) <= 1
  }

  predicate IsFresh(result: ParseResult, action: Action) {
    action.Add? ==> Places(result, action.nodeId) == 0
  }

  predicate Adds(action: Action) {
    action.Add? && action.serviceType != ""
  }

  lemma {:induction false} WithoutComponentCounts(components: seq<Component>, nodeId: string, id: string)
    ensures ComponentCount(WithoutComponent(components, nodeId), id) ==
            if id == nodeId then 0 else ComponentCount(components, id)
  {
    if components != [] {
      WithoutComponentCounts(components[1..], nodeId, id);
      var rest := WithoutComponent(components[1..], nodeId);
      assert ([components[0]] + rest)[1..] == rest;
    }
  }

  lemma {:induction false} WithoutNodeCounts(nodes: seq<OpenNode>, nodeId: string, id: string)
    ensures NodeCount(WithoutNode(nodes, nodeId), id) == if id == nodeId then 0 else NodeCount(nodes, id)
  {
    if nodes != [] {
      WithoutNodeCounts(nodes[1..], nodeId, id);
      var rest := WithoutNode(nodes[1..], nodeId);
      assert ([nodes[0]] + rest)[1..] == rest;
    }
  }

  lemma {:induction false} OneMoreComponent(components: seq<Component>, component: Component, id: string)
    ensures ComponentCount(components + [component], id) ==
            ComponentCount(components, id) + if component.nodeId == id then 1 else 0
  {
    if components == [] {
      assert components + [component] == [component];
    } else {
      OneMoreComponent(components[1..], component, id);
      assert (components + [component])[1..] == components[1..] + [component];
    }
  }

  lemma {:induction false} OneMoreNode(nodes: seq<OpenNode>, node: OpenNode, id: string)
    ensures NodeCount(nodes + [node], id) == NodeCount(nodes, id) + if node.id == id then 1 else 0
  {
    if nodes == [] {
      assert nodes + [node] == [node];
    } else {
      OneMoreNode(nodes[1..], node, id);
      assert (nodes + [node])[1..] == nodes[1..] + [node];
    }
  }

  lemma {:induction false} ComponentIsFound(components: seq<Component>, nodeId: string)
    ensures FindComponent(components, nodeId).Some? <==> ComponentCount(components, nodeId) > 0
    ensures FindComponent(components, nodeId).Some? ==>
              FindComponent(components, nodeId).value in components &&
              FindComponent(components, nodeId).value.nodeId == nodeId
  {
    if components != [] {
      ComponentIsFound(components[1..], nodeId);
    }
  }

  lemma {:induction false} NodeIsFound(nodes: seq<OpenNode>, id: string)
    ensures FindNode(nodes, id).Some? <==> NodeCount(nodes, id) > 0
    ensures FindNode(nodes, id).Some? ==> FindNode(nodes, id).value in nodes && FindNode(nodes, id).value.id == id
  {
    if nodes != [] {
      NodeIsFound(nodes[1..], id);
    }
  }

  // ---- No node is lost or doubled ----------------------------------------------------------

  /** Where a node can be. */
  datatype Status = Absent | Unresolved | InReview | Ignored

  function StatusOf(result: ParseResult, id: string): Status {
    if NodeCount(result.unresolved, id) > 0 then Unresolved
    else if ComponentCount(result.components, id) > 0 then InReview
    else if NodeCount(result.ignored, id) > 0 then Ignored
    else Absent
  }

  /** What an action does to a node: removing sends a service to the ignored, classifying an unresolved node to the
      services, adding puts a new one there; every other node stays where it is. */
  function NextStatus(status: Status, action: Action, id: string): Status {
    match action
    case Remove(nodeId) => if id == nodeId && status == InReview then Ignored else status
    case Classify(nodeId, serviceType) =>
      if id == nodeId && serviceType != "" && status == Unresolved then InReview else status
    case Add(nodeId, serviceType) => if id == nodeId && serviceType != "" then InReview else status
  }

  lemma RemoveMoves(result: ParseResult, nodeId: string, id: string)
    requires IsPartition(result)
    ensures var after := RemoveComponent(result, nodeId);
            && Places(after, id) == Places(result, id)
            && StatusOf(after, id) == NextStatus(StatusOf(result, id), Remove(nodeId), id)
  {
    WithoutComponentCounts(result.components, nodeId, id);
    ComponentIsFound(result.components, nodeId);
    assert Places(result, id) <= 1;
    var removed := FindComponent(result.components, nodeId);
    if removed.Some? {
      var gone := OpenNode(nodeId, removed.value.displayLabel, "removed during review", removed.value.sourceRef);
      OneMoreNode(result.ignored, gone, id);
    } else {
      assert result.ignored + [] == result.ignored;
    }
  }

  lemma ClassifyMoves(result: ParseResult, nodeId: string, serviceType: string, id: string)
    requires IsPartition(result)
    ensures var after := ClassifyNode(result, nodeId, serviceType);
            && Places(after, id) == Places(result, id)
            && StatusOf(after, id) == NextStatus(StatusOf(result, id), Classify(nodeId, serviceType), id)
  {
    hide ManualRequirement;
    NodeIsFound(result.unresolved, nodeId);
    WithoutNodeCounts(result.unresolved, nodeId, id);
    assert Places(result, id) <= 1;
    var node := FindNode(result.unresolved, nodeId);
    if node.Some? {
      var requirement := ManualRequirement(nodeId, serviceType);
      OneMoreComponent(result.components,
                       ComponentFor(node.value.id, node.value.displayLabel, node.value.sourceRef, requirement), id);
    }
  }

  lemma AddMoves(result: ParseResult, nodeId: string, serviceType: string, id: string)
    requires IsPartition(result) && Places(result, nodeId) == 0
    ensures var after := AddRequirement(result, nodeId, serviceType);
            && Places(after, id) == Places(result, id) + (if id == nodeId && serviceType != "" then 1 else 0)
            && StatusOf(after, id) == NextStatus(StatusOf(result, id), Add(nodeId, serviceType), id)
  {
    hide ManualRequirement, DiagramServiceOptionForType, ManualRef;
    var displayLabel := DiagramServiceOptionForType(serviceType).name;
    OneMoreComponent(result.components,
                     ComponentFor(nodeId, displayLabel, ManualRef(nodeId), ManualRequirement(nodeId, serviceType)), id);
  }

  /** Every node stays in one place, goes where the action sends it, and none is lost, doubled or invented. */
  lemma EveryNodeIsKept(result: ParseResult, action: Action, id: string)
    requires IsPartition(result) && IsFresh(result, action)
    ensures Places(Review(result, action), id) ==
            Places(result, id) + if Adds(action) && id == action.nodeId then 1 else 0
    ensures StatusOf(Review(result, action), id) == NextStatus(StatusOf(result, id), action, id)
  {
    hide RemoveComponent, ClassifyNode, AddRequirement, Places, StatusOf, NextStatus, IsPartition;
    match action {
      case Remove(nodeId) => RemoveMoves(result, nodeId, id);
      case Classify(nodeId, serviceType) => ClassifyMoves(result, nodeId, serviceType, id);
      case Add(nodeId, serviceType) => AddMoves(result, nodeId, serviceType, id);
    }
  }

  lemma PartitionIsKept(result: ParseResult, action: Action)
    requires IsPartition(result) && IsFresh(result, action)
    ensures IsPartition(Review(result, action))
  {
    hide Review, Places, StatusOf, NextStatus;
    forall id: string ensures Places(Review(result, action), id) <= 1 {
      EveryNodeIsKept(result, action, id);
    }
  }

  lemma AddCounts(result: ParseResult, nodeId: string, serviceType: string, id: string)
    requires serviceType != ""
    ensures Places(AddRequirement(result, nodeId, serviceType), id) ==
            Places(result, id) + if id == nodeId then 1 else 0
  {
    hide ManualRequirement, DiagramServiceOptionForType, ManualRef;
    var displayLabel := DiagramServiceOptionForType(serviceType).name;
    OneMoreComponent(result.components,
                     ComponentFor(nodeId, displayLabel, ManualRef(nodeId), ManualRequirement(nodeId, serviceType)), id);
  }

  /** An added service needs an id of its own: with a used one, such as that of another service added in the same
      millisecond, the node would be in two places. */
  lemma AddNeedsFreshId(result: ParseResult, nodeId: string, serviceType: string)
    requires IsPartition(result) && serviceType != ""
    ensures IsPartition(AddRequirement(result, nodeId, serviceType)) <==> Places(result, nodeId) == 0
  {
    hide AddRequirement, Places;
    forall id: string
      ensures Places(AddRequirement(result, nodeId, serviceType), id) ==
              Places(result, id) + if id == nodeId then 1 else 0
    {
      AddCounts(result, nodeId, serviceType, id);
    }
  }

  lemma {:induction false} OptionIsFound(options: seq<ServiceOption>, serviceType: string)
    ensures match FindOption(options, serviceType)
            case Some(option) => option in options && option.serviceType == serviceType
            case None => forall i :: 0 <= i < |options| ==> options[i].serviceType != serviceType
  {
    if options != [] {
      OptionIsFound(options[1..], serviceType);
      assert options == [options[0]] + options[1..];
    }
  }

  /** The service is one on offer: the one chosen, or the first exactly when the one chosen is not on offer. */
  ghost predicate IsChosen(option: ServiceOption, serviceType: string) {
    && option in DIAGRAM_REVIEW_SERVICE_OPTIONS
    && (option.serviceType == serviceType ||
          (option == DIAGRAM_REVIEW_SERVICE_OPTIONS[0] &&
           forall other :: other in DIAGRAM_REVIEW_SERVICE_OPTIONS ==> other.serviceType != serviceType))
  }

  lemma OptionIsChosen(serviceType: string)
    ensures IsChosen(DiagramServiceOptionForType(serviceType), serviceType)
  {
    OptionIsFound(DIAGRAM_REVIEW_SERVICE_OPTIONS, serviceType);
    assert DIAGRAM_REVIEW_SERVICE_OPTIONS[0] in DIAGRAM_REVIEW_SERVICE_OPTIONS;
  }

  /** The component is reviewed as the service chosen. */
  ghost predicate IsReviewedAs(component: Component, serviceType: string) {
    exists option :: IsChosen(option, serviceType)
      && option.serviceType == component.serviceType && option.serviceCategory == component.serviceCategory
  }

  /** A classified node is reviewed as the service chosen, under its own label and source reference. */
  lemma ClassifiedAsChosen(result: ParseResult, nodeId: string, serviceType: string)
    requires serviceType != "" && NodeCount(result.unresolved, nodeId) > 0
    ensures var components := ClassifyNode(result, nodeId, serviceType).components;
            && |components| == |result.components| + 1
            && components[..|components| - 1] == result.components
            && var added := components[|components| - 1];
            && added.nodeId == nodeId
            && (exists n :: n in result.unresolved && n.id == nodeId &&
                  n.displayLabel == added.displayLabel && n.sourceRef == added.sourceRef)
            && IsReviewedAs(added, serviceType)
  {
    hide TraceFor, AsResource, IsChosen;
    NodeIsFound(result.unresolved, nodeId);
    OptionIsChosen(serviceType);
    var node := FindNode(result.unresolved, nodeId).value;
    assert node in result.unresolved && node.id == nodeId;
  }

  /** An added service is reviewed as the service chosen, under the name of that service; the graph shows it under the
      same id, name and reference. */
  lemma AddedAsChosen(result: ParseResult, nodeId: string, serviceType: string)
    requires serviceType != ""
    ensures var after := AddRequirement(result, nodeId, serviceType);
            && |after.components| == |result.components| + 1
            && after.components[..|result.components|] == result.components
            && |after.graphNodes| == |result.graphNodes| + 1
            && after.graphNodes[..|result.graphNodes|] == result.graphNodes
            && var added, drawn := after.components[|result.components|], after.graphNodes[|result.graphNodes|];
            && added.nodeId == nodeId
            && IsReviewedAs(added, serviceType)
            && (exists option :: IsChosen(option, serviceType)
                  && option.serviceType == added.serviceType && option.name == added.displayLabel)
            && drawn == GraphNode(nodeId, added.displayLabel, Resource, added.sourceRef)
  {
    hide TraceFor, IsChosen, ManualRef, DiagramServiceOptionForType;
    OptionIsChosen(serviceType);
  }

  /** The path of a trace names its node. */
  lemma TraceNamesItsNode(a: string, b: string, sourceRef: string)
    ensures TraceFor(a, sourceRef).nwsPath == TraceFor(b, sourceRef).nwsPath <==> a == b
    ensures TraceFor(a, sourceRef).sourceRef == sourceRef
  {
    var start := |"serviceRequirements."|;
    assert TraceFor(a, sourceRef).nwsPath[start..] == a && TraceFor(b, sourceRef).nwsPath[start..] == b;
  }

  /** A removed service is ignored under its own label and reference, in the lists of the review and of the graph. */
  lemma RemovedIsIgnored(result: ParseResult, nodeId: string)
    requires ComponentCount(result.components, nodeId) > 0
    ensures var after := RemoveComponent(result, nodeId);
            && |after.ignored| == |result.ignored| + 1 && after.ignored[..|result.ignored|] == result.ignored
            && after.graphIgnored == result.graphIgnored + [after.ignored[|result.ignored|]]
            && exists c :: c in result.components && c.nodeId == nodeId
                 && after.ignored[|result.ignored|].id == c.nodeId
                 && after.ignored[|result.ignored|].displayLabel == c.displayLabel
                 && after.ignored[|result.ignored|].sourceRef == c.sourceRef
  {
    ComponentIsFound(result.components, nodeId);
  }

  // ---- The draft follows the review --------------------------------------------------------

  function RequirementOf(component: Component): Requirement {
    Requirement(component.serviceCategory, component.serviceType, Some(component.nodeId))
  }

  function RequirementsOf(components: seq<Component>): seq<Requirement> {
    if components == [] then [] else [RequirementOf(components[0])] + RequirementsOf(components[1..])
  }

  function TracesOf(components: seq<Component>): seq<TraceEntry> {
    if components == [] then []
    else [TraceFor(components[0].nodeId, components[0].sourceRef)] + TracesOf(components[1..])
  }

  /** The draft's requirements are those of the components under review, one for one and in order. */
  predicate RequirementsFollow(result: ParseResult) {
    result.requirements == RequirementsOf(result.components)
  }

  /** ... and so are its traces. */
  predicate TracesFollow(result: ParseResult) {
    result.traces == Some(TracesOf(result.components))
  }

  lemma {:induction false} WithoutRequirementFollows(components: seq<Component>, nodeId: string)
    ensures WithoutRequirement(RequirementsOf(components), nodeId) ==
            RequirementsOf(WithoutComponent(components, nodeId))
  {
    if components != [] {
      WithoutRequirementFollows(components[1..], nodeId);
      assert RequirementsOf(components)[1..] == RequirementsOf(components[1..]);
      var rest := WithoutComponent(components[1..], nodeId);
      assert ([components[0]] + rest)[1..] == rest;
    }
  }

  lemma {:induction false} OneMoreFollows(components: seq<Component>, component: Component)
    ensures RequirementsOf(components + [component]) == RequirementsOf(components) + [RequirementOf(component)]
    ensures TracesOf(components + [component]) ==
            TracesOf(components) + [TraceFor(component.nodeId, component.sourceRef)]
  {
    if components == [] {
      assert components + [component] == [component];
    } else {
      OneMoreFollows(components[1..], component);
      assert (components + [component])[1..] == components[1..] + [component];
    }
  }

  /** Whatever the action, the requirements keep following the components. */
  lemma RequirementsKeepFollowing(result: ParseResult, action: Action)
    requires RequirementsFollow(result)
    ensures RequirementsFollow(Review(result, action))
  {
    hide DiagramServiceOptionForType, ManualRef, TraceFor;
    match action {
      case Remove(nodeId) => WithoutRequirementFollows(result.components, nodeId);
      case Classify(nodeId, serviceType) =>
        var node := FindNode(result.unresolved, nodeId);
        if node.Some? {
          NodeIsFound(result.unresolved, nodeId);
          var requirement := ManualRequirement(nodeId, serviceType);
          OneMoreFollows(result.components,
                         ComponentFor(node.value.id, node.value.displayLabel, node.value.sourceRef, requirement));
        }
      case Add(nodeId, serviceType) =>
        var displayLabel := DiagramServiceOptionForType(serviceType).name;
        OneMoreFollows(result.components,
                       ComponentFor(nodeId, displayLabel, ManualRef(nodeId), ManualRequirement(nodeId, serviceType)));
    }
  }

  /** No other service has the source reference of the one to be removed. */
  predicate HasOwnRef(components: seq<Component>, nodeId: string) {
    var removed := FindComponent(components, nodeId);
    removed.Some? ==>
      forall i :: 0 <= i < |components| && components[i].sourceRef == removed.value.sourceRef ==>
        components[i].nodeId == nodeId
  }

  lemma {:induction false} TracesLength(components: seq<Component>)
    ensures |TracesOf(components)| == |components|
  {
    if components != [] {
      TracesLength(components[1..]);
    }
  }

  /** Filtering by source reference and by node id agree exactly when they pick the same services. */
  lemma {:induction false} WithoutTraceFollows(components: seq<Component>, nodeId: string, sourceRef: string)
    requires forall i :: 0 <= i < |components| && components[i].nodeId == nodeId ==>
               components[i].sourceRef == sourceRef
    ensures |WithoutTrace(TracesOf(components), sourceRef)| <= |WithoutComponent(components, nodeId)|
    ensures WithoutTrace(TracesOf(components), sourceRef) == TracesOf(WithoutComponent(components, nodeId)) <==>
            forall i :: 0 <= i < |components| && components[i].sourceRef == sourceRef ==> components[i].nodeId == nodeId
  {
    TracesLength(WithoutComponent(components, nodeId));
    if components != [] {
      var first, tail := components[0], components[1..];
      forall i | 0 <= i < |tail| ensures tail[i] == components[i + 1] { }
      WithoutTraceFollows(tail, nodeId, sourceRef);
      TracesLength(WithoutComponent(tail, nodeId));
      assert TracesOf(components)[1..] == TracesOf(tail);
      var rest := WithoutComponent(tail, nodeId);
      assert ([first] + rest)[1..] == rest;
      var trace := TraceFor(first.nodeId, first.sourceRef);
      var x, y := WithoutTrace(TracesOf(tail), sourceRef), TracesOf(rest);
      if first.sourceRef != sourceRef {
        assert ([trace] + x)[1..] == x && ([trace] + y)[1..] == y;
        assert TracesOf([first] + rest) == [trace] + y;
        assert forall i :: 0 < i < |components| ==> components[i] == tail[i - 1];
      } else if first.nodeId != nodeId {
        assert components[0].sourceRef == sourceRef;
      } else {
        assert forall i :: 0 < i < |components| ==> components[i] == tail[i - 1];
      }
    }
  }

  /** The same node id means the same component. */
  lemma {:induction false} OnlyOneComponent(components: seq<Component>, nodeId: string, i: nat)
    requires ComponentCount(components, nodeId) <= 1 && i < |components| && components[i].nodeId == nodeId
    ensures FindComponent(components, nodeId) == Some(components[i])
  {
    if components[0].nodeId == nodeId {
      if i > 0 {
        ComponentOccurs(components[1..], nodeId, i - 1);
      }
    } else {
      OnlyOneComponent(components[1..], nodeId, i - 1);
    }
  }

  lemma {:induction false} ComponentOccurs(components: seq<Component>, nodeId: string, i: nat)
    requires i < |components| && components[i].nodeId == nodeId
    ensures ComponentCount(components, nodeId) > 0
  {
    if i > 0 {
      ComponentOccurs(components[1..], nodeId, i - 1);
    }
  }

  /** Removing a service keeps the traces in step exactly when no other service shares its source reference: a
      shared reference costs the others their trace. */
  lemma TracesKeepFollowing(result: ParseResult, nodeId: string)
    requires IsPartition(result) && TracesFollow(result)
    ensures TracesFollow(RemoveComponent(result, nodeId)) <==> HasOwnRef(result.components, nodeId)
  {
    hide Places;
    var removed := FindComponent(result.components, nodeId);
    assert ComponentCount(result.components, nodeId) <= 1 by { PartitionCounts(result, nodeId); }
    ComponentIsFound(result.components, nodeId);
    if removed.Some? {
      forall i | 0 <= i < |result.components| && result.components[i].nodeId == nodeId
        ensures result.components[i].sourceRef == removed.value.sourceRef
      {
        OnlyOneComponent(result.components, nodeId, i);
      }
      WithoutTraceFollows(result.components, nodeId, removed.value.sourceRef);
    } else {
      NothingToRemove(result.components, nodeId);
    }
  }

  lemma PartitionCounts(result: ParseResult, nodeId: string)
    requires IsPartition(result)
    ensures ComponentCount(result.components, nodeId) <= 1
  {
    assert Places(result, nodeId) <= 1;
  }

  lemma {:induction false} NothingToRemove(components: seq<Component>, nodeId: string)
    requires ComponentCount(components, nodeId) == 0
    ensures WithoutComponent(components, nodeId) == components
  {
    if components != [] {
      NothingToRemove(components[1..], nodeId);
    }
  }

  /** The other two actions always keep the traces in step. */
  lemma TracesFollowGrowth(result: ParseResult, action: Action)
    requires TracesFollow(result) && !action.Remove?
    ensures TracesFollow(Review(result, action))
  {
    hide DiagramServiceOptionForType, ManualRef, TraceFor;
    match action {
      case Classify(nodeId, serviceType) =>
        var node := FindNode(result.unresolved, nodeId);
        if node.Some? {
          NodeIsFound(result.unresolved, nodeId);
          var requirement := ManualRequirement(nodeId, serviceType);
          OneMoreFollows(result.components,
                         ComponentFor(node.value.id, node.value.displayLabel, node.value.sourceRef, requirement));
        }
      case Add(nodeId, serviceType) =>
        var displayLabel := DiagramServiceOptionForType(serviceType).name;
        OneMoreFollows(result.components,
                       ComponentFor(nodeId, displayLabel, ManualRef(nodeId), ManualRequirement(nodeId, serviceType)));
    }
  }

  // ---- Source references -------------------------------------------------------------------

  /** No two nodes under review share a source reference. */
  ghost predicate RefsAreOwn(result: ParseResult) {
    && (forall c, d :: c in result.components && d in result.components && c.sourceRef == d.sourceRef ==>
          c.nodeId == d.nodeId)
    && (forall c, n :: c in result.components && n in result.unresolved ==> c.sourceRef != n.sourceRef)
    && (forall n, m :: n in result.unresolved && m in result.unresolved && n.sourceRef == m.sourceRef ==> n.id == m.id)
  }

  predicate IsFreshRef(result: ParseResult, action: Action) {
    action.Add? ==>
      && (forall c :: c in result.components ==> c.sourceRef != ManualRef(action.nodeId))
      && (forall n :: n in result.unresolved ==> n.sourceRef != ManualRef(action.nodeId))
  }

  lemma {:induction false} WithoutComponentHas(components: seq<Component>, nodeId: string, c: Component)
    ensures c in WithoutComponent(components, nodeId) <==> c in components && c.nodeId != nodeId
  {
    if components != [] {
      WithoutComponentHas(components[1..], nodeId, c);
      assert components == [components[0]] + components[1..];
    }
  }

  lemma {:induction false} WithoutNodeHas(nodes: seq<OpenNode>, id: string, n: OpenNode)
    ensures n in WithoutNode(nodes, id) <==> n in nodes && n.id != id
  {
    if nodes != [] {
      WithoutNodeHas(nodes[1..], id, n);
      assert nodes == [nodes[0]] + nodes[1..];
    }
  }

  lemma RefsStayOwn(result: ParseResult, action: Action)
    requires RefsAreOwn(result) && IsFreshRef(result, action)
    ensures RefsAreOwn(Review(result, action))
  {
    hide ManualRequirement, DiagramServiceOptionForType, ManualRef, TraceFor;
    match action {
      case Remove(nodeId) =>
        forall c: Component ensures c in WithoutComponent(result.components, nodeId) ==> c in result.components {
          WithoutComponentHas(result.components, nodeId, c);
        }
      case Classify(nodeId, serviceType) =>
        NodeIsFound(result.unresolved, nodeId);
        forall n: OpenNode
          ensures n in WithoutNode(result.unresolved, nodeId) <==> n in result.unresolved && n.id != nodeId
        {
          WithoutNodeHas(result.unresolved, nodeId, n);
        }
      case Add(_, _) =>
    }
  }

  /** With own references, no removal costs another service its trace. */
  lemma OwnRefsKeepTraces(result: ParseResult, action: Action)
    requires IsPartition(result) && RefsAreOwn(result) && TracesFollow(result)
    ensures TracesFollow(Review(result, action))
  {
    hide TracesFollow, IsPartition;
    if action.Remove? {
      ComponentIsFound(result.components, action.nodeId);
      TracesKeepFollowing(result, action.nodeId);
    } else {
      TracesFollowGrowth(result, action);
    }
  }

  // ---- The graph follows too ---------------------------------------------------------------

  predicate KindFits(status: Status, kind: NodeKind) {
    match status
    case Unresolved => kind == Unknown
    case InReview => kind == Resource
    case Ignored => kind == Decorative
    case Absent => false
  }

  /** A node drawn in the graph is drawn as what it is, and the graph lists the same ignored nodes. */
  predicate GraphFollows(result: ParseResult) {
    && result.graphIgnored == result.ignored
    && forall i :: 0 <= i < |result.graphNodes| ==>
         KindFits(StatusOf(result, result.graphNodes[i].id), result.graphNodes[i].kind)
  }

  lemma {:induction false} WithoutGraphNodeHas(nodes: seq<GraphNode>, id: string, i: nat)
    requires i < |WithoutGraphNode(nodes, id)|
    ensures WithoutGraphNode(nodes, id)[i] in nodes && WithoutGraphNode(nodes, id)[i].id != id
  {
    if nodes[0].id == id {
      WithoutGraphNodeHas(nodes[1..], id, i);
    } else if i > 0 {
      WithoutGraphNodeHas(nodes[1..], id, i - 1);
    }
  }

  lemma {:induction false} AsResourceHas(nodes: seq<GraphNode>, id: string)
    ensures |AsResource(nodes, id)| == |nodes|
    ensures forall i :: 0 <= i < |nodes| ==>
              AsResource(nodes, id)[i] == if nodes[i].id == id then nodes[i].(kind := Resource) else nodes[i]
  {
    if nodes != [] {
      AsResourceHas(nodes[1..], id);
    }
  }

  lemma RemovalShows(result: ParseResult, nodeId: string)
    requires IsPartition(result) && GraphFollows(result)
    ensures GraphFollows(RemoveComponent(result, nodeId))
  {
    hide StatusOf, Places, IsPartition, KindFits;
    var after := RemoveComponent(result, nodeId);
    forall i | 0 <= i < |after.graphNodes|
      ensures KindFits(StatusOf(after, after.graphNodes[i].id), after.graphNodes[i].kind)
    {
      WithoutGraphNodeHas(result.graphNodes, nodeId, i);
      RemoveMoves(result, nodeId, after.graphNodes[i].id);
    }
  }

  lemma ClassificationShows(result: ParseResult, nodeId: string, serviceType: string)
    requires IsPartition(result) && GraphFollows(result)
    ensures GraphFollows(ClassifyNode(result, nodeId, serviceType))
  {
    hide Places, IsPartition, ManualRequirement, TraceFor, ComponentFor;
    var after := ClassifyNode(result, nodeId, serviceType);
    NodeIsFound(result.unresolved, nodeId);
    AsResourceHas(result.graphNodes, nodeId);
    forall i | 0 <= i < |after.graphNodes|
      ensures KindFits(StatusOf(after, after.graphNodes[i].id), after.graphNodes[i].kind)
    {
      ClassifyMoves(result, nodeId, serviceType, after.graphNodes[i].id);
    }
  }

  lemma NowhereIsAbsent(result: ParseResult, id: string)
    ensures Places(result, id) == 0 <==> StatusOf(result, id) == Absent
  {
  }

  lemma AdditionShows(result: ParseResult, nodeId: string, serviceType: string)
    requires IsPartition(result) && GraphFollows(result) && Places(result, nodeId) == 0
    ensures GraphFollows(AddRequirement(result, nodeId, serviceType))
  {
    hide StatusOf, Places, IsPartition, ManualRequirement, TraceFor, ComponentFor, ManualRef;
    hide DiagramServiceOptionForType;
    var after := AddRequirement(result, nodeId, serviceType);
    NowhereIsAbsent(result, nodeId);
    forall i | 0 <= i < |after.graphNodes|
      ensures KindFits(StatusOf(after, after.graphNodes[i].id), after.graphNodes[i].kind)
    {
      AddMoves(result, nodeId, serviceType, after.graphNodes[i].id);
    }
  }

  // ---- What is compared --------------------------------------------------------------------

  /** What a comparison in diagram mode is made of beside the form; without traces, those of the form's selected
      families are used. */
  datatype Compared = Compared(requirements: seq<Requirement>, traces: Option<seq<TraceEntry>>)

  function PrepareForComparison(current: ParseResult): Compared {
    Compared(current.requirements, current.traces)
  }

  // ---- Whole reviews -----------------------------------------------------------------------

  ghost predicate IsSound(result: ParseResult) {
    IsPartition(result) && RequirementsFollow(result) && GraphFollows(result)
  }

  lemma SoundnessIsKept(result: ParseResult, action: Action)
    requires IsSound(result) && IsFresh(result, action)
    ensures IsSound(Review(result, action))
  {
    hide IsPartition, RequirementsFollow, GraphFollows, RemoveComponent, ClassifyNode, AddRequirement;
    PartitionIsKept(result, action);
    RequirementsKeepFollowing(result, action);
    match action {
      case Remove(nodeId) => RemovalShows(result, nodeId);
      case Classify(nodeId, serviceType) => ClassificationShows(result, nodeId, serviceType);
      case Add(nodeId, serviceType) => AdditionShows(result, nodeId, serviceType);
    }
  }

  /** A review in which every added node gets an id not used before. */
  predicate IsReview(result: ParseResult, actions: seq<Action>)
    decreases |actions|
  {
    actions == [] || (IsFresh(result, actions[0]) && IsReview(Review(result, actions[0]), actions[1..]))
  }

  function ReviewAll(result: ParseResult, actions: seq<Action>): ParseResult
    decreases |actions|
  {
    if actions == [] then result else ReviewAll(Review(result, actions[0]), actions[1..])
  }

  /** How far a node has come; it never comes back. */
  function Rank(status: Status): nat {
    match status
    case Absent => 0
    case Unresolved => 1
    case InReview => 2
    case Ignored => 3
  }

  /** In every review: the partition holds, the requirements that a comparison would be made of are those of the
      services under review, the graph agrees, no node is lost or doubled, and every node only moves forward. */
  lemma {:induction false} EveryReviewIsSound(result: ParseResult, actions: seq<Action>, id: string)
    requires IsSound(result) && IsReview(result, actions)
    ensures IsSound(ReviewAll(result, actions))
    ensures PrepareForComparison(ReviewAll(result, actions)).requirements ==
            RequirementsOf(ReviewAll(result, actions).components)
    ensures Places(ReviewAll(result, actions), id) >= Places(result, id)
    ensures Rank(StatusOf(ReviewAll(result, actions), id)) >= Rank(StatusOf(result, id))
    decreases |actions|
  {
    hide IsFresh, Review, Places, StatusOf, IsPartition, GraphFollows;
    if actions != [] {
      SoundnessIsKept(result, actions[0]);
      OneStepForward(result, actions[0], id);
      EveryReviewIsSound(Review(result, actions[0]), actions[1..], id);
    }
  }

  lemma OneStepForward(result: ParseResult, action: Action, id: string)
    requires IsSound(result) && IsFresh(result, action)
    ensures Places(Review(result, action), id) >= Places(result, id)
    ensures Rank(StatusOf(Review(result, action), id)) >= Rank(StatusOf(result, id))
  {
    hide IsPartition, RequirementsFollow, GraphFollows, Review;
    EveryNodeIsKept(result, action, id);
  }

  /** Every added node comes with a source reference not used before. */
  predicate HasFreshRefs(result: ParseResult, actions: seq<Action>)
    decreases |actions|
  {
    actions == [] || (IsFreshRef(result, actions[0]) && HasFreshRefs(Review(result, actions[0]), actions[1..]))
  }

  /** If no two nodes share a source reference, the traces of a comparison are those of the services under review. */
  lemma {:induction false} EveryReviewKeepsTraces(result: ParseResult, actions: seq<Action>)
    requires IsSound(result) && RefsAreOwn(result) && TracesFollow(result)
    requires IsReview(result, actions) && HasFreshRefs(result, actions)
    ensures PrepareForComparison(ReviewAll(result, actions)).traces ==
            Some(TracesOf(ReviewAll(result, actions).components))
    decreases |actions|
  {
    hide IsPartition, RequirementsFollow, GraphFollows, RefsAreOwn, IsFresh, IsFreshRef, Review;
    if actions != [] {
      SoundnessIsKept(result, actions[0]);
      RefsStayOwn(result, actions[0]);
      OwnRefsKeepTraces(result, actions[0]);
      EveryReviewKeepsTraces(Review(result, actions[0]), actions[1..]);
    }
  }

  // ---- How long a review can be ------------------------------------------------------------

  /** The action moves a node: it removes a service or classifies an unresolved node. */
  predicate Moves(result: ParseResult, action: Action) {
    match action
    case Remove(nodeId) => ComponentCount(result.components, nodeId) > 0
    case Classify(nodeId, serviceType) => serviceType != "" && NodeCount(result.unresolved, nodeId) > 0
    case Add(_, _) => false
  }

  function MovesIn(result: ParseResult, actions: seq<Action>): nat
    decreases |actions|
  {
    if actions == [] then 0
    else (if Moves(result, actions[0]) then 1 else 0) + MovesIn(Review(result, actions[0]), actions[1..])
  }

  function AddsIn(actions: seq<Action>): nat {
    if actions == [] then 0 else (if Adds(actions[0]) then 1 else 0) + AddsIn(actions[1..])
  }

  /** The moves still possible. */
  function Left(result: ParseResult): nat {
    2 * |result.unresolved| + |result.components|
  }

  lemma {:induction false} WithoutComponentLength(components: seq<Component>, nodeId: string)
    ensures |WithoutComponent(components, nodeId)| == |components| - ComponentCount(components, nodeId)
  {
    if components != [] {
      WithoutComponentLength(components[1..], nodeId);
    }
  }

  lemma {:induction false} WithoutNodeLength(nodes: seq<OpenNode>, id: string)
    ensures |WithoutNode(nodes, id)| == |nodes| - NodeCount(nodes, id)
  {
    if nodes != [] {
      WithoutNodeLength(nodes[1..], id);
    }
  }

  lemma EachMoveCounts(result: ParseResult, action: Action)
    requires IsPartition(result)
    ensures Left(Review(result, action)) + (if Moves(result, action) then 1 else 0) ==
            Left(result) + (if Adds(action) then 1 else 0)
  {
    hide ManualRequirement, DiagramServiceOptionForType, ManualRef, TraceFor, ComponentFor;
    assert Places(result, action.nodeId) <= 1;
    match action {
      case Remove(nodeId) => WithoutComponentLength(result.components, nodeId);
      case Classify(nodeId, _) =>
        NodeIsFound(result.unresolved, nodeId);
        WithoutNodeLength(result.unresolved, nodeId);
      case Add(_, _) =>
    }
  }

  /** The moves made and the moves left always add up: so a review with k additions makes at most
      2 * |unresolved| + |components| + k moves. */
  lemma {:induction false} MovesAddUp(result: ParseResult, actions: seq<Action>)
    requires IsSound(result) && IsReview(result, actions)
    ensures MovesIn(result, actions) + Left(ReviewAll(result, actions)) == Left(result) + AddsIn(actions)
    decreases |actions|
  {
    hide IsPartition, RequirementsFollow, GraphFollows, IsFresh, Review, Moves, Adds, Left;
    if actions != [] {
      SoundnessIsKept(result, actions[0]);
      EachMoveCounts(result, actions[0]);
      MovesAddUp(Review(result, actions[0]), actions[1..]);
    }
  }
}
