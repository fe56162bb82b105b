/**
 The parse result a diagram review starts from (apps/api/src/diagram-parser/diagram-parser.service.ts), and two
 reviews that go wrong.
 */
module DiagramParse {
  import opened Wrappers
  import opened ServiceCatalog
  import opened DiagramReview

  // ---- Where a review starts ---------------------------------------------------------------

  /** A node of the diagram as the API has classified it. */
  datatype ParsedNode =
    | Classified(component: Component)
    | Unclassified(node: OpenNode)
    | Decoration(node: OpenNode)
  {
    function Id(): string {
      match this
      case Classified(component) => component.nodeId
      case Unclassified(node) => node.id
      case Decoration(node) => node.id
    }
  }

  function ClassifiedIn(nodes: seq<ParsedNode>): seq<Component> {
    if nodes == [] then []
    else (if nodes[0].Classified? then [nodes[0].component] else []) + ClassifiedIn(nodes[1..])
  }

  function UnclassifiedIn(nodes: seq<ParsedNode>): seq<OpenNode> {
    if nodes == [] then []
    else (if nodes[0].Unclassified? then [nodes[0].node] else []) + UnclassifiedIn(nodes[1..])
  }

  function DecorationsIn(nodes: seq<ParsedNode>): seq<OpenNode> {
    if nodes == [] then []
    else (if nodes[0].Decoration? then [nodes[0].node] else []) + DecorationsIn(nodes[1..])
  }

  function GraphNodeOf(node: ParsedNode): GraphNode {
    match node
    case Classified(c) => GraphNode(c.nodeId, c.displayLabel, Resource, c.sourceRef)
    case Unclassified(n) => GraphNode(n.id, n.displayLabel, Unknown, n.sourceRef)
    case Decoration(n) => GraphNode(n.id, n.displayLabel, Decorative, n.sourceRef)
  }

  function GraphOf(nodes: seq<ParsedNode>): (graph: seq<GraphNode>)
    ensures |graph| == |nodes|
    ensures forall i :: 0 <= i < |nodes| ==> graph[i] == GraphNodeOf(nodes[i])
  {
    if nodes == [] then [] else [GraphNodeOf(nodes[0])] + GraphOf(nodes[1..])
  }

  /** The result of a parse: warnings of the extraction come before the nodes, the note about nodes beyond the cap
      after them. */
  function ParsedDiagram(warnings: seq<OpenNode>, nodes: seq<ParsedNode>, capNotes: seq<OpenNode>): ParseResult {
    var components := ClassifiedIn(nodes);
    ParseResult(
      RequirementsOf(components),
      Some(TracesOf(components)),
      components,
      warnings + UnclassifiedIn(nodes) + capNotes,
      DecorationsIn(nodes),
      GraphOf(nodes),
      DecorationsIn(nodes))
  }

  function ParsedCount(nodes: seq<ParsedNode>, id: string): nat {
    if nodes == [] then 0 else (if nodes[0].Id() == id then 1 else 0) + ParsedCount(nodes[1..], id)
  }

  lemma {:induction false} ParsedCounts(nodes: seq<ParsedNode>, id: string)
    ensures ParsedCount(nodes, id) ==
            ComponentCount(ClassifiedIn(nodes), id) + NodeCount(UnclassifiedIn(nodes), id)
            + NodeCount(DecorationsIn(nodes), id)
  {
    if nodes != [] {
      ParsedCounts(nodes[1..], id);
      var c, u, d := ClassifiedIn(nodes[1..]), UnclassifiedIn(nodes[1..]), DecorationsIn(nodes[1..]);
      match nodes[0] {
        case Classified(component) => assert ([component] + c)[1..] == c && [] + u == u && [] + d == d;
        case Unclassified(node) => assert ([node] + u)[1..] == u && [] + c == c && [] + d == d;
        case Decoration(node) => assert ([node] + d)[1..] == d && [] + c == c && [] + u == u;
      }
    }
  }

  lemma {:induction false} NodeCountsAdd(a: seq<OpenNode>, b: seq<OpenNode>, id: string)
    ensures NodeCount(a + b, id) == NodeCount(a, id) + NodeCount(b, id)
  {
    if a == [] {
      assert a + b == b;
    } else {
      NodeCountsAdd(a[1..], b, id);
      assert (a + b)[1..] == a[1..] + b;
    }
  }

  /** Each node is counted where the parse puts it. */
  lemma ParsedPlaces(warnings: seq<OpenNode>, nodes: seq<ParsedNode>, capNotes: seq<OpenNode>, id: string)
    ensures Places(ParsedDiagram(warnings, nodes, capNotes), id) ==
            NodeCount(warnings, id) + ParsedCount(nodes, id) + NodeCount(capNotes, id)
  {
    ParsedCounts(nodes, id);
    NodeCountsAdd(warnings, UnclassifiedIn(nodes), id);
    NodeCountsAdd(warnings + UnclassifiedIn(nodes), capNotes, id);
  }

  lemma {:induction false} ParsedIsThere(nodes: seq<ParsedNode>, i: nat)
    requires i < |nodes|
    ensures match nodes[i]
            case Classified(_) => ComponentCount(ClassifiedIn(nodes), nodes[i].Id()) > 0
            case Unclassified(_) => NodeCount(UnclassifiedIn(nodes), nodes[i].Id()) > 0
            case Decoration(_) => NodeCount(DecorationsIn(nodes), nodes[i].Id()) > 0
  {
    var c, u, d := ClassifiedIn(nodes[1..]), UnclassifiedIn(nodes[1..]), DecorationsIn(nodes[1..]);
    if i > 0 {
      ParsedIsThere(nodes[1..], i - 1);
    }
    match nodes[0] {
      case Classified(component) => assert ([component] + c)[1..] == c && [] + u == u && [] + d == d;
      case Unclassified(node) => assert ([node] + u)[1..] == u && [] + c == c && [] + d == d;
      case Decoration(node) => assert ([node] + d)[1..] == d && [] + c == c && [] + u == u;
    }
  }

  /** With distinct ids, a review starts from a sound result whose traces follow the services. */
  lemma ParsedDiagramIsSound(warnings: seq<OpenNode>, nodes: seq<ParsedNode>, capNotes: seq<OpenNode>)
    requires forall id: string :: NodeCount(warnings, id) + ParsedCount(nodes, id) + NodeCount(capNotes, id) <= 1
    ensures IsSound(ParsedDiagram(warnings, nodes, capNotes)) && TracesFollow(ParsedDiagram(warnings, nodes, capNotes))
  {
    hide Places, GraphOf, ClassifiedIn, UnclassifiedIn, DecorationsIn;
    var result := ParsedDiagram(warnings, nodes, capNotes);
    forall id: string ensures Places(result, id) <= 1 {
      ParsedPlaces(warnings, nodes, capNotes, id);
    }
    forall i | 0 <= i < |nodes| ensures KindFits(StatusOf(result, result.graphNodes[i].id), result.graphNodes[i].kind) {
      var id := nodes[i].Id();
      ParsedIsThere(nodes, i);
      NodeCountsAdd(warnings, UnclassifiedIn(nodes), id);
      NodeCountsAdd(warnings + UnclassifiedIn(nodes), capNotes, id);
      StatusByPlace(result, id);
    }
  }

  /** In a partition, being in one list is being in no other. */
  lemma StatusByPlace(result: ParseResult, id: string)
    requires Places(result, id) <= 1
    ensures ComponentCount(result.components, id) > 0 ==> StatusOf(result, id) == InReview
    ensures NodeCount(result.unresolved, id) > 0 ==> StatusOf(result, id) == Unresolved
    ensures NodeCount(result.ignored, id) > 0 ==> StatusOf(result, id) == Ignored
  {
  }

  // ---- Two reviews that go wrong -----------------------------------------------------------

  /** A letter, a digit or one of `_:.-`. */
  predicate IsRefChar(c: char) {
    'a' <= c <= 'z' || 'A' <= c <= 'Z' || '0' <= c <= '9' || c in "_:.-"
  }

  const MAX_REF_LENGTH := 80

  function RefLength(ref: string): nat {
    if |ref| < MAX_REF_LENGTH then |ref| else MAX_REF_LENGTH
  }

  /** The source reference of a node of the diagram: other characters become `_`, and the rest is cut off. */
  function SanitizeSourceRef(format: string, ref: string): string {
    format + ":" + seq(RefLength(ref), i requires 0 <= i < |ref| => if IsRefChar(ref[i]) then ref[i] else '_')
  }

  /** Up to character 80, the ids differ only in characters that are both `_` or not allowed. */
  predicate LooksTheSame(a: string, b: string) {
    && RefLength(a) == RefLength(b)
    && forall i :: 0 <= i < RefLength(a) ==>
         a[i] == b[i] || ((!IsRefChar(a[i]) || a[i] == '_') && (!IsRefChar(b[i]) || b[i] == '_'))
  }

  /** Two ids get the same reference exactly if they look the same. */
  lemma ReferencesCollide(format: string, a: string, b: string)
    ensures SanitizeSourceRef(format, a) == SanitizeSourceRef(format, b) <==> LooksTheSame(a, b)
  {
    var x, y := SanitizeSourceRef(format, a), SanitizeSourceRef(format, b);
    var start := |format| + 1;
    assert forall i :: 0 <= i < RefLength(a) ==> x[start + i] == if IsRefChar(a[i]) then a[i] else '_';
    assert forall i :: 0 <= i < RefLength(b) ==> y[start + i] == if IsRefChar(b[i]) then b[i] else '_';
  }

  function ServiceOf(format: string, id: string): Component {
    Component(id, "Web", "compute", "vm-compute", SanitizeSourceRef(format, id))
  }

  lemma TwoServicesStart(web: Component, store: Component)
    requires web.nodeId != store.nodeId
    ensures var result := ParsedDiagram([], [Classified(web), Classified(store)], []);
            && IsSound(result) && TracesFollow(result)
            && result.components == [web, store]
  {
    hide IsSound, TracesFollow;
    var nodes := [Classified(web), Classified(store)];
    assert nodes[1..] == [Classified(store)] && nodes[1..][1..] == [];
    assert ClassifiedIn(nodes[1..]) == [store];
    assert ClassifiedIn(nodes) == [web, store];
    forall id: string ensures NodeCount([], id) + ParsedCount(nodes, id) + NodeCount([], id) <= 1 {
      assert ParsedCount(nodes[1..], id) == if id == store.nodeId then 1 else 0;
    }
    ParsedDiagramIsSound([], nodes, []);
  }

  /** In a diagram of two services, removing one takes the trace of the other with it exactly if their ids look the
      same; the requirement of the other stays in any case. */
  lemma SharedReferenceLosesTrace(format: string, a: string, b: string)
    requires a != b
    ensures var web, store := ServiceOf(format, a), ServiceOf(format, b);
            var result := ParsedDiagram([], [Classified(web), Classified(store)], []);
            var after := RemoveComponent(result, a);
            && IsSound(result) && TracesFollow(result)
            && after.components == [store]
            && PrepareForComparison(after) ==
               Compared([RequirementOf(store)], Some(if LooksTheSame(a, b) then [] else [TraceFor(b, store.sourceRef)]))
  {
    hide IsSound, ParsedDiagram, SanitizeSourceRef, LooksTheSame;
    var web, store := ServiceOf(format, a), ServiceOf(format, b);
    TwoServicesStart(web, store);
    ReferencesCollide(format, a, b);
    var components := [web, store];
    assert components[1..] == [store] && components[1..][1..] == [];
    assert WithoutComponent([], a) == [] && WithoutTrace([], web.sourceRef) == [];
    assert WithoutComponent(components[1..], a) == [store] + WithoutComponent(components[1..][1..], a);
    assert WithoutComponent(components, a) == WithoutComponent(components[1..], a);
    var result := ParsedDiagram([], [Classified(web), Classified(store)], []);
    SoundFollows(result);
    RequirementsKeepFollowing(result, Remove(a));
    assert RequirementsOf([store]) == [RequirementOf(store)];
    var traces := TracesOf(components);
    assert TracesOf(components[1..]) == [TraceFor(b, store.sourceRef)];
    assert traces[1..] == [TraceFor(b, store.sourceRef)] && traces[1..][1..] == [];
    assert WithoutTrace(traces[1..], web.sourceRef) == if LooksTheSame(a, b) then [] else traces[1..];
    assert WithoutTrace(traces, web.sourceRef) == WithoutTrace(traces[1..], web.sourceRef);
  }

  /** Ids that look the same: a space for an underscore, or a difference after character 80. */
  lemma IdsLookTheSame(prefix: string)
    requires |prefix| == 80
    ensures LooksTheSame("a b", "a_b") && LooksTheSame(prefix + "1", prefix + "2")
  {
  }

  lemma SoundFollows(result: ParseResult)
    requires IsSound(result)
    ensures RequirementsFollow(result)
  {
  }

  /** Two services added within one millisecond get one id: the node is then under review twice, and removing it takes
      both. */
  lemma SameMillisecondTwice()
    ensures var id := "manual-1700000000000";
            var empty := ParsedDiagram([], [], []);
            var twice := ReviewAll(empty, [Add(id, "cdn"), Add(id, "queue")]);
            && IsSound(empty) && !IsReview(empty, [Add(id, "cdn"), Add(id, "queue")])
            && !IsPartition(twice) && Places(twice, id) == 2
            && RemoveComponent(twice, id).components == []
  {
    hide DiagramServiceOptionForType, ManualRef, TraceFor;
    var id := "manual-1700000000000";
    var empty := ParsedDiagram([], [], []);
    ParsedDiagramIsSound([], [], []);
    var actions := [Add(id, "cdn"), Add(id, "queue")];
    assert actions[1..] == [Add(id, "queue")] && actions[1..][1..] == [];
    var once := Review(empty, actions[0]);
    var twice := Review(once, actions[1]);
    assert ReviewAll(once, actions[1..]) == ReviewAll(twice, actions[1..][1..]) == twice;
    AddCounts(empty, id, "cdn", id);
    AddCounts(once, id, "queue", id);
    assert Places(empty, id) == 0;
    assert |twice.components| == 2 && twice.components[0].nodeId == id && twice.components[1].nodeId == id;
    assert twice.components[1..][1..] == [];
    assert WithoutComponent(twice.components[1..], id) == [];
  }
}
