/**
 * The travel workflow's graph (`TravelWorkflow._build_graph` in src/graph.py):
 * the nodes, the direct and conditional edges, the entry point and the
 * interrupt-before set, built step by step through a builder and compiled to
 * a value the scheduler runs; and the two routing functions.
 */
module Graph {
  import opened Wrappers
  import opened State
  import opened Text

  /** The travel workflow's steps. */
  datatype Node = Planner | WeatherTool | Adjuster | HumanReview

  /** Where an edge leads: a step, or the end of the run. */
  datatype Target = To(node: Node) | End

  /** The values the routing functions return. */
  datatype Outcome = BadWeather | GoodWeather | Approved | Rejected

  /** The routing functions a conditional edge may name. */
  datatype Router = WeatherRouting | ReviewRouting

  /** A node's outgoing edge: fixed, or chosen by a router through a path map. */
  datatype Edge = Direct(to: Target) | Conditional(router: Router, paths: map<Outcome, Target>)

  /** A compiled graph: what the scheduler runs. */
  datatype CompiledGraph = CompiledGraph(
    nodes: set<Node>,
    entry: Node,
    edges: map<Node, Edge>,
    interruptBefore: set<Node>)

  /** Python's truth value of a string: every non-empty string is true. */
  predicate Truthy(s: string) {
    s != ""
  }

  /**
   * `_weather_routing_logic`, as written: `"Rainy" in state['weather'] or
   * "Rainy and Cold"`. Reading the key raises when it is absent; otherwise the
   * second operand, a non-empty literal, makes the condition true whatever the
   * weather is.
   */
  function WeatherRoute(s: AgentState): (r: Result<Outcome, Error>)
    ensures s.weather.None? ==> r == Err(KeyError("weather"))
    ensures s.weather.Some? ==> r == Ok(BadWeather)
  {
    match s.weather
    case None => Err(KeyError("weather"))
    case Some(w) =>
      if Contains(w, "Rainy") || Truthy("Rainy and Cold") then Ok(BadWeather) else Ok(GoodWeather)
  }

  /** `_review_routing_logic`: approval only on feedback that is exactly "APPROVE". */
  function ReviewRoute(s: AgentState): (r: Outcome)
    ensures r == Approved || r == Rejected
    ensures r == Approved <==> s.humanFeedback == Some("APPROVE")
  {
    if s.humanFeedback == Some("APPROVE") then Approved else Rejected
  }

  /** Evaluates the router a conditional edge names. */
  function Route(router: Router, s: AgentState): Result<Outcome, Error> {
    match router
    case WeatherRouting => WeatherRoute(s)
    case ReviewRouting => Ok(ReviewRoute(s))
  }

  /** The targets an edge may lead to. */
  function Targets(e: Edge): set<Target> {
    match e
    case Direct(t) => {t}
    case Conditional(_, paths) => paths.Values
  }

  /**
   * Where the run goes after `n` has run and produced state `s`: the edge's
   * target, a router's choice looked up in its path map, or the end of the run
   * when `n` has no outgoing edge.
   */
  function Next(g: CompiledGraph, n: Node, s: AgentState): (r: Result<Target, Error>)
    ensures r.Ok? && n in g.edges ==> r.value in Targets(g.edges[n])
    ensures r.Ok? && n !in g.edges ==> r.value == End
    ensures n in g.edges && g.edges[n].Direct? ==> r == Ok(g.edges[n].to)
  {
    if n !in g.edges then Ok(End)
    else match g.edges[n]
      case Direct(t) => Ok(t)
      case Conditional(router, paths) =>
        match Route(router, s)
        case Err(e) => Err(e)
        case Ok(o) => if o in paths then Ok(paths[o]) else Err(UnknownBranch)
  }

  /** The graph `_build_graph` compiles. */
  const TravelGraph: CompiledGraph := CompiledGraph(
    {Planner, WeatherTool, Adjuster, HumanReview},
    Planner,
    map[
      Planner := Direct(To(WeatherTool)),
      WeatherTool := Conditional(WeatherRouting, map[BadWeather := To(Adjuster), GoodWeather := To(HumanReview)]),
      Adjuster := Direct(To(HumanReview)),
      HumanReview := Conditional(ReviewRouting, map[Approved := End, Rejected := To(Adjuster)])],
    {HumanReview})

  /** The checks graph compilation makes: every name an edge, the entry or the interrupt set uses is a node. */
  predicate WellFormed(nodes: set<Node>, entry: Option<Node>, edges: map<Node, Edge>, interrupts: set<Node>) {
    && entry.Some? && entry.value in nodes
    && edges.Keys <= nodes
    && (forall n, t :: n in edges && t in Targets(edges[n]) && t.To? ==> t.node in nodes)
    && interrupts <= nodes
  }

  /** The graph under construction (LangGraph's `StateGraph` builder). */
  class GraphBuilder {
    var nodes: set<Node>
    var entry: Option<Node>
    var edges: map<Node, Edge>

    constructor ()
      ensures nodes == {} && entry == None && edges == map[]
    {
      nodes := {};
      entry := None;
      edges := map[];
    }

    /** `add_node`: registers a step; a name registered twice is reported by `added == false`. */
    method AddNode(n: Node) returns (added: bool)
      modifies this
      ensures added <==> n !in old(nodes)
      ensures nodes == old(nodes) + {n}
      ensures entry == old(entry) && edges == old(edges)
    {
      added := n !in nodes;
      nodes := nodes + {n};
    }

    /** `set_entry_point`: the step a run from the start executes first. */
    method SetEntryPoint(n: Node)
      modifies this
      ensures entry == Some(n)
      ensures nodes == old(nodes) && edges == old(edges)
    {
      entry := Some(n);
    }

    /** `add_edge`: `to` always follows `from`. */
    method AddEdge(from: Node, to: Target)
      modifies this
      ensures edges == old(edges)[from := Direct(to)]
      ensures nodes == old(nodes) && entry == old(entry)
    {
      edges := edges[from := Direct(to)];
    }

    /** `add_conditional_edges`: after `from`, `router` picks the next step through `paths`. */
    method AddConditionalEdges(from: Node, router: Router, paths: map<Outcome, Target>)
      modifies this
      ensures edges == old(edges)[from := Conditional(router, paths)]
      ensures nodes == old(nodes) && entry == old(entry)
    {
      edges := edges[from := Conditional(router, paths)];
    }

    /** `compile`: validates the builder's graph and fixes the interrupt-before set. */
    method Compile(interrupts: set<Node>) returns (g: Result<CompiledGraph, Error>)
      ensures g.Ok? <==> WellFormed(nodes, entry, edges, interrupts)
      ensures g.Err? ==> g.error == InvalidGraph
      ensures g.Ok? ==> g.value == CompiledGraph(nodes, entry.value, edges, interrupts)
    {
      if WellFormed(nodes, entry, edges, interrupts) {
        g := Ok(CompiledGraph(nodes, entry.value, edges, interrupts));
      } else {
        g := Err(InvalidGraph);
      }
    }
  }

  /** `_build_graph`: the builder calls in the source's order, compiled with `human_review` as the interrupt. */
  method BuildTravelGraph() returns (g: CompiledGraph)
    ensures g == TravelGraph
  {
    var builder := new GraphBuilder();
    var _ := builder.AddNode(Planner);
    var _ := builder.AddNode(WeatherTool);
    var _ := builder.AddNode(Adjuster);
    var _ := builder.AddNode(HumanReview);
    builder.SetEntryPoint(Planner);
    builder.AddEdge(Planner, To(WeatherTool));
    builder.AddConditionalEdges(WeatherTool, WeatherRouting,
      map[BadWeather := To(Adjuster), GoodWeather := To(HumanReview)]);
    builder.AddEdge(Adjuster, To(HumanReview));
    builder.AddConditionalEdges(HumanReview, ReviewRouting,
      map[Approved := End, Rejected := To(Adjuster)]);
    var compiled := builder.Compile({HumanReview});
    match compiled
    case Ok(c) => g := c;
    case Err(_) => assert false;
  }

  /** Every run from the start executes `planner` first, and `weather_tool` always follows it. */
  lemma PlannerLeadsToWeather(s: AgentState)
    ensures TravelGraph.entry == Planner
    ensures Next(TravelGraph, Planner, s) == Ok(To(WeatherTool))
  {
  }

  /**
   * After `weather_tool` the run goes to `adjuster` for every weather value;
   * the `good_weather` edge to `human_review` is never taken, and a state
   * without a weather value makes routing raise.
   */
  lemma WeatherAlwaysLeadsToAdjuster(s: AgentState)
    ensures s.weather.Some? ==> Next(TravelGraph, WeatherTool, s) == Ok(To(Adjuster))
    ensures s.weather.None? ==> Next(TravelGraph, WeatherTool, s) == Err(KeyError("weather"))
    ensures Next(TravelGraph, WeatherTool, s) != Ok(To(HumanReview))
  {
  }

  /** `human_review` always follows `adjuster`. */
  lemma AdjusterLeadsToReview(s: AgentState)
    ensures Next(TravelGraph, Adjuster, s) == Ok(To(HumanReview))
  {
  }

  /** After `human_review` the run ends exactly on feedback "APPROVE" and otherwise returns to `adjuster`. */
  lemma ReviewEndsOnlyOnApprove(s: AgentState)
    ensures Next(TravelGraph, HumanReview, s) == Ok(End) <==> s.humanFeedback == Some("APPROVE")
    ensures s.humanFeedback != Some("APPROVE") ==> Next(TravelGraph, HumanReview, s) == Ok(To(Adjuster))
    ensures s.humanFeedback == Some("approve") ==> Next(TravelGraph, HumanReview, s) == Ok(To(Adjuster))
  {
  }
}
