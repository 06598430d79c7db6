/** The solver's recursion over a tree of asset objects, proved to compute the passes on
    values. */
module PsmNetwork {
  import opened PsmDroop
  import opened PsmAssets
  import opened PsmSolver
  import opened PsmPlant
  import opened PsmIslands

  datatype Unit = UFeed(feed: FeedUnit) | UGrid(grid: GridUnit) | UGen(gen: GenUnit) | ULoad(load: LoadUnit) | USolar(solar: SolarUnit)

  datatype Node = Node(unit: Unit, children: seq<Node>)

  ghost function Object(u: Unit): object {
    match u
    case UFeed(x) => x
    case UGrid(x) => x
    case UGen(x) => x
    case ULoad(x) => x
    case USolar(x) => x
  }

  ghost function Value(u: Unit): Asset
    reads Object(u)
  {
    match u
    case UFeed(x) => AFeed(x.State())
    case UGrid(x) => AGrid(x.State())
    case UGen(x) => AGen(x.State())
    case ULoad(x) => ALoad(x.State())
    case USolar(x) => ASolar(x.State())
  }

  // ---- Footprints --------------------------------------------------------------------------

  ghost function Objects(node: Node): set<object>
    decreases node, 1
  {
    {Object(node.unit)} + ObjectsOf(node.children)
  }

  ghost function ObjectsOf(nodes: seq<Node>): set<object>
    decreases nodes, 0
  {
    if nodes == [] then {} else ObjectsOf(nodes[..|nodes| - 1]) + Objects(nodes[|nodes| - 1])
  }

  /** No object occurs at two places of the tree. */
  ghost predicate Distinct(node: Node)
    decreases node, 1
  {
    Object(node.unit) !in ObjectsOf(node.children) && DistinctAll(node.children)
  }

  ghost predicate DistinctAll(nodes: seq<Node>)
    decreases nodes, 0
  {
    nodes != [] ==>
      DistinctAll(nodes[..|nodes| - 1]) && Distinct(nodes[|nodes| - 1])
      && ObjectsOf(nodes[..|nodes| - 1]) !! Objects(nodes[|nodes| - 1])
  }

  /** The tree of values that the objects currently hold. */
  ghost function View(node: Node): Tree
    reads Objects(node)
    decreases node, 1
  {
    Tree(Value(node.unit), Views(node.children))
  }

  ghost function Views(nodes: seq<Node>): (r: seq<Tree>)
    reads ObjectsOf(nodes)
    ensures |r| == |nodes|
    decreases nodes, 0
  {
    if nodes == [] then [] else Views(nodes[..|nodes| - 1]) + [View(nodes[|nodes| - 1])]
  }

  // ---- Dispatch ------------------------------------------------------------------------------

  method UnitDown(phase: Phase, u: Unit, input: Terminal) returns (output: Terminal)
    modifies Object(u)
    ensures (Value(u), output) == Down(phase, old(Value(u)), input)
  {
    match phase {
      case Discovering =>
        match u {
          case UFeed(x) => output := x.UpdateMode(input);
          case UGrid(x) => output := x.UpdateMode(input);
          case UGen(x) => output := x.UpdateMode(input);
          case ULoad(x) => output := x.UpdateMode(input);
          case USolar(x) => output := x.UpdateMode(input);
        }
      case Calculating =>
        match u {
          case UFeed(x) => output := x.DistributeVoltage(input);
          case UGrid(x) => output := x.DistributeVoltage(input);
          case UGen(x) => output := x.DistributeVoltage(input);
          case ULoad(x) => output := x.DistributeVoltage(input);
          case USolar(x) => output := x.DistributeVoltage(input);
        }
      case Updating =>
        match u {
          case UFeed(x) => output := x.DistributeLoad(input);
          case UGrid(x) => output := x.DistributeLoad(input);
          case UGen(_) => output := input;
          case ULoad(_) => output := input;
          case USolar(_) => output := input;
        }
    }
  }

  method UnitUp(phase: Phase, u: Unit, input: Terminal, env: Env) returns (output: Terminal)
    modifies Object(u)
    ensures (Value(u), output) == Up(phase, old(Value(u)), input, env)
  {
    match phase {
      case Discovering =>
        match u {
          case UFeed(x) => output := x.GetLoadLines(input);
          case UGrid(x) => output := x.GetLoadLines(input);
          case UGen(x) => output := x.GetLoadLines(input);
          case ULoad(x) => output := x.GetLoadLines(input);
          case USolar(_) => output := ZERO;
        }
      case Calculating =>
        match u {
          case UFeed(x) => output := x.CalculateState(input);
          case UGrid(x) => output := x.CalculateState(input);
          case UGen(x) => output := x.CalculateState(input, env);
          case ULoad(x) => output := x.CalculateState(input, env);
          case USolar(x) => output := x.CalculateState(input, env);
        }
      case Updating =>
        match u {
          case UFeed(x) => output := x.UpdateState(input);
          case UGrid(x) => output := x.UpdateState(input);
          case UGen(x) => output := x.UpdateState(input, env);
          case ULoad(x) => output := x.UpdateState(input, env);
          case USolar(x) => output := x.UpdateState(input, env);
        }
    }
  }

  // ---- The recursion ----------------------------------------------------------------------------

  lemma {:induction false} ChildObjects(nodes: seq<Node>, i: nat)
    requires i < |nodes|
    ensures Objects(nodes[i]) <= ObjectsOf(nodes)
    decreases |nodes|
  {
    hide Objects;
    if i < |nodes| - 1 {
      ChildObjects(nodes[..|nodes| - 1], i);
    }
  }

  lemma {:induction false} ChildDistinct(nodes: seq<Node>, i: nat)
    requires i < |nodes| && DistinctAll(nodes)
    ensures Distinct(nodes[i])
    ensures forall j | i < j < |nodes| :: Objects(nodes[i]) !! Objects(nodes[j])
    ensures ObjectsOf(nodes[..i]) !! Objects(nodes[i])
    decreases |nodes|
  {
    hide Objects, Distinct;
    var front := nodes[..|nodes| - 1];
    if i < |front| {
      ChildDistinct(front, i);
      ChildObjects(front, i);
      assert front[..i] == nodes[..i];
      forall j | i < j < |nodes| ensures Objects(nodes[i]) !! Objects(nodes[j]) {
        if j < |front| {
          assert front[j] == nodes[j];
        }
      }
    } else {
      assert nodes[..i] == front;
    }
  }

  lemma {:induction false} ObjectsExist(nodes: seq<Node>)
    ensures forall o | o in ObjectsOf(nodes) :: allocated(o)
    decreases nodes, 0
  {
    if nodes != [] {
      ObjectsExist(nodes[..|nodes| - 1]);
      NodeExists(nodes[|nodes| - 1]);
    }
  }

  lemma {:induction false} NodeExists(node: Node)
    ensures forall o | o in Objects(node) :: allocated(o)
    decreases node, 1
  {
    ObjectsExist(node.children);
    UnitExists(node.unit);
  }

  lemma UnitExists(u: Unit)
    ensures allocated(Object(u))
  {
    match u
    case UFeed(x) => assert allocated(x);
    case UGrid(x) => assert allocated(x);
    case UGen(x) => assert allocated(x);
    case ULoad(x) => assert allocated(x);
    case USolar(x) => assert allocated(x);
  }

  /** discoverTree, calculateTree and updateTree. */
  method PassTree(phase: Phase, node: Node, input: Terminal, env: Env) returns (output: Terminal)
    requires Distinct(node)
    modifies Objects(node)
    ensures (View(node), output) == Pass(phase, old(View(node)), input, env)
    decreases node, 1
  {
    hide Down, Up, Combine;
    ObjectsExist(node.children);
    ghost var before := Views(node.children);
    var childInput := UnitDown(phase, node.unit, input);
    assert Views(node.children) == before;
    var collected := childInput;
    if node.children != [] {
      collected := PassChildren(phase, node.children, childInput, env);
    }
    ghost var kids := Views(node.children);
    output := UnitUp(phase, node.unit, collected, env);
    assert Views(node.children) == kids;
  }

  method PassChildren(phase: Phase, nodes: seq<Node>, input: Terminal, env: Env) returns (collected: Terminal)
    requires DistinctAll(nodes)
    modifies ObjectsOf(nodes)
    ensures (Views(nodes), collected) == PassAll(phase, old(Views(nodes)), input, env)
    decreases nodes, 0
  {
    hide Pass, PassAll, Combine, View, Views, Distinct, DistinctAll, Objects, ObjectsOf, Value;
    collected := ZERO;
    var i := 0;
    ghost var was := Views(nodes);
    ViewsAre(nodes);
    ViewsNone();
    PassNone(phase, input, env);
    assert nodes[..0] == [] && was[..0] == [];
    while i < |nodes|
      invariant 0 <= i <= |nodes|
      invariant (Views(nodes[..i]), collected) == PassAll(phase, was[..i], input, env)
      invariant forall j | i <= j < |nodes| :: View(nodes[j]) == was[j]
    {
      ChildObjects(nodes, i);
      ChildDistinct(nodes, i);
      ObjectsExist(nodes[..i]);
      forall j | i < j < |nodes| ensures forall o | o in Objects(nodes[j]) :: allocated(o) {
        NodeExists(nodes[j]);
      }
      ghost var done := Views(nodes[..i]);
      var output := PassTree(phase, nodes[i], input, env);
      assert Views(nodes[..i]) == done;
      ViewsStep(nodes, i);
      PassStep(phase, was, i, input, env);
      collected := Combine(collected, output);
      i := i + 1;
    }
    assert nodes[..i] == nodes && was[..i] == was;
  }

  lemma ViewsNone()
    ensures Views([]) == []
  {
  }

  lemma {:induction false} ViewsAre(nodes: seq<Node>)
    ensures forall j | 0 <= j < |nodes| :: Views(nodes)[j] == View(nodes[j])
    decreases |nodes|
  {
    hide View;
    if nodes != [] {
      ViewsAre(nodes[..|nodes| - 1]);
    }
  }

  lemma ViewsStep(nodes: seq<Node>, i: nat)
    requires i < |nodes|
    ensures Views(nodes[..i + 1]) == Views(nodes[..i]) + [View(nodes[i])]
  {
    hide View;
    assert nodes[..i + 1][..i] == nodes[..i];
  }

  lemma PassNone(phase: Phase, input: Terminal, env: Env)
    ensures PassAll(phase, [], input, env) == ([], ZERO)
  {
  }

  lemma PassStep(phase: Phase, trees: seq<Tree>, i: nat, input: Terminal, env: Env)
    requires i < |trees|
    ensures var (kids, sum) := PassAll(phase, trees[..i], input, env);
      var (kid, output) := Pass(phase, trees[i], input, env);
      PassAll(phase, trees[..i + 1], input, env) == (kids + [kid], Combine(sum, output))
  {
    hide Pass, Combine;
    assert trees[..i + 1][..i] == trees[..i];
  }

  method UnitTerm(u: Unit) returns (t: Terminal)
    ensures t == Term(Value(u))
  {
    match u {
      case UFeed(x) => t := Terminal(x.v2, 0.0, x.p, x.q, x.s, x.f2, x.ph, x.dactive, x.dreactive, NO_DROOP);
      case UGrid(x) => t := Terminal(x.v, 0.0, x.p, x.q, x.s, x.f, x.ph, x.dactive, x.dreactive, NO_DROOP);
      case UGen(x) => t := Terminal(x.v, 0.0, x.p, x.q, x.s, x.f, x.ph, x.dactive, x.dreactive, NO_DROOP);
      case ULoad(x) => t := Terminal(x.v, 0.0, x.p, x.q, x.s, x.f, x.ph, NO_DROOP, NO_DROOP, NO_DROOP);
      case USolar(x) => t := Terminal(x.v, 0.0, x.p, x.q, x.s, x.f, x.ph, NO_DROOP, NO_DROOP, NO_DROOP);
    }
  }

  /** One tick of the simulation: the three passes, each from the root's own terminal. The
      live objects then balance as the tree before the tick foretold. */
  method RunTick(root: Node, env: Env)
    requires Distinct(root)
    modifies Objects(root)
    ensures View(root) == Tick(old(View(root)), env)
    ensures var before, after := old(View(root)), View(root);
      GridTree(before) && GridDroops(before.asset.grid) ==>
        after.asset.AGrid? && AllForetold(before.children, after.children) && AllBalancedAs(before.children, after.children)
        && var carried := Power(after.asset.grid.p, after.asset.grid.q);
        var shared := SharedTerminal(before, env);
        carried == SumPower(All, after.children)
        && carried ==
          if GridVoltage(before) > 0.0 then Negated(GridShare(before.asset.grid, shared.f, shared.v))
          else if GridVoltage(before) == 0.0 then NO_POWER
          else SumPower(LoadsOnly, after.children)
  {
    hide Pass, Term, Views, Objects, AllBalancedAs, AllForetold, AllShaped, AllDroopIn, GridDroops, GridVoltage, SumPower, GridShare, SharedTerminal;
    NodeExists(root);
    var t := UnitTerm(root.unit);
    assert t == Term(View(root).asset);
    var _ := PassTree(Discovering, root, t, env);
    t := UnitTerm(root.unit);
    assert View(root) == Discovered(old(View(root)), env) && t == Term(View(root).asset);
    var _ := PassTree(Calculating, root, t, env);
    t := UnitTerm(root.unit);
    assert View(root) == Calculated(old(View(root)), env) && t == Term(View(root).asset);
    var _ := PassTree(Updating, root, t, env);
    ghost var before := old(View(root));
    if GridTree(before) && GridDroops(before.asset.grid) {
      TickBalancesAsForetold(before, env);
    }
  }
}
