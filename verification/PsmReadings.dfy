/** What every asset of a tree reads after a tick: whether it is on, the voltage and the
    frequency it sees, and the flows its feeders meter. */
module PsmReadings {
  import opened PsmDroop
  import opened PsmAssets
  import opened PsmSolver

  // ---- Modes -----------------------------------------------------------------------------------

  /** A switch after its commands: off is asked of a unit that is on, on of one that is
      off. */
  predicate TurnedOn(on: bool, oncmd: bool, offcmd: bool) {
    if on then !offcmd else oncmd
  }

  /** A generator, load or solar plant has taken its commands. */
  predicate Told(a: Asset, b: Asset) {
    match a
    case AGen(g) =>
      b.AGen? && b.gen.on == TurnedOn(g.on, g.oncmd, g.offcmd)
      && b.gen.gridForming == (g.gridFormingCmd || (g.gridForming && !g.gridFollowingCmd))
    case ALoad(l) => b.ALoad? && b.load.on == TurnedOn(l.on, l.oncmd, l.offcmd)
    case ASolar(s) => b.ASolar? && b.solar.on == TurnedOn(s.on, s.oncmd, s.offcmd)
    case AFeed(f) => b.AFeed?
    case AGrid(g) => b.AGrid?
  }

  predicate ToldAll(before: seq<Tree>, after: seq<Tree>)
    decreases before, 0
  {
    |before| == |after| && forall i | 0 <= i < |before| :: ToldTree(before[i], after[i])
  }

  predicate ToldTree(before: Tree, after: Tree)
    decreases before, 1
  {
    Told(before.asset, after.asset) && ToldAll(before.children, after.children)
  }

  lemma ModesTell(a: Asset, input: Terminal, collected: Terminal)
    ensures Told(a, GetLoadLines(UpdateMode(a, input).0, collected).0)
  {
    hide FeedCommands, Commanded, Combine;
  }

  lemma {:induction false} DiscoverTells(node: Tree, input: Terminal, env: Env)
    ensures ToldTree(node, Pass(Discovering, node, input, env).0)
    decreases node, 1
  {
    hide UpdateMode, GetLoadLines, PassAll, ToldAll, Told;
    var (a, childInput) := Down(Discovering, node.asset, input);
    DiscoverTellsAll(node.children, childInput, env);
    var (kids, sum) := PassAll(Discovering, node.children, childInput, env);
    ModesTell(node.asset, input, if node.children == [] then childInput else sum);
  }

  lemma {:induction false} DiscoverTellsAll(nodes: seq<Tree>, input: Terminal, env: Env)
    ensures ToldAll(nodes, PassAll(Discovering, nodes, input, env).0)
    decreases nodes, 0
  {
    hide Pass, ToldTree;
    if nodes != [] {
      DiscoverTellsAll(nodes[..|nodes| - 1], input, env);
      DiscoverTells(nodes[|nodes| - 1], input, env);
    }
  }

  // ---- Voltage, frequency and phase ----------------------------------------------------------------

  datatype Seen = Seen(v: real, f: real, ph: real)

  /** What an asset reads at a point of the tree, given its commands: generators and solar
      plants stay on only under a positive voltage, loads under any but zero, and whatever
      is off delivers nothing. A solar plant reads its voltage there but not its frequency,
      which a second assignment from an empty terminal clears. */
  predicate Reads(a: Asset, b: Asset, at: Seen) {
    match a
    case AGen(g) =>
      b.AGen? && Seen(b.gen.v, b.gen.f, b.gen.ph) == at
      && b.gen.on == (TurnedOn(g.on, g.oncmd, g.offcmd) && at.v > 0.0)
      && b.gen.gridForming == (g.gridFormingCmd || (g.gridForming && !g.gridFollowingCmd))
      && (!b.gen.on && !b.gen.gridForming ==> b.gen.p == 0.0 && b.gen.q == 0.0)
    case ALoad(l) =>
      b.ALoad? && Seen(b.load.v, b.load.f, b.load.ph) == at
      && b.load.on == (TurnedOn(l.on, l.oncmd, l.offcmd) && at.v != 0.0)
      && (!b.load.on ==> b.load.p == 0.0 && b.load.q == 0.0)
    case ASolar(s) =>
      b.ASolar? && Seen(b.solar.v, b.solar.f, b.solar.ph) == Seen(at.v, 0.0, 0.0)
      && b.solar.on == (TurnedOn(s.on, s.oncmd, s.offcmd) && at.v > 0.0)
      && (!b.solar.on ==> b.solar.p == 0.0 && b.solar.q == 0.0)
    case AFeed(f) =>
      b.AFeed? && b.feed.v1 == at.v && b.feed.f1 == at.f
      && (b.feed.closed ==> Seen(b.feed.v2, b.feed.f2, b.feed.ph) == at)
    case AGrid(g) => b.AGrid?
  }

  /** What the assets below one see: what it sees, or what an open feeder gives its own
      island. */
  function SeenBelow(b: Asset, at: Seen): Seen {
    if b.AFeed? then Seen(b.feed.v2, b.feed.f2, b.feed.ph) else at
  }

  predicate ReadsTree(before: Tree, after: Tree, at: Seen)
    decreases before, 1
  {
    Reads(before.asset, after.asset, at) && ReadsAll(before.children, after.children, SeenBelow(after.asset, at))
  }

  predicate ReadsAll(before: seq<Tree>, after: seq<Tree>, at: Seen)
    decreases before, 0
  {
    |before| == |after| && forall i | 0 <= i < |before| :: ReadsTree(before[i], after[i], at)
  }

  function SeenIn(t: Terminal): Seen {
    Seen(t.v, t.f, t.ph)
  }

  lemma CalculatingReads(a: Asset, b: Asset, input: Terminal, collected: Terminal, env: Env)
    requires Told(a, b) && !b.AGrid?
    requires b.ASolar? ==> collected == DistributeVoltage(b, input).1
    ensures var c := CalculateState(DistributeVoltage(b, input).0, collected, env).0;
      Reads(a, c, SeenIn(input)) && (c.AFeed? <==> b.AFeed?)
      && (b.AFeed? ==> SeenIn(DistributeVoltage(b, input).1) == SeenBelow(c, SeenIn(input)))
  {
    hide GetSlew, PowerNoise, LoadNoise, OfRated, Min, Max, TurnedOn;
  }

  lemma {:induction false} CalculateReads(before: Tree, node: Tree, input: Terminal, env: Env)
    requires WellShaped(node) && ToldTree(before, node)
    ensures ReadsTree(before, Pass(Calculating, node, input, env).0, SeenIn(input))
    decreases before, 1
  {
    hide DistributeVoltage, CalculateState, PassAll, ToldAll, Told, ReadsAll, Reads, AllShaped;
    var (a, childInput) := Down(Calculating, node.asset, input);
    var (kids, sum) := PassAll(Calculating, node.children, childInput, env);
    var collected := if node.children == [] then childInput else sum;
    CalculatingReads(before.asset, node.asset, input, collected, env);
    CalculateReadsAll(before.children, node.children, childInput, env);
    if !node.asset.AFeed? {
      NothingReads(before.children, node.children, childInput, SeenIn(input));
    }
  }

  lemma NothingReads(before: seq<Tree>, nodes: seq<Tree>, input: Terminal, at: Seen)
    requires nodes == [] && ToldAll(before, nodes)
    ensures ReadsAll(before, [], at)
  {
  }

  lemma {:induction false} CalculateReadsAll(before: seq<Tree>, nodes: seq<Tree>, input: Terminal, env: Env)
    requires AllShaped(nodes) && ToldAll(before, nodes)
    ensures ReadsAll(before, PassAll(Calculating, nodes, input, env).0, SeenIn(input))
    decreases before, 0
  {
    hide Pass, ToldTree, ReadsTree, WellShaped;
    if nodes != [] {
      var n := |nodes| - 1;
      CalculateReadsAll(before[..n], nodes[..n], input, env);
      CalculateReads(before[n], nodes[n], input, env);
    }
  }

  lemma UpdatingReads(a: Asset, b: Asset, at: Seen, input: Terminal, collected: Terminal, env: Env)
    requires Reads(a, b, at)
    ensures var c := UpdateState(DistributeLoad(b, input).0, collected, env).0;
      Reads(a, c, at) && SeenBelow(c, at) == SeenBelow(b, at)
  {
    hide GetX, GetY, TurnedOn, Overloaded;
  }

  lemma {:induction false} UpdateKeepsReads(before: Tree, node: Tree, at: Seen, input: Terminal, env: Env)
    requires ReadsTree(before, node, at)
    ensures ReadsTree(before, Pass(Updating, node, input, env).0, at)
    decreases before, 1
  {
    hide DistributeLoad, UpdateState, PassAll, ReadsAll, Reads, SeenBelow;
    var (a, childInput) := Down(Updating, node.asset, input);
    var (kids, sum) := PassAll(Updating, node.children, childInput, env);
    UpdatingReads(before.asset, node.asset, at, input, if node.children == [] then childInput else sum, env);
    UpdateKeepsReadsAll(before.children, node.children, SeenBelow(node.asset, at), childInput, env);
  }

  lemma {:induction false} UpdateKeepsReadsAll(before: seq<Tree>, nodes: seq<Tree>, at: Seen, input: Terminal, env: Env)
    requires ReadsAll(before, nodes, at)
    ensures ReadsAll(before, PassAll(Updating, nodes, input, env).0, at)
    decreases before, 0
  {
    hide Pass, ReadsTree;
    if nodes != [] {
      var n := |nodes| - 1;
      UpdateKeepsReadsAll(before[..n], nodes[..n], at, input, env);
      UpdateKeepsReads(before[n], nodes[n], at, input, env);
    }
  }

  // ---- Meters ---------------------------------------------------------------------------------------

  /** Active, reactive and apparent power. */
  datatype Flow = Flow(p: real, q: real, s: real)

  const NO_FLOW: Flow := Flow(0.0, 0.0, 0.0)

  function PlusFlow(a: Flow, b: Flow): Flow {
    Flow(a.p + b.p, a.q + b.q, a.s + b.s)
  }

  /** What reaches the terminal above a node: its own power, or through a closed feeder
      that of everything below it. Apparent power is added up, not recomputed. */
  function FlowUp(node: Tree): Flow
    decreases node, 1
  {
    match node.asset
    case AFeed(f) => if f.closed then FlowsUp(node.children) else NO_FLOW
    case AGen(g) => Flow(g.p, g.q, g.s)
    case ALoad(l) => Flow(l.p, l.q, l.s)
    case ASolar(s) => Flow(s.p, s.q, s.s)
    case AGrid(g) => Flow(g.p, g.q, g.s)
  }

  function FlowsUp(nodes: seq<Tree>): Flow
    decreases nodes, 0
  {
    if nodes == [] then NO_FLOW else PlusFlow(FlowsUp(nodes[..|nodes| - 1]), FlowUp(nodes[|nodes| - 1]))
  }

  /** Every feeder meters the flow through it, every other asset the apparent power of its
      own active and reactive power. */
  predicate Metered(node: Tree, env: Env)
    decreases node, 1
  {
    (match node.asset
     case AFeed(f) =>
       var flow := if f.closed then FlowsUp(node.children) else NO_FLOW;
       f.s == flow.s
       && (f.polrev ==> f.p == -flow.p && f.q == -flow.q)
       && (!f.polrev ==> f.p == flow.p && f.q == flow.q)
     case AGen(g) => g.s == env.rss(g.p, g.q)
     case ALoad(l) => l.s == env.rss(l.p, l.q)
     case ASolar(s) => s.s == env.rss(s.p, s.q)
     case AGrid(g) => true)
    && AllMetered(node.children, env)
  }

  predicate AllMetered(nodes: seq<Tree>, env: Env)
    decreases nodes, 0
  {
    forall i | 0 <= i < |nodes| :: Metered(nodes[i], env)
  }

  function FlowOf(t: Terminal): Flow {
    Flow(t.p, t.q, t.s)
  }

  lemma {:induction false} UpdateMeters(node: Tree, input: Terminal, env: Env)
    requires WellShaped(node)
    ensures var (after, output) := Pass(Updating, node, input, env);
      Metered(after, env) && FlowOf(output) == FlowUp(after)
    decreases node, 1
  {
    hide PassAll, AllShaped, AllMetered, FlowsUp, DistributeLoad, GetX, GetY, Overloaded;
    var (a, childInput) := Down(Updating, node.asset, input);
    LoadKeepsKind(node.asset, input);
    UpdateMetersAll(node.children, childInput, env);
  }

  lemma LoadKeepsKind(a: Asset, input: Terminal)
    ensures DistributeLoad(a, input).0 == a
  {
    hide GetX;
  }

  lemma {:induction false} UpdateMetersAll(nodes: seq<Tree>, input: Terminal, env: Env)
    requires AllShaped(nodes)
    ensures var (after, sum) := PassAll(Updating, nodes, input, env);
      AllMetered(after, env) && FlowOf(sum) == FlowsUp(after)
    decreases nodes, 0
  {
    hide Pass, Metered, WellShaped, FlowUp, GetX;
    if nodes != [] {
      var n := |nodes| - 1;
      UpdateMetersAll(nodes[..n], input, env);
      UpdateMeters(nodes[n], input, env);
      var after := PassAll(Updating, nodes, input, env).0;
      assert after[..n] == PassAll(Updating, nodes[..n], input, env).0;
    }
  }

  // ---- One whole tick ---------------------------------------------------------------------------------

  lemma GridPasses(root: Tree, env: Env)
    requires GridTree(root)
    ensures var t, u := Discovered(root, env), Calculated(root, env);
      ToldAll(root.children, t.children) && AllShaped(t.children) && t.asset.AGrid?
      && ReadsAll(root.children, u.children, Seen(t.asset.grid.v, t.asset.grid.f, t.asset.grid.ph))
      && AllShaped(u.children) && u.asset.AGrid?
      && u.asset.grid.v == t.asset.grid.v && u.asset.grid.f == t.asset.grid.f && u.asset.grid.ph == t.asset.grid.ph
  {
    hide PassAll, AllShaped, ToldAll, ReadsAll, AllDroopIn, AllReady, SumLines, SumPower, GetX, Slope, Offset;
    var mode := UpdateMode(root.asset, Term(root.asset)).1;
    DiscoverTellsAll(root.children, mode, env);
    DiscoverCollectsAll(root.children, mode, env);
    var t := Discovered(root, env);
    var volts := DistributeVoltage(t.asset, Term(t.asset)).1;
    CalculateReadsAll(root.children, t.children, volts, env);
    CalculateCollectsAll(t.children, volts, env);
  }

  /** After one tick of any tree every asset has obeyed its commands and the voltage it
      sees, reads the voltage and frequency of its island, and every feeder and the grid
      meter exactly what flows through them. */
  lemma TickReads(root: Tree, env: Env)
    requires GridTree(root)
    ensures var after := Tick(root, env);
      after.asset.AGrid?
      && var g := after.asset.grid;
      ReadsAll(root.children, after.children, Seen(g.v, g.f, g.ph))
      && AllMetered(after.children, env) && Flow(g.p, g.q, g.s) == FlowsUp(after.children)
  {
    hide PassAll, AllShaped, ReadsAll, AllMetered, FlowsUp, AllDroopIn, Discovered, Calculated, GetX;
    GridPasses(root, env);
    var t, u := Discovered(root, env), Calculated(root, env);
    var load := DistributeLoad(u.asset, Term(u.asset)).1;
    UpdateKeepsReadsAll(root.children, u.children, Seen(t.asset.grid.v, t.asset.grid.f, t.asset.grid.ph), load, env);
    UpdateMetersAll(u.children, load, env);
    NoneShaped(root, u, env);
  }

  lemma NoneShaped(root: Tree, u: Tree, env: Env)
    requires GridTree(root) && u == Calculated(root, env)
    ensures u.children != []
  {
    hide PassAll, GetX;
  }
}
