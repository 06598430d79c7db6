/** Droop balance told from the state before the tick: which islands will balance is
    decided by the commands, the lines and the last reactive powers alone. */
module PsmIslands {
  import opened PsmDroop
  import opened PsmAssets
  import opened PsmSolver

  // ---- The modes of a tick -------------------------------------------------------------------

  /** The tree with its pending commands taken, as a caller can work it out. */
  function Moded(node: Tree): Tree
    decreases node, 1
  {
    Tree(UpdateMode(node.asset, ZERO).0, ModedAll(node.children))
  }

  function ModedAll(nodes: seq<Tree>): (r: seq<Tree>)
    ensures |r| == |nodes|
    decreases nodes, 0
  {
    if nodes == [] then [] else ModedAll(nodes[..|nodes| - 1]) + [Moded(nodes[|nodes| - 1])]
  }

  /** The voltage that the tick will give the island below a node. */
  function Voltage(children: seq<Tree>): real {
    IslandVoltage(ModedAll(children))
  }

  /** The frequency that the tick will give it. */
  function Frequency(children: seq<Tree>): real {
    var lines := SumLines(ModedAll(children));
    GetX(SumP(ModedAll(children)), lines.slopeP, lines.offsetP)
  }

  predicate WillOpen(a: Asset) {
    a.AFeed? && !FeedCommands(a.feed).closed
  }

  /** In the later tree, open feeders are those the commands open, and each holds the
      voltage and the frequency foretold for its island. */
  predicate Foretold(before: Tree, after: Tree)
    decreases before, 1
  {
    (after.asset.AFeed? <==> before.asset.AFeed?)
    && (before.asset.AFeed? ==> after.asset.feed.closed == FeedCommands(before.asset.feed).closed)
    && (WillOpen(before.asset) ==> after.asset.feed.v2 == Voltage(before.children) && after.asset.feed.f2 == Frequency(before.children))
    && AllForetold(before.children, after.children)
  }

  predicate AllForetold(before: seq<Tree>, after: seq<Tree>)
    decreases before, 0
  {
    |before| == |after| && forall i | 0 <= i < |before| :: Foretold(before[i], after[i])
  }

  lemma ModesDecide(a: Asset, input: Terminal)
    ensures var b, m := UpdateMode(a, input).0, UpdateMode(a, ZERO).0;
      (b.AFeed? <==> a.AFeed?) && (m.AFeed? <==> a.AFeed?) && (b.AGrid? <==> a.AGrid?)
      && (a.AFeed? ==> b.feed.closed == m.feed.closed == FeedCommands(a.feed).closed)
      && (!a.AFeed? ==> b == m)
  {
    hide FeedCommands, GenFormingMode;
  }

  lemma LinesKeepMode(a: Asset, input: Terminal)
    ensures var b := GetLoadLines(a, input).0;
      (b.AFeed? <==> a.AFeed?) && (a.AFeed? ==> b.feed.closed == a.feed.closed)
      && (a.AFeed? && !a.feed.closed ==> b.feed.v2 == input.v && b.feed.f2 == input.f)
      && (!a.AFeed? && !a.AGrid? ==> b == a)
  {
  }

  lemma PowerGivenUp(a: Asset, input: Terminal, sum: Terminal)
    requires !a.AFeed? && !a.AGrid?
    ensures GetLoadLines(UpdateMode(a, input).0, sum).1.p == IslandP(Tree(UpdateMode(a, ZERO).0, []))
  {
  }

  lemma PowerPassedUp(f: Feed, sum: Terminal)
    ensures FeedGetLoadLines(f, sum).1.p == if f.closed then sum.p else 0.0
  {
  }

  /** Discovering adds up the active power last given and drawn. */
  lemma {:induction false} DiscoverSumsPower(node: Tree, input: Terminal, env: Env)
    requires WellShaped(node)
    ensures Pass(Discovering, node, input, env).1.p == IslandP(Moded(node))
    decreases node, 1
  {
    hide UpdateMode, GetLoadLines, SumP, PassAll, ModedAll, AllShaped, FeedCommands, FeedGetLoadLines;
    var (a, childInput) := UpdateMode(node.asset, input);
    DiscoverSumsPowerAll(node.children, childInput, env);
    var (kids, sum) := PassAll(Discovering, node.children, childInput, env);
    ModesDecide(node.asset, input);
    if node.asset.AFeed? {
      PowerPassedUp(a.feed, sum);
      FeederLines(a, sum);
    } else {
      PowerGivenUp(node.asset, input, childInput);
      LeafPower(Moded(node));
    }
  }

  lemma FeederLines(a: Asset, sum: Terminal)
    requires a.AFeed?
    ensures GetLoadLines(a, sum).1 == FeedGetLoadLines(a.feed, sum).1
  {
    hide FeedGetLoadLines;
  }

  lemma LeafPower(node: Tree)
    requires !node.asset.AFeed?
    ensures IslandP(node) == IslandP(Tree(node.asset, []))
  {
  }

  lemma {:induction false} DiscoverSumsPowerAll(nodes: seq<Tree>, input: Terminal, env: Env)
    requires AllShaped(nodes)
    ensures var sum := PassAll(Discovering, nodes, input, env).1;
      sum.p == SumP(ModedAll(nodes)) && sum.f == GetX(sum.p, sum.dHertz.slope, sum.dHertz.offset)
    decreases nodes, 0
  {
    hide Pass, Moded, IslandP, WellShaped;
    if nodes != [] {
      var n := |nodes| - 1;
      DiscoverSumsPowerAll(nodes[..n], input, env);
      DiscoverSumsPower(nodes[n], input, env);
      assert ModedAll(nodes)[..n] == ModedAll(nodes[..n]);
    }
  }

  /** Discovering establishes what was foretold. */
  lemma {:induction false} DiscoverForetells(node: Tree, input: Terminal, env: Env)
    requires WellShaped(node) && AllDroop(node)
    ensures var after := Pass(Discovering, node, input, env).0;
      Foretold(node, after)
      && IslandLines(after) == IslandLines(Moded(node)) && IslandQ(after) == IslandQ(Moded(node))
    decreases node, 1
  {
    hide UpdateMode, GetLoadLines, SumLines, SumQ, SumP, PassAll, ModedAll, AllShaped, AllDroopIn, AllForetold, Combine, FeedCommands, GetX;
    var (a, childInput) := UpdateMode(node.asset, input);
    DiscoverForetellsAll(node.children, childInput, env);
    DiscoverCollectsAll(node.children, childInput, env);
    DiscoverSumsPowerAll(node.children, childInput, env);
    var (kids, sum) := PassAll(Discovering, node.children, childInput, env);
    ModesDecide(node.asset, input);
    LinesKeepMode(a, if node.children == [] then childInput else sum);
  }

  lemma {:induction false} DiscoverForetellsAll(nodes: seq<Tree>, input: Terminal, env: Env)
    requires AllShaped(nodes) && AllDroopIn(nodes)
    ensures var after := PassAll(Discovering, nodes, input, env).0;
      AllForetold(nodes, after)
      && SumLines(after) == SumLines(ModedAll(nodes)) && SumQ(after) == SumQ(ModedAll(nodes))
    decreases nodes, 0
  {
    hide Pass, Moded, IslandLines, IslandQ, WellShaped, AllDroop, Foretold;
    if nodes != [] {
      var n := |nodes| - 1;
      DiscoverForetellsAll(nodes[..n], input, env);
      DiscoverForetells(nodes[n], input, env);
      var after, moded := PassAll(Discovering, nodes, input, env).0, ModedAll(nodes);
      assert after[..n] == PassAll(Discovering, nodes[..n], input, env).0;
      assert moded[..n] == ModedAll(nodes[..n]);
    }
  }

  lemma PhasesKeepFeeder(phase: Phase, a: Asset, input: Terminal, collected: Terminal, env: Env)
    requires phase != Discovering
    ensures var b := Up(phase, Down(phase, a, input).0, collected, env).0;
      (b.AFeed? <==> a.AFeed?)
      && (a.AFeed? ==> b.feed.closed == a.feed.closed && (!a.feed.closed ==> b.feed.v2 == a.feed.v2 && b.feed.f2 == a.feed.f2))
  {
    hide GetX, GetY, GetSlew, PowerNoise, LoadNoise;
  }

  /** The later passes leave it as it is. */
  lemma {:induction false} PassKeepsForetold(phase: Phase, before: Tree, node: Tree, input: Terminal, env: Env)
    requires phase != Discovering && Foretold(before, node)
    ensures Foretold(before, Pass(phase, node, input, env).0)
    decreases before, 1
  {
    hide Down, Up, PassAll, AllForetold, FeedCommands, Voltage, Frequency;
    var (a, childInput) := Down(phase, node.asset, input);
    var (kids, sum) := PassAll(phase, node.children, childInput, env);
    PassAllKeepsForetold(phase, before.children, node.children, childInput, env);
    PhasesKeepFeeder(phase, node.asset, input, if node.children == [] then childInput else sum, env);
  }

  lemma {:induction false} PassAllKeepsForetold(phase: Phase, before: seq<Tree>, nodes: seq<Tree>, input: Terminal, env: Env)
    requires phase != Discovering && AllForetold(before, nodes)
    ensures AllForetold(before, PassAll(phase, nodes, input, env).0)
    decreases before, 0
  {
    hide Pass, Foretold;
    if nodes != [] {
      var n := |nodes| - 1;
      PassAllKeepsForetold(phase, before[..n], nodes[..n], input, env);
      PassKeepsForetold(phase, before[n], nodes[n], input, env);
    }
  }

  // ---- Balance, foretold ---------------------------------------------------------------------------

  /** Below every feeder that the commands leave open, the power after the tick sums to
      zero if the voltage foretold is not negative, and otherwise to its loads alone. */
  predicate BalancedAs(before: Tree, after: Tree)
    decreases before, 1
  {
    (WillOpen(before.asset) ==>
       SumPower(All, after.children) ==
         if Voltage(before.children) >= 0.0 then NO_POWER else SumPower(LoadsOnly, after.children))
    && AllBalancedAs(before.children, after.children)
  }

  predicate AllBalancedAs(before: seq<Tree>, after: seq<Tree>)
    decreases before, 0
  {
    |before| == |after| && forall i | 0 <= i < |before| :: BalancedAs(before[i], after[i])
  }

  lemma {:induction false} ForetoldBalance(before: Tree, after: Tree)
    requires Foretold(before, after) && Balanced(after)
    ensures BalancedAs(before, after)
    decreases before, 1
  {
    hide AllForetold, AllBalanced, AllBalancedAs, SumPower, Voltage, Frequency, FeedCommands;
    ForetoldBalances(before.children, after.children);
  }

  lemma {:induction false} ForetoldBalances(before: seq<Tree>, after: seq<Tree>)
    requires AllForetold(before, after) && AllBalanced(after)
    ensures AllBalancedAs(before, after)
    decreases before, 0
  {
    hide Foretold, Balanced, BalancedAs;
    forall i | 0 <= i < |before| ensures BalancedAs(before[i], after[i]) {
      ForetoldBalance(before[i], after[i]);
    }
  }

  /** The voltage that the tick will give the grid: where its own lines and its tree's meet
      the reactive power they last gave. */
  function GridVoltage(root: Tree): real
    requires root.asset.AGrid?
  {
    var g, tree := GridLines(root.asset.grid), SumLines(ModedAll(root.children));
    GetX(root.asset.grid.q + SumQ(ModedAll(root.children)), g.slopeQ + tree.slopeQ, g.offsetQ + tree.offsetQ)
  }

  /** The frequency, from the active power that the grid and the generators last gave and
      the loads last drew. */
  function GridFrequency(root: Tree): real
    requires root.asset.AGrid?
  {
    var g, tree := GridLines(root.asset.grid), SumLines(ModedAll(root.children));
    GetX(root.asset.grid.p + SumP(ModedAll(root.children)), g.slopeP + tree.slopeP, g.offsetP + tree.offsetP)
  }

  lemma DiscoverGridForetold(root: Tree, env: Env)
    requires GridTree(root)
    ensures var t := Discovered(root, env);
      t.asset.AGrid? && AllForetold(root.children, t.children)
      && t.asset.grid.v == GridVoltage(root) && t.asset.grid.f == GridFrequency(root)
  {
    hide SumLines, SumQ, SumP, ModedAll, PassAll, AllShaped, AllDroopIn, AllStored, AllForetold, GetX, Slope, Offset;
    var childInput := UpdateMode(root.asset, Term(root.asset)).1;
    DiscoverCollectsAll(root.children, childInput, env);
    DiscoverForetellsAll(root.children, childInput, env);
    DiscoverSumsPowerAll(root.children, childInput, env);
  }

  lemma LaterPassesKeepForetold(before: seq<Tree>, root: Tree, phase: Phase, env: Env)
    requires phase != Discovering && AllForetold(before, root.children)
    ensures AllForetold(before, Pass(phase, root, Term(root.asset), env).0.children)
  {
    hide AllForetold, PassAll, Down, Up;
    PassAllKeepsForetold(phase, before, root.children, Down(phase, root.asset, Term(root.asset)).1, env);
  }

  lemma GridKeepsVoltage(root: Tree, phase: Phase, env: Env)
    requires phase != Discovering && root.asset.AGrid?
    ensures var a := Pass(phase, root, Term(root.asset), env).0.asset;
      a.AGrid? && a.grid.v == root.asset.grid.v && a.grid.f == root.asset.grid.f
  {
    hide PassAll, GetX;
  }

  /** Droop balance, told from any state of any tree before the tick: which feeders will be
      open, at which voltage and frequency, whether each of their islands balances, and what the grid
      carries. */
  lemma TickBalancesAsForetold(root: Tree, env: Env)
    requires GridTree(root) && GridDroops(root.asset.grid)
    ensures var after := Tick(root, env);
      var shared := SharedTerminal(root, env);
      after.asset.AGrid? && AllForetold(root.children, after.children) && AllBalancedAs(root.children, after.children)
      && after.asset.grid.v == GridVoltage(root) && after.asset.grid.f == GridFrequency(root)
      && var carried := Power(after.asset.grid.p, after.asset.grid.q);
      carried == SumPower(All, after.children)
      && carried ==
        if GridVoltage(root) > 0.0 then Negated(GridShare(root.asset.grid, shared.f, shared.v))
        else if GridVoltage(root) == 0.0 then NO_POWER
        else SumPower(LoadsOnly, after.children)
  {
    hide Pass, AllForetold, AllBalanced, AllBalancedAs, SumPower, GridVoltage, GridFrequency, GridDroops, Discovered, GridShare, AllShaped, AllDroopIn;
    TickBalances(root, env);
    DiscoverGridForetold(root, env);
    LaterPassesKeepForetold(root.children, Discovered(root, env), Calculating, env);
    LaterPassesKeepForetold(root.children, Calculated(root, env), Updating, env);
    ForetoldBalances(root.children, Tick(root, env).children);
    GridKeepsVoltage(Discovered(root, env), Calculating, env);
    GridKeepsVoltage(Calculated(root, env), Updating, env);
  }
}
