/** The three passes of one solver tick over a tree of assets, as functions on values. */
module PsmSolver {
  import opened PsmDroop
  import opened PsmAssets

  datatype Tree = Tree(asset: Asset, children: seq<Tree>)

  datatype Phase = Discovering | Calculating | Updating

  /** What an asset does on the way down. */
  function Down(phase: Phase, a: Asset, input: Terminal): (Asset, Terminal) {
    match phase
    case Discovering => UpdateMode(a, input)
    case Calculating => DistributeVoltage(a, input)
    case Updating => DistributeLoad(a, input)
  }

  /** What an asset does on the way up. */
  function Up(phase: Phase, a: Asset, input: Terminal, env: Env): (Asset, Terminal) {
    match phase
    case Discovering => GetLoadLines(a, input)
    case Calculating => CalculateState(a, input, env)
    case Updating => UpdateState(a, input, env)
  }

  /** discoverTree, calculateTree and updateTree have one shape: down through the asset,
      through every child with the same input, and up through the asset again. */
  function Pass(phase: Phase, node: Tree, input: Terminal, env: Env): (Tree, Terminal)
    decreases node, 1
  {
    var (a, childInput) := Down(phase, node.asset, input);
    var (kids, sum) := PassAll(phase, node.children, childInput, env);
    var (b, output) := Up(phase, a, if node.children == [] then childInput else sum, env);
    (Tree(b, kids), output)
  }

  /** The children in order, their outputs combined onto a zero terminal. */
  function PassAll(phase: Phase, nodes: seq<Tree>, input: Terminal, env: Env): (r: (seq<Tree>, Terminal))
    ensures |r.0| == |nodes|
    decreases nodes, 0
  {
    if nodes == [] then ([], ZERO)
    else
      var (kids, sum) := PassAll(phase, nodes[..|nodes| - 1], input, env);
      var (kid, output) := Pass(phase, nodes[|nodes| - 1], input, env);
      (kids + [kid], Combine(sum, output))
  }

  function Term(a: Asset): Terminal {
    match a
    case AFeed(f) => Terminal(f.v2, 0.0, f.p, f.q, f.s, f.f2, f.ph, f.dactive, f.dreactive, NO_DROOP)
    case AGrid(g) => Terminal(g.v, 0.0, g.p, g.q, g.s, g.f, g.ph, g.dactive, g.dreactive, NO_DROOP)
    case AGen(g) => Terminal(g.v, 0.0, g.p, g.q, g.s, g.f, g.ph, g.dactive, g.dreactive, NO_DROOP)
    case ALoad(l) => Terminal(l.v, 0.0, l.p, l.q, l.s, l.f, l.ph, NO_DROOP, NO_DROOP, NO_DROOP)
    case ASolar(s) => Terminal(s.v, 0.0, s.p, s.q, s.s, s.f, s.ph, NO_DROOP, NO_DROOP, NO_DROOP)
  }

  function Discovered(root: Tree, env: Env): Tree {
    Pass(Discovering, root, Term(root.asset), env).0
  }

  function Calculated(root: Tree, env: Env): Tree {
    var t := Discovered(root, env);
    Pass(Calculating, t, Term(t.asset), env).0
  }

  function Tick(root: Tree, env: Env): Tree {
    var t := Calculated(root, env);
    Pass(Updating, t, Term(t.asset), env).0
  }

  // ---- Shape -----------------------------------------------------------------------------

  /** Below the root: feeders hold something, generators, loads and solar hold nothing. */
  predicate WellShaped(node: Tree)
    decreases node, 1
  {
    (node.asset.AFeed? <==> node.children != []) && !node.asset.AGrid? && AllShaped(node.children)
  }

  predicate AllShaped(nodes: seq<Tree>)
    decreases nodes, 0
  {
    forall i | 0 <= i < |nodes| :: WellShaped(nodes[i])
  }

  // ---- Reference sums over an island ---------------------------------------------------------

  /** Two droop lines (active and reactive power), or the sum of several. */
  datatype Lines = Lines(slopeP: real, offsetP: real, slopeQ: real, offsetQ: real)

  datatype Power = Power(p: real, q: real)

  const NO_LINES: Lines := Lines(0.0, 0.0, 0.0, 0.0)

  const NO_POWER: Power := Power(0.0, 0.0)

  function PlusLines(a: Lines, b: Lines): Lines {
    Lines(a.slopeP + b.slopeP, a.offsetP + b.offsetP, a.slopeQ + b.slopeQ, a.offsetQ + b.offsetQ)
  }

  function Plus(a: Power, b: Power): Power {
    Power(a.p + b.p, a.q + b.q)
  }

  /** The droop lines of the running grid-forming generators reached from a node without
      passing an open feeder. */
  function IslandLines(node: Tree): Lines
    decreases node, 1
  {
    match node.asset
    case AFeed(f) => if f.closed then SumLines(node.children) else NO_LINES
    case AGen(g) =>
      if g.gridForming && g.on then Lines(g.dactive.slope, g.dactive.offset, g.dreactive.slope, g.dreactive.offset)
      else NO_LINES
    case _ => NO_LINES
  }

  function SumLines(nodes: seq<Tree>): Lines
    decreases nodes, 0
  {
    if nodes == [] then NO_LINES
    else PlusLines(SumLines(nodes[..|nodes| - 1]), IslandLines(nodes[|nodes| - 1]))
  }

  /** Which of the island's assets a sum counts. */
  datatype Counted = All | Following | LoadsOnly

  function OwnPower(which: Counted, a: Asset): Power {
    match a
    case AGen(g) => if which.All? || (which.Following? && !g.gridForming) then Power(g.p, g.q) else NO_POWER
    case ALoad(l) => Power(l.p, l.q)
    case ASolar(s) => if which.LoadsOnly? then NO_POWER else Power(s.p, s.q)
    case _ => NO_POWER
  }

  /** The power of the counted assets reached from a node without passing an open feeder. */
  function IslandPower(which: Counted, node: Tree): Power
    decreases node, 1
  {
    if node.asset.AFeed?
    then if node.asset.feed.closed then SumPower(which, node.children) else NO_POWER
    else OwnPower(which, node.asset)
  }

  function SumPower(which: Counted, nodes: seq<Tree>): Power
    decreases nodes, 0
  {
    if nodes == [] then NO_POWER
    else Plus(SumPower(which, nodes[..|nodes| - 1]), IslandPower(which, nodes[|nodes| - 1]))
  }

  /** The reactive power that the running grid-forming generators of the island last gave. */
  function IslandQ(node: Tree): real
    decreases node, 1
  {
    match node.asset
    case AFeed(f) => if f.closed then SumQ(node.children) else 0.0
    case AGen(g) => if g.gridForming && g.on then g.q else 0.0
    case _ => 0.0
  }

  function SumQ(nodes: seq<Tree>): real
    decreases nodes, 0
  {
    if nodes == [] then 0.0 else SumQ(nodes[..|nodes| - 1]) + IslandQ(nodes[|nodes| - 1])
  }

  /** The active power that the running grid-forming generators of the island last gave, and
      that its loads last drew. */
  function IslandP(node: Tree): real
    decreases node, 1
  {
    match node.asset
    case AFeed(f) => if f.closed then SumP(node.children) else 0.0
    case AGen(g) => if g.gridForming && g.on then g.p else 0.0
    case ALoad(l) => l.p
    case _ => 0.0
  }

  function SumP(nodes: seq<Tree>): real
    decreases nodes, 0
  {
    if nodes == [] then 0.0 else SumP(nodes[..|nodes| - 1]) + IslandP(nodes[|nodes| - 1])
  }

  /** The voltage of an island: where its lines meet the reactive power it last gave. */
  function IslandVoltage(nodes: seq<Tree>): real {
    var lines := SumLines(nodes);
    GetX(SumQ(nodes), lines.slopeQ, lines.offsetQ)
  }

  // ---- Signs of slopes -------------------------------------------------------------------------

  predicate Drooping(d: Droop) {
    d.slope < 0.0
  }

  /** Every generator droops downwards. */
  predicate AllDroop(node: Tree)
    decreases node, 1
  {
    (node.asset.AGen? ==> Drooping(node.asset.gen.dactive) && Drooping(node.asset.gen.dreactive))
    && AllDroopIn(node.children)
  }

  predicate AllDroopIn(nodes: seq<Tree>)
    decreases nodes, 0
  {
    forall i | 0 <= i < |nodes| :: AllDroop(nodes[i])
  }

  /** Both slopes are negative, or the island holds no running grid-forming generator. */
  predicate Signed(l: Lines) {
    l == NO_LINES || (l.slopeP < 0.0 && l.slopeQ < 0.0)
  }

  lemma {:induction false} LinesAreSigned(node: Tree)
    requires AllDroop(node)
    ensures Signed(IslandLines(node))
    decreases node, 1
  {
    hide SumLines;
    if node.asset.AFeed? {
      SumsAreSigned(node.children);
    }
  }

  lemma {:induction false} SumsAreSigned(nodes: seq<Tree>)
    requires AllDroopIn(nodes)
    ensures Signed(SumLines(nodes))
    decreases nodes, 0
  {
    hide IslandLines, AllDroop;
    if nodes != [] {
      SumsAreSigned(nodes[..|nodes| - 1]);
      LinesAreSigned(nodes[|nodes| - 1]);
    }
  }

  // ---- Discovering: the lines that reach a feeder are the lines of its island ------------------------

  function LinesOf(t: Terminal): Lines {
    Lines(t.dHertz.slope, t.dHertz.offset, t.dVolts.slope, t.dVolts.offset)
  }

  /** Every open feeder has stored the lines and the voltage of its island. */
  predicate Stored(node: Tree)
    decreases node, 1
  {
    (node.asset.AFeed? && !node.asset.feed.closed ==> StoredAt(node.asset.feed, SumLines(node.children), SumQ(node.children)))
    && AllStored(node.children)
  }

  predicate StoredAt(f: Feed, lines: Lines, q: real) {
    Lines(f.dactive.slope, f.dactive.offset, f.dreactive.slope, f.dreactive.offset) == lines
    && f.v2 == GetX(q, lines.slopeQ, lines.offsetQ)
  }

  predicate AllStored(nodes: seq<Tree>)
    decreases nodes, 0
  {
    forall i | 0 <= i < |nodes| :: Stored(nodes[i])
  }

  lemma {:induction false} DiscoverCollectsLines(node: Tree, input: Terminal, env: Env)
    requires WellShaped(node) && AllDroop(node)
    ensures var (after, output) := Pass(Discovering, node, input, env);
      WellShaped(after) && AllDroop(after) && Stored(after)
      && LinesOf(output) == IslandLines(after) && output.q == IslandQ(after)
    decreases node, 1
  {
    hide SumLines, SumQ, PassAll, AllShaped, AllDroopIn, AllStored, Combine, GetX;
    var (a, childInput) := Down(Discovering, node.asset, input);
    DiscoverCollectsAll(node.children, childInput, env);
  }

  lemma {:induction false} DiscoverCollectsAll(nodes: seq<Tree>, input: Terminal, env: Env)
    requires AllShaped(nodes) && AllDroopIn(nodes)
    ensures var (after, sum) := PassAll(Discovering, nodes, input, env);
      AllShaped(after) && AllDroopIn(after) && AllStored(after)
      && LinesOf(sum) == SumLines(after) && sum.q == SumQ(after)
      && sum.v == GetX(sum.q, sum.dVolts.slope, sum.dVolts.offset)
    decreases nodes, 0
  {
    hide Pass, IslandLines, IslandQ, WellShaped, AllDroop, Stored;
    if nodes != [] {
      DiscoverCollectsAll(nodes[..|nodes| - 1], input, env);
      DiscoverCollectsLines(nodes[|nodes| - 1], input, env);
    }
  }

  // ---- Calculating: what following assets supply, and who stays on -----------------------------------

  /** Droop lines that survive a voltage: at none or less every generator switches off. */
  function LinesAt(v: real, lines: Lines): Lines {
    if v > 0.0 then lines else NO_LINES
  }

  /** What the followers can supply at a voltage: nothing at zero, only loads below it. */
  predicate FollowsVoltage(v: real, follow: Power, loads: Power) {
    (v == 0.0 ==> follow == NO_POWER) && (v < 0.0 ==> follow == loads)
  }

  /** An open feeder is ready to share its island's load. */
  predicate ReadyAt(f: Feed, lines: Lines, follow: Power, loads: Power) {
    follow == (if f.polrev then Power(-f.p, -f.q) else Power(f.p, f.q))
    && FollowsVoltage(f.v2, follow, loads)
    && (f.v2 > 0.0 ==>
          lines == Lines(f.dactive.slope, f.dactive.offset, f.dreactive.slope, f.dreactive.offset)
          && lines.slopeP < 0.0 && lines.slopeQ < 0.0)
    && (f.v2 <= 0.0 ==> lines == NO_LINES)
  }

  predicate Ready(node: Tree)
    decreases node, 1
  {
    (node.asset.AFeed? && !node.asset.feed.closed ==>
       ReadyAt(node.asset.feed, SumLines(node.children), SumPower(Following, node.children), SumPower(LoadsOnly, node.children)))
    && AllReady(node.children)
  }

  predicate AllReady(nodes: seq<Tree>)
    decreases nodes, 0
  {
    forall i | 0 <= i < |nodes| :: Ready(nodes[i])
  }

  function PowerOf(t: Terminal): Power {
    Power(t.p, t.q)
  }

  lemma {:induction false} CalculateCollects(node: Tree, input: Terminal, env: Env)
    requires WellShaped(node) && AllDroop(node) && Stored(node)
    ensures var (after, output) := Pass(Calculating, node, input, env);
      WellShaped(after) && Ready(after)
      && PowerOf(output) == IslandPower(Following, after)
      && IslandLines(after) == LinesAt(input.v, IslandLines(node))
      && FollowsVoltage(input.v, IslandPower(Following, after), IslandPower(LoadsOnly, after))
    decreases node, 1
  {
    hide SumLines, SumPower, PassAll, AllShaped, AllDroopIn, AllStored, AllReady, Combine, PowerNoise, LoadNoise, GetSlew;
    var (a, childInput) := Down(Calculating, node.asset, input);
    CalculateCollectsAll(node.children, childInput, env);
    SumsAreSigned(node.children);
  }

  lemma {:induction false} CalculateCollectsAll(nodes: seq<Tree>, input: Terminal, env: Env)
    requires AllShaped(nodes) && AllDroopIn(nodes) && AllStored(nodes)
    ensures var (after, sum) := PassAll(Calculating, nodes, input, env);
      AllShaped(after) && AllReady(after)
      && PowerOf(sum) == SumPower(Following, after)
      && SumLines(after) == LinesAt(input.v, SumLines(nodes))
      && FollowsVoltage(input.v, SumPower(Following, after), SumPower(LoadsOnly, after))
    decreases nodes, 0
  {
    hide Pass, IslandLines, WellShaped, AllDroop, Stored, Ready, IslandPower;
    if nodes != [] {
      CalculateCollectsAll(nodes[..|nodes| - 1], input, env);
      CalculateCollects(nodes[|nodes| - 1], input, env);
    }
  }

  // ---- Updating: generators take up what the followers leave -------------------------------------------

  /** What lines deliver at a shared frequency and voltage. */
  function Delivered(lines: Lines, f: real, v: real): Power {
    Power(GetY(f, lines.slopeP, lines.offsetP), GetY(v, lines.slopeQ, lines.offsetQ))
  }

  /** Below every open feeder the power of the whole island adds up to zero, unless its
      voltage fell below zero, which leaves the loads running without a source. */
  predicate Balanced(node: Tree)
    decreases node, 1
  {
    (node.asset.AFeed? && !node.asset.feed.closed ==>
       SumPower(All, node.children) == if node.asset.feed.v2 >= 0.0 then NO_POWER else SumPower(LoadsOnly, node.children))
    && AllBalanced(node.children)
  }

  predicate AllBalanced(nodes: seq<Tree>)
    decreases nodes, 0
  {
    forall i | 0 <= i < |nodes| :: Balanced(nodes[i])
  }

  lemma DeliveredAdds(a: Lines, b: Lines, f: real, v: real)
    ensures Delivered(PlusLines(a, b), f, v) == Plus(Delivered(a, f, v), Delivered(b, f, v))
    ensures Delivered(NO_LINES, f, v) == NO_POWER
  {
  }

  /** The shared frequency and voltage make the lines deliver exactly what is missing. */
  lemma SharedLoad(lines: Lines, follow: Power)
    requires lines.slopeP != 0.0 && lines.slopeQ != 0.0
    ensures Delivered(lines, GetX(-follow.p, lines.slopeP, lines.offsetP), GetX(-follow.q, lines.slopeQ, lines.offsetQ))
      == Power(-follow.p, -follow.q)
  {
    LineRoundTrip(-follow.p, lines.slopeP, lines.offsetP);
    LineRoundTrip(-follow.q, lines.slopeQ, lines.offsetQ);
  }

  /** The load an open feeder passes down makes its island balance. */
  lemma OpenFeederShares(f: Feed, input: Terminal, lines: Lines, follow: Power, loads: Power)
    requires !f.closed && ReadyAt(f, lines, follow, loads)
    ensures var t := FeedDistributeLoad(f, input).1;
      Plus(follow, Delivered(lines, t.f, t.v)) == if f.v2 >= 0.0 then NO_POWER else loads
  {
    hide GetX, GetY;
    var t := FeedDistributeLoad(f, input).1;
    if f.v2 > 0.0 {
      SharedLoad(lines, follow);
    } else {
      NothingDelivered(t.f, t.v);
    }
  }

  lemma UpdatePassOfFeed(node: Tree, input: Terminal, env: Env)
    requires node.asset.AFeed? && node.children != []
    ensures var f := node.asset.feed;
      var (kids, sum) := PassAll(Updating, node.children, FeedDistributeLoad(f, input).1, env);
      var (after, output) := Pass(Updating, node, input, env);
      after == Tree(AFeed(FeedUpdateState(f, sum).0), kids) && output == FeedUpdateState(f, sum).1
  {
    hide PassAll, FeedUpdateState, FeedDistributeLoad;
    var f := node.asset.feed;
    assert FeedDistributeLoad(f, input).0 == f by { FeederKeepsLoadState(f, input); }
  }

  lemma FeederKeepsLoadState(f: Feed, input: Terminal)
    ensures FeedDistributeLoad(f, input).0 == f
  {
  }

  lemma UpdatePassOfLeaf(node: Tree, input: Terminal, env: Env)
    requires (node.asset.AGen? || node.asset.ALoad? || node.asset.ASolar?) && node.children == []
    ensures Pass(Updating, node, input, env) ==
      (var (b, output) := UpdateState(node.asset, input, env); (Tree(b, []), output))
  {
    hide UpdateState;
  }

  /** What a pass of the update phase must establish at one node. */
  predicate Settles(node: Tree, after: Tree, output: Terminal, f: real, v: real) {
    Balanced(after)
    && PowerOf(output) == IslandPower(All, after)
    && IslandPower(All, after) == Plus(IslandPower(Following, node), Delivered(IslandLines(node), f, v))
    && IslandPower(LoadsOnly, after) == IslandPower(LoadsOnly, node)
  }

  lemma FeederSettles(f: Feed, before: seq<Tree>, after: seq<Tree>, input: Terminal, sum: Terminal)
    requires !f.closed ==> ReadyAt(f, SumLines(before), SumPower(Following, before), SumPower(LoadsOnly, before))
    requires var t := FeedDistributeLoad(f, input).1;
      AllBalanced(after) && PowerOf(sum) == SumPower(All, after)
      && SumPower(All, after) == Plus(SumPower(Following, before), Delivered(SumLines(before), t.f, t.v))
      && SumPower(LoadsOnly, after) == SumPower(LoadsOnly, before)
    ensures Settles(Tree(AFeed(f), before), Tree(AFeed(FeedUpdateState(f, sum).0), after), FeedUpdateState(f, sum).1, input.f, input.v)
  {
    hide SumLines, SumPower, AllBalanced, Delivered, ReadyAt, IslandPower, IslandLines, Balanced, FeedUpdateState, FeedDistributeLoad;
    FeederOutput(f, input, sum);
    var was, now := Tree(AFeed(f), before), Tree(AFeed(FeedUpdateState(f, sum).0), after);
    FeederSums(was);
    FeederSums(now);
    if !f.closed {
      NothingDelivered(input.f, input.v);
      OpenFeederShares(f, input, SumLines(before), SumPower(Following, before), SumPower(LoadsOnly, before));
    }
  }

  lemma FeederOutput(f: Feed, input: Terminal, sum: Terminal)
    ensures var (g, output) := FeedUpdateState(f, sum);
      g.closed == f.closed && g.v2 == f.v2 && PowerOf(output) == if f.closed then PowerOf(sum) else NO_POWER
    ensures f.closed ==> FeedDistributeLoad(f, input).1 == input
  {
  }

  /** The sums of a feeder, spelled out. */
  lemma FeederSums(node: Tree)
    requires node.asset.AFeed?
    ensures node.asset.feed.closed ==>
      IslandLines(node) == SumLines(node.children) && (forall w :: IslandPower(w, node) == SumPower(w, node.children))
      && (Balanced(node) <==> AllBalanced(node.children))
    ensures !node.asset.feed.closed ==>
      IslandLines(node) == NO_LINES && (forall w :: IslandPower(w, node) == NO_POWER)
      && (Balanced(node) <==>
            (AllBalanced(node.children)
             && SumPower(All, node.children) == if node.asset.feed.v2 >= 0.0 then NO_POWER else SumPower(LoadsOnly, node.children)))
  {
    hide SumLines, SumPower, AllBalanced;
  }

  lemma {:induction false} UpdateBalances(node: Tree, input: Terminal, env: Env)
    requires WellShaped(node) && Ready(node)
    ensures var (after, output) := Pass(Updating, node, input, env);
      Settles(node, after, output, input.f, input.v)
    decreases node, 1
  {
    hide Pass, SumLines, SumPower, PassAll, AllShaped, AllBalanced, AllReady, Delivered, ReadyAt, UpdateState, FeedDistributeLoad, FeedUpdateState, Settles;
    if node.asset.AFeed? {
      var f := node.asset.feed;
      var t := FeedDistributeLoad(f, input).1;
      UpdatePassOfFeed(node, input, env);
      UpdateBalancesAll(node.children, t, env);
      var (kids, sum) := PassAll(Updating, node.children, t, env);
      FeederSettles(f, node.children, kids, input, sum);
    } else {
      UpdatePassOfLeaf(node, input, env);
      LeafSettles(node.asset, input, env);
    }
  }

  lemma LeafSettles(a: Asset, input: Terminal, env: Env)
    requires a.AGen? || a.ALoad? || a.ASolar?
    ensures var (b, output) := UpdateState(a, input, env);
      Settles(Tree(a, []), Tree(b, []), output, input.f, input.v)
  {
    hide UpdateState, Delivered;
    LeafDelivers(a, input, env);
    var (b, output) := UpdateState(a, input, env);
    assert AllBalanced([]);
    assert Balanced(Tree(b, []));
    assert IslandPower(All, Tree(b, [])) == OwnPower(All, b);
    assert IslandPower(Following, Tree(a, [])) == OwnPower(Following, a);
    assert IslandPower(LoadsOnly, Tree(b, [])) == OwnPower(LoadsOnly, b);
    assert IslandPower(LoadsOnly, Tree(a, [])) == OwnPower(LoadsOnly, a);
  }

  lemma LeafDelivers(a: Asset, input: Terminal, env: Env)
    requires a.AGen? || a.ALoad? || a.ASolar?
    ensures var (b, output) := UpdateState(a, input, env);
      PowerOf(output) == OwnPower(All, b)
      && OwnPower(All, b) == Plus(OwnPower(Following, a), Delivered(IslandLines(Tree(a, [])), input.f, input.v))
      && OwnPower(LoadsOnly, b) == OwnPower(LoadsOnly, a)
      && (b.AGen? <==> a.AGen?) && (b.ALoad? <==> a.ALoad?) && (b.ASolar? <==> a.ASolar?)
  {
    hide GetY;
    NothingDelivered(input.f, input.v);
  }

  lemma NothingDelivered(f: real, v: real)
    ensures Delivered(NO_LINES, f, v) == NO_POWER
  {
  }

  lemma {:induction false} UpdateBalancesAll(nodes: seq<Tree>, input: Terminal, env: Env)
    requires AllShaped(nodes) && AllReady(nodes)
    ensures var (after, sum) := PassAll(Updating, nodes, input, env);
      AllBalanced(after)
      && PowerOf(sum) == SumPower(All, after)
      && SumPower(All, after) == Plus(SumPower(Following, nodes), Delivered(SumLines(nodes), input.f, input.v))
      && SumPower(LoadsOnly, after) == SumPower(LoadsOnly, nodes)
    decreases nodes, 0
  {
    hide Pass, IslandLines, WellShaped, Ready, IslandPower, Balanced, Delivered;
    DeliveredAdds(NO_LINES, NO_LINES, input.f, input.v);
    if nodes != [] {
      UpdateBalancesAll(nodes[..|nodes| - 1], input, env);
      UpdateBalances(nodes[|nodes| - 1], input, env);
      DeliveredAdds(SumLines(nodes[..|nodes| - 1]), IslandLines(nodes[|nodes| - 1]), input.f, input.v);
    }
  }

  // ---- One whole tick --------------------------------------------------------------------------------------

  /** The grid's own droop share at a shared frequency and voltage. */
  function GridShare(g: Grid, f: real, v: real): Power {
    var dp, dq := Commanded(g.dactive, g.fcmd), Commanded(g.dreactive, g.vcmd);
    Power(GetY(f, dp.slope, dp.offset), GetY(v, dq.slope, dq.offset))
  }

  predicate GridTree(root: Tree) {
    root.asset.AGrid? && root.children != [] && AllShaped(root.children) && AllDroopIn(root.children)
  }

  /** The grid's own lines droop downwards under the commanded frequency and voltage. */
  predicate GridDroops(g: Grid) {
    Drooping(Commanded(g.dactive, g.fcmd)) && Drooping(Commanded(g.dreactive, g.vcmd))
  }

  /** The frequency and voltage at which the grid's tree shares its load this tick. */
  function SharedTerminal(root: Tree, env: Env): Terminal {
    var t := Calculated(root, env);
    Down(Updating, t.asset, Term(t.asset)).1
  }

  function Negated(x: Power): Power {
    Power(-x.p, -x.q)
  }

  function GridLines(g: Grid): Lines {
    var dp, dq := Commanded(g.dactive, g.fcmd), Commanded(g.dreactive, g.vcmd);
    Lines(dp.slope, dp.offset, dq.slope, dq.offset)
  }

  /** The grid after discovering: its stored lines are its own plus the tree's. */
  lemma DiscoverGrid(root: Tree, env: Env)
    requires GridTree(root)
    ensures var t := Discovered(root, env);
      t.asset.AGrid? && t.children != [] && AllShaped(t.children) && AllDroopIn(t.children) && AllStored(t.children)
      && var g := t.asset.grid;
      Lines(g.dactiveExternal.slope, g.dactiveExternal.offset, g.dreactiveExternal.slope, g.dreactiveExternal.offset)
        == PlusLines(GridLines(root.asset.grid), SumLines(t.children))
  {
    hide SumLines, PassAll, AllShaped, AllDroopIn, AllStored, GetX, Slope, Offset;
    DiscoverCollectsAll(root.children, UpdateMode(root.asset, Term(root.asset)).1, env);
  }

  /** The grid after calculating: it holds what the followers supply at its voltage. */
  lemma CalculateGrid(t: Tree, env: Env)
    requires t.asset.AGrid? && t.children != [] && AllShaped(t.children) && AllDroopIn(t.children) && AllStored(t.children)
    ensures var u := Pass(Calculating, t, Term(t.asset), env).0;
      u.asset.AGrid? && u.children != [] && AllShaped(u.children) && AllReady(u.children)
      && var g, h := t.asset.grid, u.asset.grid;
      h.v == g.v && h.dactiveExternal == g.dactiveExternal && h.dreactiveExternal == g.dreactiveExternal
      && Power(h.p, h.q) == SumPower(Following, u.children)
      && SumLines(u.children) == LinesAt(g.v, SumLines(t.children))
      && FollowsVoltage(g.v, SumPower(Following, u.children), SumPower(LoadsOnly, u.children))
  {
    hide SumLines, SumPower, PassAll, AllShaped, AllDroopIn, AllStored, AllReady, LinesAt;
    CalculateCollectsAll(t.children, DistributeVoltage(t.asset, Term(t.asset)).1, env);
  }

  /** The grid after updating: it supplies what its tree sums up to. */
  lemma UpdateGrid(u: Tree, env: Env)
    requires u.asset.AGrid? && u.children != [] && AllShaped(u.children) && AllReady(u.children)
    ensures var w := Pass(Updating, u, Term(u.asset), env).0;
      var shared := Down(Updating, u.asset, Term(u.asset)).1;
      w.asset.AGrid? && AllBalanced(w.children)
      && Power(w.asset.grid.p, w.asset.grid.q) == SumPower(All, w.children)
      && SumPower(All, w.children) == Plus(SumPower(Following, u.children), Delivered(SumLines(u.children), shared.f, shared.v))
      && SumPower(LoadsOnly, w.children) == SumPower(LoadsOnly, u.children)
  {
    hide SumLines, SumPower, PassAll, AllShaped, AllReady, AllBalanced, Delivered, GetX;
    UpdateBalancesAll(u.children, DistributeLoad(u.asset, Term(u.asset)).1, env);
  }

  /** Sharing between the grid and its tree. */
  lemma GridShares(own: Lines, tree: Lines, follow: Power, f: real, v: real)
    requires own.slopeP < 0.0 && own.slopeQ < 0.0 && Signed(tree)
    requires f == GetX(-follow.p, own.slopeP + tree.slopeP, own.offsetP + tree.offsetP)
    requires v == GetX(-follow.q, own.slopeQ + tree.slopeQ, own.offsetQ + tree.offsetQ)
    ensures Plus(follow, Delivered(tree, f, v)) == Negated(Delivered(own, f, v))
  {
    hide GetX, Delivered;
    SharedLoad(PlusLines(own, tree), follow);
    DeliveredAdds(own, tree, f, v);
  }

  /** Droop balance. After one tick from any state of any tree: below every open feeder
      whose voltage is not negative the power sums to zero, active and reactive; the grid
      carries exactly the sum of its tree; and at a positive grid voltage that sum is minus
      the grid's own droop share at the shared frequency and voltage. */
  lemma TickBalances(root: Tree, env: Env)
    requires GridTree(root) && GridDroops(root.asset.grid)
    ensures var after := Tick(root, env);
      var v := Discovered(root, env).asset;
      var shared := SharedTerminal(root, env);
      after.asset.AGrid? && v.AGrid?
      && AllBalanced(after.children)
      && var carried := Power(after.asset.grid.p, after.asset.grid.q);
      carried == SumPower(All, after.children)
      && (v.grid.v > 0.0 ==> carried == Negated(GridShare(root.asset.grid, shared.f, shared.v)))
      && (v.grid.v == 0.0 ==> carried == NO_POWER)
      && (v.grid.v < 0.0 ==> carried == SumPower(LoadsOnly, after.children))
  {
    hide Pass, PassAll, SumLines, SumPower, AllShaped, AllDroopIn, AllStored, AllReady, AllBalanced, GetX, GetY, Slope, Offset, Discovered;
    DiscoverGrid(root, env);
    var t := Discovered(root, env);
    CalculateGrid(t, env);
    var u := Calculated(root, env);
    UpdateGrid(u, env);
    var shared := SharedTerminal(root, env);
    NothingDelivered(shared.f, shared.v);
    if t.asset.grid.v > 0.0 {
      SumsAreSigned(t.children);
      GridShares(GridLines(root.asset.grid), SumLines(t.children), SumPower(Following, u.children), shared.f, shared.v);
    }
  }

  /** The grid gives nothing at its commanded frequency and voltage, and its nominal power
      one droop percentage below each. */
  lemma GridMeetsNominals(g: Grid)
    ensures GridShare(g, g.fcmd, g.vcmd) == NO_POWER
    ensures g.fcmd * g.dactive.percent != 0.0 ==>
      GridShare(g, g.fcmd * (1.0 - g.dactive.percent), g.vcmd).p == g.dactive.yNom
    ensures g.vcmd * g.dreactive.percent != 0.0 ==>
      GridShare(g, g.fcmd, g.vcmd * (1.0 - g.dreactive.percent)).q == g.dreactive.yNom
  {
    hide GetY, Slope, Offset;
    SlopeMeetsNominals(g.dactive.percent, g.dactive.yNom, g.fcmd);
    SlopeMeetsNominals(g.dreactive.percent, g.dreactive.yNom, g.vcmd);
  }
}
