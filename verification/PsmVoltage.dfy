/** Why the balance below an open feeder needs a voltage that is not negative. */
module PsmVoltage {
  import opened PsmDroop
  import opened PsmAssets
  import opened PsmSolver
  import opened PsmIslands

  /** The line that full droop over nominal values of one gives. */
  const FALLING: Droop := Droop(1.0, 1.0, 1.0, -1.0, 1.0)

  lemma FallingIsInitialised()
    ensures FALLING.slope == Slope(FALLING.percent, FALLING.yNom, FALLING.xNom)
    ensures FALLING.offset == Offset(FALLING.percent, FALLING.yNom, FALLING.xNom)
  {
  }

  /** A running grid-forming generator whose last reactive output was twice its nominal. */
  const SOURCE: Gen := Gen(
    "source", true, false, false, true, false, false,
    0.0, 0.0, 0.0, 0.0, 2.0, 0.0,
    0.0, 0.0, 0.0, 0.0, false, 0.0, 0.0,
    1.0, 1.0, FALLING, FALLING)

  const CONSUMER: Load := Load(
    "consumer", true, false, false,
    0.0, 0.0, 0.0, 5.0, 0.0, 0.0,
    5.0, 0.0, 0.0, 0.0, 0.0,
    false, 0.0, 0.0, 0.0, 0.0)

  const BREAKER: Feed := Feed(
    false, false, false, false, false, false,
    0.0, 0.0, 0.0, 0.0, 0.0, 0.0, 0.0, 0.0,
    100.0, 100.0, 100.0, false, NO_DROOP, NO_DROOP)

  const ISLAND: Tree := Tree(AFeed(BREAKER), [Tree(AGen(SOURCE), []), Tree(ALoad(CONSUMER), [])])

  lemma PairPass(phase: Phase, a: Tree, b: Tree, input: Terminal, env: Env)
    ensures var x, y := Pass(phase, a, input, env), Pass(phase, b, input, env);
      PassAll(phase, [a, b], input, env) == ([x.0, y.0], Combine(Combine(ZERO, x.1), y.1))
  {
    hide Pass, Combine;
    var x, y := Pass(phase, a, input, env), Pass(phase, b, input, env);
    assert [a][..0] == [] && [a, b][..1] == [a];
    assert PassAll(phase, [], input, env) == ([], ZERO);
    assert PassAll(phase, [a], input, env) == ([] + [x.0], Combine(ZERO, x.1));
    assert [] + [x.0] == [x.0] && [x.0] + [y.0] == [x.0, y.0];
  }

  /** Discovering gives the island a negative voltage. */
  lemma IslandDiscovered(input: Terminal, env: Env)
    ensures var after := Pass(Discovering, ISLAND, input, env).0;
      after.asset.AFeed? && !after.asset.feed.closed && after.asset.feed.v2 == -1.0
      && after.children == ISLAND.children
  {
    hide PassAll, Combine;
    var down := VoltTerminal(0.0, 0.0, 0.0);
    var a, b := ISLAND.children[0], ISLAND.children[1];
    PairPass(Discovering, a, b, down, env);
    LeafPass(Discovering, a, down, env);
    LeafPass(Discovering, b, down, env);
    IslandVoltage();
    assert Down(Discovering, ISLAND.asset, input).1 == down;
  }

  lemma LeafPass(phase: Phase, node: Tree, input: Terminal, env: Env)
    requires node.children == []
    ensures var (a, t) := Down(phase, node.asset, input);
      var (b, out) := Up(phase, a, t, env);
      Pass(phase, node, input, env) == (Tree(b, []), out)
  {
    hide Down, Up;
  }

  lemma IslandVoltage()
    ensures Combine(Combine(ZERO, GenGetLoadLines(SOURCE, ZERO).1), LoadGetLoadLines(CONSUMER, ZERO).1).v == -1.0
  {
  }

  /** At that voltage the generator switches off and the load runs on. */
  lemma IslandCalculated(node: Tree, input: Terminal, env: Env)
    requires node.asset.AFeed? && !node.asset.feed.closed && node.asset.feed.v2 == -1.0 && node.children == ISLAND.children
    ensures var after := Pass(Calculating, node, input, env).0;
      after.asset.AFeed? && !after.asset.feed.closed && |after.children| == 2
      && var a, b := after.children[0], after.children[1];
      a.asset.AGen? && !a.asset.gen.on && a.asset.gen.gridForming && a.children == []
      && b.asset.ALoad? && b.asset.load.p == 5.0 && b.children == []
  {
    hide PassAll, Combine, PowerNoise, GetSlew;
    var down := FeedDistributeVoltage(node.asset.feed, input).1;
    var a, b := ISLAND.children[0], ISLAND.children[1];
    PairPass(Calculating, a, b, down, env);
    LeafPass(Calculating, a, down, env);
    LeafPass(Calculating, b, down, env);
    assert down.v == -1.0;
    Silent(env, "consumer");
  }

  lemma Silent(env: Env, id: string)
    ensures GetSlew(5.0, 5.0 + PowerNoise(env.draw(id, 0), 0.0), 0.0, env.dt / 60.0) == 5.0
  {
    assert env.draw(id, 0) * (0.0 / 2.0) == 0.0;
  }

  lemma IslandUpdated(node: Tree, input: Terminal, env: Env)
    requires node.asset.AFeed? && !node.asset.feed.closed && |node.children| == 2
    requires var a, b := node.children[0], node.children[1];
      a.asset.AGen? && !a.asset.gen.on && a.asset.gen.gridForming && a.children == []
      && b.asset.ALoad? && b.asset.load.p == 5.0 && b.children == []
    ensures var after := Pass(Updating, node, input, env).0;
      after.asset.AFeed? && !after.asset.feed.closed && SumPower(All, after.children).p == 5.0
  {
    hide Pass, PassAll, Combine, FeedDistributeLoad, UpdateState, SumPower;
    var down := FeedDistributeLoad(node.asset.feed, input).1;
    var a, b := node.children[0], node.children[1];
    assert node.children == [a, b];
    UpdatePassOfFeed(node, input, env);
    PairPass(Updating, a, b, down, env);
    UpdatePassOfLeaf(a, down, env);
    UpdatePassOfLeaf(b, down, env);
    LastPowers(a.asset, b.asset, down, env);
    PairSum(Pass(Updating, a, down, env).0, Pass(Updating, b, down, env).0);
  }

  lemma LastPowers(a: Asset, b: Asset, input: Terminal, env: Env)
    requires a.AGen? && !a.gen.on && a.gen.gridForming && b.ALoad? && b.load.p == 5.0
    ensures var x, y := UpdateState(a, input, env).0, UpdateState(b, input, env).0;
      x.AGen? && y.ALoad? && OwnPower(All, x).p == 0.0 && OwnPower(All, y).p == 5.0
  {
    hide GetY;
  }

  lemma PairSum(x: Tree, y: Tree)
    requires !x.asset.AFeed? && !y.asset.AFeed?
    ensures SumPower(All, [x, y]) == Plus(Plus(NO_POWER, OwnPower(All, x.asset)), OwnPower(All, y.asset))
  {
    hide OwnPower;
    assert [x, y][..1] == [x] && [x][..0] == [];
    assert SumPower(All, []) == NO_POWER;
    assert SumPower(All, [x]) == Plus(NO_POWER, IslandPower(All, x));
  }

  /** The three passes leave five units of load without a source below an open feeder whose
      island is well shaped, droops downwards and has a running grid-forming generator. The
      voltage that can be worked out beforehand is negative. */
  lemma NegativeVoltageUnbalances(input: Terminal, env: Env)
    ensures WellShaped(ISLAND) && AllDroop(ISLAND) && Voltage(ISLAND.children) == -1.0
    ensures var t := Pass(Discovering, ISLAND, input, env).0;
      var u := Pass(Calculating, t, input, env).0;
      var w := Pass(Updating, u, input, env).0;
      w.asset.AFeed? && !w.asset.feed.closed && SumPower(All, w.children).p == 5.0
  {
    hide Pass, WellShaped, AllDroop, SumPower, Voltage, AllForetold;
    IslandIsPlain();
    IslandDiscovered(input, env);
    DiscoverForetells(ISLAND, input, env);
    var t := Pass(Discovering, ISLAND, input, env).0;
    IslandCalculated(t, input, env);
    IslandUpdated(Pass(Calculating, t, input, env).0, input, env);
  }

  lemma IslandIsPlain()
    ensures WellShaped(ISLAND) && AllDroop(ISLAND)
  {
    var a, b := ISLAND.children[0], ISLAND.children[1];
    assert WellShaped(a) && WellShaped(b) && AllDroop(a) && AllDroop(b);
  }
}
