/** Feeder protection over whole runs: trip, lock-out and re-closing. */
module PsmFeeder {
  import opened PsmDroop
  import opened PsmAssets

  /** What messages do to the trip command between ticks: it is a field like any other, and
      a message can also take back a trip that is pending. */
  datatype TripCommand = Leave | Raise | Clear

  /** The command fields as the messages before a tick leave them. */
  datatype Commands = Commands(close: bool, open: bool, reset: bool, trip: TripCommand)

  /** One tick as the feeder sees it: the commands in force and the six terminals. */
  datatype Turn = Turn(
    commands: Commands, mode: Terminal, lines: Terminal, voltage: Terminal,
    follow: Terminal, load: Terminal, flow: Terminal)

  function Command(f: Feed, c: Commands): Feed {
    f.(closecmd := c.close, opencmd := c.open, resetcmd := c.reset,
       tripcmd := match c.trip case Leave => f.tripcmd case Raise => true case Clear => false)
  }

  /** The feeder when its final flow of the tick arrives. */
  function BeforeFlow(f: Feed, t: Turn): Feed {
    var a := FeedUpdateMode(Command(f, t.commands), t.mode).0;
    var b := FeedGetLoadLines(a, t.lines).0;
    var c := FeedDistributeVoltage(b, t.voltage).0;
    var d := FeedCalculateState(c, t.follow).0;
    FeedDistributeLoad(d, t.load).0
  }

  function After(f: Feed, t: Turn): Feed {
    FeedUpdateState(BeforeFlow(f, t), t.flow).0
  }

  function Run(f: Feed, turns: seq<Turn>): Feed
    decreases |turns|
  {
    if turns == [] then f else After(Run(f, turns[..|turns| - 1]), turns[|turns| - 1])
  }

  /** The feeder at the start of a turn, commands included. */
  function Seen(f: Feed, turns: seq<Turn>, i: nat): Feed
    requires i < |turns|
  {
    Command(Run(f, turns[..i]), turns[i].commands)
  }

  predicate Safe(f: Feed) {
    f.tripped ==> !f.closed
  }

  predicate SameBreaker(f: Feed, g: Feed) {
    f.tripped == g.tripped && f.closed == g.closed && f.tripcmd == g.tripcmd
  }

  lemma PhasesKeepBreaker(f: Feed, input: Terminal)
    ensures SameBreaker(FeedGetLoadLines(f, input).0, f)
    ensures SameBreaker(FeedDistributeVoltage(f, input).0, f)
    ensures SameBreaker(FeedCalculateState(f, input).0, f)
    ensures SameBreaker(FeedDistributeLoad(f, input).0, f)
  {
  }

  lemma EndsOfTurn(f: Feed, input: Terminal)
    ensures SameBreaker(FeedUpdateMode(f, input).0, FeedCommands(f))
    ensures var g := FeedUpdateState(f, input).0;
      g.tripped == f.tripped && g.closed == f.closed && g.tripcmd == (f.tripcmd || (f.closed && Overloaded(f, input)))
  {
    hide FeedCommands, Overloaded;
  }

  /** A turn acts on the breaker only through its commands, and can ask for a trip. */
  lemma TurnActsOnBreaker(f: Feed, t: Turn)
    ensures var m := FeedCommands(Command(f, t.commands));
      After(f, t).tripped == m.tripped && After(f, t).closed == m.closed
      && After(f, t).tripcmd == (m.tripcmd || (m.closed && Overloaded(BeforeFlow(f, t), t.flow)))
      && BeforeFlow(f, t).closed == m.closed
  {
    hide FeedCommands, Overloaded, FeedUpdateMode, FeedGetLoadLines, FeedDistributeVoltage, FeedCalculateState, FeedDistributeLoad, FeedUpdateState;
    var m := Command(f, t.commands);
    EndsOfTurn(m, t.mode);
    var a := FeedUpdateMode(m, t.mode).0;
    PhasesKeepBreaker(a, t.lines);
    var b := FeedGetLoadLines(a, t.lines).0;
    PhasesKeepBreaker(b, t.voltage);
    var c := FeedDistributeVoltage(b, t.voltage).0;
    PhasesKeepBreaker(c, t.follow);
    PhasesKeepBreaker(FeedCalculateState(c, t.follow).0, t.load);
    EndsOfTurn(BeforeFlow(f, t), t.flow);
  }

  /** In every state of every run a tripped feeder is open. */
  lemma {:induction false} TrippedIsOpen(f: Feed, turns: seq<Turn>)
    requires Safe(f)
    ensures Safe(Run(f, turns))
    decreases |turns|
  {
    hide After;
    if turns != [] {
      TrippedIsOpen(f, turns[..|turns| - 1]);
      TurnActsOnBreaker(Run(f, turns[..|turns| - 1]), turns[|turns| - 1]);
    }
  }

  /** The flow of a turn exceeds a limit of the closed feeder. */
  predicate OverloadedAt(f: Feed, t: Turn) {
    BeforeFlow(f, t).closed && Overloaded(BeforeFlow(f, t), t.flow)
  }

  /** A flow over a limit at a closed feeder trips it at the next tick exactly unless a
      message takes the trip back in between; only an open command then opens it. */
  lemma OverloadOpensUnlessCleared(f: Feed, t: Turn, next: Turn)
    requires Safe(f) && OverloadedAt(f, t)
    ensures After(After(f, t), next).tripped <==> next.commands.trip != Clear
    ensures !After(After(f, t), next).closed <==> next.commands.trip != Clear || next.commands.open
  {
    hide After, BeforeFlow, Overloaded;
    TurnActsOnBreaker(f, t);
    TurnActsOnBreaker(After(f, t), next);
    CommandsKeepSafe(Command(f, t.commands));
  }

  lemma CommandsKeepSafe(f: Feed)
    requires Safe(f)
    ensures Safe(FeedCommands(f))
  {
  }

  /** An overload that goes unanswered: the trip is taken back and nothing else is asked. */
  lemma ClearedTripStaysClosed(f: Feed, t: Turn, next: Turn)
    requires Safe(f) && OverloadedAt(f, t) && next.commands == Commands(false, false, false, Clear)
    ensures After(After(f, t), next).closed && !After(After(f, t), next).tripped
  {
    hide After, OverloadedAt;
    OverloadOpensUnlessCleared(f, t, next);
  }

  /** Such feeders and turns exist: a closed feeder with a limit of one and a flow of two. */
  lemma OverloadExample() returns (f: Feed, t: Turn)
    ensures Safe(f) && OverloadedAt(f, t)
  {
    f := Feed(true, false, false, false, false, false, 0.0, 0.0, 0.0, 0.0, 0.0, 0.0, 0.0, 0.0,
      1.0, 1.0, 1.0, false, NO_DROOP, NO_DROOP);
    t := Turn(Commands(false, false, false, Leave), ZERO, ZERO, ZERO, ZERO, ZERO, PowerTerminal(2.0, 0.0, 2.0));
  }

  /** From a tripped feeder, every run that ends with it closed holds a turn that sees a
      reset and, then or later, a turn that sees a close command. */
  lemma {:induction false} ClosesOnlyAfterReset(f: Feed, turns: seq<Turn>)
    requires f.tripped && !f.closed
    ensures !Run(f, turns).tripped ==> exists i | 0 <= i < |turns| :: Seen(f, turns, i).resetcmd
    ensures Run(f, turns).closed ==>
      exists i, j | 0 <= i <= j < |turns| :: Seen(f, turns, i).resetcmd && Seen(f, turns, j).closecmd
    decreases |turns|
  {
    hide After, FeedCommands, Seen;
    if turns != [] {
      var n := |turns| - 1;
      var front := turns[..n];
      var g := Run(f, front);
      ClosesOnlyAfterReset(f, front);
      TrippedIsOpen(f, front);
      TurnActsOnBreaker(g, turns[n]);
      SeenFront(f, turns);
      CommandRules(Command(g, turns[n].commands));
      if !g.tripped {
        var i :| 0 <= i < n && Seen(f, front, i).resetcmd;
        assert Seen(f, turns, i).resetcmd;
      }
      if g.closed {
        var i, j :| 0 <= i <= j < n && Seen(f, front, i).resetcmd && Seen(f, front, j).closecmd;
        assert Seen(f, turns, i).resetcmd && Seen(f, turns, j).closecmd;
      }
      if !Run(f, turns).tripped && g.tripped {
        assert Seen(f, turns, n).resetcmd;
      }
      if Run(f, turns).closed && !g.closed {
        assert Seen(f, turns, n).closecmd;
        if g.tripped {
          assert Seen(f, turns, n).resetcmd;
        }
      }
    }
  }

  /** A trip is left only by a reset, and a breaker closes only on command and untripped. */
  lemma CommandRules(f: Feed)
    ensures f.tripped && !FeedCommands(f).tripped ==> f.resetcmd
    ensures !f.closed && FeedCommands(f).closed ==> f.closecmd && !FeedCommands(f).tripped
  {
  }

  lemma SeenFront(f: Feed, turns: seq<Turn>)
    requires turns != []
    ensures forall i | 0 <= i < |turns| - 1 :: Seen(f, turns, i) == Seen(f, turns[..|turns| - 1], i)
    ensures Seen(f, turns, |turns| - 1) == Command(Run(f, turns[..|turns| - 1]), turns[|turns| - 1].commands)
  {
    hide Command, Run;
    forall i | 0 <= i < |turns| - 1 ensures Seen(f, turns, i) == Seen(f, turns[..|turns| - 1], i) {
      assert turns[..|turns| - 1][..i] == turns[..i];
    }
  }

  /** Lock-out: once an over-limit flow was seen and its trip was not taken back before the
      next tick, a feeder found closed after any further turns has been reset and commanded
      to close in turns after the trip. */
  lemma OverloadLocksOut(f: Feed, t: Turn, next: Turn, turns: seq<Turn>)
    requires Safe(f) && OverloadedAt(f, t) && next.commands.trip != Clear
    ensures var tripped := After(After(f, t), next);
      Run(tripped, turns).closed ==>
        exists i, j | 0 <= i <= j < |turns| :: Seen(tripped, turns, i).resetcmd && Seen(tripped, turns, j).closecmd
  {
    hide After, OverloadedAt, Run, Seen;
    OverloadOpensUnlessCleared(f, t, next);
    ClosesOnlyAfterReset(After(After(f, t), next), turns);
  }

  /** The lock-out can be left: a reset and a close command in one turn close the breaker. */
  lemma ResetAndCloseRecloses(f: Feed, t: Turn)
    requires f.tripped && !f.closed && t.commands.reset && t.commands.close
    requires t.commands.trip == Clear || (t.commands.trip == Leave && !f.tripcmd)
    ensures After(f, t).closed && !After(f, t).tripped
  {
    hide After;
    TurnActsOnBreaker(f, t);
  }

  // ---- What trips and what the commands do ----------------------------------------------------

  /** The trip command as the feeder finds it. */
  predicate TripSeen(f: Feed, c: Commands) {
    c.trip.Raise? || (c.trip.Leave? && f.tripcmd)
  }

  lemma CommandsDecide(f: Feed)
    requires Safe(f)
    ensures var m := FeedCommands(f);
      (m.tripped <==> f.tripcmd || (f.tripped && !f.resetcmd)) && !m.tripcmd
      && (m.closed <==> !f.tripcmd && if f.closed then !f.opencmd else f.closecmd && (!f.tripped || f.resetcmd))
  {
  }

  /** The breaker after a turn: a trip always opens it, an open command opens it, and a
      close command closes it unless it is tripped and not reset in the same turn. */
  lemma BreakerFollowsCommands(f: Feed, t: Turn)
    requires Safe(f)
    ensures var trip, c := TripSeen(f, t.commands), t.commands;
      (After(f, t).tripped <==> trip || (f.tripped && !c.reset))
      && (After(f, t).closed <==> !trip && if f.closed then !c.open else c.close && (!f.tripped || c.reset))
  {
    hide After, FeedCommands, Overloaded, BeforeFlow;
    TurnActsOnBreaker(f, t);
    CommandsDecide(Command(f, t.commands));
  }

  lemma ModeKeepsLimits(f: Feed, input: Terminal)
    ensures SameLimits(FeedUpdateMode(f, input).0, f)
  {
  }

  lemma PhasesKeepLimits(f: Feed, input: Terminal)
    ensures SameLimits(FeedGetLoadLines(f, input).0, f)
    ensures SameLimits(FeedDistributeVoltage(f, input).0, f)
    ensures SameLimits(FeedCalculateState(f, input).0, f)
    ensures SameLimits(FeedDistributeLoad(f, input).0, f)
  {
    hide GetX;
  }

  predicate SameLimits(f: Feed, g: Feed) {
    f.pmax == g.pmax && f.qmax == g.qmax && f.smax == g.smax && f.polrev == g.polrev
  }

  lemma FlowMeetsLimits(f: Feed, t: Turn)
    ensures SameLimits(BeforeFlow(f, t), f)
  {
    hide FeedCommands, FeedUpdateMode, FeedGetLoadLines, FeedDistributeVoltage, FeedCalculateState, FeedDistributeLoad;
    var m := Command(f, t.commands);
    ModeKeepsLimits(m, t.mode);
    var a := FeedUpdateMode(m, t.mode).0;
    PhasesKeepLimits(a, t.lines);
    var b := FeedGetLoadLines(a, t.lines).0;
    PhasesKeepLimits(b, t.voltage);
    var c := FeedDistributeVoltage(b, t.voltage).0;
    PhasesKeepLimits(c, t.follow);
    PhasesKeepLimits(FeedCalculateState(c, t.follow).0, t.load);
  }

  /** A closed feeder is tripped at the next tick if and only if a message asks for it, or
      leaves the command alone and the active or the reactive flow exceeds its limit in
      either direction or the apparent flow its own. */
  lemma TripsExactlyOverLimit(f: Feed, t: Turn, next: Turn)
    requires Safe(f) && After(f, t).closed
    ensures var over :=
        t.flow.p > f.pmax || t.flow.p < -f.pmax || t.flow.q > f.qmax || t.flow.q < -f.qmax || t.flow.s > f.smax;
      After(After(f, t), next).tripped <==> next.commands.trip.Raise? || (next.commands.trip.Leave? && over)
  {
    hide After, BeforeFlow, FeedCommands;
    TurnActsOnBreaker(f, t);
    FlowMeetsLimits(f, t);
    CommandsDecide(Command(f, t.commands));
    BreakerFollowsCommands(After(f, t), next);
  }

  /** A terminal's flow as a feeder meters it: turned round when its polarity is reversed,
      and nothing when it is open. */
  predicate Meters(f: Feed, flow: Terminal, polrev: bool) {
    var sign := if !f.closed then 0.0 else if polrev then -1.0 else 1.0;
    f.p == sign * flow.p && f.q == sign * flow.q && f.s == sign * sign * flow.s
  }

  lemma UpdateMeters(f: Feed, input: Terminal)
    ensures Meters(FeedUpdateState(f, input).0, input, f.polrev)
  {
    hide Overloaded;
  }

  lemma FeederMeters(f: Feed, t: Turn)
    ensures Meters(After(f, t), t.flow, f.polrev)
  {
    hide BeforeFlow, FeedUpdateState, Meters;
    FlowMeetsLimits(f, t);
    UpdateMeters(BeforeFlow(f, t), t.flow);
  }
}
