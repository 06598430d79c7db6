/** Runs that lose a file. Without a guard, the retry of the first server deletes the only
    error copy while the send to the second one is still to fail. With a guard that ends
    when that deletion is queued, a send after a crash can copy the file in between. */
module SyncLoss {
  import opened SyncDelivery
  import opened SyncSafety
  import opened SyncSingle
  import opened SyncRuns

  const F: File := "f"

  /** What a losing run changes from stage to stage: one file, and only the first server's
      retry queue and worker in use. */
  datatype Stage = Stage(
    sent: set<Server>, inSource: bool, inError: bool, failed: map<Server, bool>, waiting: bool, sender: Sender,
    queued: bool, retrier: Retrier, clearQ: seq<Path>, listed: bool, recoverer: Recoverer)

  function Queue(c: Config, queued: bool): map<Server, seq<File>>
    requires c.servers != []
  {
    Empty(c)[c.servers[0] := if queued then [F] else []]
  }

  function Workers(c: Config, r: Retrier): map<Server, Retrier>
    requires c.servers != []
  {
    Idle(c)[c.servers[0] := r]
  }

  function Files(present: bool): set<File> {
    if present then {F} else {}
  }

  function Pairs(sent: set<Server>): set<(File, Server)> {
    set s | s in sent :: (F, s)
  }

  function Scene(c: Config, g: Stage): State
    requires c.servers != []
  {
    State({F}, Pairs(g.sent), Files(g.inSource), Files(g.inError), PutEntry(map[], F, g.failed),
          if g.waiting then multiset{F} else multiset{}, g.sender,
          Queue(c, g.queued), Workers(c, g.retrier), g.clearQ, if g.listed then [F] else [], g.recoverer)
  }

  ghost predicate Losing(c: Config) {
    ValidConfig(c) && |c.servers| >= 2
  }

  predicate InRange(c: Config, sender: Sender) {
    sender.MarkGet? || sender.MarkSet? || sender.CopyToError? || sender.QueueRetry? ==> sender.i < |c.servers|
  }

  ghost predicate At(c: Config, g: Stage) {
    Losing(c) && InRange(c, g.sender) && Reaches(c, Scene(c, g))
  }

  lemma SceneShape(c: Config, g: Stage)
    requires Losing(c) && InRange(c, g.sender)
    ensures Shape(c, Scene(c, g))
    ensures Scene(c, g).retriers[c.servers[0]] == g.retrier
    ensures Scene(c, g).retryQ[c.servers[0]] == if g.queued then [F] else []
  {
  }

  lemma QueueAgain(c: Config, a: bool, b: bool, r: Retrier, r': Retrier)
    requires c.servers != []
    ensures Queue(c, a)[c.servers[0] := if b then [F] else []] == Queue(c, b)
    ensures Workers(c, r)[c.servers[0] := r'] == Workers(c, r')
    ensures Queue(c, false) == Empty(c) && Workers(c, RetryIdle) == Idle(c)
  {
  }

  lemma EntryIs(c: Config, g: Stage)
    requires c.servers != []
    ensures Entry(Scene(c, g), F) == g.failed
    ensures forall flags :: PutEntry(Scene(c, g).ledger, F, flags) == PutEntry(map[], F, flags)
  {
    forall flags ensures PutEntry(Scene(c, g).ledger, F, flags) == PutEntry(map[], F, flags) {
    }
  }

  // ---- Steps between stages -----------------------------------------------------------------

  lemma Started(c: Config) returns (g: Stage)
    requires Losing(c)
    ensures g == Stage({}, true, false, map[], false, SendTo(F, 0, false), false, RetryIdle, [], false, RecoverIdle)
    ensures At(c, g)
  {
    hide Reaches, Apply, Enabled;
    var x := Stage({}, true, false, map[], true, SendIdle, false, RetryIdle, [], false, RecoverIdle);
    g := x.(waiting := false, sender := SendTo(F, 0, false));
    ReachesInit(c);
    QueueAgain(c, false, false, RetryIdle, RetryIdle);
    GoNewFile(c, Init(c), F);
    assert Pairs({}) == {} && PutEntry(map[], F, map[]) == map[];
    var i := Init(c);
    assert i.accepted + {F} == {F} && i.source + {F} == {F} && i.sendQ + multiset{F} == multiset{F};
    assert Scene(c, x) == i.(accepted := {F}, source := {F}, sendQ := multiset{F});
    SendBegins(c, x);
  }

  lemma SendBegins(c: Config, x: Stage)
    requires At(c, x) && x.sender == SendIdle && x.waiting && x.retrier == RetryIdle && x.recoverer == RecoverIdle
    requires c.guard == UntilCleared ==> Error(F) !in x.clearQ
    ensures At(c, x.(waiting := false, sender := SendTo(F, 0, false)))
  {
    hide Reaches, Apply, Enabled, Queue, Workers, Pairs, PutEntry;
    SceneShape(c, x);
    NobodyWorks(c, x);
    GoBeginSend(c, Scene(c, x), F);
    assert multiset{F} - multiset{F} == multiset{};
  }

  lemma NobodyWorks(c: Config, x: Stage)
    requires Losing(c) && x.retrier == RetryIdle && x.recoverer == RecoverIdle
    ensures !Working(Scene(c, x), F)
  {
    QueueAgain(c, false, false, RetryIdle, RetryIdle);
  }

  lemma Delivers(c: Config, x: Stage)
    requires At(c, x) && x.sender.SendTo? && x.sender.file == F && x.sender.i < |c.servers| && x.inSource
    ensures At(c, x.(sent := x.sent + {c.servers[x.sender.i]}, sender := SendTo(F, x.sender.i + 1, x.sender.copied)))
  {
    hide Reaches, Apply, Enabled, Queue, Workers, PutEntry;
    SceneShape(c, x);
    GoDeliver(c, Scene(c, x));
    assert Pairs(x.sent + {c.servers[x.sender.i]}) == Pairs(x.sent) + {(F, c.servers[x.sender.i])};
  }

  /** A failed transfer and the marking of the server in the ledger. */
  lemma FailsAndMarks(c: Config, x: Stage, retryable: bool)
    requires At(c, x) && x.sender.SendTo? && x.sender.file == F && x.sender.i < |c.servers|
    ensures At(c, x.(failed := x.failed[c.servers[x.sender.i] := false],
                     sender := AfterMark(F, x.sender.i, x.sender.copied, retryable)))
  {
    hide Reaches, Scene;
    var i, copied := x.sender.i, x.sender.copied;
    Fails(c, x, retryable);
    var y := x.(sender := MarkGet(F, i, copied, retryable));
    MarkReads(c, y);
    MarkWrites(c, x.(sender := MarkSet(F, i, copied, retryable, x.failed)));
  }

  lemma Fails(c: Config, x: Stage, retryable: bool)
    requires At(c, x) && x.sender.SendTo? && x.sender.file == F && x.sender.i < |c.servers|
    ensures At(c, x.(sender := MarkGet(F, x.sender.i, x.sender.copied, retryable)))
  {
    hide Reaches, Apply, Enabled, Queue, Workers, Pairs, PutEntry;
    SceneShape(c, x);
    GoFail(c, Scene(c, x), retryable);
  }

  lemma MarkReads(c: Config, x: Stage)
    requires At(c, x) && x.sender.MarkGet? && x.sender.file == F
    ensures At(c, x.(sender := MarkSet(F, x.sender.i, x.sender.copied, x.sender.retryable, x.failed)))
  {
    hide Reaches, Apply, Enabled, Queue, Workers, Pairs, PutEntry, Entry;
    SceneShape(c, x);
    EntryIs(c, x);
    GoSend(c, Scene(c, x));
  }

  lemma MarkWrites(c: Config, x: Stage)
    requires At(c, x) && x.sender.MarkSet? && x.sender.file == F && x.sender.view == x.failed
    ensures At(c, x.(failed := x.failed[c.servers[x.sender.i] := false],
                     sender := AfterMark(F, x.sender.i, x.sender.copied, x.sender.retryable)))
  {
    hide Reaches, Apply, Enabled, Queue, Workers, Pairs, PutEntry, Entry;
    SceneShape(c, x);
    EntryIs(c, x);
    GoSend(c, Scene(c, x));
  }

  lemma Copies(c: Config, x: Stage)
    requires At(c, x) && x.sender.CopyToError? && x.sender.file == F && x.inSource
    ensures At(c, x.(inError := true, sender := AfterCopy(F, x.sender.i, x.sender.retryable)))
  {
    hide Reaches, Apply, Enabled, Queue, Workers, Pairs, PutEntry;
    SceneShape(c, x);
    GoSend(c, Scene(c, x));
    assert Files(x.inError) + {F} == Files(true);
  }

  lemma QueuesRetry(c: Config, x: Stage)
    requires At(c, x) && x.sender == QueueRetry(F, 0) && !x.queued
    ensures At(c, x.(queued := true, sender := SendTo(F, 1, true)))
  {
    hide Reaches, Apply, Enabled, Queue, Workers, Pairs, PutEntry;
    var none: seq<File> := [];
    SceneShape(c, x);
    QueueAgain(c, false, true, RetryIdle, RetryIdle);
    GoSend(c, Scene(c, x));
    assert none + [F] == [F];
  }

  /** The end of a send: the source copy is queued for deletion. */
  lemma SendEnds(c: Config, x: Stage)
    requires At(c, x) && x.sender.SendTo? && x.sender.file == F && x.sender.i == |c.servers|
    ensures At(c, x.(sender := SendIdle, clearQ := x.clearQ + [Source(F)]))
  {
    hide Reaches, Apply, Enabled, Queue, Workers, Pairs, PutEntry;
    SceneShape(c, x);
    GoSend(c, Scene(c, x));
    var y := x.(sender := QueueClear(F));
    assert Scene(c, y) == SendNext(c, Scene(c, x));
    SceneShape(c, y);
    GoSend(c, Scene(c, y));
  }

  lemma Clears(c: Config, x: Stage, path: Path, rest: seq<Path>)
    requires At(c, x) && x.clearQ == [path] + rest && path.file == F
    ensures At(c, x.(clearQ := rest, inSource := x.inSource && path.Error?, inError := x.inError && path.Source?))
  {
    hide Reaches, Apply, Enabled, Queue, Workers, Pairs, PutEntry;
    SceneShape(c, x);
    GoClear(c, Scene(c, x));
    assert Files(x.inSource) - {F} == Files(false) && Files(x.inError) - {F} == Files(false);
    assert x.clearQ[1..] == rest;
  }

  /** A retry of the first server that succeeds, finds no other server in the ledger and
      queues the error copy for deletion. */
  lemma RetrySucceeds(c: Config, x: Stage)
    requires At(c, x) && x.queued && x.retrier == RetryIdle && x.inError && x.failed == map[c.servers[0] := false]
    requires c.guard == Unguarded || (x.sender == SendIdle && x.clearQ == [])
    ensures At(c, x.(sent := x.sent + {c.servers[0]}, failed := map[], queued := false, clearQ := x.clearQ + [Error(F)]))
  {
    hide Reaches, Scene;
    var s0 := c.servers[0];
    var a := x.(queued := false, retrier := RetryTo(F));
    RetryBegins(c, x);
    var b := a.(sent := x.sent + {s0}, retrier := RemoveGet(F));
    RetryDelivers(c, a);
    var d := b.(retrier := RemovePut(F, x.failed));
    assert s0 in x.failed;
    RetryReads(c, b);
    var e := d.(failed := map[], retrier := QueueErrorClear(F));
    RetryWrites(c, d);
    RetryQueuesClear(c, e);
  }

  lemma RetryBegins(c: Config, x: Stage)
    requires At(c, x) && x.queued && x.retrier == RetryIdle
    requires c.guard == Unguarded || (x.sender == SendIdle && x.clearQ == [])
    ensures At(c, x.(queued := false, retrier := RetryTo(F)))
  {
    hide Reaches, Apply, Enabled, Queue, Workers, Pairs, PutEntry;
    var none: seq<File> := [];
    SceneShape(c, x);
    QueueAgain(c, true, false, RetryIdle, RetryTo(F));
    GoBeginRetry(c, Scene(c, x), c.servers[0]);
    assert [F][1..] == none;
  }

  lemma RetryDelivers(c: Config, x: Stage)
    requires At(c, x) && x.retrier == RetryTo(F) && x.inError
    ensures At(c, x.(sent := x.sent + {c.servers[0]}, retrier := RemoveGet(F)))
  {
    hide Reaches, Apply, Enabled, Queue, Workers, PutEntry;
    SceneShape(c, x);
    QueueAgain(c, x.queued, x.queued, x.retrier, RemoveGet(F));
    GoRedeliver(c, Scene(c, x), c.servers[0]);
    assert Pairs(x.sent + {c.servers[0]}) == Pairs(x.sent) + {(F, c.servers[0])};
  }

  lemma RetryReads(c: Config, x: Stage)
    requires At(c, x) && x.retrier == RemoveGet(F) && x.failed != map[]
    ensures At(c, x.(retrier := RemovePut(F, x.failed)))
  {
    hide Reaches, Apply, Enabled, Queue, Workers, Pairs, PutEntry, Entry;
    SceneShape(c, x);
    EntryIs(c, x);
    QueueAgain(c, x.queued, x.queued, x.retrier, RemovePut(F, x.failed));
    GoRetry(c, Scene(c, x), c.servers[0]);
  }

  lemma RetryWrites(c: Config, x: Stage)
    requires At(c, x) && x.retrier == RemovePut(F, map[c.servers[0] := false])
    ensures At(c, x.(failed := map[], retrier := QueueErrorClear(F)))
  {
    hide Reaches, Apply, Enabled, Queue, Workers, Pairs, PutEntry, Entry;
    var view := x.retrier.view;
    SceneShape(c, x);
    EntryIs(c, x);
    QueueAgain(c, x.queued, x.queued, x.retrier, QueueErrorClear(F));
    assert view - {c.servers[0]} == map[];
    GoRetry(c, Scene(c, x), c.servers[0]);
  }

  lemma RetryQueuesClear(c: Config, x: Stage)
    requires At(c, x) && x.retrier == QueueErrorClear(F)
    ensures At(c, x.(clearQ := x.clearQ + [Error(F)], retrier := RetryIdle))
  {
    hide Reaches, Apply, Enabled, Queue, Workers, Pairs, PutEntry;
    SceneShape(c, x);
    QueueAgain(c, x.queued, x.queued, x.retrier, RetryIdle);
    GoRetry(c, Scene(c, x), c.servers[0]);
  }

  /** The remaining servers receive the file. */
  lemma {:induction false} RestDelivered(c: Config, x: Stage, i: nat) returns (y: Stage)
    requires At(c, x) && x.sender == SendTo(F, i, true) && 2 <= i <= |c.servers| && x.inSource && c.servers[1] !in x.sent
    ensures At(c, y) && y == x.(sent := y.sent, sender := SendTo(F, |c.servers|, true)) && c.servers[1] !in y.sent
    decreases |c.servers| - i
  {
    hide Reaches, Scene;
    if i == |c.servers| {
      y := x;
    } else {
      Delivers(c, x);
      var z := x.(sent := x.sent + {c.servers[i]}, sender := SendTo(F, i + 1, true));
      assert c.servers[i] != c.servers[1];
      y := RestDelivered(c, z, i + 1);
    }
  }

  /** A file that is nowhere although a server misses it. */
  lemma LostAt(c: Config, x: Stage)
    requires At(c, x) && !x.inSource && !x.inError && c.servers[1] !in x.sent
    ensures Reaches(c, Scene(c, x)) && !NoFileLost(c, Scene(c, x))
  {
    hide Reaches, Queue, Workers, PutEntry;
    assert Missing(c, Scene(c, x), F, c.servers[1]);
  }

  // ---- The two losing runs -----------------------------------------------------------------------

  /** Without a guard: the retry deletes the only error copy during the send, and no second
      one is made when the send to the second server fails. */
  lemma FileCanBeLost(c: Config) returns (st: State)
    requires Losing(c) && c.guard == Unguarded
    ensures Reaches(c, st) && !NoFileLost(c, st)
  {
    hide Reaches, Scene, NoFileLost;
    var s0, s1 := c.servers[0], c.servers[1];
    var x := Started(c);
    FailsAndMarks(c, x, true);
    var a := x.(failed := map[s0 := false], sender := CopyToError(F, 0, true));
    Copies(c, a);
    var b := a.(inError := true, sender := QueueRetry(F, 0));
    QueuesRetry(c, b);
    var d := b.(queued := true, sender := SendTo(F, 1, true));
    RetrySucceeds(c, d);
    var e := d.(sent := {} + {s0}, failed := map[], queued := false, clearQ := [] + [Error(F)]);
    Clears(c, e, Error(F), []);
    var g := e.(clearQ := [], inError := false);
    FailsAndMarks(c, g, false);
    var h := g.(failed := map[s1 := false], sender := SendTo(F, 2, true));
    SecondIsOther(c);
    st := RestSentAndCleared(c, h);
  }

  lemma SecondIsOther(c: Config)
    requires Losing(c)
    ensures c.servers[0] != c.servers[1]
  {
  }

  lemma RestSentAndCleared(c: Config, x: Stage) returns (st: State)
    requires At(c, x) && x.sender == SendTo(F, 2, true) && x.inSource && !x.inError && x.clearQ == [] && c.servers[1] !in x.sent
    ensures Reaches(c, st) && !NoFileLost(c, st)
  {
    hide Reaches, Scene, NoFileLost;
    var y := RestDelivered(c, x, 2);
    SendEnds(c, y);
    var z := y.(sender := SendIdle, clearQ := [] + [Source(F)]);
    Clears(c, z, Source(F), []);
    var w := z.(clearQ := [], inSource := false);
    LostAt(c, w);
    st := Scene(c, w);
  }

  /** After a failure the client crashes with the file in both directories and restarts. */
  lemma CrashedAfterCopy(c: Config) returns (x: Stage)
    requires Losing(c)
    ensures x == Stage({}, true, true, map[c.servers[0] := false], true, SendIdle, false, RetryIdle, [], true, RecoverIdle)
    ensures At(c, x)
  {
    hide Reaches, Apply, Enabled, PutEntry, Queue, Workers;
    var s := Started(c);
    FailsAndMarks(c, s, true);
    var a := s.(failed := map[c.servers[0] := false], sender := CopyToError(F, 0, true));
    Copies(c, a);
    var b := a.(inError := true, sender := QueueRetry(F, 0));
    SceneShape(c, b);
    GoCrash(c, Scene(c, b), [F]);
    QueueAgain(c, false, false, RetryIdle, RetryIdle);
    x := Stage({}, true, true, map[c.servers[0] := false], true, SendIdle, false, RetryIdle, [], true, RecoverIdle);
    assert multiset(Files(true)) == multiset{F};
  }

  /** Recovery finds the failed server in the ledger and queues a retry. */
  lemma RecoveryQueuesRetry(c: Config, x: Stage)
    requires At(c, x) && x.sender == SendIdle && x.clearQ == [] && x.listed && !x.queued
    requires x.recoverer == RecoverIdle && x.failed == map[c.servers[0] := false]
    ensures At(c, x.(queued := true, listed := false))
  {
    hide Reaches, Scene;
    RecoveryBegins(c, x);
    var a := x.(listed := false, recoverer := RecoverGet(F));
    assert c.servers[0] in x.failed;
    RecoveryReads(c, a);
    var b := a.(recoverer := RecoverQueue(F, x.failed));
    RecoveryQueues(c, b);
    RecoveryEnds(c, b.(queued := true, recoverer := RecoverQueue(F, map[])));
  }

  lemma RecoveryBegins(c: Config, x: Stage)
    requires At(c, x) && x.sender == SendIdle && x.clearQ == [] && x.listed && x.recoverer == RecoverIdle
    ensures At(c, x.(listed := false, recoverer := RecoverGet(F)))
  {
    hide Reaches, Apply, Enabled, Queue, Workers, Pairs, PutEntry;
    var none: seq<File> := [];
    SceneShape(c, x);
    GoBeginRecover(c, Scene(c, x));
    assert [F][1..] == none;
  }

  lemma RecoveryReads(c: Config, x: Stage)
    requires At(c, x) && x.recoverer == RecoverGet(F) && x.failed != map[]
    ensures At(c, x.(recoverer := RecoverQueue(F, x.failed)))
  {
    hide Reaches, Apply, Enabled, Queue, Workers, Pairs, PutEntry, Entry;
    SceneShape(c, x);
    EntryIs(c, x);
    GoRecover(c, Scene(c, x), c.servers[0]);
  }

  lemma RecoveryQueues(c: Config, x: Stage)
    requires At(c, x) && x.recoverer == RecoverQueue(F, map[c.servers[0] := false]) && !x.queued
    ensures At(c, x.(queued := true, recoverer := RecoverQueue(F, map[])))
  {
    hide Reaches, Apply, Enabled, Queue, Workers, Pairs, PutEntry;
    var none: seq<File> := [];
    SceneShape(c, x);
    QueueAgain(c, false, true, x.retrier, x.retrier);
    GoRecover(c, Scene(c, x), c.servers[0]);
    assert x.recoverer.view - {c.servers[0]} == map[];
    assert none + [F] == [F];
  }

  lemma RecoveryEnds(c: Config, x: Stage)
    requires At(c, x) && x.recoverer == RecoverQueue(F, map[])
    ensures At(c, x.(recoverer := RecoverIdle))
  {
    hide Reaches, Apply, Enabled, Queue, Workers, Pairs, PutEntry;
    SceneShape(c, x);
    GoRecover(c, Scene(c, x), c.servers[0]);
  }

  /** With a guard that ends when the deletion of the error copy is queued: a send that
      begins before the deletion fails for the second server and finds the copy there. */
  lemma FileCanBeLostBeforeClear(c: Config) returns (st: State)
    requires Losing(c) && c.guard != UntilCleared
    ensures Reaches(c, st) && !NoFileLost(c, st)
  {
    hide Reaches, Scene, NoFileLost;
    var s0, s1 := c.servers[0], c.servers[1];
    var x := CrashedAfterCopy(c);
    RecoveryQueuesRetry(c, x);
    var a := x.(queued := true, listed := false);
    RetrySucceeds(c, a);
    var b := a.(sent := {} + {s0}, failed := map[], queued := false, clearQ := [] + [Error(F)]);
    SendBegins(c, b);
    var d := b.(waiting := false, sender := SendTo(F, 0, false));
    Delivers(c, d);
    var e := d.(sent := d.sent + {s0}, sender := SendTo(F, 1, false));
    FailsAndMarks(c, e, false);
    var g := e.(failed := map[s1 := false], sender := CopyToError(F, 1, false));
    Copies(c, g);
    var h := g.(inError := true, sender := SendTo(F, 2, true));
    Clears(c, h, Error(F), []);
    SecondIsOther(c);
    st := RestSentAndCleared(c, h.(clearQ := [], inError := false));
  }

  /** No file is lost in any run if and only if the guard lasts until error copies are
      deleted or the client has at most one server. */
  lemma SafeExactly(c: Config)
    requires ValidConfig(c)
    ensures (forall st | Reaches(c, st) :: NoFileLost(c, st)) <==> c.guard == UntilCleared || |c.servers| <= 1
  {
    hide NoFileLost;
    if c.guard == UntilCleared || |c.servers| <= 1 {
      forall st | Reaches(c, st) ensures NoFileLost(c, st) {
        var states, actions :| IsRun(c, states, actions) && states[|actions|] == st;
        if c.guard == UntilCleared {
          NoFileIsLost(c, states, actions, |actions|);
        } else {
          NoFileIsLostAlone(c, states, actions, |actions|);
        }
      }
    } else {
      var st := FileCanBeLostBeforeClear(c);
    }
  }
}
