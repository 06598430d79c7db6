/** Building runs of the delivery machine one step at a time. */
module SyncRuns {
  import opened SyncDelivery

  ghost predicate Reaches(c: Config, st: State) {
    exists states, actions :: IsRun(c, states, actions) && states[|actions|] == st
  }

  lemma ReachesInit(c: Config)
    ensures Reaches(c, Init(c))
  {
    assert IsRun(c, [Init(c)], []);
  }

  lemma ReachesStep(c: Config, st: State, a: Action)
    requires Reaches(c, st) && Shape(c, st) && Enabled(c, st, a)
    ensures Reaches(c, Apply(c, st, a))
  {
    hide Apply, Enabled, Shape;
    var states, actions :| IsRun(c, states, actions) && states[|actions|] == st;
    var st' := Apply(c, st, a);
    var states', actions' := states + [st'], actions + [a];
    assert IsRun(c, states', actions') by {
      forall i | 0 <= i < |actions'|
        ensures Shape(c, states'[i]) && Enabled(c, states'[i], actions'[i]) && states'[i + 1] == Apply(c, states'[i], actions'[i])
      {
        if i < |actions| {
          assert states'[i] == states[i] && states'[i + 1] == states[i + 1] && actions'[i] == actions[i];
        }
      }
    }
  }

  // ---- One lemma per kind of step ---------------------------------------------------------

  lemma GoNewFile(c: Config, st: State, f: File)
    requires Reaches(c, st) && Shape(c, st) && f !in st.accepted
    ensures Reaches(c, st.(accepted := st.accepted + {f}, source := st.source + {f}, sendQ := st.sendQ + multiset{f}))
  {
    hide Reaches;
    ReachesStep(c, st, NewFile(f));
  }

  lemma GoBeginSend(c: Config, st: State, f: File)
    requires Reaches(c, st) && Shape(c, st) && st.sender == SendIdle && f in st.sendQ && MaySend(c.guard, st, f)
    ensures Reaches(c, st.(sendQ := st.sendQ - multiset{f}, sender := SendTo(f, 0, false)))
  {
    hide Reaches;
    ReachesStep(c, st, BeginSend(f));
  }

  lemma GoDeliver(c: Config, st: State)
    requires Reaches(c, st) && Shape(c, st) && st.sender.SendTo? && st.sender.i < |c.servers| && st.sender.file in st.source
    ensures Reaches(c, st.(delivered := st.delivered + {(st.sender.file, c.servers[st.sender.i])},
                           sender := SendTo(st.sender.file, st.sender.i + 1, st.sender.copied)))
  {
    hide Reaches;
    ReachesStep(c, st, Transfer(Sent));
  }

  lemma GoFail(c: Config, st: State, retryable: bool)
    requires Reaches(c, st) && Shape(c, st) && st.sender.SendTo? && st.sender.i < |c.servers|
    ensures Reaches(c, st.(sender := MarkGet(st.sender.file, st.sender.i, st.sender.copied, retryable)))
  {
    hide Reaches;
    ReachesStep(c, st, Transfer(Failed(retryable)));
  }

  lemma GoSend(c: Config, st: State)
    requires Reaches(c, st) && Shape(c, st) && !st.sender.SendIdle? && (st.sender.SendTo? ==> st.sender.i >= |c.servers|)
    ensures Reaches(c, SendNext(c, st))
  {
    hide Reaches, SendNext;
    ReachesStep(c, st, SendStep);
  }

  lemma GoBeginRetry(c: Config, st: State, s: Server)
    requires Reaches(c, st) && Shape(c, st) && s in c.servers && st.retriers[s] == RetryIdle && st.retryQ[s] != []
    requires MayRecover(c.guard, st, st.retryQ[s][0])
    ensures Reaches(c, st.(retryQ := st.retryQ[s := st.retryQ[s][1..]], retriers := st.retriers[s := RetryTo(st.retryQ[s][0])]))
  {
    hide Reaches;
    ReachesStep(c, st, BeginRetry(s));
  }

  lemma GoRedeliver(c: Config, st: State, s: Server)
    requires Reaches(c, st) && Shape(c, st) && s in c.servers && st.retriers[s].RetryTo? && st.retriers[s].file in st.error
    ensures var f := st.retriers[s].file;
      Reaches(c, st.(delivered := st.delivered + {(f, s)}, retriers := st.retriers[s := RemoveGet(f)]))
  {
    hide Reaches;
    ReachesStep(c, st, RetryTransfer(s, Sent));
  }

  lemma GoRetry(c: Config, st: State, s: Server)
    requires Reaches(c, st) && Shape(c, st) && s in c.servers && !st.retriers[s].RetryIdle? && !st.retriers[s].RetryTo?
    ensures Reaches(c, RetryNext(st, s))
  {
    hide Reaches, RetryNext;
    ReachesStep(c, st, RetryStep(s));
  }

  lemma GoClear(c: Config, st: State)
    requires Reaches(c, st) && Shape(c, st) && st.clearQ != []
    ensures var path := st.clearQ[0];
      Reaches(c, st.(clearQ := st.clearQ[1..],
                     source := if path.Source? then st.source - {path.file} else st.source,
                     error := if path.Error? then st.error - {path.file} else st.error))
  {
    hide Reaches;
    ReachesStep(c, st, Clear);
  }

  lemma GoBeginRecover(c: Config, st: State)
    requires Reaches(c, st) && Shape(c, st) && st.recoverer == RecoverIdle && st.recoverQ != []
    requires MayRecover(c.guard, st, st.recoverQ[0])
    ensures Reaches(c, st.(recoverQ := st.recoverQ[1..], recoverer := RecoverGet(st.recoverQ[0])))
  {
    hide Reaches;
    ReachesStep(c, st, BeginRecover);
  }

  lemma GoRecover(c: Config, st: State, s: Server)
    requires Reaches(c, st) && Shape(c, st) && st.recoverer != RecoverIdle
    requires st.recoverer.RecoverQueue? && st.recoverer.view != map[] ==> s in st.recoverer.view && s in c.servers
    ensures Reaches(c, RecoverNext(st, s))
  {
    hide Reaches, RecoverNext;
    ReachesStep(c, st, RecoverStep(s));
  }

  lemma GoCrash(c: Config, st: State, order: seq<File>)
    requires Reaches(c, st) && Shape(c, st) && forall f :: f in order <==> f in st.error
    ensures Reaches(c, State(st.accepted, st.delivered, st.source, st.error, st.ledger,
                             multiset(st.source), SendIdle, Empty(c), Idle(c), [], order, RecoverIdle))
  {
    hide Reaches;
    ReachesStep(c, st, Crash(order));
  }
}
