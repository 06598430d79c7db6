/** One connected server: no file is lost under any interleaving whatever. */
module SyncSingle {
  import opened SyncDelivery
  import opened SyncSafety

  /** What is known about a file while nothing keeps its recovery apart from its
      sending. With one server, whoever delivers the file serves everybody. */
  ghost predicate LoneInv(c: Config, st: State, f: File) {
    var lacking := Lacking(c, st, f);
    && (f in st.source || HeldFor(st, f, lacking))
    && (f in st.error || f in st.recoverQ || st.recoverer == RecoverGet(f) ==> lacking <= Entry(st, f).Keys)
    && (st.recoverer == RecoverRename(f) || Error(f) in st.clearQ ==> lacking == {})
    && (Source(f) in st.clearQ ==> HeldFor(st, f, lacking))
    && LoneSender(c, st, f)
    && (forall s | s in st.retriers :: LoneRetrier(c, st, f, s))
  }

  ghost predicate LoneSender(c: Config, st: State, f: File) {
    match st.sender
    case SendIdle => true
    case SendTo(g, i, copied) => g == f ==> if i == 0 then !copied else HeldFor(st, f, Lacking(c, st, f))
    case MarkGet(g, _, copied, _) => g == f ==> !copied
    case MarkSet(g, _, copied, _, _) => g == f ==> !copied
    case CopyToError(g, _, _) => g == f ==> Lacking(c, st, f) <= Entry(st, f).Keys
    case QueueRetry(g, _) => g == f ==> HeldFor(st, f, Lacking(c, st, f))
    case QueueClear(g) => g == f ==> HeldFor(st, f, Lacking(c, st, f))
  }

  ghost predicate LoneRetrier(c: Config, st: State, f: File, s: Server)
    requires s in st.retriers
  {
    st.retriers[s].RemoveGet? || st.retriers[s].RemovePut? || st.retriers[s].QueueErrorClear? ==>
      st.retriers[s].file == f ==> Lacking(c, st, f) == {}
  }

  lemma InitLone(c: Config, f: File)
    ensures LoneInv(c, Init(c), f)
  {
  }

  lemma NewFileLone(c: Config, st: State, a: Action, f: File)
    requires |c.servers| <= 1 && WellFormed(c, st) && Enabled(c, st, a) && a.NewFile? && LoneInv(c, st, f)
    ensures LoneInv(c, Apply(c, st, a), f)
  {
    hide Entry;
    var st' := Apply(c, st, a);
    EntryOf(st, st', f);
    if f != a.file {
      assert Lacking(c, st', f) == Lacking(c, st, f);
    }
  }

  lemma BeginLone(c: Config, st: State, a: Action, f: File)
    requires |c.servers| <= 1 && WellFormed(c, st) && Enabled(c, st, a) && LoneInv(c, st, f)
    requires a.BeginSend? || a.BeginRetry? || a.BeginRecover?
    ensures LoneInv(c, Apply(c, st, a), f)
  {
    hide Known, Sending, Recovering;
    assert Lacking(c, Apply(c, st, a), f) == Lacking(c, st, f);
    assert a.BeginRecover? ==> st.recoverQ == [st.recoverQ[0]] + st.recoverQ[1..];
  }

  lemma TransferLone(c: Config, st: State, a: Action, f: File)
    requires |c.servers| <= 1 && WellFormed(c, st) && Enabled(c, st, a) && a.Transfer? && LoneInv(c, st, f)
    ensures LoneInv(c, Apply(c, st, a), f)
  {
    hide Known;
    assert Lacking(c, Apply(c, st, a), f) <= Lacking(c, st, f);
  }

  lemma MarkSetLone(c: Config, st: State, a: Action, f: File)
    requires |c.servers| <= 1 && WellFormed(c, st) && Enabled(c, st, a) && a.SendStep? && st.sender.MarkSet? && LoneInv(c, st, f)
    ensures LoneInv(c, Apply(c, st, a), f)
  {
    hide Known;
    assert Lacking(c, Apply(c, st, a), f) == Lacking(c, st, f);
  }

  lemma CopyLone(c: Config, st: State, a: Action, f: File)
    requires |c.servers| <= 1 && WellFormed(c, st) && Enabled(c, st, a) && a.SendStep? && st.sender.CopyToError? && LoneInv(c, st, f)
    ensures LoneInv(c, Apply(c, st, a), f)
  {
    hide Known;
    assert Lacking(c, Apply(c, st, a), f) == Lacking(c, st, f);
  }

  lemma QueueLone(c: Config, st: State, a: Action, f: File)
    requires |c.servers| <= 1 && WellFormed(c, st) && Enabled(c, st, a) && a.SendStep? && LoneInv(c, st, f)
    requires !st.sender.MarkSet? && !st.sender.CopyToError?
    ensures LoneInv(c, Apply(c, st, a), f)
  {
    hide Known, Entry;
    var st' := Apply(c, st, a);
    EntryOf(st, st', f);
    assert Lacking(c, st', f) == Lacking(c, st, f);
    NoServers(c, st, f);
  }

  lemma NoServers(c: Config, st: State, f: File)
    ensures |c.servers| == 0 ==> Lacking(c, st, f) == {}
  {
  }

  lemma SendStepLone(c: Config, st: State, a: Action, f: File)
    requires |c.servers| <= 1 && WellFormed(c, st) && Enabled(c, st, a) && a.SendStep? && LoneInv(c, st, f)
    ensures LoneInv(c, Apply(c, st, a), f)
  {
    hide LoneInv, Known, Apply, SendNext;
    if st.sender.MarkSet? {
      MarkSetLone(c, st, a, f);
    } else if st.sender.CopyToError? {
      CopyLone(c, st, a, f);
    } else {
      QueueLone(c, st, a, f);
    }
  }

  lemma RetryTransferLone(c: Config, st: State, a: Action, f: File)
    requires |c.servers| <= 1 && WellFormed(c, st) && Enabled(c, st, a) && a.RetryTransfer? && LoneInv(c, st, f)
    ensures LoneInv(c, Apply(c, st, a), f)
  {
    hide Known, LoneSender;
    assert Lacking(c, Apply(c, st, a), f) <= Lacking(c, st, f);
    SameSender(c, st, Apply(c, st, a), f);
  }

  lemma SenderUnaffected(c: Config, st: State, st': State, f: File)
    requires LoneSender(c, st, f) && st'.sender == st.sender && st'.error == st.error && Lacking(c, st', f) == Lacking(c, st, f)
    requires Entry(st', f) == Entry(st, f) || Lacking(c, st, f) == {}
    ensures LoneSender(c, st', f)
  {
  }

  lemma RetryStepLone(c: Config, st: State, a: Action, f: File)
    requires |c.servers| <= 1 && WellFormed(c, st) && Enabled(c, st, a) && a.RetryStep? && LoneInv(c, st, f)
    ensures LoneInv(c, Apply(c, st, a), f)
  {
    hide Known, LoneSender;
    assert Lacking(c, Apply(c, st, a), f) == Lacking(c, st, f);
    assert LoneRetrier(c, st, f, a.server);
    SenderUnaffected(c, st, Apply(c, st, a), f);
  }

  lemma ClearLone(c: Config, st: State, a: Action, f: File)
    requires |c.servers| <= 1 && WellFormed(c, st) && Enabled(c, st, a) && a.Clear? && LoneInv(c, st, f)
    ensures LoneInv(c, Apply(c, st, a), f)
  {
    hide Known, LoneSender;
    var st' := Apply(c, st, a);
    assert st.clearQ == [st.clearQ[0]] + st.clearQ[1..];
    assert Lacking(c, st', f) == Lacking(c, st, f);
    SenderKept(c, st, st', f);
  }

  /** The sender's part holds as long as the error copy stays or nobody lacks the file. */
  lemma SenderKept(c: Config, st: State, st': State, f: File)
    requires LoneSender(c, st, f) && st'.sender == st.sender && st'.ledger == st.ledger
    requires Lacking(c, st', f) == Lacking(c, st, f)
    requires Lacking(c, st, f) == {} || (f in st.error ==> f in st'.error)
    ensures LoneSender(c, st', f)
  {
    hide Lacking;
  }

  lemma RecoverGetLone(c: Config, st: State, a: Action, f: File)
    requires |c.servers| <= 1 && WellFormed(c, st) && Enabled(c, st, a) && a.RecoverStep? && st.recoverer.RecoverGet? && LoneInv(c, st, f)
    ensures LoneInv(c, Apply(c, st, a), f)
  {
    hide Known, LoneSender;
    assert Lacking(c, Apply(c, st, a), f) == Lacking(c, st, f);
    SameSender(c, st, Apply(c, st, a), f);
  }

  lemma RenameLone(c: Config, st: State, a: Action, f: File)
    requires |c.servers| <= 1 && WellFormed(c, st) && Enabled(c, st, a) && a.RecoverStep? && st.recoverer.RecoverRename? && LoneInv(c, st, f)
    ensures LoneInv(c, Apply(c, st, a), f)
  {
    hide Known, LoneSender;
    var st' := Apply(c, st, a);
    assert Lacking(c, st', f) == Lacking(c, st, f);
    SenderKept(c, st, st', f);
  }

  lemma RecoverQueueLone(c: Config, st: State, a: Action, f: File)
    requires |c.servers| <= 1 && WellFormed(c, st) && Enabled(c, st, a) && a.RecoverStep? && st.recoverer.RecoverQueue? && LoneInv(c, st, f)
    ensures LoneInv(c, Apply(c, st, a), f)
  {
    hide Known, LoneSender;
    assert Lacking(c, Apply(c, st, a), f) == Lacking(c, st, f);
    SameSender(c, st, Apply(c, st, a), f);
  }

  lemma SameSender(c: Config, st: State, st': State, f: File)
    requires LoneSender(c, st, f) && st'.sender == st.sender && st'.ledger == st.ledger
    requires Lacking(c, st', f) <= Lacking(c, st, f) && (f in st.error ==> f in st'.error)
    ensures LoneSender(c, st', f)
  {
  }

  lemma RecoverStepLone(c: Config, st: State, a: Action, f: File)
    requires |c.servers| <= 1 && WellFormed(c, st) && Enabled(c, st, a) && a.RecoverStep? && LoneInv(c, st, f)
    ensures LoneInv(c, Apply(c, st, a), f)
  {
    hide LoneInv, Known, Apply, RecoverNext;
    match st.recoverer {
      case RecoverGet(_) => RecoverGetLone(c, st, a, f);
      case RecoverRename(_) => RenameLone(c, st, a, f);
      case RecoverQueue(_, _) => RecoverQueueLone(c, st, a, f);
    }
  }

  lemma CrashLone(c: Config, st: State, a: Action, f: File)
    requires |c.servers| <= 1 && WellFormed(c, st) && Enabled(c, st, a) && a.Crash? && LoneInv(c, st, f)
    ensures LoneInv(c, Apply(c, st, a), f)
  {
    hide Known;
    assert Lacking(c, Apply(c, st, a), f) == Lacking(c, st, f);
  }

  lemma StepKeepsLone(c: Config, st: State, a: Action, f: File)
    requires |c.servers| <= 1 && WellFormed(c, st) && Enabled(c, st, a) && LoneInv(c, st, f)
    ensures LoneInv(c, Apply(c, st, a), f)
  {
    hide LoneInv, Apply, Enabled, WellFormed;
    match a {
      case NewFile(_) => NewFileLone(c, st, a, f);
      case BeginSend(_) => BeginLone(c, st, a, f);
      case Transfer(_) => TransferLone(c, st, a, f);
      case SendStep => SendStepLone(c, st, a, f);
      case BeginRetry(_) => BeginLone(c, st, a, f);
      case RetryTransfer(_, _) => RetryTransferLone(c, st, a, f);
      case RetryStep(_) => RetryStepLone(c, st, a, f);
      case Clear => ClearLone(c, st, a, f);
      case BeginRecover => BeginLone(c, st, a, f);
      case RecoverStep(_) => RecoverStepLone(c, st, a, f);
      case Crash(_) => CrashLone(c, st, a, f);
    }
  }

  lemma {:induction false} RunKeepsLone(c: Config, states: seq<State>, actions: seq<Action>, i: nat, f: File)
    requires |c.servers| <= 1 && IsRun(c, states, actions) && i < |states|
    ensures WellFormed(c, states[i]) && LoneInv(c, states[i], f)
  {
    hide LoneInv, Apply, Enabled, Known;
    if i == 0 {
      InitWellFormed(c);
      InitLone(c, f);
    } else {
      RunKeepsLone(c, states, actions, i - 1, f);
      WellFormedKept(c, states[i - 1], actions[i - 1]);
      StepKeepsLone(c, states[i - 1], actions[i - 1], f);
    }
  }

  /** One server: in every state of every run, under every interleaving and with a
      crash at any step, no file is lost. */
  lemma NoFileIsLostAlone(c: Config, states: seq<State>, actions: seq<Action>, i: nat)
    requires |c.servers| <= 1 && IsRun(c, states, actions) && i < |states|
    ensures NoFileLost(c, states[i])
  {
    forall f, s | Missing(c, states[i], f, s)
      ensures f in states[i].source || Held(states[i], f, s)
    {
      RunKeepsLone(c, states, actions, i, f);
      assert s in Lacking(c, states[i], f);
    }
  }
}
