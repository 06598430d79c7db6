/** Nothing is forgotten: under the full guard, whatever a server still misses is in some
    worker's hands, sources are sent or being cleared, and spent error copies go. */
module SyncAttention {
  import opened SyncDelivery
  import opened SyncSafety

  // ---- What has been given up -----------------------------------------------------------------

  /** The transfers that were refused as permanent since the last restart. */
  ghost function Refused(c: Config, states: seq<State>, actions: seq<Action>, i: nat): set<(File, Server)>
    requires |states| == |actions| + 1 && i < |states|
  {
    if i == 0 then {} else RefusedNext(c, Refused(c, states, actions, i - 1), states[i - 1], actions[i - 1])
  }

  ghost function RefusedNext(c: Config, before: set<(File, Server)>, st: State, a: Action): set<(File, Server)> {
    match a
    case Crash(_) => {}
    case Transfer(outcome) =>
      if outcome == Failed(false) && st.sender.SendTo? && st.sender.i < |c.servers|
      then before + {(st.sender.file, c.servers[st.sender.i])} else before
    case RetryTransfer(s, outcome) =>
      if outcome == Failed(false) && s in st.retriers && st.retriers[s].RetryTo?
      then before + {(st.retriers[s].file, s)} else before
    case _ => before
  }

  // ---- Who attends to a server -------------------------------------------------------------------

  /** The sender will still try the server, or has queued it for a retry once it is done
      with marking and copying. */
  ghost predicate SenderAttends(c: Config, sender: Sender, f: File, s: Server) {
    match sender
    case SendIdle => false
    case QueueClear(_) => false
    case SendTo(g, i, _) => g == f && exists j :: i <= j < |c.servers| && c.servers[j] == s
    case QueueRetry(g, i) => g == f && exists j :: i <= j < |c.servers| && c.servers[j] == s
    case MarkGet(g, i, _, retryable) => g == f && exists j :: (if retryable then i else i + 1) <= j < |c.servers| && c.servers[j] == s
    case MarkSet(g, i, _, retryable, _) => g == f && exists j :: (if retryable then i else i + 1) <= j < |c.servers| && c.servers[j] == s
    case CopyToError(g, i, retryable) => g == f && exists j :: (if retryable then i else i + 1) <= j < |c.servers| && c.servers[j] == s
  }

  ghost predicate RetryAttends(st: State, f: File, s: Server) {
    (s in st.retryQ && f in st.retryQ[s]) || (s in st.retriers && st.retriers[s] == RetryTo(f))
  }

  ghost predicate RecoveryAttends(st: State, f: File, s: Server) {
    f in st.recoverQ || st.recoverer == RecoverGet(f) || st.recoverer == RecoverRename(f)
    || (st.recoverer.RecoverQueue? && st.recoverer.file == f && s in st.recoverer.view)
  }

  ghost predicate Attended(c: Config, st: State, f: File, s: Server) {
    f in st.sendQ || SenderAttends(c, st.sender, f, s) || RetryAttends(st, f, s) || RecoveryAttends(st, f, s)
  }

  // ---- Invariants ------------------------------------------------------------------------------------

  predicate AllFalse(flags: map<Server, bool>) {
    forall s | s in flags :: !flags[s]
  }

  /** Only failures are ever marked. */
  ghost predicate Failures(st: State) {
    (forall f | f in st.ledger :: AllFalse(st.ledger[f]))
    && (st.sender.MarkSet? ==> AllFalse(st.sender.view))
    && (forall s | s in st.retriers && st.retriers[s].RemovePut? :: AllFalse(st.retriers[s].view))
    && (st.recoverer.RecoverQueue? ==> AllFalse(st.recoverer.view))
  }

  /** A file in the source is waiting, being sent or about to be cleared. */
  ghost predicate SourceAttended(st: State, f: File) {
    f in st.source ==> f in st.sendQ || Sending(st, f)
  }

  /** A worker that is about to clear, re-enter or rename the error copy of the file. */
  ghost predicate Tidying(st: State, f: File) {
    || (exists s :: s in st.retriers && (st.retriers[s] == RemoveGet(f) || st.retriers[s] == QueueErrorClear(f)
                                         || (st.retriers[s].RemovePut? && st.retriers[s].file == f)))
    || Error(f) in st.clearQ || f in st.recoverQ
    || st.recoverer == RecoverGet(f) || st.recoverer == RecoverRename(f)
  }

  /** An error copy without a ledger entry is being dealt with. */
  ghost predicate ErrorAttended(st: State, f: File) {
    f in st.error && Entry(st, f) == map[] ==> Tidying(st, f)
  }

  /** Every server that misses the file and did not refuse it for good is attended to. */
  ghost predicate Pursued(c: Config, st: State, refused: set<(File, Server)>, f: File) {
    forall s | Missing(c, st, f, s) && (f, s) !in refused :: Attended(c, st, f, s)
  }

  // ---- Flags ---------------------------------------------------------------------------------------------

  lemma SendMarksFailures(c: Config, st: State)
    requires Failures(st) && Shape(c, st) && Enabled(c, st, SendStep)
    ensures Failures(SendNext(c, st))
  {
  }

  lemma RetryMarksFailures(c: Config, st: State, s: Server)
    requires Failures(st) && Shape(c, st) && Enabled(c, st, RetryStep(s))
    ensures Failures(RetryNext(st, s))
  {
  }

  lemma RecoveryMarksFailures(c: Config, st: State, s: Server)
    requires Failures(st) && Shape(c, st) && Enabled(c, st, RecoverStep(s))
    ensures Failures(RecoverNext(st, s))
  {
  }

  lemma FailuresKept(c: Config, st: State, a: Action)
    requires Failures(st) && Shape(c, st) && Enabled(c, st, a)
    ensures Failures(Apply(c, st, a))
  {
    hide MaySend, MayRecover, SendNext, RetryNext, RecoverNext, AllFalse;
    if a.SendStep? {
      SendMarksFailures(c, st);
    } else if a.RetryStep? {
      RetryMarksFailures(c, st, a.server);
    } else if a.RecoverStep? {
      RecoveryMarksFailures(c, st, a.server);
    }
  }

  // ---- Sources ----------------------------------------------------------------------------------------------

  lemma SendKeepsSource(c: Config, st: State, f: File)
    requires SourceAttended(st, f) && Shape(c, st) && Enabled(c, st, SendStep)
    ensures SourceAttended(SendNext(c, st), f)
  {
    hide Entry, PutEntry;
  }

  lemma OthersKeepSource(c: Config, st: State, a: Action, f: File)
    requires SourceAttended(st, f) && Shape(c, st) && Enabled(c, st, a) && (a.RetryStep? || a.RecoverStep?)
    ensures SourceAttended(Apply(c, st, a), f)
  {
    hide Entry, PutEntry;
  }

  lemma SourceKept(c: Config, st: State, a: Action, f: File)
    requires SourceAttended(st, f) && Shape(c, st) && Enabled(c, st, a)
    ensures SourceAttended(Apply(c, st, a), f)
  {
    hide MaySend, MayRecover, SendNext, RetryNext, RecoverNext, Entry;
    if a.Clear? {
      assert st.clearQ == [st.clearQ[0]] + st.clearQ[1..];
    } else if a.SendStep? {
      SendKeepsSource(c, st, f);
    } else if a.RetryStep? || a.RecoverStep? {
      OthersKeepSource(c, st, a, f);
    }
  }

  // ---- Error copies -----------------------------------------------------------------------------------------

  lemma TidyingByOther(st: State, st': State, f: File, t: Server)
    requires Tidying(st, f) && st'.retriers.Keys == st.retriers.Keys
    requires forall s | s in st.retriers && s != t :: st'.retriers[s] == st.retriers[s]
    requires t in st.retriers ==> (st.retriers[t].RetryIdle? || st.retriers[t].RetryTo? || st.retriers[t].file != f)
    requires (Error(f) in st.clearQ ==> Error(f) in st'.clearQ) && (f in st.recoverQ ==> f in st'.recoverQ)
    requires st'.recoverer == st.recoverer
    ensures Tidying(st', f)
  {
    if s :| s in st.retriers && (st.retriers[s] == RemoveGet(f) || st.retriers[s] == QueueErrorClear(f)
                                 || (st.retriers[s].RemovePut? && st.retriers[s].file == f)) {
      assert st'.retriers[s] == st.retriers[s];
    }
  }

  lemma RetryStepTidies(c: Config, st: State, a: Action, f: File)
    requires ErrorAttended(st, f) && Shape(c, st) && Enabled(c, st, a) && a.RetryStep?
    ensures ErrorAttended(Apply(c, st, a), f)
  {
    hide Tidying;
    var st' := Apply(c, st, a);
    var r, r' := st.retriers[a.server], st'.retriers[a.server];
    if f in st'.error && Entry(st', f) == map[] {
      if r.file == f {
        OneTidies(st', a.server, f);
      } else {
        assert Entry(st', f) == Entry(st, f);
        TidyingByOther(st, st', f, a.server);
      }
    }
  }

  lemma OneTidies(st: State, s: Server, f: File)
    requires s in st.retriers
    ensures st.retriers[s] == QueueErrorClear(f) || (st.retriers[s].RemovePut? && st.retriers[s].file == f) || Error(f) in st.clearQ
      ==> Tidying(st, f)
  {
  }

  lemma RetryBeginsTidily(c: Config, st: State, a: Action, f: File)
    requires ErrorAttended(st, f) && Shape(c, st) && Enabled(c, st, a) && (a.BeginRetry? || a.RetryTransfer?)
    ensures ErrorAttended(Apply(c, st, a), f)
  {
    hide Tidying, MayRecover;
    var st' := Apply(c, st, a);
    assert Entry(st', f) == Entry(st, f);
    if f in st'.error && Entry(st', f) == map[] {
      TidyingByOther(st, st', f, a.server);
    }
  }

  lemma RecoveryTidies(c: Config, st: State, a: Action, f: File)
    requires ErrorAttended(st, f) && Shape(c, st) && Enabled(c, st, a) && a.RecoverStep?
    ensures ErrorAttended(Apply(c, st, a), f)
  {
    var st' := Apply(c, st, a);
    assert Entry(st', f) == Entry(st, f);
  }

  lemma RecoveryBeginsTidily(c: Config, st: State, a: Action, f: File)
    requires ErrorAttended(st, f) && Shape(c, st) && Enabled(c, st, a) && a.BeginRecover?
    ensures ErrorAttended(Apply(c, st, a), f)
  {
    hide MayRecover;
    var st' := Apply(c, st, a);
    assert Entry(st', f) == Entry(st, f);
    assert st.recoverQ == [st.recoverQ[0]] + st.recoverQ[1..];
  }

  lemma SendBeginsTidily(c: Config, st: State, a: Action, f: File)
    requires ErrorAttended(st, f) && Shape(c, st) && Enabled(c, st, a)
    requires a.NewFile? || a.BeginSend? || a.Transfer?
    ensures ErrorAttended(Apply(c, st, a), f)
  {
    hide MaySend;
    assert Entry(Apply(c, st, a), f) == Entry(st, f);
  }

  lemma SendTidies(c: Config, st: State, a: Action, f: File)
    requires ErrorAttended(st, f) && WellFormed(c, st) && Enabled(c, st, a) && FileInv(c, st, f) && a.SendStep?
    ensures ErrorAttended(Apply(c, st, a), f)
  {
    hide Known, Settled, Recoverable, RetrierInv, AfterMark, AfterCopy;
    var st' := Apply(c, st, a);
  }

  lemma ClearTidies(c: Config, st: State, a: Action, f: File)
    requires ErrorAttended(st, f) && Shape(c, st) && Enabled(c, st, a) && (a.Clear? || a.Crash?)
    ensures ErrorAttended(Apply(c, st, a), f)
  {
    assert Entry(Apply(c, st, a), f) == Entry(st, f);
    assert a.Clear? ==> st.clearQ == [st.clearQ[0]] + st.clearQ[1..];
  }

  lemma ErrorKept(c: Config, st: State, a: Action, f: File)
    requires ErrorAttended(st, f) && WellFormed(c, st) && Enabled(c, st, a) && FileInv(c, st, f)
    ensures ErrorAttended(Apply(c, st, a), f)
  {
    hide ErrorAttended, Known, Enabled, FileInv, Apply;
    match a {
      case NewFile(_) => SendBeginsTidily(c, st, a, f);
      case BeginSend(_) => SendBeginsTidily(c, st, a, f);
      case Transfer(_) => SendBeginsTidily(c, st, a, f);
      case SendStep => SendTidies(c, st, a, f);
      case BeginRetry(_) => RetryBeginsTidily(c, st, a, f);
      case RetryTransfer(_, _) => RetryBeginsTidily(c, st, a, f);
      case RetryStep(_) => RetryStepTidies(c, st, a, f);
      case Clear => ClearTidies(c, st, a, f);
      case BeginRecover => RecoveryBeginsTidily(c, st, a, f);
      case RecoverStep(_) => RecoveryTidies(c, st, a, f);
      case Crash(_) => ClearTidies(c, st, a, f);
    }
  }

  // ---- Servers ------------------------------------------------------------------------------------------------

  /** What the steps rely on about a file. */
  ghost predicate Trusted(c: Config, st: State, f: File) {
    WellFormed(c, st) && Apart(st, f) && FileInv(c, st, f) && SourceAttended(st, f) && Failures(st)
  }

  /** A server whose file nobody is to send is in the ledger, and the error copy is there. */
  lemma HeldWhenNotSent(c: Config, st: State, f: File, s: Server)
    requires Trusted(c, st, f) && Missing(c, st, f, s) && f !in st.sendQ && (st.sender.SendIdle? || st.sender.file != f)
    ensures f in st.error && s in Entry(st, f)
  {
    hide Known, Apart, SenderInv, RetrierInv;
    assert s in Lacking(c, st, f);
  }

  lemma NewFilePursued(c: Config, st: State, a: Action, refused: set<(File, Server)>, f: File)
    requires Shape(c, st) && Enabled(c, st, a) && Pursued(c, st, refused, f) && (a.NewFile? || a.Clear?)
    ensures Pursued(c, Apply(c, st, a), refused, f)
  {
    hide SenderAttends, RetryAttends, RecoveryAttends;
    var st' := Apply(c, st, a);
    forall s | Missing(c, st', f, s) && (f, s) !in refused ensures Attended(c, st', f, s) {
      SameAttention(c, st, st', f, s);
    }
  }

  lemma SameAttention(c: Config, st: State, st': State, f: File, s: Server)
    requires st'.sender == st.sender && st'.retryQ == st.retryQ && st'.retriers == st.retriers
    requires st'.recoverQ == st.recoverQ && st'.recoverer == st.recoverer
    ensures SenderAttends(c, st'.sender, f, s) == SenderAttends(c, st.sender, f, s)
    ensures RetryAttends(st', f, s) == RetryAttends(st, f, s) && RecoveryAttends(st', f, s) == RecoveryAttends(st, f, s)
  {
  }

  lemma BeginSendPursued(c: Config, st: State, a: Action, refused: set<(File, Server)>, f: File)
    requires Shape(c, st) && Enabled(c, st, a) && Pursued(c, st, refused, f) && a.BeginSend?
    ensures Pursued(c, Apply(c, st, a), refused, f)
  {
    hide RetryAttends, RecoveryAttends, MaySend;
    var st' := Apply(c, st, a);
    forall s | Missing(c, st', f, s) && (f, s) !in refused ensures Attended(c, st', f, s) {
      SameAttention(c, st, st'.(sender := st.sender), f, s);
      SameRetryAttention(st', st'.(sender := st.sender), f, s);
      if a.file == f {
        var j :| 0 <= j < |c.servers| && c.servers[j] == s;
      }
    }
  }

  lemma SameRetryAttention(st: State, st': State, f: File, s: Server)
    requires st'.retryQ == st.retryQ && st'.retriers == st.retriers && st'.recoverQ == st.recoverQ && st'.recoverer == st.recoverer
    ensures RetryAttends(st', f, s) == RetryAttends(st, f, s) && RecoveryAttends(st', f, s) == RecoveryAttends(st, f, s)
  {
  }

  /** A transfer of the sender: the server has the file, is to be retried, or refused it. */
  lemma TransferPursued(c: Config, st: State, a: Action, refused: set<(File, Server)>, f: File)
    requires Shape(c, st) && Enabled(c, st, a) && Pursued(c, st, refused, f) && a.Transfer?
    ensures Pursued(c, Apply(c, st, a), RefusedNext(c, refused, st, a), f)
  {
    hide RetryAttends, RecoveryAttends;
    var st' := Apply(c, st, a);
    forall s | Missing(c, st', f, s) && (f, s) !in RefusedNext(c, refused, st, a) ensures Attended(c, st', f, s) {
      SameRetryAttention(st, st', f, s);
      assert Missing(c, st, f, s) && (f, s) !in refused;
      if SenderAttends(c, st.sender, f, s) {
        var j :| st.sender.i <= j < |c.servers| && c.servers[j] == s;
        if j == st.sender.i {
          assert a.outcome == Failed(true);
        }
      }
    }
  }

  /** The sender's own steps keep the servers that are left, and queue the retry it owes. */
  lemma SendStepPursued(c: Config, st: State, a: Action, refused: set<(File, Server)>, f: File)
    requires Shape(c, st) && Enabled(c, st, a) && Pursued(c, st, refused, f) && a.SendStep?
    ensures Pursued(c, Apply(c, st, a), refused, f)
  {
    hide Entry, PutEntry;
    var st' := Apply(c, st, a);
    forall s | Missing(c, st', f, s) && (f, s) !in refused ensures Attended(c, st', f, s) {
      assert Missing(c, st, f, s);
      if SenderAttends(c, st.sender, f, s) {
        var i := if st.sender.SendTo? || st.sender.QueueRetry? || st.sender.retryable then st.sender.i else st.sender.i + 1;
        var j :| i <= j < |c.servers| && c.servers[j] == s;
        if st.sender.QueueRetry? && j == i {
          assert f in st'.retryQ[s];
        }
      } else if st.sender.QueueRetry? {
        assert RetryAttends(st, f, s) ==> RetryAttends(st', f, s);
      }
    }
  }

  lemma BeginRetryPursued(c: Config, st: State, a: Action, refused: set<(File, Server)>, f: File)
    requires Shape(c, st) && Enabled(c, st, a) && Pursued(c, st, refused, f) && a.BeginRetry?
    ensures Pursued(c, Apply(c, st, a), refused, f)
  {
    hide SenderAttends, RecoveryAttends, MayRecover;
    var st' := Apply(c, st, a);
    var q := st.retryQ[a.server];
    assert q == [q[0]] + q[1..];
    forall s | Missing(c, st', f, s) && (f, s) !in refused ensures Attended(c, st', f, s) {
      assert Missing(c, st, f, s);
      SameRecoveryAttention(st, st', f, s);
    }
  }

  lemma SameRecoveryAttention(st: State, st': State, f: File, s: Server)
    requires st'.recoverQ == st.recoverQ && st'.recoverer == st.recoverer
    ensures RecoveryAttends(st', f, s) == RecoveryAttends(st, f, s)
  {
  }

  /** A retry: the server has the file, gets it queued again, or refused it. */
  lemma RetryTransferPursued(c: Config, st: State, a: Action, refused: set<(File, Server)>, f: File)
    requires Shape(c, st) && Enabled(c, st, a) && Pursued(c, st, refused, f) && a.RetryTransfer?
    ensures Pursued(c, Apply(c, st, a), RefusedNext(c, refused, st, a), f)
  {
    hide SenderAttends, RecoveryAttends;
    var st' := Apply(c, st, a);
    forall s | Missing(c, st', f, s) && (f, s) !in RefusedNext(c, refused, st, a) ensures Attended(c, st', f, s) {
      assert Missing(c, st, f, s) && (f, s) !in refused;
      SameRecoveryAttention(st, st', f, s);
    }
  }

  lemma RetryStepPursued(c: Config, st: State, a: Action, refused: set<(File, Server)>, f: File)
    requires Shape(c, st) && Enabled(c, st, a) && Pursued(c, st, refused, f) && a.RetryStep?
    ensures Pursued(c, Apply(c, st, a), refused, f)
  {
    hide SenderAttends, RecoveryAttends, Entry, PutEntry;
    var st' := Apply(c, st, a);
    forall s | Missing(c, st', f, s) && (f, s) !in refused ensures Attended(c, st', f, s) {
      assert Missing(c, st, f, s);
      SameRecoveryAttention(st, st', f, s);
    }
  }

  lemma BeginRecoverPursued(c: Config, st: State, a: Action, refused: set<(File, Server)>, f: File)
    requires Shape(c, st) && Enabled(c, st, a) && Pursued(c, st, refused, f) && a.BeginRecover?
    ensures Pursued(c, Apply(c, st, a), refused, f)
  {
    hide SenderAttends, MayRecover;
    var st' := Apply(c, st, a);
    assert st.recoverQ == [st.recoverQ[0]] + st.recoverQ[1..];
    forall s | Missing(c, st', f, s) && (f, s) !in refused ensures Attended(c, st', f, s) {
      assert Missing(c, st, f, s);
    }
  }

  /** Recovery passes the server on: from the ledger into its retry queue, or with the file
      back to the source. */
  lemma RecoverStepPursued(c: Config, st: State, a: Action, refused: set<(File, Server)>, f: File)
    requires Trusted(c, st, f) && Enabled(c, st, a) && Pursued(c, st, refused, f) && a.RecoverStep?
    ensures Pursued(c, Apply(c, st, a), refused, f)
  {
    hide Known, FileInv, Entry, SenderAttends, Sending;
    var st' := Apply(c, st, a);
    forall s | Missing(c, st', f, s) && (f, s) !in refused ensures Attended(c, st', f, s) {
      assert Missing(c, st, f, s);
      if st.recoverer.file == f && f !in st.sendQ {
        RecoveredIsNotSent(st, f);
        HeldWhenNotSent(c, st, f, s);
      }
    }
  }

  lemma RecoveredIsNotSent(st: State, f: File)
    requires Apart(st, f) && !st.recoverer.RecoverIdle? && st.recoverer.file == f
    ensures st.sender.SendIdle? || st.sender.file != f
  {
  }

  lemma CrashPursued(c: Config, st: State, a: Action, f: File)
    requires Trusted(c, st, f) && Enabled(c, st, a) && a.Crash?
    ensures Pursued(c, Apply(c, st, a), {}, f)
  {
    hide Known, Apart, SenderInv, RetrierInv;
    var st' := Apply(c, st, a);
    forall s | Missing(c, st', f, s) ensures Attended(c, st', f, s) {
      assert s in Lacking(c, st, f);
      assert f in st.source ==> f in st'.sendQ;
    }
  }

  lemma StepPursues(c: Config, st: State, a: Action, refused: set<(File, Server)>, f: File)
    requires Trusted(c, st, f) && Enabled(c, st, a) && Pursued(c, st, refused, f)
    ensures Pursued(c, Apply(c, st, a), RefusedNext(c, refused, st, a), f)
  {
    hide Pursued, Known, Apart, FileInv, SourceAttended, Failures, Enabled, Apply;
    match a {
      case NewFile(_) => NewFilePursued(c, st, a, refused, f);
      case BeginSend(_) => BeginSendPursued(c, st, a, refused, f);
      case Transfer(_) => TransferPursued(c, st, a, refused, f);
      case SendStep => SendStepPursued(c, st, a, refused, f);
      case BeginRetry(_) => BeginRetryPursued(c, st, a, refused, f);
      case RetryTransfer(_, _) => RetryTransferPursued(c, st, a, refused, f);
      case RetryStep(_) => RetryStepPursued(c, st, a, refused, f);
      case Clear => NewFilePursued(c, st, a, refused, f);
      case BeginRecover => BeginRecoverPursued(c, st, a, refused, f);
      case RecoverStep(_) => RecoverStepPursued(c, st, a, refused, f);
      case Crash(_) => CrashPursued(c, st, a, f);
    }
  }

  lemma {:induction false} RunAttends(c: Config, states: seq<State>, actions: seq<Action>, i: nat, f: File)
    requires c.guard == UntilCleared && IsRun(c, states, actions) && i < |states|
    ensures Trusted(c, states[i], f) && ErrorAttended(states[i], f)
    ensures Pursued(c, states[i], Refused(c, states, actions, i), f)
    decreases i
  {
    hide WellFormed, Apart, FileInv, SourceAttended, ErrorAttended, Failures, Pursued, Apply, Enabled, RefusedNext;
    RunKeepsFile(c, states, actions, i, f);
    if i == 0 {
      NothingPursued(c, f);
    } else {
      var st, a := states[i - 1], actions[i - 1];
      RunAttends(c, states, actions, i - 1, f);
      StepPursues(c, st, a, Refused(c, states, actions, i - 1), f);
      FailuresKept(c, st, a);
      SourceKept(c, st, a, f);
      ErrorKept(c, st, a, f);
    }
  }

  lemma NothingPursued(c: Config, f: File)
    ensures SourceAttended(Init(c), f) && ErrorAttended(Init(c), f) && Failures(Init(c)) && Pursued(c, Init(c), {}, f)
  {
  }

  /** Nothing is forgotten: in every state of every guarded run, a file that a connected
      server misses, and did not refuse for good since the last restart, waits to be sent or
      is with the sender, waits for that server's retry or is with its worker, or is listed
      for recovery or being recovered. */
  lemma NothingIsForgotten(c: Config, states: seq<State>, actions: seq<Action>, i: nat, f: File, s: Server)
    requires c.guard == UntilCleared && IsRun(c, states, actions) && i < |states|
    requires Missing(c, states[i], f, s) && (f, s) !in Refused(c, states, actions, i)
    ensures var st := states[i];
      f in st.sendQ || (!st.sender.SendIdle? && st.sender.file == f)
      || (s in st.retryQ && f in st.retryQ[s]) || (s in st.retriers && st.retriers[s] == RetryTo(f))
      || f in st.recoverQ || (!st.recoverer.RecoverIdle? && st.recoverer.file == f)
  {
    hide Trusted, ErrorAttended, Refused;
    RunAttends(c, states, actions, i, f);
  }

  /** Nothing is left behind: in every state of every guarded run a source file is waiting,
      being sent or about to be cleared, and an error copy that no server waits for is about
      to be cleared or listed for recovery. */
  lemma NothingIsLeftBehind(c: Config, states: seq<State>, actions: seq<Action>, i: nat, f: File)
    requires c.guard == UntilCleared && IsRun(c, states, actions) && i < |states|
    ensures var st := states[i];
      (f in st.source ==> f in st.sendQ || Sending(st, f))
      && (f in st.error && f !in st.ledger ==> Recovering(st, f) || f in st.recoverQ)
  {
    hide Refused, Pursued, WellFormed, Apart, FileInv, Failures;
    RunAttends(c, states, actions, i, f);
  }
}
