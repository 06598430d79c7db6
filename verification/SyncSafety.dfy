/** Several servers, with recovery of a file kept apart from its sending: no run
    loses a file, and concurrent retries are safe. */
module SyncSafety {
  import opened SyncDelivery

  /** Every file that any worker or queue mentions has been accepted. */
  ghost predicate Known(st: State) {
    && st.source <= st.accepted && st.error <= st.accepted
    && (forall f | f in st.sendQ :: f in st.accepted)
    && (st.sender != SendIdle ==> st.sender.file in st.accepted)
    && KnownQueues(st.retryQ, st.accepted)
    && KnownRetriers(st.retriers, st.accepted)
    && (forall p | p in st.clearQ :: p.file in st.accepted)
    && (forall f | f in st.recoverQ :: f in st.accepted)
    && (st.recoverer != RecoverIdle ==> st.recoverer.file in st.accepted)
  }

  ghost predicate KnownQueues(queues: map<Server, seq<File>>, accepted: set<File>) {
    forall s, f | s in queues && f in queues[s] :: f in accepted
  }

  ghost predicate KnownRetriers(retriers: map<Server, Retrier>, accepted: set<File>) {
    forall s | s in retriers && retriers[s] != RetryIdle :: retriers[s].file in accepted
  }

  lemma KnownRetriersUpdate(retriers: map<Server, Retrier>, accepted: set<File>, s: Server, r: Retrier)
    requires KnownRetriers(retriers, accepted) && s in retriers && (r != RetryIdle ==> r.file in accepted)
    ensures KnownRetriers(retriers[s := r], accepted)
  {
  }

  lemma KnownQueuesEnqueue(queues: map<Server, seq<File>>, accepted: set<File>, s: Server, f: File)
    requires KnownQueues(queues, accepted) && s in queues && f in accepted
    ensures KnownQueues(queues[s := queues[s] + [f]], accepted)
  {
  }

  lemma KnownQueuesDequeue(queues: map<Server, seq<File>>, accepted: set<File>, s: Server)
    requires KnownQueues(queues, accepted) && s in queues && queues[s] != []
    ensures KnownQueues(queues[s := queues[s][1..]], accepted) && queues[s][0] in accepted
  {
    assert queues[s] == [queues[s][0]] + queues[s][1..];
  }

  ghost predicate WellFormed(c: Config, st: State) {
    Shape(c, st) && Known(st)
  }

  lemma InitWellFormed(c: Config)
    ensures WellFormed(c, Init(c))
  {
  }

  lemma SendStepWellFormed(c: Config, st: State)
    requires WellFormed(c, st) && Enabled(c, st, SendStep)
    ensures WellFormed(c, SendNext(c, st))
  {
    hide Entry, PutEntry, KnownQueues;
    if st.sender.QueueRetry? {
      KnownQueuesEnqueue(st.retryQ, st.accepted, c.servers[st.sender.i], st.sender.file);
    }
  }

  lemma BeginRetryWellFormed(c: Config, st: State, a: Action)
    requires WellFormed(c, st) && Enabled(c, st, a) && a.BeginRetry?
    ensures WellFormed(c, Apply(c, st, a))
  {
    hide Sending, KnownQueues;
    KnownQueuesDequeue(st.retryQ, st.accepted, a.server);
  }

  lemma RetryTransferWellFormed(c: Config, st: State, a: Action)
    requires WellFormed(c, st) && Enabled(c, st, a) && a.RetryTransfer?
    ensures WellFormed(c, Apply(c, st, a))
  {
    hide KnownQueues, KnownRetriers;
    var st' := Apply(c, st, a);
    RetrierKnown(st.retriers, st.accepted, a.server);
    KnownQueuesEnqueue(st.retryQ, st.accepted, a.server, st.retriers[a.server].file);
    KnownRetriersUpdate(st.retriers, st.accepted, a.server, st'.retriers[a.server]);
  }

  lemma RetrierKnown(retriers: map<Server, Retrier>, accepted: set<File>, s: Server)
    requires KnownRetriers(retriers, accepted) && s in retriers && retriers[s] != RetryIdle
    ensures retriers[s].file in accepted
  {
  }

  lemma RetryStepWellFormed(c: Config, st: State, a: Action)
    requires WellFormed(c, st) && Enabled(c, st, a) && a.RetryStep?
    ensures WellFormed(c, Apply(c, st, a))
  {
    hide Entry, PutEntry, KnownQueues;
  }

  lemma BeginRecoverWellFormed(c: Config, st: State, a: Action)
    requires WellFormed(c, st) && Enabled(c, st, a) && a.BeginRecover?
    ensures WellFormed(c, Apply(c, st, a))
  {
    hide Sending;
    assert st.recoverQ == [st.recoverQ[0]] + st.recoverQ[1..];
  }

  lemma RecoverStepWellFormed(c: Config, st: State, a: Action)
    requires WellFormed(c, st) && Enabled(c, st, a) && a.RecoverStep?
    ensures WellFormed(c, Apply(c, st, a))
  {
    hide Entry, KnownQueues;
    if a.server in st.retryQ {
      KnownQueuesEnqueue(st.retryQ, st.accepted, a.server, st.recoverer.file);
    }
  }

  lemma NewFileWellFormed(c: Config, st: State, a: Action)
    requires WellFormed(c, st) && Enabled(c, st, a) && a.NewFile?
    ensures WellFormed(c, Apply(c, st, a))
  {
  }

  lemma SendWellFormed(c: Config, st: State, a: Action)
    requires WellFormed(c, st) && Enabled(c, st, a) && (a.BeginSend? || a.Transfer?)
    ensures WellFormed(c, Apply(c, st, a))
  {
    hide MaySend, KnownQueues, KnownRetriers;
  }

  lemma ClearWellFormed(c: Config, st: State, a: Action)
    requires WellFormed(c, st) && Enabled(c, st, a) && a.Clear?
    ensures WellFormed(c, Apply(c, st, a))
  {
    hide KnownQueues;
    assert st.clearQ == [st.clearQ[0]] + st.clearQ[1..];
  }

  lemma CrashWellFormed(c: Config, st: State, a: Action)
    requires WellFormed(c, st) && Enabled(c, st, a) && a.Crash?
    ensures WellFormed(c, Apply(c, st, a))
  {
  }

  lemma WellFormedKept(c: Config, st: State, a: Action)
    requires WellFormed(c, st) && Enabled(c, st, a)
    ensures WellFormed(c, Apply(c, st, a))
  {
    hide Recovering, Sending, Known, Entry, RetryNext, RecoverNext;
    match a {
      case NewFile(_) => NewFileWellFormed(c, st, a);
      case BeginSend(_) => SendWellFormed(c, st, a);
      case Transfer(_) => SendWellFormed(c, st, a);
      case SendStep => SendStepWellFormed(c, st);
      case BeginRetry(_) => BeginRetryWellFormed(c, st, a);
      case RetryTransfer(_, _) => RetryTransferWellFormed(c, st, a);
      case RetryStep(_) => RetryStepWellFormed(c, st, a);
      case Clear => ClearWellFormed(c, st, a);
      case BeginRecover => BeginRecoverWellFormed(c, st, a);
      case RecoverStep(_) => RecoverStepWellFormed(c, st, a);
      case Crash(_) => CrashWellFormed(c, st, a);
    }
  }

  /** The connected servers that do not have an accepted file yet. */
  ghost function Lacking(c: Config, st: State, f: File): set<Server> {
    set s | s in c.servers && f in st.accepted && (f, s) !in st.delivered
  }

  function First(c: Config, k: nat): set<Server> {
    set j | 0 <= j < k && j < |c.servers| :: c.servers[j]
  }

  /** All of these servers wait for the error copy of the file. */
  ghost predicate HeldFor(st: State, f: File, servers: set<Server>) {
    servers == {} || (f in st.error && servers <= Entry(st, f).Keys)
  }

  /** Among the first k servers, whatever is missing is held. */
  ghost predicate Settled(c: Config, st: State, f: File, k: nat) {
    HeldFor(st, f, Lacking(c, st, f) * First(c, k))
  }

  /** Deleting the error copy of the file would lose nothing. */
  ghost predicate Spare(c: Config, st: State, f: File) {
    f in st.source || Lacking(c, st, f) == {}
  }

  ghost predicate Recoverable(c: Config, st: State, f: File) {
    f in st.source || HeldFor(st, f, Lacking(c, st, f))
  }

  /** The error copy was made, unless there was no source file to copy. */
  predicate Copied(st: State, f: File) {
    f in st.error || f !in st.source
  }

  /** What is known while the sender works on the file. */
  ghost predicate SenderInv(c: Config, st: State, f: File) {
    match st.sender
    case SendIdle => true
    case SendTo(g, i, copied) => g == f ==> Settled(c, st, f, i) && (copied ==> Copied(st, f))
    case MarkGet(g, i, copied, _) => g == f ==> Settled(c, st, f, i) && (copied ==> Copied(st, f))
    case MarkSet(g, i, copied, _, view) =>
      g == f ==> Settled(c, st, f, i) && (copied ==> Copied(st, f)) && view == Entry(st, f)
    case CopyToError(g, i, _) =>
      g == f ==> Settled(c, st, f, i) && i < |c.servers| && c.servers[i] in Entry(st, f)
    case QueueRetry(g, i) => g == f ==> Settled(c, st, f, i + 1) && Copied(st, f)
    case QueueClear(g) => g == f ==> HeldFor(st, f, Lacking(c, st, f))
  }

  ghost predicate RetrierInv(c: Config, st: State, f: File, s: Server)
    requires s in st.retriers
  {
    match st.retriers[s]
    case RetryIdle => true
    case RetryTo(g) => true
    case RemoveGet(g) => g == f ==> s !in Lacking(c, st, f)
    case RemovePut(g, view) => g == f ==>
      s !in Lacking(c, st, f) && (f in st.source || Lacking(c, st, f) <= view.Keys)
    case QueueErrorClear(g) => g == f ==> Spare(c, st, f)
  }

  ghost predicate FileInv(c: Config, st: State, f: File) {
    && Recoverable(c, st, f)
    && SenderInv(c, st, f)
    && (Source(f) in st.clearQ ==> HeldFor(st, f, Lacking(c, st, f)))
    && (Error(f) in st.clearQ ==> Spare(c, st, f))
    && (forall s | s in st.retriers :: RetrierInv(c, st, f, s))
  }

  /** Nothing about the file changed, except that servers may have received it. */
  ghost predicate NoWorse(c: Config, st: State, st': State, f: File) {
    && Lacking(c, st', f) <= Lacking(c, st, f)
    && (f in st'.source <==> f in st.source) && (f in st'.error <==> f in st.error)
    && Entry(st', f) == Entry(st, f)
  }

  lemma SenderNoWorse(c: Config, st: State, st': State, f: File)
    requires NoWorse(c, st, st', f) && st'.sender == st.sender && SenderInv(c, st, f)
    ensures SenderInv(c, st', f)
  {
    hide Entry, Lacking;
    if !st.sender.SendIdle? && !st.sender.QueueClear? {
      assert Lacking(c, st', f) * First(c, st.sender.i) <= Lacking(c, st, f) * First(c, st.sender.i);
      assert Lacking(c, st', f) * First(c, st.sender.i + 1) <= Lacking(c, st, f) * First(c, st.sender.i + 1);
    }
  }

  lemma RetriersNoWorse(c: Config, st: State, st': State, f: File, t: Server)
    requires NoWorse(c, st, st', f) && st.retriers.Keys == st'.retriers.Keys
    requires forall s | s in st.retriers && s != t :: st'.retriers[s] == st.retriers[s]
    requires forall s | s in st.retriers :: RetrierInv(c, st, f, s)
    ensures forall s | s in st'.retriers && s != t :: RetrierInv(c, st', f, s)
  {
    hide Entry, Lacking;
  }

  /** A step that changes no more than one retry worker keeps the invariant of the file
      when that worker's own part holds afterwards. */
  lemma NoWorseKeeps(c: Config, st: State, st': State, f: File, t: Server)
    requires FileInv(c, st, f) && NoWorse(c, st, st', f)
    requires st'.sender == st.sender && st.retriers.Keys == st'.retriers.Keys
    requires forall s | s in st.retriers && s != t :: st'.retriers[s] == st.retriers[s]
    requires t in st'.retriers ==> RetrierInv(c, st', f, t)
    requires Source(f) in st'.clearQ ==> Source(f) in st.clearQ
    requires Error(f) in st'.clearQ ==> Error(f) in st.clearQ || Spare(c, st', f)
    ensures FileInv(c, st', f)
  {
    SenderNoWorse(c, st, st', f);
    RetriersNoWorse(c, st, st', f, t);
    hide Entry, Lacking, SenderInv, RetrierInv;
  }

  /** A step that changes neither the sender nor a retry worker. */
  lemma NothingWorse(c: Config, st: State, st': State, f: File)
    requires FileInv(c, st, f) && NoWorse(c, st, st', f)
    requires st'.sender == st.sender && st'.retriers == st.retriers
    requires Source(f) in st'.clearQ ==> Source(f) in st.clearQ
    requires Error(f) in st'.clearQ ==> Error(f) in st.clearQ
    ensures FileInv(c, st', f)
  {
    SenderNoWorse(c, st, st', f);
    hide Entry, Lacking, SenderInv;
  }

  /** The file is not being sent and recovered at the same time. */
  ghost predicate Apart(st: State, f: File) {
    !(Sending(st, f) && Recovering(st, f))
  }

  lemma RetryIsRecovering(st: State, s: Server)
    requires s in st.retriers && st.retriers[s] != RetryIdle
    ensures Recovering(st, st.retriers[s].file)
  {
  }

  /** One retry worker goes on with its file or becomes idle. */
  lemma OneRetrier(st: State, st': State, s: Server, r: Retrier, f: File)
    requires s in st.retriers && st.retriers[s] != RetryIdle && st'.retriers == st.retriers[s := r]
    requires r == RetryIdle || r.file == st.retriers[s].file
    requires st'.recoverer == st.recoverer
    requires Error(f) in st'.clearQ ==> Error(f) in st.clearQ || f == st.retriers[s].file
    ensures Recovering(st', f) ==> Recovering(st, f)
  {
    RetryIsRecovering(st, s);
    if exists t :: t in st'.retriers && st'.retriers[t] != RetryIdle && st'.retriers[t].file == f {
      var t :| t in st'.retriers && st'.retriers[t] != RetryIdle && st'.retriers[t].file == f;
      RetryIsRecovering(st, t);
    }
  }

  lemma RetryAddsNoWork(c: Config, st: State, a: Action, f: File)
    requires WellFormed(c, st) && Enabled(c, st, a) && (a.RetryTransfer? || a.RetryStep?)
    ensures Sending(Apply(c, st, a), f) ==> Sending(st, f)
    ensures Recovering(Apply(c, st, a), f) ==> Recovering(st, f)
  {
    hide Known, Entry, PutEntry, Recovering;
    var st' := Apply(c, st, a);
    OneRetrier(st, st', a.server, st'.retriers[a.server], f);
  }

  lemma SameRetriers(st: State, st': State, f: File)
    requires st'.retriers == st.retriers
    requires st'.recoverer != RecoverIdle && st'.recoverer.file == f ==> st.recoverer != RecoverIdle && st.recoverer.file == f
    requires Error(f) in st'.clearQ ==> Error(f) in st.clearQ
    ensures Recovering(st', f) ==> Recovering(st, f)
  {
  }

  lemma SendAddsNoWork(c: Config, st: State, a: Action, f: File)
    requires WellFormed(c, st) && Enabled(c, st, a) && (a.Transfer? || a.SendStep?)
    ensures Sending(Apply(c, st, a), f) ==> Sending(st, f)
    ensures Recovering(Apply(c, st, a), f) ==> Recovering(st, f)
  {
    hide Known, Entry, PutEntry, Recovering;
    SameRetriers(st, Apply(c, st, a), f);
  }

  lemma OthersAddNoWork(c: Config, st: State, a: Action, f: File)
    requires WellFormed(c, st) && Enabled(c, st, a)
    requires a.NewFile? || a.Clear? || a.RecoverStep? || a.Crash?
    ensures Sending(Apply(c, st, a), f) ==> Sending(st, f)
    ensures Recovering(Apply(c, st, a), f) ==> Recovering(st, f)
  {
    hide Known, Entry, PutEntry, Recovering;
    var st' := Apply(c, st, a);
    if a.Crash? {
      CrashStopsWork(c, st', f);
    } else {
      if a.Clear? {
        assert st.clearQ == [st.clearQ[0]] + st.clearQ[1..];
      }
      SameRetriers(st, st', f);
    }
  }

  lemma CrashStopsWork(c: Config, st: State, f: File)
    requires st.retriers == Idle(c) && st.recoverer == RecoverIdle && st.clearQ == []
    ensures !Recovering(st, f)
  {
  }

  lemma BeginKeepsApart(c: Config, st: State, a: Action, f: File)
    requires c.guard == UntilCleared && WellFormed(c, st) && Enabled(c, st, a) && Apart(st, f)
    requires a.BeginSend? || a.BeginRetry? || a.BeginRecover?
    ensures Apart(Apply(c, st, a), f)
  {
    hide Known;
    var st' := Apply(c, st, a);
    if exists s :: s in st'.retriers && st'.retriers[s] != RetryIdle && st'.retriers[s].file == f {
      var s :| s in st'.retriers && st'.retriers[s] != RetryIdle && st'.retriers[s].file == f;
      if !a.BeginRetry? || s != a.server {
        RetryIsRecovering(st, s);
      }
    }
  }

  lemma StepKeepsApart(c: Config, st: State, a: Action, f: File)
    requires c.guard == UntilCleared && WellFormed(c, st) && Enabled(c, st, a) && Apart(st, f)
    ensures Apart(Apply(c, st, a), f)
  {
    hide WellFormed, Enabled, Apply, Sending, Recovering;
    if a.BeginSend? || a.BeginRetry? || a.BeginRecover? {
      BeginKeepsApart(c, st, a, f);
    } else if a.RetryTransfer? || a.RetryStep? {
      RetryAddsNoWork(c, st, a, f);
    } else if a.Transfer? || a.SendStep? {
      SendAddsNoWork(c, st, a, f);
    } else {
      OthersAddNoWork(c, st, a, f);
    }
  }

  lemma FirstGrows(c: Config, k: nat)
    ensures k < |c.servers| ==> First(c, k + 1) == First(c, k) + {c.servers[k]}
  {
  }

  lemma FirstIsAll(c: Config, st: State, k: nat, f: File)
    ensures k >= |c.servers| ==> Lacking(c, st, f) * First(c, k) == Lacking(c, st, f)
  {
    if k >= |c.servers| {
      forall s | s in Lacking(c, st, f) ensures s in First(c, k) {
        var j :| 0 <= j < |c.servers| && c.servers[j] == s;
        assert c.servers[j] in First(c, k);
      }
    }
  }

  lemma InitInv(c: Config, f: File)
    ensures Apart(Init(c), f) && FileInv(c, Init(c), f)
  {
  }

  lemma NewFileKeeps(c: Config, st: State, a: Action, f: File)
    requires WellFormed(c, st) && Enabled(c, st, a) && a.NewFile? && Apart(st, f) && FileInv(c, st, f)
    ensures FileInv(c, Apply(c, st, a), f)
  {
    hide Apart;
    if f != a.file {
      hide Known, FileInv;
      NothingWorse(c, st, Apply(c, st, a), f);
    } else {
      NewFileFresh(c, st, f);
    }
  }

  lemma NewFileFresh(c: Config, st: State, f: File)
    requires WellFormed(c, st) && f !in st.accepted
    ensures FileInv(c, st.(accepted := st.accepted + {f}, source := st.source + {f}, sendQ := st.sendQ + multiset{f}), f)
  {
    hide KnownQueues, Lacking, Entry;
  }

  lemma BeginSendKeeps(c: Config, st: State, a: Action, f: File)
    requires WellFormed(c, st) && Enabled(c, st, a) && a.BeginSend? && Apart(st, f) && FileInv(c, st, f)
    ensures FileInv(c, Apply(c, st, a), f)
  {
    hide Known;
  }

  lemma TransferKeeps(c: Config, st: State, a: Action, f: File)
    requires WellFormed(c, st) && Enabled(c, st, a) && a.Transfer? && Apart(st, f) && FileInv(c, st, f)
    ensures FileInv(c, Apply(c, st, a), f)
  {
    hide Known, Apart, Settled;
    var st' := Apply(c, st, a);
    assert Lacking(c, st', f) <= Lacking(c, st, f);
    if f == st.sender.file {
      SettledFurther(c, st, st', f, st.sender.i);
      TransferredFile(c, st, st', f);
    } else {
      SenderElsewhere(c, st, st', f);
    }
  }

  /** A delivered server, or one that only failed, unsettles none of the servers before. */
  lemma SettledFurther(c: Config, st: State, st': State, f: File, i: nat)
    requires i < |c.servers| && Settled(c, st, f, i) && NoWorse(c, st, st', f)
    ensures Settled(c, st', f, i)
    ensures c.servers[i] !in Lacking(c, st', f) ==> Settled(c, st', f, i + 1)
  {
    hide Entry, Lacking;
    FirstGrows(c, i);
    assert Lacking(c, st', f) * First(c, i) <= Lacking(c, st, f) * First(c, i);
  }

  lemma TransferredFile(c: Config, st: State, st': State, f: File)
    requires FileInv(c, st, f) && NoWorse(c, st, st', f) && SenderInv(c, st', f)
    requires st'.retriers == st.retriers && st'.clearQ == st.clearQ
    ensures FileInv(c, st', f)
  {
    hide Entry, Lacking, SenderInv;
  }

  lemma SendDoneKeeps(c: Config, st: State, a: Action, f: File)
    requires WellFormed(c, st) && Enabled(c, st, a) && a.SendStep? && st.sender.SendTo? && Apart(st, f) && FileInv(c, st, f)
    ensures FileInv(c, Apply(c, st, a), f)
  {
    hide Known;
    assert Lacking(c, Apply(c, st, a), f) == Lacking(c, st, f);
    FirstIsAll(c, st, st.sender.i, f);
  }

  lemma MarkGetKeeps(c: Config, st: State, a: Action, f: File)
    requires WellFormed(c, st) && Enabled(c, st, a) && a.SendStep? && st.sender.MarkGet? && Apart(st, f) && FileInv(c, st, f)
    ensures FileInv(c, Apply(c, st, a), f)
  {
    hide Known;
    assert Lacking(c, Apply(c, st, a), f) == Lacking(c, st, f);
  }

  lemma MarkSetKeeps(c: Config, st: State, a: Action, f: File)
    requires WellFormed(c, st) && Enabled(c, st, a) && a.SendStep? && st.sender.MarkSet? && Apart(st, f) && FileInv(c, st, f)
    ensures FileInv(c, Apply(c, st, a), f)
  {
    hide Known, Sending, Recovering;
    var st' := SendNext(c, st);
    assert Lacking(c, st', f) == Lacking(c, st, f);
    if f == st.sender.file {
      FirstGrows(c, st.sender.i);
      MarkedFile(c, st, f);
    } else {
      SenderElsewhere(c, st, st', f);
    }
  }

  /** A step of the sender on another file. */
  lemma SenderElsewhere(c: Config, st: State, st': State, f: File)
    requires FileInv(c, st, f) && NoWorse(c, st, st', f)
    requires st'.retriers == st.retriers && st'.clearQ == st.clearQ && (st'.sender.SendIdle? || st'.sender.file != f)
    ensures FileInv(c, st', f)
  {
    hide Entry, Lacking;
  }

  /** Marking a server keeps what is known about the file, whose recovery is idle. */
  lemma MarkedFile(c: Config, st: State, f: File)
    requires WellFormed(c, st) && st.sender.MarkSet? && st.sender.file == f && Apart(st, f) && FileInv(c, st, f)
    requires First(c, st.sender.i + 1) == First(c, st.sender.i) + {c.servers[st.sender.i]}
    ensures FileInv(c, SendNext(c, st), f)
  {
    hide Known, Apart;
    var st' := SendNext(c, st);
    assert Lacking(c, st', f) == Lacking(c, st, f);
    assert Entry(st', f) == Entry(st, f)[c.servers[st.sender.i] := false];
    NobodyRecovers(st, f);
  }

  lemma NobodyRecovers(st: State, f: File)
    requires !st.sender.SendIdle? && st.sender.file == f && Apart(st, f)
    ensures Error(f) !in st.clearQ && forall s | s in st.retriers && st.retriers[s] != RetryIdle :: st.retriers[s].file != f
  {
    forall s | s in st.retriers && st.retriers[s] != RetryIdle ensures st.retriers[s].file != f {
      RetryIsRecovering(st, s);
    }
  }

  lemma CopyKeeps(c: Config, st: State, a: Action, f: File)
    requires WellFormed(c, st) && Enabled(c, st, a) && a.SendStep? && st.sender.CopyToError? && Apart(st, f) && FileInv(c, st, f)
    ensures FileInv(c, Apply(c, st, a), f)
  {
    hide Known;
    assert Lacking(c, Apply(c, st, a), f) == Lacking(c, st, f);
    FirstGrows(c, st.sender.i);
  }

  lemma QueueRetryKeeps(c: Config, st: State, a: Action, f: File)
    requires WellFormed(c, st) && Enabled(c, st, a) && a.SendStep? && st.sender.QueueRetry? && Apart(st, f) && FileInv(c, st, f)
    ensures FileInv(c, Apply(c, st, a), f)
  {
    hide Known;
    assert Lacking(c, Apply(c, st, a), f) == Lacking(c, st, f);
  }

  lemma QueueClearKeeps(c: Config, st: State, a: Action, f: File)
    requires WellFormed(c, st) && Enabled(c, st, a) && a.SendStep? && st.sender.QueueClear? && Apart(st, f) && FileInv(c, st, f)
    ensures FileInv(c, Apply(c, st, a), f)
  {
    hide Known;
    assert Lacking(c, Apply(c, st, a), f) == Lacking(c, st, f);
  }

  lemma SendStepKeeps(c: Config, st: State, a: Action, f: File)
    requires WellFormed(c, st) && Enabled(c, st, a) && a.SendStep? && Apart(st, f) && FileInv(c, st, f)
    ensures FileInv(c, Apply(c, st, a), f)
  {
    hide FileInv, Apply, WellFormed, Apart;
    match st.sender {
      case SendTo(_, _, _) => SendDoneKeeps(c, st, a, f);
      case MarkGet(_, _, _, _) => MarkGetKeeps(c, st, a, f);
      case MarkSet(_, _, _, _, _) => MarkSetKeeps(c, st, a, f);
      case CopyToError(_, _, _) => CopyKeeps(c, st, a, f);
      case QueueRetry(_, _) => QueueRetryKeeps(c, st, a, f);
      case QueueClear(_) => QueueClearKeeps(c, st, a, f);
    }
  }

  lemma BeginRetryKeeps(c: Config, st: State, a: Action, f: File)
    requires WellFormed(c, st) && Enabled(c, st, a) && a.BeginRetry? && Apart(st, f) && FileInv(c, st, f)
    ensures FileInv(c, Apply(c, st, a), f)
  {
    hide Known, FileInv, Apart, Sending;
    NoWorseKeeps(c, st, Apply(c, st, a), f, a.server);
  }

  lemma RetryTransferKeeps(c: Config, st: State, a: Action, f: File)
    requires WellFormed(c, st) && Enabled(c, st, a) && a.RetryTransfer? && Apart(st, f) && FileInv(c, st, f)
    ensures FileInv(c, Apply(c, st, a), f)
  {
    hide Known, FileInv, Apart;
    NoWorseKeeps(c, st, Apply(c, st, a), f, a.server);
  }

  lemma RemoveGetKeeps(c: Config, st: State, a: Action, f: File)
    requires WellFormed(c, st) && Enabled(c, st, a) && a.RetryStep? && st.retriers[a.server].RemoveGet? && Apart(st, f) && FileInv(c, st, f)
    ensures FileInv(c, Apply(c, st, a), f)
  {
    hide Known, Apart, SenderInv;
    assert RetrierInv(c, st, f, a.server);
    assert Lacking(c, Apply(c, st, a), f) == Lacking(c, st, f);
    NoWorseKeeps(c, st, Apply(c, st, a), f, a.server);
  }

  lemma RemovePutKeeps(c: Config, st: State, a: Action, f: File)
    requires WellFormed(c, st) && Enabled(c, st, a) && a.RetryStep? && st.retriers[a.server].RemovePut? && Apart(st, f) && FileInv(c, st, f)
    ensures FileInv(c, Apply(c, st, a), f)
  {
    hide Known, SenderInv;
    var st' := Apply(c, st, a);
    RetryIsRecovering(st, a.server);
    assert RetrierInv(c, st, f, a.server);
    assert Lacking(c, st', f) == Lacking(c, st, f);
    if f != st.retriers[a.server].file {
      NoWorseKeeps(c, st, st', f, a.server);
    } else {
      var view := st.retriers[a.server].view;
      assert (view - {a.server}).Keys == view.Keys - {a.server};
      assert Entry(st', f) == view - {a.server};
      assert f in st.source || Lacking(c, st, f) <= Entry(st', f).Keys;
      assert !Sending(st, f) && !Sending(st', f);
      NotSendingNoInv(c, st', f);
      OtherRetriersKept(c, st, st', f, a.server);
      assert RetrierInv(c, st', f, a.server);
    }
  }

  lemma OtherRetriersKept(c: Config, st: State, st': State, f: File, t: Server)
    requires FileInv(c, st, f) && st.retriers.Keys == st'.retriers.Keys
    requires Lacking(c, st', f) == Lacking(c, st, f) && (f in st.source ==> f in st'.source)
    requires forall s | s in st.retriers && s != t :: st'.retriers[s] == st.retriers[s]
    ensures forall s | s in st'.retriers && s != t :: RetrierInv(c, st', f, s)
  {
    hide Lacking, SenderInv, HeldFor;
  }

  lemma QueueErrorClearKeeps(c: Config, st: State, a: Action, f: File)
    requires WellFormed(c, st) && Enabled(c, st, a) && a.RetryStep? && st.retriers[a.server].QueueErrorClear? && Apart(st, f) && FileInv(c, st, f)
    ensures FileInv(c, Apply(c, st, a), f)
  {
    hide Known, Apart, SenderInv;
    assert RetrierInv(c, st, f, a.server);
    assert Lacking(c, Apply(c, st, a), f) == Lacking(c, st, f);
    NoWorseKeeps(c, st, Apply(c, st, a), f, a.server);
  }

  lemma RetryStepKeeps(c: Config, st: State, a: Action, f: File)
    requires WellFormed(c, st) && Enabled(c, st, a) && a.RetryStep? && Apart(st, f) && FileInv(c, st, f)
    ensures FileInv(c, Apply(c, st, a), f)
  {
    hide FileInv, Apply, Known, Apart;
    match st.retriers[a.server] {
      case RemoveGet(_) => RemoveGetKeeps(c, st, a, f);
      case RemovePut(_, _) => RemovePutKeeps(c, st, a, f);
      case QueueErrorClear(_) => QueueErrorClearKeeps(c, st, a, f);
    }
  }

  lemma NotRecoveringNoInv(c: Config, st: State, st': State, f: File)
    requires !Recovering(st, f) && st'.retriers == st.retriers
    ensures forall s | s in st'.retriers :: RetrierInv(c, st', f, s)
  {
    forall s | s in st'.retriers ensures RetrierInv(c, st', f, s) {
      if st.retriers[s] != RetryIdle {
        RetryIsRecovering(st, s);
      }
    }
  }

  lemma ClearKeeps(c: Config, st: State, a: Action, f: File)
    requires WellFormed(c, st) && Enabled(c, st, a) && a.Clear? && Apart(st, f) && FileInv(c, st, f)
    ensures FileInv(c, Apply(c, st, a), f)
  {
    hide Known, SenderInv, RetrierInv;
    var st' := Apply(c, st, a);
    assert st.clearQ == [st.clearQ[0]] + st.clearQ[1..];
    assert Lacking(c, st', f) == Lacking(c, st, f);
    EntryOf(st, st', f);
    if f != st.clearQ[0].file {
      forall t | t in st.retriers ensures RetrierInv(c, st', f, t) {
        SameRetrierInv(c, st, st', f, t);
      }
      SenderNoWorse(c, st, st', f);
    } else if st.clearQ[0].Source? {
      assert Sending(st, f) && !Recovering(st, f);
      NotRecoveringNoInv(c, st, st', f);
      ClearedSourceSender(c, st, st', f);
    } else {
      assert Recovering(st, f) && !Sending(st, f);
      NotSendingNoInv(c, st', f);
      forall t | t in st.retriers ensures RetrierInv(c, st', f, t) {
        ErrorClearKeepsRetrier(c, st, st', f, t);
      }
    }
  }

  lemma ClearedSourceSender(c: Config, st: State, st': State, f: File)
    requires SenderInv(c, st, f) && st'.sender == st.sender && Lacking(c, st', f) == Lacking(c, st, f)
    requires f !in st'.source && (f in st'.error <==> f in st.error) && Entry(st', f) == Entry(st, f)
    ensures SenderInv(c, st', f)
  {
    hide Lacking, Entry;
  }

  lemma ErrorClearKeepsRetrier(c: Config, st: State, st': State, f: File, t: Server)
    requires t in st.retriers && RetrierInv(c, st, f, t) && st'.retriers == st.retriers
    requires Lacking(c, st', f) == Lacking(c, st, f) && (f in st.source <==> f in st'.source)
    ensures RetrierInv(c, st', f, t)
  {
    hide Lacking;
  }

  lemma BeginRecoverKeeps(c: Config, st: State, a: Action, f: File)
    requires WellFormed(c, st) && Enabled(c, st, a) && a.BeginRecover? && Apart(st, f) && FileInv(c, st, f)
    ensures FileInv(c, Apply(c, st, a), f)
  {
    hide Known, FileInv, Apart, Sending;
    NothingWorse(c, st, Apply(c, st, a), f);
  }

  lemma RenameKeeps(c: Config, st: State, a: Action, f: File)
    requires WellFormed(c, st) && Enabled(c, st, a) && a.RecoverStep? && st.recoverer.RecoverRename? && Apart(st, f) && FileInv(c, st, f)
    ensures FileInv(c, Apply(c, st, a), f)
  {
    hide Known, SenderInv, Entry;
    var st' := Apply(c, st, a);
    assert Lacking(c, st', f) == Lacking(c, st, f);
    assert Entry(st', f) == Entry(st, f) by { EntryOf(st, st', f); }
    if f != st.recoverer.file || f !in st.error {
      if a.server in st.retriers {
        SameRetrierInv(c, st, st', f, a.server);
      }
      NoWorseKeeps(c, st, st', f, a.server);
    } else {
      assert Recovering(st, f) && !Sending(st, f);
      NotSendingNoInv(c, st', f);
    }
  }

  lemma EntryOf(st: State, st': State, f: File)
    requires st.ledger == st'.ledger
    ensures Entry(st', f) == Entry(st, f)
  {
  }

  lemma NotSendingNoInv(c: Config, st: State, f: File)
    requires !Sending(st, f)
    ensures SenderInv(c, st, f)
  {
  }

  lemma SameRetrierInv(c: Config, st: State, st': State, f: File, t: Server)
    requires FileInv(c, st, f) && NoWorse(c, st, st', f) && t in st.retriers && t in st'.retriers && st.retriers[t] == st'.retriers[t]
    ensures RetrierInv(c, st', f, t)
  {
  }

  lemma RecoverQueueKeeps(c: Config, st: State, a: Action, f: File)
    requires WellFormed(c, st) && Enabled(c, st, a) && a.RecoverStep? && !st.recoverer.RecoverRename? && Apart(st, f) && FileInv(c, st, f)
    ensures FileInv(c, Apply(c, st, a), f)
  {
    hide Known, Apart, FileInv, RetrierInv;
    assert Lacking(c, Apply(c, st, a), f) == Lacking(c, st, f);
    if a.server in st.retriers {
      SameRetrierInv(c, st, Apply(c, st, a), f, a.server);
    }
    NoWorseKeeps(c, st, Apply(c, st, a), f, a.server);
  }

  lemma RecoverStepKeeps(c: Config, st: State, a: Action, f: File)
    requires WellFormed(c, st) && Enabled(c, st, a) && a.RecoverStep? && Apart(st, f) && FileInv(c, st, f)
    ensures FileInv(c, Apply(c, st, a), f)
  {
    hide FileInv, Apply, Known, Apart;
    if st.recoverer.RecoverRename? {
      RenameKeeps(c, st, a, f);
    } else {
      RecoverQueueKeeps(c, st, a, f);
    }
  }

  lemma CrashKeeps(c: Config, st: State, a: Action, f: File)
    requires WellFormed(c, st) && Enabled(c, st, a) && a.Crash? && Apart(st, f) && FileInv(c, st, f)
    ensures FileInv(c, Apply(c, st, a), f)
  {
    hide Known;
  }

  /** Every step keeps, for every file, what is known about it. */
  lemma StepKeepsFile(c: Config, st: State, a: Action, f: File)
    requires WellFormed(c, st) && Enabled(c, st, a) && Apart(st, f) && FileInv(c, st, f)
    ensures FileInv(c, Apply(c, st, a), f)
  {
    hide FileInv, Apply, Enabled, WellFormed, Apart;
    match a {
      case NewFile(_) => NewFileKeeps(c, st, a, f);
      case BeginSend(_) => BeginSendKeeps(c, st, a, f);
      case Transfer(_) => TransferKeeps(c, st, a, f);
      case SendStep => SendStepKeeps(c, st, a, f);
      case BeginRetry(_) => BeginRetryKeeps(c, st, a, f);
      case RetryTransfer(_, _) => RetryTransferKeeps(c, st, a, f);
      case RetryStep(_) => RetryStepKeeps(c, st, a, f);
      case Clear => ClearKeeps(c, st, a, f);
      case BeginRecover => BeginRecoverKeeps(c, st, a, f);
      case RecoverStep(_) => RecoverStepKeeps(c, st, a, f);
      case Crash(_) => CrashKeeps(c, st, a, f);
    }
  }

  lemma {:induction false} RunKeepsFile(c: Config, states: seq<State>, actions: seq<Action>, i: nat, f: File)
    requires c.guard == UntilCleared && IsRun(c, states, actions) && i < |states|
    ensures WellFormed(c, states[i]) && Apart(states[i], f) && FileInv(c, states[i], f)
  {
    hide FileInv, Apply, Enabled, Known, Apart;
    if i == 0 {
      InitWellFormed(c);
      InitInv(c, f);
    } else {
      RunKeepsFile(c, states, actions, i - 1, f);
      WellFormedKept(c, states[i - 1], actions[i - 1]);
      StepKeepsApart(c, states[i - 1], actions[i - 1], f);
      StepKeepsFile(c, states[i - 1], actions[i - 1], f);
    }
  }

  lemma FileInvHolds(c: Config, st: State, f: File, s: Server)
    requires FileInv(c, st, f) && Missing(c, st, f, s)
    ensures f in st.source || Held(st, f, s)
  {
    assert s in Lacking(c, st, f);
  }

  /** For any number of servers: in every state of every run, crashes included, no
      file is lost when a file's recovery is kept apart from its sending. */
  lemma NoFileIsLost(c: Config, states: seq<State>, actions: seq<Action>, i: nat)
    requires c.guard == UntilCleared && IsRun(c, states, actions) && i < |states|
    ensures NoFileLost(c, states[i])
  {
    forall f, s | Missing(c, states[i], f, s)
      ensures f in states[i].source || Held(states[i], f, s)
    {
      RunKeepsFile(c, states, actions, i, f);
      FileInvHolds(c, states[i], f, s);
    }
  }

  /** Once a file has left the source, the ledger and every retry worker's possibly
      stale view contain all servers that miss it, so an error copy is queued for
      deletion only when every server has the file. */
  lemma ConcurrentRetriesAreSafe(c: Config, states: seq<State>, actions: seq<Action>, i: nat, f: File)
    requires c.guard == UntilCleared && IsRun(c, states, actions) && i < |states| && f !in states[i].source
    ensures forall s | Missing(c, states[i], f, s) :: s in Entry(states[i], f)
    ensures forall s, t | s in states[i].retriers && states[i].retriers[s].RemovePut? && states[i].retriers[s].file == f
      && Missing(c, states[i], f, t) :: t in states[i].retriers[s].view
    ensures (exists s :: s in states[i].retriers && states[i].retriers[s] == QueueErrorClear(f)) || Error(f) in states[i].clearQ
      ==> forall s :: !Missing(c, states[i], f, s)
  {
    RunKeepsFile(c, states, actions, i, f);
    var st := states[i];
    forall s ensures Missing(c, st, f, s) <==> s in Lacking(c, st, f) {
    }
  }
}
