/** File delivery as atomic steps of the send, retry, clear and recovery workers,
    with a crash and restart possible between any two steps. */
module SyncDelivery {

  type File = string
  type Server = string

  datatype Path = Source(file: File) | Error(file: File)

  /** What a transfer attempt reports. */
  datatype Outcome = Sent | Failed(retryable: bool)

  /** The send worker, between two atomic steps, working on server number `i`. */
  datatype Sender =
    | SendIdle
    | SendTo(file: File, i: nat, copied: bool)
    | MarkGet(file: File, i: nat, copied: bool, retryable: bool)
    | MarkSet(file: File, i: nat, copied: bool, retryable: bool, view: map<Server, bool>)
    | CopyToError(file: File, i: nat, retryable: bool)
    | QueueRetry(file: File, i: nat)
    | QueueClear(file: File)

  /** A retry worker. Get and Set/Remove of the ledger are separate steps. */
  datatype Retrier =
    | RetryIdle
    | RetryTo(file: File)
    | RemoveGet(file: File)
    | RemovePut(file: File, view: map<Server, bool>)
    | QueueErrorClear(file: File)

  /** The startup worker that sorts the files of the error directory. */
  datatype Recoverer =
    | RecoverIdle
    | RecoverGet(file: File)
    | RecoverRename(file: File)
    | RecoverQueue(file: File, view: map<Server, bool>)

  datatype State = State(
    // what survives a crash
    accepted: set<File>,
    delivered: set<(File, Server)>,
    source: set<File>,
    error: set<File>,
    ledger: map<File, map<Server, bool>>,
    // what does not
    sendQ: multiset<File>,
    sender: Sender,
    retryQ: map<Server, seq<File>>,
    retriers: map<Server, Retrier>,
    clearQ: seq<Path>,
    recoverQ: seq<File>,
    recoverer: Recoverer)

  /** How far retry and recovery of a file are kept apart from its sending: not at all,
      until the deletion of its error copy is queued, or until it is done. */
  datatype Guard = Unguarded | UntilQueued | UntilCleared

  /** The servers a client is connected to, and the guard it works under. */
  datatype Config = Config(servers: seq<Server>, guard: Guard)

  ghost predicate ValidConfig(c: Config) {
    forall i, j | 0 <= i < j < |c.servers| :: c.servers[i] != c.servers[j]
  }

  function Idle(c: Config): map<Server, Retrier> {
    map s | s in c.servers :: RetryIdle
  }

  function Empty(c: Config): map<Server, seq<File>> {
    map s | s in c.servers :: []
  }

  function Init(c: Config): State {
    State({}, {}, {}, {}, map[], multiset{}, SendIdle, Empty(c), Idle(c), [], [], RecoverIdle)
  }

  /** The ledger entry of a file; a file without failed servers has no entry. */
  function Entry(st: State, f: File): map<Server, bool> {
    if f in st.ledger then st.ledger[f] else map[]
  }

  function PutEntry(ledger: map<File, map<Server, bool>>, f: File, flags: map<Server, bool>): map<File, map<Server, bool>> {
    if flags == map[] then ledger - {f} else ledger[f := flags]
  }

  datatype Action =
    | NewFile(file: File)
    | BeginSend(file: File)
    | Transfer(outcome: Outcome)
    | SendStep
    | BeginRetry(server: Server)
    | RetryTransfer(server: Server, outcome: Outcome)
    | RetryStep(server: Server)
    | Clear
    | BeginRecover
    | RecoverStep(server: Server)
    | Crash(order: seq<File>)

  /** A send of the file is in progress, up to the removal from the source. */
  ghost predicate Sending(st: State, f: File) {
    (st.sender != SendIdle && st.sender.file == f) || Source(f) in st.clearQ
  }

  /** A retry or the recovery of the file is at work. */
  ghost predicate Working(st: State, f: File) {
    || (exists s :: s in st.retriers && st.retriers[s] != RetryIdle && st.retriers[s].file == f)
    || (st.recoverer != RecoverIdle && st.recoverer.file == f)
  }

  /** A retry or the recovery of the file is in progress, up to the removal of the
      error copy. */
  ghost predicate Recovering(st: State, f: File) {
    Working(st, f) || Error(f) in st.clearQ
  }

  ghost predicate MaySend(g: Guard, st: State, f: File) {
    match g
    case Unguarded => true
    case UntilQueued => !Working(st, f)
    case UntilCleared => !Recovering(st, f)
  }

  ghost predicate MayRecover(g: Guard, st: State, f: File) {
    g == Unguarded || !Sending(st, f)
  }

  ghost predicate Enabled(c: Config, st: State, a: Action)
    requires Shape(c, st)
  {
    match a
    case NewFile(f) => f !in st.accepted
    case BeginSend(f) => st.sender == SendIdle && f in st.sendQ && MaySend(c.guard, st, f)
    case Transfer(outcome) =>
      && st.sender.SendTo? && st.sender.i < |c.servers|
      && (outcome == Sent ==> st.sender.file in st.source)
    case SendStep => !st.sender.SendIdle? && (st.sender.SendTo? ==> st.sender.i >= |c.servers|)
    case BeginRetry(s) =>
      && s in c.servers && st.retriers[s] == RetryIdle && st.retryQ[s] != []
      && MayRecover(c.guard, st, st.retryQ[s][0])
    case RetryTransfer(s, outcome) =>
      && s in c.servers && st.retriers[s].RetryTo?
      && (outcome == Sent ==> st.retriers[s].file in st.error)
    case RetryStep(s) => s in c.servers && !st.retriers[s].RetryIdle? && !st.retriers[s].RetryTo?
    case Clear => st.clearQ != []
    case BeginRecover =>
      && st.recoverer == RecoverIdle && st.recoverQ != []
      && MayRecover(c.guard, st, st.recoverQ[0])
    case RecoverStep(s) =>
      && st.recoverer != RecoverIdle
      && (st.recoverer.RecoverQueue? && st.recoverer.view != map[] ==> s in st.recoverer.view && s in c.servers)
    case Crash(order) => forall f :: f in order <==> f in st.error
  }

  /** After a failure has been marked: copy once per send, then queue a retry. */
  function AfterMark(f: File, i: nat, copied: bool, retryable: bool): Sender {
    if !copied then CopyToError(f, i, retryable) else AfterCopy(f, i, retryable)
  }

  function AfterCopy(f: File, i: nat, retryable: bool): Sender {
    if retryable then QueueRetry(f, i) else SendTo(f, i + 1, true)
  }

  function SendNext(c: Config, st: State): State
    requires st.retryQ.Keys == set s | s in c.servers
    requires !st.sender.SendIdle?
    requires st.sender.MarkSet? || st.sender.QueueRetry? ==> st.sender.i < |c.servers|
  {
    match st.sender
    case SendTo(f, _, _) => st.(sender := QueueClear(f))
    case MarkGet(f, i, copied, retryable) => st.(sender := MarkSet(f, i, copied, retryable, Entry(st, f)))
    case MarkSet(f, i, copied, retryable, view) =>
      st.(ledger := PutEntry(st.ledger, f, view[c.servers[i] := false]), sender := AfterMark(f, i, copied, retryable))
    case CopyToError(f, i, retryable) =>
      st.(error := if f in st.source then st.error + {f} else st.error, sender := AfterCopy(f, i, retryable))
    case QueueRetry(f, i) =>
      st.(retryQ := st.retryQ[c.servers[i] := st.retryQ[c.servers[i]] + [f]], sender := SendTo(f, i + 1, true))
    case QueueClear(f) => st.(clearQ := st.clearQ + [Source(f)], sender := SendIdle)
  }

  function RetryNext(st: State, s: Server): State
    requires s in st.retriers && !st.retriers[s].RetryIdle? && !st.retriers[s].RetryTo?
  {
    match st.retriers[s]
    case RemoveGet(f) =>
      st.(retriers := st.retriers[s := if Entry(st, f) == map[] then QueueErrorClear(f) else RemovePut(f, Entry(st, f))])
    case RemovePut(f, view) =>
      st.(ledger := PutEntry(st.ledger, f, view - {s}),
          retriers := st.retriers[s := if view - {s} == map[] then QueueErrorClear(f) else RetryIdle])
    case QueueErrorClear(f) => st.(clearQ := st.clearQ + [Error(f)], retriers := st.retriers[s := RetryIdle])
  }

  function RecoverNext(st: State, s: Server): State
    requires !st.recoverer.RecoverIdle?
    requires st.recoverer.RecoverQueue? && st.recoverer.view != map[] ==> s in st.recoverer.view && s in st.retryQ
  {
    match st.recoverer
    case RecoverGet(f) =>
      st.(recoverer := if Entry(st, f) == map[] then RecoverRename(f) else RecoverQueue(f, Entry(st, f)))
    case RecoverRename(f) =>
      if f in st.error then
        st.(error := st.error - {f}, source := st.source + {f}, sendQ := st.sendQ + multiset{f}, recoverer := RecoverIdle)
      else st.(recoverer := RecoverIdle)
    case RecoverQueue(f, view) =>
      if view == map[] || view[s] then st.(recoverer := RecoverIdle)
      else st.(retryQ := st.retryQ[s := st.retryQ[s] + [f]], recoverer := RecoverQueue(f, view - {s}))
  }

  /** The maps keyed by server cover exactly the connected servers, and the sender
      works on one of them. */
  ghost predicate Shape(c: Config, st: State) {
    && st.retryQ.Keys == (set s | s in c.servers) && st.retriers.Keys == (set s | s in c.servers)
    && (st.sender.MarkGet? || st.sender.MarkSet? || st.sender.CopyToError? || st.sender.QueueRetry? ==> st.sender.i < |c.servers|)
  }

  ghost function Apply(c: Config, st: State, a: Action): State
    requires Shape(c, st) && Enabled(c, st, a)
  {
    match a
    case NewFile(f) =>
      st.(accepted := st.accepted + {f}, source := st.source + {f}, sendQ := st.sendQ + multiset{f})
    case BeginSend(f) => st.(sendQ := st.sendQ - multiset{f}, sender := SendTo(f, 0, false))
    case Transfer(outcome) =>
      var SendTo(f, i, copied) := st.sender;
      if outcome == Sent then
        st.(delivered := st.delivered + {(f, c.servers[i])}, sender := SendTo(f, i + 1, copied))
      else st.(sender := MarkGet(f, i, copied, outcome.retryable))
    case SendStep => SendNext(c, st)
    case BeginRetry(s) =>
      st.(retryQ := st.retryQ[s := st.retryQ[s][1..]], retriers := st.retriers[s := RetryTo(st.retryQ[s][0])])
    case RetryTransfer(s, outcome) =>
      var f := st.retriers[s].file;
      if outcome == Sent then
        st.(delivered := st.delivered + {(f, s)}, retriers := st.retriers[s := RemoveGet(f)])
      else if outcome.retryable then
        st.(retryQ := st.retryQ[s := st.retryQ[s] + [f]], retriers := st.retriers[s := RetryIdle])
      else st.(retriers := st.retriers[s := RetryIdle])
    case RetryStep(s) => RetryNext(st, s)
    case Clear =>
      var rest := st.(clearQ := st.clearQ[1..]);
      if st.clearQ[0].Source? then rest.(source := st.source - {st.clearQ[0].file})
      else rest.(error := st.error - {st.clearQ[0].file})
    case BeginRecover => st.(recoverQ := st.recoverQ[1..], recoverer := RecoverGet(st.recoverQ[0]))
    case RecoverStep(s) => RecoverNext(st, s)
    case Crash(order) =>
      // restart: the source directory is read into the send queue and the error
      // directory into the recovery list
      State(st.accepted, st.delivered, st.source, st.error, st.ledger,
            multiset(st.source), SendIdle, Empty(c), Idle(c), [], order, RecoverIdle)
  }

  // ---- Runs ----------------------------------------------------------------------------

  ghost predicate IsRun(c: Config, states: seq<State>, actions: seq<Action>) {
    && |states| == |actions| + 1 && states[0] == Init(c)
    && forall i | 0 <= i < |actions| ::
         Shape(c, states[i]) && Enabled(c, states[i], actions[i]) && states[i + 1] == Apply(c, states[i], actions[i])
  }

  /** The file has been accepted and the connected server does not have it yet. */
  predicate Missing(c: Config, st: State, f: File, s: Server) {
    f in st.accepted && s in c.servers && (f, s) !in st.delivered
  }

  /** The file waits in the error directory with the server in its ledger entry. */
  predicate Held(st: State, f: File, s: Server) {
    f in st.error && s in Entry(st, f)
  }

  /** No file is lost: whatever a server still misses is in the source directory, or in
      the error directory where recovery will find it. */
  ghost predicate NoFileLost(c: Config, st: State) {
    forall f, s | Missing(c, st, f, s) ::
      f in st.source || (f in st.error && (s in Entry(st, f) || f !in st.ledger))
  }
}
