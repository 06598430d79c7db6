/** What counts as delivered over a run, and that every worker finishes what it begins. */
module SyncProgress {
  import opened SyncDelivery

  // ---- Deliveries ----------------------------------------------------------------------------

  /** The action is a successful transfer of the file to the server, by the send worker or
      by that server's retry worker. */
  predicate Delivers(c: Config, st: State, a: Action, f: File, s: Server) {
    || (a == Transfer(Sent) && st.sender.SendTo? && st.sender.file == f
        && st.sender.i < |c.servers| && c.servers[st.sender.i] == s)
    || (a == RetryTransfer(s, Sent) && s in st.retriers && st.retriers[s] == RetryTo(f))
  }

  predicate SameTally(st: State, st': State) {
    st'.delivered == st.delivered && st'.accepted == st.accepted
  }

  lemma NextDeliversNothing(c: Config, st: State, a: Action)
    requires Shape(c, st) && Enabled(c, st, a) && (a.SendStep? || a.RetryStep? || a.RecoverStep?)
    ensures SameTally(st, Apply(c, st, a))
  {
    hide Entry, PutEntry, AfterMark, AfterCopy;
  }

  lemma StepDelivers(c: Config, st: State, a: Action, f: File, s: Server)
    requires Shape(c, st) && Enabled(c, st, a)
    ensures (f, s) in Apply(c, st, a).delivered <==> (f, s) in st.delivered || Delivers(c, st, a, f, s)
    ensures f in Apply(c, st, a).accepted <==> f in st.accepted || a == NewFile(f)
  {
    hide SendNext, RetryNext, RecoverNext, MaySend, MayRecover;
    if a.SendStep? || a.RetryStep? || a.RecoverStep? {
      NextDeliversNothing(c, st, a);
    }
  }

  /** A server counts as having a file exactly when a transfer of it to that server has
      succeeded, and a file as accepted exactly when it has arrived. */
  lemma {:induction false} DeliveredExactly(c: Config, states: seq<State>, actions: seq<Action>, i: nat, f: File, s: Server)
    requires IsRun(c, states, actions) && i < |states|
    ensures (f, s) in states[i].delivered <==> exists j | 0 <= j < i :: Delivers(c, states[j], actions[j], f, s)
    ensures f in states[i].accepted <==> exists j | 0 <= j < i :: actions[j] == NewFile(f)
  {
    hide Delivers, Apply, Enabled, Shape;
    if i > 0 {
      DeliveredExactly(c, states, actions, i - 1, f, s);
      StepDelivers(c, states[i - 1], actions[i - 1], f, s);
    }
  }

  // ---- Progress ------------------------------------------------------------------------------

  /** The most steps a send still takes. */
  function SenderLeft(c: Config, sender: Sender): int {
    match sender
    case SendIdle => 0
    case QueueClear(_) => 1
    case SendTo(_, i, _) => 5 * Behind(c, i) + 2
    case MarkGet(_, i, _, _) => 5 * Behind(c, i) + 1
    case MarkSet(_, i, _, _, _) => 5 * Behind(c, i)
    case CopyToError(_, i, _) => 5 * Behind(c, i) - 1
    case QueueRetry(_, i) => 5 * Behind(c, i) - 2
  }

  /** The servers from one on. */
  function Behind(c: Config, i: nat): nat {
    if i < |c.servers| then |c.servers| - i else 0
  }

  function RetrierLeft(r: Retrier): nat {
    match r
    case RetryIdle => 0
    case QueueErrorClear(_) => 1
    case RemovePut(_, _) => 2
    case RemoveGet(_) => 3
    case RetryTo(_) => 4
  }

  function RecovererLeft(st: State): nat {
    match st.recoverer
    case RecoverIdle => 0
    case RecoverRename(_) => 1
    case RecoverQueue(_, view) => 1 + |view|
    case RecoverGet(f) => 2 + |Entry(st, f)|
  }

  lemma SendProgresses(c: Config, st: State)
    requires Shape(c, st) && Enabled(c, st, SendStep)
    ensures 0 <= SenderLeft(c, SendNext(c, st).sender) < SenderLeft(c, st.sender)
  {
    hide Entry, PutEntry;
  }

  lemma RetryProgresses(c: Config, st: State, a: Action)
    requires Shape(c, st) && Enabled(c, st, a) && (a.RetryTransfer? || a.RetryStep?)
    ensures a.server in Apply(c, st, a).retriers
    ensures var s := a.server; RetrierLeft(Apply(c, st, a).retriers[s]) < RetrierLeft(st.retriers[s])
  {
    hide Entry, PutEntry;
  }

  lemma RecoveryProgresses(c: Config, st: State, a: Action)
    requires Shape(c, st) && Enabled(c, st, a) && a.RecoverStep?
    ensures RecovererLeft(Apply(c, st, a)) < RecovererLeft(st)
  {
    hide PutEntry;
  }

  /** Every worker finishes what it begins: each of its steps leaves it strictly less to do,
      so a send takes at most five steps per server and two more, a retry four. */
  lemma WorkersFinish(c: Config, st: State, a: Action)
    requires Shape(c, st) && Enabled(c, st, a)
    ensures a.Transfer? || a.SendStep? ==> 0 <= SenderLeft(c, Apply(c, st, a).sender) < SenderLeft(c, st.sender)
    ensures a.RetryTransfer? || a.RetryStep? ==>
      a.server in st.retriers && a.server in Apply(c, st, a).retriers
      && RetrierLeft(Apply(c, st, a).retriers[a.server]) < RetrierLeft(st.retriers[a.server])
    ensures a.RecoverStep? ==> RecovererLeft(Apply(c, st, a)) < RecovererLeft(st)
    ensures a.Clear? ==> |Apply(c, st, a).clearQ| < |st.clearQ|
    ensures a.BeginSend? ==> SenderLeft(c, Apply(c, st, a).sender) == 5 * |c.servers| + 2
    ensures a.BeginRetry? ==> a.server in Apply(c, st, a).retriers && RetrierLeft(Apply(c, st, a).retriers[a.server]) == 4
  {
    hide SendNext, RetryNext, RecoverNext, RecovererLeft, MaySend, MayRecover;
    if a.SendStep? {
      SendProgresses(c, st);
    } else if a.RetryTransfer? || a.RetryStep? {
      RetryProgresses(c, st, a);
    } else if a.RecoverStep? {
      RecoveryProgresses(c, st, a);
    }
  }
}
