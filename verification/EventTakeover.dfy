/** Controller takeover of Node events: an at-least-once outbox with receipts.

    The Node keeps a terminal event in its outbox until the event is acknowledged; the Controller
    acknowledges only what it has made durable together with the exact receipt. */
module EventTakeover {
  import opened Basics

  type Id = string

  datatype Identity = Identity(node: Id, incarnation: Id)

  datatype Family = Clone | Plugin | Revision | Artifacts | Session | Worktree

  datatype Command = Command(family: Family, operation: Id, execution: Id, node: Id, request: Id, spec: string)

  /** `from` is the incarnation a result comes from, `spec` what it was asked to do. */
  datatype Outcome = Outcome(family: Family, from: Identity, spec: string, verdict: string)

  datatype Event = Event(request: Id, operation: Id, execution: Id, sequence: nat, outcome: Outcome)

  datatype ExecutionState = Unknown | Accepted | Running | Completed(outcome: Outcome)

  /** What a Node sends. Session traffic stands for the messages that session workers handle. */
  datatype Message =
    | ResultEvent(event: Event)
    | Status(from: Identity, operation: Id, execution: Id, state: ExecutionState)
    | Heartbeat(from: Identity)
    | RuntimeControl(from: Identity)
    | SessionTraffic

  datatype Ack = Ack(operation: Id, execution: Id, sequence: nat, node: Id)

  // ---- The Controller ----

  /** `families` are the result families this store has durable hooks for; clones always are. */
  datatype Store = Store(
    families: set<Family>,
    controlsRuntime: bool,
    dispatched: map<Id, Command>,
    results: map<Id, Outcome>,
    receipts: map<(Id, nat), Event>)

  /** Receipts are keyed by a signed 64-bit sequence. */
  const MAX_SEQUENCE: nat := 0x7FFF_FFFF_FFFF_FFFF

  predicate Supports(store: Store, family: Family) {
    family.Clone? || family in store.families
  }

  /** The exact durable dispatch to this Node, within one result family. */
  predicate Dispatched(store: Store, session: Identity, family: Family, operation: Id, execution: Id) {
    && Supports(store, family)
    && execution in store.dispatched
    && store.dispatched[execution].operation == operation
    && store.dispatched[execution].node == session.node
    && store.dispatched[execution].family == family
  }

  /** One transaction: the fact, and the receipt when it came with an event. `None` is a conflict. */
  function Commit(store: Store, session: Identity, operation: Id, execution: Id, outcome: Outcome,
                  event: Option<Event>): Option<Store> {
    if !Dispatched(store, session, outcome.family, operation, execution) then None
    else if
      || outcome.from.node != session.node
      || outcome.spec != store.dispatched[execution].spec
      || (event.Some? && event.value.request != store.dispatched[execution].request)
    then None
    else if execution in store.results && store.results[execution] != outcome then None
    else
      var known := store.(results := store.results[execution := outcome]);
      match event
      case None => Some(known)
      case Some(e) =>
        if e.sequence > MAX_SEQUENCE then None
        else if (execution, e.sequence) in store.receipts && store.receipts[(execution, e.sequence)] != e then None
        else Some(known.(receipts := store.receipts[(execution, e.sequence) := e]))
  }

  datatype Takeover = Conflict | Taken(store: Store, ack: Option<Ack>)

  /** What the Controller makes of one message that a Node sent over `session`. */
  function TakeOver(store: Store, session: Identity, m: Message): Takeover {
    match m
    case RuntimeControl(from) =>
      if from != session || !store.controlsRuntime then Conflict else Taken(store, None)
    case ResultEvent(e) =>
      if e.outcome.family.Session? || e.outcome.family.Worktree? then Conflict
      else
        (match Commit(store, session, e.operation, e.execution, e.outcome, Some(e))
         case None => Conflict
         case Some(after) => Taken(after, Some(Ack(e.operation, e.execution, e.sequence, session.node))))
    case Status(from, operation, execution, state) =>
      if from != session then Conflict else TakeOverStatus(store, session, operation, execution, state)
    case Heartbeat(from) => if from == session then Taken(store, None) else Conflict
    case SessionTraffic => Conflict
  }

  /** A query may teach a clone or plugin result; the other families wait for the sequenced event. */
  function TakeOverStatus(store: Store, session: Identity, operation: Id, execution: Id, state: ExecutionState)
    : Takeover
  {
    match state
    case Completed(outcome) =>
      (match outcome.family
       case Worktree => Conflict
       case Clone => Queried(Commit(store, session, operation, execution, outcome, None))
       case Plugin => Queried(Commit(store, session, operation, execution, outcome, None))
       case _ =>
         if outcome.from.node == session.node && Dispatched(store, session, outcome.family, operation, execution)
         then Taken(store, None) else Conflict)
    case _ =>
      if exists family: Family :: !family.Worktree? && Dispatched(store, session, family, operation, execution)
      then Taken(store, None) else Conflict
  }

  function Queried(after: Option<Store>): Takeover {
    if after.None? then Conflict else Taken(after.value, None)
  }

  // ---- The Node ----

  datatype Record = Record(command: Command, outcome: Option<Outcome>)

  datatype Node = Node(self: Identity, records: map<Id, Record>, outbox: map<Id, Event>)

  /** The one terminal envelope of a completed execution. */
  function EventOf(r: Record): Event
    requires r.outcome.Some?
  {
    Event(r.command.request, r.command.operation, r.command.execution, 1, r.outcome.value)
  }

  /** Durable acceptance; a repeat or a stranger's command changes nothing. */
  function Accept(node: Node, c: Command): Node {
    if c.node != node.self.node || c.execution in node.records then node
    else node.(records := node.records[c.execution := Record(c, None)])
  }

  predicate Unfinished(node: Node, x: Id) {
    x in node.records && node.records[x].outcome.None?
  }

  predicate Finished(node: Node, x: Id) {
    x in node.records && node.records[x].outcome.Some?
  }

  /** Result and replay envelope commit together. */
  function Complete(node: Node, x: Id, verdict: string): Node {
    if !Unfinished(node, x) then node
    else
      var c := node.records[x].command;
      var done := Record(c, Some(Outcome(c.family, node.self, c.spec, verdict)));
      node.(records := node.records[x := done], outbox := node.outbox[x := EventOf(done)])
  }

  /** What the Node would answer about an execution, read off its records alone. */
  function StateOf(node: Node, operation: Id, x: Id): ExecutionState {
    if x !in node.records || node.records[x].command.operation != operation then Unknown
    else if node.records[x].outcome.None? then Running
    else Completed(node.records[x].outcome.value)
  }

  /** Takes an event out of the outbox when every name in the acknowledgement fits it. */
  function Acknowledge(node: Node, ack: Ack): Node {
    if
      && ack.node == node.self.node
      && Finished(node, ack.execution)
      && node.records[ack.execution].command.operation == ack.operation
      && ack.sequence == 1
    then node.(outbox := node.outbox - {ack.execution})
    else node
  }

  // ---- The whole system ----

  /** `wire` and `acks` hold everything ever sent: a message may arrive late, often, or never. */
  datatype System = System(store: Store, node: Node, wire: set<Message>, acks: set<Ack>)

  datatype Step =
    | Dispatch(command: Command)
    | AcceptCommand(command: Command)
    | CompleteExecution(execution: Id, verdict: string)
    | RestartNode(incarnation: Id)
    | SendEvent(execution: Id)
    | SendStatus(operation: Id, execution: Id)
    | SendOther(message: Message)
    | Deliver(message: Message, session: Identity, replies: bool)
    | DeliverAck(ack: Ack)

  /** One step; a step that is not possible changes nothing. `Deliver` commits whole or not at all, and
      the Controller may die between the commit and the reply. */
  function Next(s: System, step: Step): System {
    match step
    case Dispatch(c) =>
      if c.execution in s.store.dispatched then s
      else s.(store := s.store.(dispatched := s.store.dispatched[c.execution := c]))
    case AcceptCommand(c) => s.(node := Accept(s.node, c))
    case CompleteExecution(x, verdict) => s.(node := Complete(s.node, x, verdict))
    case RestartNode(incarnation) => s.(node := s.node.(self := s.node.self.(incarnation := incarnation)))
    case SendEvent(x) => if x in s.node.outbox then s.(wire := s.wire + {ResultEvent(s.node.outbox[x])}) else s
    case SendStatus(operation, x) =>
      s.(wire := s.wire + {Status(s.node.self, operation, x, StateOf(s.node, operation, x))})
    case SendOther(m) => if m.ResultEvent? || m.Status? then s else s.(wire := s.wire + {m})
    case Deliver(m, session, replies) => if m in s.wire then Received(s, m, session, replies) else s
    case DeliverAck(ack) => if ack in s.acks then s.(node := Acknowledge(s.node, ack)) else s
  }

  function Received(s: System, m: Message, session: Identity, replies: bool): System {
    match TakeOver(s.store, session, m)
    case Conflict => s
    case Taken(store, ack) =>
      s.(store := store, acks := s.acks + if replies && ack.Some? then {ack.value} else {})
  }

  function Start(families: set<Family>, controlsRuntime: bool, self: Identity): System {
    System(Store(families, controlsRuntime, map[], map[], map[]), Node(self, map[], map[]), {}, {})
  }

  function After(s: System, steps: seq<Step>): System {
    if steps == [] then s else Next(After(s, steps[..|steps| - 1]), steps[|steps| - 1])
  }

  // ---- What every step keeps ----

  predicate RecordSound(node: Id, x: Id, r: Record) {
    && r.command.execution == x
    && r.command.node == node
    && (r.outcome.Some? ==>
          && r.outcome.value.family == r.command.family
          && r.outcome.value.spec == r.command.spec
          && r.outcome.value.from.node == node)
  }

  /** The Node's records and envelopes agree with each other. */
  ghost predicate NodeSound(n: Node) {
    && (forall x :: x in n.records ==> RecordSound(n.self.node, x, n.records[x]))
    && (forall x :: x in n.outbox ==> Finished(n, x) && n.outbox[x] == EventOf(n.records[x]))
  }

  /** What was finished stays finished the same way. */
  ghost predicate Kept(n: Node, after: Node) {
    forall x :: Finished(n, x) ==> Finished(after, x) && after.records[x] == n.records[x]
  }

  /** Every finished execution still pending, or receipted. */
  ghost predicate Accounted(s: Store, n: Node) {
    forall x :: Finished(n, x) && x !in n.outbox ==> (x, 1) in s.receipts
  }

  predicate Genuine(n: Node, m: Message) {
    match m
    case ResultEvent(e) => Finished(n, e.execution) && e == EventOf(n.records[e.execution])
    case Status(_, operation, x, Completed(o)) =>
      Finished(n, x) && n.records[x].outcome == Some(o) && n.records[x].command.operation == operation
    case _ => true
  }

  /** What the Controller holds came from the Node. */
  ghost predicate StoreSound(s: Store, n: Node) {
    && (forall x :: x in s.dispatched ==> s.dispatched[x].execution == x)
    && (forall x :: x in s.results ==> Finished(n, x) && n.records[x].outcome == Some(s.results[x]))
    && (forall k :: k in s.receipts ==>
          k.1 == 1 && Finished(n, k.0) && s.receipts[k] == EventOf(n.records[k.0]) && k.0 in s.results)
  }

  predicate Earned(s: Store, n: Node, a: Ack) {
    && a.sequence == 1 && (a.execution, 1) in s.receipts
    && Finished(n, a.execution) && n.records[a.execution].command.operation == a.operation
  }

  ghost predicate Inv(s: System) {
    && NodeSound(s.node)
    && (forall m :: m in s.wire ==> Genuine(s.node, m))
    && StoreSound(s.store, s.node)
    && (forall a :: a in s.acks ==> Earned(s.store, s.node, a))
    && Accounted(s.store, s.node)
  }

  ghost predicate Grown(s: Store, t: Store) {
    && (forall x :: x in s.results ==> x in t.results && t.results[x] == s.results[x])
    && (forall k :: k in s.receipts ==> k in t.receipts && t.receipts[k] == s.receipts[k])
  }

  /** Durable facts only ever grow. */
  ghost predicate Preserved(a: System, b: System) {
    && Kept(a.node, b.node)
    && Grown(a.store, b.store)
  }

  lemma CommitKeeps(s: Store, n: Node, session: Identity, operation: Id, x: Id, o: Outcome, event: Option<Event>)
    requires StoreSound(s, n) && NodeSound(n)
    requires Finished(n, x) && n.records[x].outcome == Some(o)
    requires event.Some? ==> event.value == EventOf(n.records[x])
    requires Commit(s, session, operation, x, o, event).Some?
    ensures var t := Commit(s, session, operation, x, o, event).value;
            && StoreSound(t, n)
            && x in t.results && t.results[x] == o
            && (event.Some? ==> (x, 1) in t.receipts)
            && Grown(s, t)
  {
  }

  lemma StoreChangeKeeps(s: System, t: Store, ack: Option<Ack>)
    requires Inv(s) && StoreSound(t, s.node) && Grown(s.store, t)
    requires ack.Some? ==> Earned(t, s.node, ack.value)
    ensures var u := s.(store := t, acks := s.acks + if ack.Some? then {ack.value} else {}); Inv(u) && Preserved(s, u)
  {
    forall a | a in s.acks
      ensures Earned(t, s.node, a)
    {
      assert Earned(s.store, s.node, a);
    }
  }

  lemma ReceivedKeeps(s: System, m: Message, session: Identity, replies: bool)
    requires Inv(s) && m in s.wire
    ensures Inv(Received(s, m, session, replies)) && Preserved(s, Received(s, m, session, replies))
  {
    assert Genuine(s.node, m);
    var taken := TakeOver(s.store, session, m);
    if taken.Taken? {
      match m {
        case ResultEvent(e) =>
          CommitKeeps(s.store, s.node, session, e.operation, e.execution, e.outcome, Some(e));
        case Status(_, operation, x, Completed(o)) =>
          if o.family.Clone? || o.family.Plugin? {
            CommitKeeps(s.store, s.node, session, operation, x, o, None);
          }
        case _ =>
      }
      StoreChangeKeeps(s, taken.store, if replies then taken.ack else None);
    }
  }

  lemma NodeChangeKeeps(s: System, n: Node)
    requires Inv(s) && NodeSound(n) && Kept(s.node, n) && Accounted(s.store, n)
    ensures Inv(s.(node := n)) && Preserved(s, s.(node := n))
  {
    forall m | m in s.wire
      ensures Genuine(n, m)
    {
      assert Genuine(s.node, m);
    }
    forall a | a in s.acks
      ensures Earned(s.store, n, a)
    {
      assert Earned(s.store, s.node, a);
    }
  }

  lemma AcceptIsSound(n: Node, c: Command)
    requires NodeSound(n)
    ensures NodeSound(Accept(n, c)) && Kept(n, Accept(n, c))
    ensures forall x :: Finished(Accept(n, c), x) ==> Finished(n, x)
  {
  }

  lemma CompleteIsSound(n: Node, x: Id, verdict: string)
    requires NodeSound(n)
    ensures NodeSound(Complete(n, x, verdict)) && Kept(n, Complete(n, x, verdict))
    ensures forall y :: Finished(Complete(n, x, verdict), y) ==> Finished(n, y) || y in Complete(n, x, verdict).outbox
  {
  }

  lemma AcknowledgeIsSound(s: System, ack: Ack)
    requires Inv(s) && ack in s.acks
    ensures var n := Acknowledge(s.node, ack); NodeSound(n) && Kept(s.node, n) && Accounted(s.store, n)
  {
    assert Earned(s.store, s.node, ack);
  }

  /** Sending only adds messages, and each one sent is genuine. */
  lemma SendKeeps(s: System, m: Message)
    requires Inv(s) && Genuine(s.node, m)
    ensures Inv(s.(wire := s.wire + {m})) && Preserved(s, s.(wire := s.wire + {m}))
  {
  }

  lemma DispatchKeeps(s: System, c: Command)
    requires Inv(s)
    ensures Inv(Next(s, Dispatch(c))) && Preserved(s, Next(s, Dispatch(c)))
  {
    var t := Next(s, Dispatch(c));
    forall a | a in t.acks
      ensures Earned(t.store, t.node, a)
    {
      assert Earned(s.store, s.node, a);
    }
  }

  lemma NodeStepKeeps(s: System, step: Step)
    requires Inv(s)
    requires step.AcceptCommand? || step.CompleteExecution? || step.RestartNode? || step.DeliverAck?
    ensures Inv(Next(s, step)) && Preserved(s, Next(s, step))
  {
    var n := Next(s, step).node;
    assert Next(s, step) == s.(node := n);
    assert NodeSound(n) && Kept(s.node, n) && Accounted(s.store, n) by {
      match step {
        case AcceptCommand(c) => AcceptIsSound(s.node, c);
        case CompleteExecution(x, verdict) => CompleteIsSound(s.node, x, verdict);
        case DeliverAck(ack) =>
          if ack in s.acks {
            AcknowledgeIsSound(s, ack);
          }
        case RestartNode(_) =>
      }
    }
    NodeChangeKeeps(s, n);
  }

  lemma StepKeeps(s: System, step: Step)
    requires Inv(s)
    ensures Inv(Next(s, step)) && Preserved(s, Next(s, step))
  {
    match step {
      case Dispatch(c) => DispatchKeeps(s, c);
      case Deliver(m, session, replies) =>
        if m in s.wire {
          ReceivedKeeps(s, m, session, replies);
        }
      case SendEvent(x) =>
        if x in s.node.outbox {
          SendKeeps(s, ResultEvent(s.node.outbox[x]));
        }
      case SendStatus(operation, x) =>
        SendKeeps(s, Status(s.node.self, operation, x, StateOf(s.node, operation, x)));
      case SendOther(m) =>
        if m.SessionTraffic? || m.RuntimeControl? {
          SendKeeps(s, m);
        }
      case _ => NodeStepKeeps(s, step);
    }
  }

  lemma {:induction false} RunKeeps(s: System, steps: seq<Step>)
    requires Inv(s)
    ensures Inv(After(s, steps)) && Preserved(s, After(s, steps))
  {
    if steps != [] {
      RunKeeps(s, steps[..|steps| - 1]);
      StepKeeps(After(s, steps[..|steps| - 1]), steps[|steps| - 1]);
    }
  }

  // ---- Promises about one message, genuine or not ----

  lemma CommitIsHonest(s: Store, session: Identity, operation: Id, x: Id, o: Outcome, event: Option<Event>)
    requires Commit(s, session, operation, x, o, event).Some?
    ensures var t := Commit(s, session, operation, x, o, event).value;
            && Grown(s, t) && t.dispatched == s.dispatched && t.families == s.families
            && t.controlsRuntime == s.controlsRuntime
            && x in t.results && t.results[x] == o
            && (event.Some? ==>
                  && event.value.sequence <= MAX_SEQUENCE
                  && (x, event.value.sequence) in t.receipts && t.receipts[(x, event.value.sequence)] == event.value)
            && Commit(t, session, operation, x, o, event) == Some(t)
  {
    var t := Commit(s, session, operation, x, o, event).value;
    assert t.results[x := o] == t.results;
    if event.Some? {
      assert t.receipts[(x, event.value.sequence) := event.value] == t.receipts;
    }
  }

  /** Whatever arrives, from whomever: durable facts only grow, a repeat changes nothing and is answered
      the same way, statuses, heartbeats and control states count only from the session's own incarnation,
      the result a status teaches becomes durable and nothing else of a status does,
      and an acknowledgement names an event that is now durable as fact and exact receipt for the very
      command this Controller dispatched to that Node. */
  lemma TakeOverIsHonest(store: Store, session: Identity, m: Message)
    requires TakeOver(store, session, m).Taken?
    ensures var taken := TakeOver(store, session, m);
            && Grown(store, taken.store) && taken.store.dispatched == store.dispatched
            && TakeOver(taken.store, session, m) == taken
            && (taken.ack.Some? <==> m.ResultEvent?)
            && (m.Status? || m.Heartbeat? || m.RuntimeControl? ==> m.from == session)
            && (Teaches(m) ==>
                  m.execution in taken.store.results && taken.store.results[m.execution] == m.state.outcome)
            && (!m.ResultEvent? && !Teaches(m) ==> taken.store == store)
    ensures m.ResultEvent? ==>
      var e, after, ack := m.event, TakeOver(store, session, m).store, TakeOver(store, session, m).ack.value;
      && ack == Ack(e.operation, e.execution, e.sequence, session.node)
      && e.execution in after.results && after.results[e.execution] == e.outcome
      && (e.execution, e.sequence) in after.receipts && after.receipts[(e.execution, e.sequence)] == e
      && e.execution in store.dispatched
      && (var c := store.dispatched[e.execution];
          && c == Command(e.outcome.family, e.operation, c.execution, session.node, e.request, e.outcome.spec)
          && e.outcome.from.node == session.node)
  {
    match m {
      case ResultEvent(e) => CommitIsHonest(store, session, e.operation, e.execution, e.outcome, Some(e));
      case Status(_, operation, x, Completed(o)) =>
        if o.family.Clone? || o.family.Plugin? {
          CommitIsHonest(store, session, operation, x, o, None);
        }
      case _ =>
    }
  }

  /** A queried result that becomes durable without its event. */
  predicate Teaches(m: Message) {
    m.Status? && m.state.Completed? && (m.state.outcome.family.Clone? || m.state.outcome.family.Plugin?)
  }

  /** The result fits the command it names, to the letter, and contradicts nothing durable. */
  predicate FitsCommand(store: Store, session: Identity, operation: Id, x: Id, o: Outcome) {
    && Supports(store, o.family) && o.from.node == session.node
    && x in store.dispatched
    && (var c := store.dispatched[x];
        c == Command(o.family, operation, c.execution, session.node, c.request, o.spec))
    && (x in store.results ==> store.results[x] == o)
  }

  /** The messages a Controller takes over. */
  predicate Welcome(store: Store, session: Identity, m: Message) {
    match m
    case ResultEvent(e) =>
      && !e.outcome.family.Session? && !e.outcome.family.Worktree?
      && FitsCommand(store, session, e.operation, e.execution, e.outcome)
      && e.request == store.dispatched[e.execution].request
      && e.sequence <= MAX_SEQUENCE
      && ((e.execution, e.sequence) in store.receipts ==> store.receipts[(e.execution, e.sequence)] == e)
    case Status(from, operation, x, state) =>
      && from == session
      && x in store.dispatched && Supports(store, store.dispatched[x].family)
      && store.dispatched[x].operation == operation && store.dispatched[x].node == session.node
      && !store.dispatched[x].family.Worktree?
      && (state.Completed? ==>
            && state.outcome.family == store.dispatched[x].family && state.outcome.from.node == session.node
            && (Teaches(m) ==> FitsCommand(store, session, operation, x, state.outcome)))
    case Heartbeat(from) => from == session
    case RuntimeControl(from) => from == session && store.controlsRuntime
    case SessionTraffic => false
  }

  /** A message is taken over exactly when it is welcome; anything else is a conflict and changes nothing. */
  lemma TakenExactlyWhenWelcome(store: Store, session: Identity, m: Message)
    ensures TakeOver(store, session, m).Taken? <==> Welcome(store, session, m)
  {
    if m.Status? && m.from == session && m.execution in store.dispatched {
      var family := store.dispatched[m.execution].family;
      assert forall f: Family :: Dispatched(store, session, f, m.operation, m.execution) ==> f == family;
    }
  }

  /** What names no command this Controller dispatched to that Node is a conflict, result or status. */
  lemma StrangersConflict(store: Store, session: Identity, m: Message)
    requires m.ResultEvent? || m.Status?
    requires var (operation, x) :=
               if m.ResultEvent? then (m.event.operation, m.event.execution) else (m.operation, m.execution);
             !(&& x in store.dispatched
               && store.dispatched[x].operation == operation
               && store.dispatched[x].node == session.node)
    ensures TakeOver(store, session, m) == Conflict
  {
  }

  /** Whoever sends it, an acknowledgement removes only the event it names to the letter, and a repeat
      changes nothing. */
  lemma AcknowledgeIsExact(n: Node, ack: Ack)
    requires NodeSound(n)
    ensures Acknowledge(Acknowledge(n, ack), ack) == Acknowledge(n, ack)
    ensures Acknowledge(n, ack).records == n.records && Acknowledge(n, ack).self == n.self
    ensures forall x :: x in n.outbox && x !in Acknowledge(n, ack).outbox ==>
      && n.outbox[x].operation == ack.operation && n.outbox[x].execution == ack.execution
      && n.outbox[x].sequence == ack.sequence && n.self.node == ack.node
    ensures forall x :: x in Acknowledge(n, ack).outbox ==>
      x in n.outbox && Acknowledge(n, ack).outbox[x] == n.outbox[x]
  {
    assert n.outbox - {ack.execution} - {ack.execution} == n.outbox - {ack.execution};
  }

  // ---- Promises about every run ----

  /** No event is lost: whatever is lost, repeated, reordered or restarted, a completed execution's event
      is either still in the outbox or durable at the Controller as fact and exact receipt. */
  lemma NoEventIsLost(families: set<Family>, control: bool, self: Identity, steps: seq<Step>, x: Id)
    requires Finished(After(Start(families, control, self), steps).node, x)
    ensures var s := After(Start(families, control, self), steps);
            var event := EventOf(s.node.records[x]);
            || (x in s.node.outbox && s.node.outbox[x] == event)
            || (&& x in s.store.results && s.store.results[x] == event.outcome
                && (x, 1) in s.store.receipts && s.store.receipts[(x, 1)] == event)
  {
    RunKeeps(Start(families, control, self), steps);
  }

  /** A durable result never changes, and it is the Node's own. */
  lemma ResultsAreFinal(families: set<Family>, control: bool, self: Identity, steps: seq<Step>, more: seq<Step>, x: Id)
    requires x in After(Start(families, control, self), steps).store.results
    ensures var s := After(Start(families, control, self), steps);
            var t := After(Start(families, control, self), steps + more);
            && x in t.store.results && t.store.results[x] == s.store.results[x]
            && Finished(t.node, x) && t.node.records[x].outcome == Some(s.store.results[x])
  {
    var start := Start(families, control, self);
    RunKeeps(start, steps);
    RunKeeps(After(start, steps), more);
    RunsCompose(start, steps, more);
  }

  lemma {:induction false} RunsCompose(s: System, steps: seq<Step>, more: seq<Step>)
    ensures After(s, steps + more) == After(After(s, steps), more)
  {
    if more == [] {
      assert steps + more == steps;
    } else {
      assert (steps + more)[..|steps + more| - 1] == steps + more[..|more| - 1];
      RunsCompose(s, steps, more[..|more| - 1]);
    }
  }

  /** Only a delivered result event can cause a removal: without one, and with no acknowledgement under
      way, nothing ever leaves the outbox, however many statuses are queried and delivered. */
  lemma {:induction false} QueriesNeverRemove(s: System, steps: seq<Step>, x: Id)
    requires s.acks == {} && x in s.node.outbox
    requires forall i :: 0 <= i < |steps| && steps[i].Deliver? ==> !steps[i].message.ResultEvent?
    ensures After(s, steps).acks == {} && x in After(s, steps).node.outbox
  {
    if steps != [] {
      QueriesNeverRemove(s, steps[..|steps| - 1], x);
    }
  }

  /** In every reachable state a pending event is taken over exactly when its execution is, to the letter,
      one this Controller dispatched to this Node in a family its store takes over; and the
      acknowledgement then removes that event and nothing else. */
  lemma PendingEventsCanDrain(families: set<Family>, control: bool, self: Identity, steps: seq<Step>, x: Id,
                              session: Identity)
    requires var s := After(Start(families, control, self), steps);
             x in s.node.outbox && session.node == s.node.self.node
    ensures x in After(Start(families, control, self), steps).node.records
    ensures var s := After(Start(families, control, self), steps);
            var taken := TakeOver(s.store, session, ResultEvent(s.node.outbox[x]));
            var c := s.node.records[x].command;
            && (taken.Taken? <==>
                  && x in s.store.dispatched && s.store.dispatched[x] == c
                  && Supports(s.store, c.family) && !c.family.Session? && !c.family.Worktree?)
            && (taken.Taken? ==>
                  && taken.ack.Some?
                  && Acknowledge(s.node, taken.ack.value) == s.node.(outbox := s.node.outbox - {x}))
  {
    RunKeeps(Start(families, control, self), steps);
  }

  /** In every reachable state a status about a dispatched execution is taken, whatever its family and
      however far it got, as long as the Node runs that very command under that number. */
  lemma OwnStatusIsTaken(families: set<Family>, control: bool, self: Identity, steps: seq<Step>, x: Id)
    requires var s := After(Start(families, control, self), steps);
             && x in s.store.dispatched && s.store.dispatched[x].node == s.node.self.node
             && Supports(s.store, s.store.dispatched[x].family) && !s.store.dispatched[x].family.Worktree?
             && (x in s.node.records ==> s.node.records[x].command == s.store.dispatched[x])
    ensures var s := After(Start(families, control, self), steps);
            var operation := s.store.dispatched[x].operation;
            TakeOver(s.store, s.node.self, Status(s.node.self, operation, x, StateOf(s.node, operation, x))).Taken?
  {
    RunKeeps(Start(families, control, self), steps);
    var s := After(Start(families, control, self), steps);
    var c := s.store.dispatched[x];
    assert Dispatched(s.store, s.node.self, c.family, c.operation, x);
    if Finished(s.node, x) {
      assert RecordSound(s.node.self.node, x, s.node.records[x]);
    }
  }

  /** What the Node answers about an execution is what it knows: a result exactly if it has one. In every
      reachable state that answer makes a clone's or plugin's result durable without its event. */
  lemma QueryTeachesResult(families: set<Family>, control: bool, self: Identity, steps: seq<Step>, x: Id)
    requires var s := After(Start(families, control, self), steps);
             && Finished(s.node, x) && x in s.store.dispatched && s.store.dispatched[x] == s.node.records[x].command
             && Supports(s.store, s.store.dispatched[x].family)
             && (s.store.dispatched[x].family.Clone? || s.store.dispatched[x].family.Plugin?)
    ensures var s := After(Start(families, control, self), steps);
            var operation := s.store.dispatched[x].operation;
            var status := Status(s.node.self, operation, x, StateOf(s.node, operation, x));
            var taken := TakeOver(s.store, s.node.self, status);
            && taken.Taken? && x in taken.store.results
            && Some(taken.store.results[x]) == s.node.records[x].outcome
  {
    RunKeeps(Start(families, control, self), steps);
    KnownResultIsTaught(After(Start(families, control, self), steps), x);
  }

  lemma KnownResultIsTaught(s: System, x: Id)
    requires NodeSound(s.node) && StoreSound(s.store, s.node)
    requires Finished(s.node, x) && x in s.store.dispatched && s.store.dispatched[x] == s.node.records[x].command
    requires Supports(s.store, s.store.dispatched[x].family)
    requires s.store.dispatched[x].family.Clone? || s.store.dispatched[x].family.Plugin?
    ensures var operation := s.store.dispatched[x].operation;
            var status := Status(s.node.self, operation, x, StateOf(s.node, operation, x));
            var taken := TakeOver(s.store, s.node.self, status);
            && taken.Taken? && x in taken.store.results
            && Some(taken.store.results[x]) == s.node.records[x].outcome
  {
    assert RecordSound(s.node.self.node, x, s.node.records[x]);
  }

  /** The first verdict stands: whatever happens later, restarts, repeats and other verdicts included, the
      execution's result is the one it was first completed with, at the Node and at the Controller. */
  lemma FirstVerdictStands(families: set<Family>, control: bool, self: Identity, steps: seq<Step>, x: Id,
                           verdict: string, more: seq<Step>)
    requires Unfinished(After(Start(families, control, self), steps).node, x)
    ensures var s := After(Start(families, control, self), steps);
            var t := After(Next(s, CompleteExecution(x, verdict)), more);
            var c := s.node.records[x].command;
            var result := Outcome(c.family, s.node.self, c.spec, verdict);
            && x in t.node.records && t.node.records[x] == Record(c, Some(result))
            && (x in t.store.results ==> t.store.results[x] == result)
  {
    RunKeeps(Start(families, control, self), steps);
    VerdictStands(After(Start(families, control, self), steps), x, verdict, more);
  }

  lemma CompletesWith(n: Node, x: Id, verdict: string)
    requires Unfinished(n, x)
    ensures var c := n.records[x].command;
            && Finished(Complete(n, x, verdict), x)
            && Complete(n, x, verdict).records[x] == Record(c, Some(Outcome(c.family, n.self, c.spec, verdict)))
  {
  }

  lemma VerdictStands(s: System, x: Id, verdict: string, more: seq<Step>)
    requires Inv(s) && Unfinished(s.node, x)
    ensures var t := After(Next(s, CompleteExecution(x, verdict)), more);
            var c := s.node.records[x].command;
            var result := Outcome(c.family, s.node.self, c.spec, verdict);
            && x in t.node.records && t.node.records[x] == Record(c, Some(result))
            && (x in t.store.results ==> t.store.results[x] == result)
  {
    var u := Next(s, CompleteExecution(x, verdict));
    CompletesWith(s.node, x, verdict);
    StepKeeps(s, CompleteExecution(x, verdict));
    RunKeeps(u, more);
    assert Finished(u.node, x);
  }

  /** The way a result is meant to go: dispatched, accepted, completed, sent, taken over and acknowledged. */
  function Journey(c: Command, verdict: string, session: Identity): seq<Step> {
    var event := Event(c.request, c.operation, c.execution, 1, Outcome(c.family, session, c.spec, verdict));
    [Dispatch(c), AcceptCommand(c), CompleteExecution(c.execution, verdict), SendEvent(c.execution),
     Deliver(ResultEvent(event), session, true), DeliverAck(Ack(c.operation, c.execution, 1, session.node))]
  }

  lemma AfterOneMore(s: System, steps: seq<Step>, step: Step)
    ensures After(s, steps + [step]) == Next(After(s, steps), step)
  {
    assert (steps + [step])[..|steps + [step]| - 1] == steps;
  }

  /** A command that reaches its Node gets its result to the Controller and the outbox empty again. */
  lemma JourneyDrains(families: set<Family>, control: bool, c: Command, verdict: string, session: Identity)
    requires c.node == session.node && (c.family.Clone? || c.family in families)
    requires !c.family.Session? && !c.family.Worktree?
    ensures var s := After(Start(families, control, session), Journey(c, verdict, session));
            && s.node.outbox == map[]
            && s.store.results == map[c.execution := Outcome(c.family, session, c.spec, verdict)]
            && (c.execution, 1) in s.store.receipts
  {
    var start, steps := Start(families, control, session), Journey(c, verdict, session);
    var result := Outcome(c.family, session, c.spec, verdict);
    var event := Event(c.request, c.operation, c.execution, 1, result);
    var ack := Ack(c.operation, c.execution, 1, session.node);
    HalfWay(start, c, verdict, session);
    var s4 := After(start, steps[..4]);
    assert steps[..5] == steps[..4] + [steps[4]] && steps == steps[..5] + [steps[5]];
    AfterOneMore(start, steps[..4], steps[4]);
    AfterOneMore(start, steps[..5], steps[5]);
    assert TakeOver(s4.store, session, ResultEvent(event)).Taken?;
    assert ack in After(start, steps[..5]).acks;
    assert map[c.execution := event] - {c.execution} == map[];
  }

  lemma HalfWay(start: System, c: Command, verdict: string, session: Identity)
    requires exists families, control :: start == Start(families, control, session)
    requires c.node == session.node
    ensures var s := After(start, Journey(c, verdict, session)[..4]);
            var done := Record(c, Some(Outcome(c.family, session, c.spec, verdict)));
            && s.node == Node(session, map[c.execution := done], map[c.execution := EventOf(done)])
            && s.wire == {ResultEvent(EventOf(done))} && s.acks == {}
            && s.store == start.store.(dispatched := map[c.execution := c])
  {
    var steps := Journey(c, verdict, session);
    assert After(start, []) == start && steps[..1] == [] + [steps[0]];
    AfterOneMore(start, [], steps[0]);
    assert steps[..2] == steps[..1] + [steps[1]] && steps[..3] == steps[..2] + [steps[2]];
    assert steps[..4] == steps[..3] + [steps[3]];
    AfterOneMore(start, steps[..1], steps[1]);
    AfterOneMore(start, steps[..2], steps[2]);
    AfterOneMore(start, steps[..3], steps[3]);
  }

  /** What the Node answers is what it knows: nothing of another operation, and a result exactly if it has one. */
  lemma AnswerIsWhatTheNodeKnows(n: Node, operation: Id, x: Id)
    ensures var known := x in n.records && n.records[x].command.operation == operation;
            && (StateOf(n, operation, x).Unknown? <==> !known)
            && (StateOf(n, operation, x).Completed? <==> known && Finished(n, x))
            && (StateOf(n, operation, x).Running? <==> known && Unfinished(n, x))
  {
  }

  /** A command once dispatched is never replaced under its number. */
  lemma {:induction false} DispatchIsFinal(s: System, steps: seq<Step>, x: Id)
    requires x in s.store.dispatched
    ensures x in After(s, steps).store.dispatched && After(s, steps).store.dispatched[x] == s.store.dispatched[x]
  {
    if steps != [] {
      DispatchIsFinal(s, steps[..|steps| - 1], x);
      DispatchStays(After(s, steps[..|steps| - 1]), steps[|steps| - 1], x);
    }
  }

  lemma DispatchStays(s: System, step: Step, x: Id)
    requires x in s.store.dispatched
    ensures x in Next(s, step).store.dispatched && Next(s, step).store.dispatched[x] == s.store.dispatched[x]
  {
    if step.Deliver? && step.message in s.wire && TakeOver(s.store, step.session, step.message).Taken? {
      TakeOverIsHonest(s.store, step.session, step.message);
    }
  }

  /** A Node that was restarted is another sender: a status it sent before is on the wire, and a Controller
      that talks to the new incarnation does not take it. */
  lemma StaleStatusIsRefused(s: System, operation: Id, x: Id, incarnation: Id)
    requires incarnation != s.node.self.incarnation
    ensures var t := Next(Next(s, SendStatus(operation, x)), RestartNode(incarnation));
            var status := Status(s.node.self, operation, x, StateOf(s.node, operation, x));
            && t.node.self == Identity(s.node.self.node, incarnation) && status in t.wire
            && Next(t, Deliver(status, t.node.self, true)) == t
  {
  }
}
