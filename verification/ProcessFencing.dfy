/** Process fencing: which Git processes may still be running when the next one is launched.

    Each mutation gets a fresh scope and a durable journal entry before it is launched; the entry is
    marked cleaned only once the host has proved the scope closed. Reads share one scope and no entry.
    Every call into the journal or the host may fail, and the process may die inside it. */
module ProcessFencing {
  import opened Basics

  type Run = nat
  type Scope = nat
  type Execution = string

  /** A scope is full once it has held this many runs. */
  const RUN_LIMIT: nat := 64

  datatype Entry = Entry(run: Run, scope: Scope, execution: Execution)

  datatype Attempt = Attempt(entry: Entry, cleaned: bool)

  datatype Launch = Launch(run: Run, scope: Scope, who: Option<Execution>, mutating: bool)

  /** How a read's call ended for its caller: the read ran, it failed and its scope was closed, or it
      failed and closing could not be proved. A call that died never returned. */
  datatype Report = RanToEnd | Contained | Unproved

  datatype Event =
    | Adopted(execution: Execution, accepted: bool)
    | Journalled(entry: Entry)
    | Launched(launch: Launch)
    | Returned(run: Run, report: Report)
    | Closed(scope: Scope)
    | Cleaned(entry: Entry)
    | Restarted

  /** Everything that ever happened, across restarts, oldest event innermost. */
  datatype Trace = Empty | Then(before: Trace, event: Event)

  function Events(t: Trace): seq<Event> {
    match t
    case Empty => []
    case Then(before, e) => Events(before) + [e]
  }

  datatype Digest = Digest(
    adopted: set<Execution>,
    journal: seq<Entry>,
    launched: set<Launch>,
    ended: set<Run>,
    closed: set<Scope>)

  function Know(t: Trace): Digest {
    match t
    case Empty => Digest({}, [], {}, {}, {})
    case Then(before, e) => Advance(Know(before), e)
  }

  function Advance(d: Digest, e: Event): Digest {
    match e
    case Adopted(x, _) => d.(adopted := d.adopted + {x})
    case Journalled(x) => d.(journal := d.journal + [x])
    case Launched(l) => d.(launched := d.launched + {l})
    case Returned(r, report) => if report.RanToEnd? then d.(ended := d.ended + {r}) else d
    case Closed(s) => d.(closed := d.closed + {s})
    case Cleaned(_) => d
    case Restarted => d
  }

  /** Everything ever launched in a scope. */
  function RunsIn(d: Digest, s: Scope): set<Launch> {
    set l | l in d.launched && l.scope == s
  }

  /** No mutation launched for `e` can still be running. */
  ghost predicate Fenced(d: Digest, e: Execution) {
    forall l :: l in d.launched && l.mutating && l.who == Some(e) ==> l.scope in d.closed
  }

  ghost predicate Allowed(d: Digest, e: Event) {
    match e
    case Adopted(x, accepted) => accepted
    case Journalled(x) => (forall y :: y in d.journal ==> y.run != x.run)
    case Launched(l) =>
      && l.scope !in d.closed
      && |RunsIn(d, l.scope)| < RUN_LIMIT
      && (forall m :: m in d.launched ==> m.run != l.run)
      && (l.mutating ==> l.who.Some? && Entry(l.run, l.scope, l.who.value) in d.journal)
      && (l.who.Some? ==> l.who.value in d.adopted && Fenced(d, l.who.value))
    case Returned(r, report) =>
      exists l :: l in d.launched && l.run == r && !l.mutating && (report.Contained? ==> l.scope in d.closed)
    case Closed(s) => true
    case Cleaned(x) => x in d.journal && x.scope in d.closed
    case Restarted => true
  }

  ghost predicate Lawful(t: Trace) {
    t.Then? ==> Lawful(t.before) && Allowed(Know(t.before), t.event)
  }

  /** The process has ended, or lies in a scope the host has closed. */
  predicate Settled(d: Digest, l: Launch) {
    l.run in d.ended || l.scope in d.closed
  }

  // ---- The runner ----

  datatype Step = Works | Fails | Dies

  /** How the host treats one read: rotation of a full scope, the run itself, and the closing after it. */
  datatype ReadLuck = ReadLuck(rotate: Step, execute: Step, close: Step)

  /** How journal and host treat one mutation. */
  datatype MutationLuck = MutationLuck(journal: Step, execute: Step, close: Step, clean: Step)

  /** What the caller of a command learns. `Barred`: nothing was launched. `CloseUnproved`: the error
      says that the scope could not be proved closed. `Dead`: the process died, no one learns anything. */
  datatype Outcome = Ran | Failed | Barred | CloseUnproved | Dead

  function ReportOf(o: Outcome): Report {
    if o.Ran? then RanToEnd else if o.Failed? then Contained else Unproved
  }

  /** What the caller of a launched read learns. */
  predicate ReadReport(luck: ReadLuck, o: Outcome) {
    && (o.Ran? <==> luck.execute.Works?)
    && (o.Failed? <==> luck.execute.Fails? && luck.close.Works?)
    && (o.CloseUnproved? <==> luck.execute.Fails? && luck.close.Fails?)
    && (o.Dead? <==> luck.execute.Dies? || (luck.execute.Fails? && luck.close.Dies?))
  }

  /** What the caller of a launched mutation learns. */
  predicate MutationReport(luck: MutationLuck, o: Outcome) {
    && (o.Ran? <==> luck.execute.Works? && luck.close.Works? && luck.clean.Works?)
    && (o.CloseUnproved? <==> !luck.execute.Dies? && luck.close.Fails?)
    && (o.Dead? <==>
          || luck.execute.Dies?
          || luck.close.Dies?
          || (luck.close.Works? && luck.clean.Dies?))
    && !o.Barred?
  }

  datatype ReadScope = ReadScope(scope: Scope, count: nat)

  predicate Full(shared: Option<ReadScope>) {
    shared.Some? && shared.value.count >= RUN_LIMIT
  }

  class ManagedRunner {
    // Durable.
    var attempts: seq<Attempt>
    var managed: set<Execution>
    // Volatile.
    var execution: Option<Execution>
    var shared: Option<ReadScope>
    var stopping: bool
    /** Identifiers below this were minted before; new ones are fresh. */
    var next: nat
    ghost var trace: Trace

    predicate Pending(e: Execution)
      reads this
    {
      exists i :: 0 <= i < |attempts| && attempts[i].entry.execution == e && !attempts[i].cleaned
    }

    /** The journal is what was journalled, and its cleaned marks are earned. */
    ghost predicate JournalValid()
      reads `attempts, `trace, `next
    {
      var d := Know(trace);
      && |attempts| == |d.journal|
      && (forall i :: 0 <= i < |attempts| ==> attempts[i].entry == d.journal[i])
      && (forall i :: 0 <= i < |attempts| && attempts[i].cleaned ==> attempts[i].entry.scope in d.closed)
      && (forall x :: x in d.journal ==> x.run < next && x.scope < next)
    }

    ghost predicate LaunchesValid()
      reads `shared, `trace, `next
    {
      var d := Know(trace);
      && (forall l :: l in d.launched ==> l.run < next && l.scope < next)
      && (forall l :: l in d.launched && l.mutating ==>
            l.who.Some? && Entry(l.run, l.scope, l.who.value) in d.journal)
      && (forall s :: s in d.closed ==> s < next)
      && (forall r :: r in d.ended ==> r < next)
      && (shared.Some? ==> shared.value.scope < next && shared.value.scope !in d.closed)
      && (shared.Some? ==> forall x :: x in d.journal ==> x.scope != shared.value.scope)
      && (shared.Some? ==> |RunsIn(d, shared.value.scope)| <= shared.value.count <= RUN_LIMIT)
    }

    ghost predicate Valid()
      reads this
    {
      && Lawful(trace)
      && JournalValid()
      && LaunchesValid()
      && managed == Know(trace).adopted
      && (execution.Some? ==> execution.value in managed)
    }

    constructor ()
      ensures Valid() && trace == Empty && attempts == [] && managed == {}
      ensures execution.None? && shared.None? && !stopping
    {
      attempts, managed, execution, shared, stopping, next := [], {}, None, None, false, 0;
      trace := Empty;
    }

    /** Only the journal survives a restart, and the host's scopes do. */
    method Restart()
      requires Valid()
      modifies this
      ensures Valid() && trace == Then(old(trace), Restarted)
      ensures execution.None? && shared.None? && !stopping
      ensures attempts == old(attempts) && managed == old(managed)
    {
      execution, shared, stopping := None, None, false;
      trace := Then(trace, Restarted);
    }

    /** With nothing pending every earlier mutation of `e` lies in a closed scope. */
    lemma NothingPendingIsFenced(e: Execution)
      requires Valid() && !Pending(e)
      ensures Fenced(Know(trace), e)
    {
      var d := Know(trace);
      forall l | l in d.launched && l.mutating && l.who == Some(e)
        ensures l.scope in d.closed
      {
        var i :| 0 <= i < |d.journal| && d.journal[i] == Entry(l.run, l.scope, e);
        assert attempts[i].cleaned;
      }
    }

    // ---- One host or journal call ----

    method CloseScope(scope: Scope, luck: Step) returns (closed: bool)
      requires Valid() && scope < next
      requires shared.None? || shared.value.scope != scope
      modifies `trace
      ensures Valid()
      ensures closed <==> luck.Works?
      ensures trace == if closed then Then(old(trace), Closed(scope)) else old(trace)
    {
      closed := luck.Works?;
      if closed {
        trace := Then(trace, Closed(scope));
      }
    }

    method MarkCleaned(i: nat)
      requires Valid() && i < |attempts| && attempts[i].entry.scope in Know(trace).closed
      modifies `attempts, `trace
      ensures Valid() && attempts == old(attempts)[i := old(attempts)[i].(cleaned := true)]
      ensures trace == Then(old(trace), Cleaned(attempts[i].entry))
    {
      attempts := attempts[i := attempts[i].(cleaned := true)];
      trace := Then(trace, Cleaned(attempts[i].entry));
    }

    // ---- Operations ----

    /** Marks one attempt cleaned once its scope is proved closed. */
    method Seal(i: nat, reliable: bool) returns (r: Reply<()>)
      requires Valid() && i < |attempts|
      modifies `attempts, `trace
      ensures Valid() && (reliable ==> r.Done?)
      ensures attempts == if r.Done? then old(attempts)[i := old(attempts)[i].(cleaned := true)] else old(attempts)
      ensures Know(trace).launched == Know(old(trace)).launched
    {
      var luck: Step, mark: Step := *, *;
      if reliable {
        luck, mark := Works, Works;
      }
      var closed := CloseScope(attempts[i].entry.scope, luck);
      if !closed || !mark.Works? {
        return if luck.Dies? || mark.Dies? then Died else Refused(ResultUnknown);
      }
      MarkCleaned(i);
      r := Done(());
    }

    /** Closes and seals every attempt of `e` whose end is unproved, oldest first. `reliable` says that host
        and journal do what they are asked. */
    method Handoff(e: Execution, reliable: bool) returns (r: Reply<()>)
      requires Valid()
      modifies `attempts, `trace
      ensures Valid() && (reliable ==> r.Done?)
      ensures |attempts| == |old(attempts)|
      ensures forall i :: 0 <= i < |attempts| ==>
        && attempts[i].entry == old(attempts)[i].entry
        && (old(attempts)[i].cleaned ==> attempts[i].cleaned)
        && (attempts[i].entry.execution != e ==> attempts[i] == old(attempts)[i])
      ensures r.Done? ==> !Pending(e)
      ensures !old(Pending(e)) ==> r.Done? && attempts == old(attempts) && trace == old(trace)
      ensures Know(trace).launched == Know(old(trace)).launched
    {
      for i := 0 to |attempts|
        invariant Valid() && |attempts| == |old(attempts)|
        invariant forall j :: 0 <= j < |attempts| ==>
          && attempts[j].entry == old(attempts)[j].entry
          && (old(attempts)[j].cleaned ==> attempts[j].cleaned)
          && (attempts[j].entry.execution != e ==> attempts[j] == old(attempts)[j])
        invariant forall j :: 0 <= j < i && attempts[j].entry.execution == e ==> attempts[j].cleaned
        invariant Know(trace).launched == Know(old(trace)).launched
        invariant !old(Pending(e)) ==> attempts == old(attempts) && trace == old(trace)
      {
        if attempts[i].entry.execution == e && !attempts[i].cleaned {
          r := Seal(i, reliable);
          if !r.Done? {
            return;
          }
        }
      }
      r := Done(());
    }

    /** Closes the scope the reads share and forgets it; an unproved closure keeps it. */
    method CloseShared(luck: Step) returns (closed: bool)
      requires Valid() && shared.Some?
      modifies `shared, `trace
      ensures Valid()
      ensures closed <==> luck.Works?
      ensures closed ==>
        && shared.None?
        && trace == Then(old(trace), Closed(old(shared).value.scope))
      ensures !closed ==> shared == old(shared) && trace == old(trace)
    {
      closed := luck.Works?;
      if closed {
        var scope := shared.value.scope;
        shared := None;
        closed := CloseScope(scope, luck);
      }
    }

    /** The scope for the next read: the shared one, or a new one. */
    method ShareScope() returns (scope: Scope)
      requires Valid() && (shared.Some? ==> shared.value.count < RUN_LIMIT)
      modifies `shared, `next
      ensures Valid() && shared.Some? && shared.value.scope == scope
      ensures old(shared).Some? ==> shared.value == ReadScope(old(shared).value.scope, old(shared).value.count + 1)
      ensures old(shared).None? ==> shared.value == ReadScope(old(next), 1)
      ensures |RunsIn(Know(trace), scope)| < shared.value.count
    {
      if shared.None? {
        assert RunsIn(Know(trace), next) == {};
        shared := Some(ReadScope(next, 0));
        next := next + 1;
      }
      shared := Some(shared.value.(count := shared.value.count + 1));
      scope := shared.value.scope;
    }

    /** Hands a read to the host; until the host says otherwise it may be running. */
    method LaunchRead(scope: Scope) returns (l: Launch)
      requires Valid() && (execution.Some? ==> !Pending(execution.value))
      requires shared.Some? && shared.value.scope == scope && |RunsIn(Know(trace), scope)| < shared.value.count
      modifies `next, `trace
      ensures Valid() && l == Launch(old(next), scope, execution, false)
      ensures trace == Then(old(trace), Launched(l)) && l.run !in Know(trace).ended
      ensures forall m :: m in Know(trace).launched && m.run == l.run ==> m == l
    {
      if execution.Some? {
        NothingPendingIsFenced(execution.value);
      }
      l := Launch(next, scope, execution, false);
      next := next + 1;
      LaunchAdds(Know(trace), l);
      trace := Then(trace, Launched(l));
    }

    ghost method NoteReturned(l: Launch, report: Report)
      requires Valid() && l in Know(trace).launched && !l.mutating
      requires report.Contained? ==> l.scope in Know(trace).closed
      modifies `trace
      ensures Valid() && trace == Then(old(trace), Returned(l.run, report))
    {
      trace := Then(trace, Returned(l.run, report));
    }

    /** Runs a read. Within an execution it is refused while any attempt of that execution is unproved.
        A read that was launched is left unsettled exactly when its call reports that closing the scope
        could not be proved, or when the process dies. */
    method RunRead(luck: ReadLuck) returns (o: Outcome, ghost launch: Option<Launch>)
      requires Valid()
      modifies `shared, `next, `trace
      ensures Valid()
      ensures launch.Some? ==>
        launch.value in Know(trace).launched && launch.value.who == execution && !launch.value.mutating
      ensures Know(trace).launched == Know(old(trace)).launched + if launch.Some? then {launch.value} else {}
      ensures launch.Some? ==> (Settled(Know(trace), launch.value) <==> o.Ran? || o.Failed?)
      ensures launch.None? <==>
        || old(stopping || (execution.Some? && Pending(execution.value)))
        || (Full(old(shared)) && !luck.rotate.Works?)
      ensures launch.None? ==>
        o == if old(!stopping && (execution.Some? ==> !Pending(execution.value))) && luck.rotate.Dies? then Dead
             else Barred
      ensures launch.Some? ==> trace.Then? && ReadReport(luck, o)
      ensures launch.Some? && o.Ran? ==>
        && shared.Some? && shared.value.scope == launch.value.scope
        && shared.value.count == if Full(old(shared)) || old(shared).None? then 1 else old(shared).value.count + 1
      ensures launch.Some? && o.Failed? ==> shared.None?
      ensures launch.Some? ==>
        trace.event == if o.Dead? then Launched(launch.value) else Returned(launch.value.run, ReportOf(o))
      ensures o.CloseUnproved? ==> shared.Some?
    {
      if execution.Some? && Pending(execution.value) {
        return Barred, None;
      }
      if stopping {
        return Barred, None;
      }
      if shared.Some? && shared.value.count >= RUN_LIMIT {
        var rotated := CloseShared(luck.rotate);
        if !rotated {
          return if luck.rotate.Dies? then Dead else Barred, None;
        }
      }
      ghost var l;
      o, l := ReadInScope(luck);
      launch := Some(l);
    }

    method ReadInScope(luck: ReadLuck) returns (o: Outcome, ghost l: Launch)
      requires Valid() && (execution.Some? ==> !Pending(execution.value)) && !Full(shared)
      modifies `shared, `next, `trace
      ensures Valid() && l.who == execution && !l.mutating
      ensures l in Know(trace).launched && Know(trace).launched == Know(old(trace)).launched + {l}
      ensures Settled(Know(trace), l) <==> o.Ran? || o.Failed?
      ensures trace.Then? && ReadReport(luck, o)
      ensures trace.event == if o.Dead? then Launched(l) else Returned(l.run, ReportOf(o))
      ensures o.Ran? ==>
        && shared.Some? && shared.value.scope == l.scope
        && shared.value.count == if old(shared).None? then 1 else old(shared).value.count + 1
      ensures o.Failed? ==> shared.None?
      ensures o.CloseUnproved? ==> shared.Some?
    {
      var scope := ShareScope();
      var launch := LaunchRead(scope);
      l := launch;
      o := FinishRead(launch, luck);
    }

    /** A read whose exchange failed takes its whole scope down with it. */
    method FinishRead(l: Launch, luck: ReadLuck) returns (o: Outcome)
      requires Valid() && l in Know(trace).launched && !l.mutating && !Settled(Know(trace), l)
      requires forall m :: m in Know(trace).launched && m.run == l.run ==> m == l
      requires shared.Some? && shared.value.scope == l.scope
      modifies `shared, `trace
      ensures Valid() && Know(trace).launched == Know(old(trace)).launched
      ensures Settled(Know(trace), l) <==> o.Ran? || o.Failed?
      ensures ReadReport(luck, o)
      ensures o.Failed? ==> shared.None?
      ensures !o.Failed? ==> shared == old(shared)
      ensures Know(trace).ended <= Know(old(trace)).ended + {l.run}
      ensures !o.Dead? ==> trace.Then? && trace.event == Returned(l.run, ReportOf(o))
      ensures o.Dead? ==> trace == old(trace)
    {
      if luck.execute.Works? {
        NoteReturned(l, RanToEnd);
        return Ran;
      }
      if luck.execute.Dies? {
        return Dead;
      }
      var closed := CloseShared(luck.close);
      o := if closed then Failed else if luck.close.Dies? then Dead else CloseUnproved;
      if !o.Dead? {
        NoteReturned(l, ReportOf(o));
      }
    }

    /** Journals a fresh attempt; a death may strike before or after the commit. */
    method Journal(e: Execution, luck: Step) returns (done: bool)
      requires Valid()
      modifies `attempts, `next, `trace
      ensures Valid() && (done <==> luck.Works?)
      ensures done || attempts != old(attempts) ==>
        && attempts == old(attempts) + [Attempt(Entry(old(next), old(next) + 1, e), false)]
        && next == old(next) + 2
        && trace == Then(old(trace), Journalled(Entry(old(next), old(next) + 1, e)))
      ensures attempts == old(attempts) ==> trace == old(trace)
      ensures luck.Fails? ==> attempts == old(attempts)
    {
      done := luck.Works?;
      var committed: bool := *;
      if done || (luck.Dies? && committed) {
        var entry := Entry(next, next + 1, e);
        next := next + 2;
        attempts := attempts + [Attempt(entry, false)];
        trace := Then(trace, Journalled(entry));
      }
    }

    method LaunchMutation(entry: Entry)
      requires Valid() && entry in Know(trace).journal && entry.execution in managed
      requires entry.scope !in Know(trace).closed && Fenced(Know(trace), entry.execution)
      requires forall m :: m in Know(trace).launched ==> m.run != entry.run && m.scope != entry.scope
      modifies `trace
      ensures Valid()
      ensures trace == Then(old(trace), Launched(Launch(entry.run, entry.scope, Some(entry.execution), true)))
    {
      var l := Launch(entry.run, entry.scope, Some(entry.execution), true);
      assert RunsIn(Know(trace), entry.scope) == {};
      LaunchAdds(Know(trace), l);
      trace := Then(trace, Launched(l));
    }

    /** Runs a mutation: journalled, launched, closed, marked cleaned, in that order. Whatever happens
        short of all four leaves the attempt pending, and that bars the execution's next command. */
    method RunMutation(finished: bool, luck: MutationLuck) returns (o: Outcome, ghost launch: Option<Launch>)
      requires Valid()
      modifies `attempts, `next, `trace
      ensures Valid()
      ensures Know(trace).launched == Know(old(trace)).launched + if launch.Some? then {launch.value} else {}
      ensures launch.Some? ==> launch.value.mutating && launch.value.who == execution && execution.Some?
      ensures launch.None? <==>
        old(stopping || execution.None? || Pending(execution.value)) || finished || !luck.journal.Works?
      ensures launch.Some? ==>
        (Pending(execution.value) <==> luck.execute.Dies? || !luck.close.Works? || !luck.clean.Works?)
      ensures launch.Some? ==> MutationReport(luck, o)
      ensures launch.None? ==>
        o == if old(!stopping && execution.Some? && !Pending(execution.value)) && !finished && luck.journal.Dies?
             then Dead else Barred
      ensures launch.Some? ==>
        (Settled(Know(trace), launch.value) <==> !luck.execute.Dies? && luck.close.Works?)
      ensures forall l :: l in Know(old(trace)).launched ==> (Settled(Know(trace), l) <==> Settled(Know(old(trace)), l))
    {
      if execution.Some? && Pending(execution.value) {
        return Barred, None;
      }
      if stopping || execution.None? || finished {
        return Barred, None;
      }
      NothingPendingIsFenced(execution.value);
      var entry := Entry(next, next + 1, execution.value);
      var recorded := Journal(execution.value, luck.journal);
      if !recorded {
        return if luck.journal.Dies? then Dead else Barred, None;
      }
      LaunchMutation(entry);
      launch := Some(Launch(entry.run, entry.scope, execution, true));
      o := FinishMutation(entry, luck);
    }

    method FinishMutation(entry: Entry, luck: MutationLuck) returns (o: Outcome)
      requires Valid() && |attempts| > 0 && attempts[|attempts| - 1] == Attempt(entry, false)
      requires forall i :: 0 <= i < |attempts| - 1 ==>
        attempts[i].cleaned || attempts[i].entry.execution != entry.execution
      requires entry.scope !in Know(trace).closed && entry.run !in Know(trace).ended
      modifies `attempts, `trace
      ensures Valid() && Know(trace).launched == Know(old(trace)).launched
      ensures MutationReport(luck, o)
      ensures Pending(entry.execution) <==> luck.execute.Dies? || !luck.close.Works? || !luck.clean.Works?
      ensures entry.run !in Know(trace).ended
      ensures Know(trace).ended == Know(old(trace)).ended
      ensures Know(trace).closed ==
        Know(old(trace)).closed + if !luck.execute.Dies? && luck.close.Works? then {entry.scope} else {}
    {
      var last := |attempts| - 1;
      if luck.execute.Dies? {
        return Dead;
      }
      var closed := CloseScope(entry.scope, luck.close);
      if !closed {
        return if luck.close.Dies? then Dead else CloseUnproved;
      }
      if !luck.clean.Works? {
        return if luck.clean.Dies? then Dead else Failed;
      }
      MarkCleaned(last);
      o := if luck.execute.Works? then Ran else Failed;
    }

    method Adopt(e: Execution)
      requires Valid()
      modifies `managed, `trace
      ensures Valid() && managed == old(managed) + {e} && trace == Then(old(trace), Adopted(e, true))
    {
      managed := managed + {e};
      trace := Then(trace, Adopted(e, true));
    }

    /** Admits an execution: only one that has not begun may become managed, and every earlier attempt
        of it is fenced first. A death may hide that it became managed. */
    method BeginExecution(e: Execution, accepted: bool, luck: Step, reliable: bool) returns (r: Reply<()>)
      requires Valid()
      modifies `attempts, `managed, `execution, `trace
      ensures Valid() && shared == old(shared)
      ensures r.Done? ==> execution == Some(e) && !Pending(e) && e in managed
      ensures !r.Done? ==> execution == old(execution)
      ensures e !in old(managed) && !accepted ==> r.Refused?
      ensures managed == old(managed) || (managed == old(managed) + {e} && accepted && !luck.Fails?)
      ensures luck.Dies? && accepted && e !in old(managed) ==> r.Died?
      ensures (e in old(managed) || (accepted && luck.Works?)) && (reliable || !old(Pending(e))) ==> r.Done?
      ensures Know(trace).launched == Know(old(trace)).launched
    {
      if e !in managed {
        if !accepted || luck.Fails? {
          return Refused(ResultUnknown);
        }
        var committed: bool := *;
        if luck.Works? || committed {
          Adopt(e);
        }
        if luck.Dies? {
          return Died;
        }
      }
      r := Handoff(e, reliable);
      if r.Done? {
        execution := Some(e);
      }
    }

    method EndExecution()
      requires Valid()
      modifies `execution
      ensures Valid() && execution.None?
    {
      execution := None;
    }

    method HandoffAll(reliable: bool) returns (r: Reply<()>)
      requires Valid()
      modifies `attempts, `trace
      ensures (reliable ==> r.Done?) && Valid() && Know(trace).launched == Know(old(trace)).launched
      ensures r.Done? ==> forall i :: 0 <= i < |attempts| ==> attempts[i].cleaned
    {
      for i := 0 to |attempts|
        invariant Valid() && |attempts| == |old(attempts)|
        invariant Know(trace).launched == Know(old(trace)).launched
        invariant forall j :: 0 <= j < i ==> attempts[j].cleaned
      {
        if !attempts[i].cleaned {
          r := Handoff(attempts[i].entry.execution, reliable);
          if !r.Done? {
            return;
          }
        }
      }
      r := Done(());
    }

    /** Stops admission for good, then closes every unproved mutation scope and the shared read scope. */
    method Shutdown(luck: Step, reliable: bool) returns (r: Reply<()>)
      requires Valid()
      modifies `stopping, `attempts, `shared, `trace
      ensures Valid() && stopping
      ensures reliable && luck.Works? ==> r.Done?
      ensures r.Done? ==> forall i :: 0 <= i < |attempts| ==> attempts[i].cleaned
      ensures r.Done? ==> forall l :: l in Know(trace).launched && l.mutating ==> l.scope in Know(trace).closed
      ensures r.Done? ==> shared.None? && (old(shared).Some? ==> old(shared).value.scope in Know(trace).closed)
    {
      stopping := true;
      r := HandoffAll(reliable);
      if !r.Done? {
        return;
      }
      if shared.Some? {
        var closed := CloseShared(luck);
        if !closed {
          return if luck.Dies? then Died else Refused(ResultUnknown);
        }
      }
      r := Done(());
    }
  }

  lemma LaunchAdds(d: Digest, l: Launch)
    ensures forall s :: RunsIn(Advance(d, Launched(l)), s) == RunsIn(d, s) + if s == l.scope then {l} else {}
  {
    forall s
      ensures RunsIn(Advance(d, Launched(l)), s) == RunsIn(d, s) + if s == l.scope then {l} else {}
    {
    }
  }

  /** No scope ever holds more runs than the limit. */
  lemma {:induction false} ScopesAreBounded(t: Trace, s: Scope)
    requires Lawful(t)
    ensures |RunsIn(Know(t), s)| <= RUN_LIMIT
  {
    if t == Empty {
      assert RunsIn(Know(t), s) == {};
    } else {
      ScopesAreBounded(t.before, s);
      if t.event.Launched? {
        LaunchAdds(Know(t.before), t.event.launch);
      } else {
        assert Know(t).launched == Know(t.before).launched;
        assert RunsIn(Know(t), s) == RunsIn(Know(t.before), s);
      }
    }
  }

  /** A read whose exchange and whose closing both failed outlives them: the same execution's next
      mutation is launched beside it. */
  method ReadMayRunBesideMutation() returns (runner: ManagedRunner, ghost read: Launch, ghost mutation: Launch)
    ensures runner.Valid() && {read, mutation} <= Know(runner.trace).launched
    ensures !read.mutating && mutation.mutating && read.who == mutation.who == Some("e")
    ensures !Settled(Know(runner.trace), read)
  {
    runner := new ManagedRunner();
    var begun := runner.BeginExecution("e", true, Works, true);
    var _, l := runner.RunRead(ReadLuck(Works, Fails, Fails));
    var _, m := runner.RunMutation(false, MutationLuck(Works, Works, Works, Works));
    read, mutation := l.value, m.value;
  }

  // ---- Promises read off a lawful trace, restarts included ----

  lemma {:induction false} LawfulAt(t: Trace, i: nat) returns (before: Trace)
    requires Lawful(t) && i < |Events(t)|
    ensures Events(before) == Events(t)[..i] && Lawful(before) && Allowed(Know(before), Events(t)[i])
  {
    if i == |Events(t)| - 1 {
      before := t.before;
    } else {
      before := LawfulAt(t.before, i);
    }
  }

  lemma {:induction false} LaunchIsKnown(t: Trace, i: nat)
    requires i < |Events(t)| && Events(t)[i].Launched?
    ensures Events(t)[i].launch in Know(t).launched
  {
    if i < |Events(t)| - 1 {
      LaunchIsKnown(t.before, i);
    }
  }

  lemma {:induction false} FindClosed(t: Trace, s: Scope) returns (k: nat)
    requires s in Know(t).closed
    ensures k < |Events(t)| && Events(t)[k] == Closed(s)
  {
    if t.event == Closed(s) {
      k := |Events(t)| - 1;
    } else {
      k := FindClosed(t.before, s);
    }
  }

  lemma {:induction false} FindJournalled(t: Trace, x: Entry) returns (k: nat)
    requires x in Know(t).journal
    ensures k < |Events(t)| && Events(t)[k] == Journalled(x)
  {
    if t.event == Journalled(x) {
      k := |Events(t)| - 1;
    } else {
      k := FindJournalled(t.before, x);
    }
  }

  lemma {:induction false} FindAdopted(t: Trace, x: Execution) returns (k: nat)
    requires Lawful(t) && x in Know(t).adopted
    ensures k < |Events(t)| && Events(t)[k] == Adopted(x, true)
  {
    if t.event.Adopted? && t.event.execution == x {
      k := |Events(t)| - 1;
    } else {
      k := FindAdopted(t.before, x);
    }
  }

  lemma {:induction false} ClosedIsKnown(t: Trace, k: nat)
    requires k < |Events(t)| && Events(t)[k].Closed?
    ensures Events(t)[k].scope in Know(t).closed
  {
    if k < |Events(t)| - 1 {
      ClosedIsKnown(t.before, k);
    }
  }

  /** Whenever anything is launched for an execution, each mutation launched earlier for it had its
      scope closed in between. */
  lemma {:induction false} MutationsAreFenced(t: Trace, i: nat, j: nat) returns (k: nat)
    requires Lawful(t) && i < j < |Events(t)| && Events(t)[i].Launched? && Events(t)[j].Launched?
    requires Events(t)[i].launch.mutating && Events(t)[j].launch.who == Events(t)[i].launch.who
    ensures i < k < j && Events(t)[k] == Closed(Events(t)[i].launch.scope)
  {
    var atFirst := LawfulAt(t, i);
    var atSecond := LawfulAt(t, j);
    LaunchIsKnown(atSecond, i);
    k := FindClosed(atSecond, Events(t)[i].launch.scope);
    if k < i {
      ClosedIsKnown(atFirst, k);
    }
  }

  /** A mutation is launched only after its own run and scope were journalled, for an execution that was
      adopted before it began. */
  lemma {:induction false} JournalledBeforeLaunch(t: Trace, i: nat) returns (a: nat, k: nat)
    requires Lawful(t) && i < |Events(t)| && Events(t)[i].Launched? && Events(t)[i].launch.mutating
    ensures Events(t)[i].launch.who.Some?
    ensures a < i && Events(t)[a] == Adopted(Events(t)[i].launch.who.value, true)
    ensures k < i && Events(t)[k] ==
      Journalled(Entry(Events(t)[i].launch.run, Events(t)[i].launch.scope, Events(t)[i].launch.who.value))
  {
    var before := LawfulAt(t, i);
    var l := Events(t)[i].launch;
    a := FindAdopted(before, l.who.value);
    k := FindJournalled(before, Entry(l.run, l.scope, l.who.value));
  }

  /** An attempt is marked cleaned only after it was journalled and its scope was closed. */
  lemma {:induction false} CleanedAfterClose(t: Trace, i: nat) returns (j: nat, k: nat)
    requires Lawful(t) && i < |Events(t)| && Events(t)[i].Cleaned?
    ensures j < i && Events(t)[j] == Journalled(Events(t)[i].entry)
    ensures k < i && Events(t)[k] == Closed(Events(t)[i].entry.scope)
  {
    var before := LawfulAt(t, i);
    j := FindJournalled(before, Events(t)[i].entry);
    k := FindClosed(before, Events(t)[i].entry.scope);
  }

  /** No run is launched twice, so a retry is always a new run in a new scope. */
  lemma {:induction false} RunsAreDistinct(t: Trace, i: nat, j: nat)
    requires Lawful(t) && i < j < |Events(t)| && Events(t)[i].Launched? && Events(t)[j].Launched?
    ensures Events(t)[i].launch.run != Events(t)[j].launch.run
  {
    var before := LawfulAt(t, j);
    LaunchIsKnown(before, i);
  }

  lemma {:induction false} FindRan(t: Trace, r: Run) returns (k: nat)
    requires r in Know(t).ended
    ensures k < |Events(t)| && Events(t)[k] == Returned(r, RanToEnd)
  {
    if t.event == Returned(r, RanToEnd) {
      k := |Events(t)| - 1;
    } else {
      k := FindRan(t.before, r);
    }
  }

  lemma {:induction false} LaunchIsRemembered(t: Trace, l: Launch) returns (i: nat)
    requires l in Know(t).launched
    ensures i < |Events(t)| && Events(t)[i] == Launched(l)
  {
    if t.event == Launched(l) {
      i := |Events(t)| - 1;
    } else {
      i := LaunchIsRemembered(t.before, l);
    }
  }

  /** A call's report settles its read: it ran to its end, or its scope was closed. */
  lemma {:induction false} ReportSettles(t: Trace, i: nat, k: nat)
    requires Lawful(t) && i < |Events(t)| && k < |Events(t)|
    requires Events(t)[i].Launched? && Events(t)[k].Returned? && Events(t)[k].run == Events(t)[i].launch.run
    ensures i < k
    ensures !Events(t)[k].report.Unproved? ==> Settled(Know(t), Events(t)[i].launch)
  {
    var before := LawfulAt(t, k);
    var l :| l in Know(before).launched && l.run == Events(t)[k].run && !l.mutating
             && (Events(t)[k].report.Contained? ==> l.scope in Know(before).closed);
    var m := LaunchIsRemembered(before, l);
    if m < i {
      RunsAreDistinct(t, m, i);
    } else if i < m {
      RunsAreDistinct(t, i, m);
    }
    if !Events(t)[k].report.Unproved? {
      StaysKnown(t, before, k);
    }
  }

  /** What was ended or closed by step `k` still is at the end. */
  lemma {:induction false} StaysKnown(t: Trace, before: Trace, k: nat)
    requires Lawful(t) && k < |Events(t)| && Events(before) == Events(t)[..k]
    ensures Know(before).closed <= Know(t).closed
    ensures Events(t)[k].Returned? && Events(t)[k].report.RanToEnd? ==> Events(t)[k].run in Know(t).ended
  {
    if k == |Events(t)| - 1 {
      SameEvents(before, t.before);
    } else {
      assert Events(t.before)[..k] == Events(t)[..k];
      StaysKnown(t.before, before, k);
    }
  }

  lemma {:induction false} SameEvents(a: Trace, b: Trace)
    requires Events(a) == Events(b)
    ensures a == b
  {
    if a.Then? && b.Then? {
      assert Events(a)[..|Events(a)| - 1] == Events(a.before) && Events(b)[..|Events(b)| - 1] == Events(b.before);
      assert Events(a)[|Events(a)| - 1] == a.event && Events(b)[|Events(b)| - 1] == b.event;
      SameEvents(a.before, b.before);
    }
  }

  /** Nothing its caller or anyone later learned settles the read launched at step `i`: its call reported an
      unproved closing or never returned, and its scope was not closed since. */
  ghost predicate LeftOpen(t: Trace, i: nat)
    requires i < |Events(t)| && Events(t)[i].Launched?
  {
    var l := Events(t)[i].launch;
    && (forall k :: i < k < |Events(t)| && Events(t)[k].Returned? && Events(t)[k].run == l.run ==>
          Events(t)[k].report.Unproved?)
    && (forall k :: i < k < |Events(t)| ==> Events(t)[k] != Closed(l.scope))
  }

  /** In every run a read may still be running exactly when its call reported an unproved closing or never
      returned, and its scope has not been closed since. */
  lemma {:induction false} ReadUnsettledExactlyWhenLeftOpen(t: Trace, i: nat)
    requires Lawful(t) && i < |Events(t)| && Events(t)[i].Launched? && !Events(t)[i].launch.mutating
    ensures !Settled(Know(t), Events(t)[i].launch) <==> LeftOpen(t, i)
  {
    var l := Events(t)[i].launch;
    if l.run in Know(t).ended {
      var k := FindRan(t, l.run);
      ReportSettles(t, i, k);
    }
    if l.scope in Know(t).closed {
      var k := FindClosed(t, l.scope);
      if k < i {
        var atLaunch := LawfulAt(t, i);
        ClosedIsKnown(atLaunch, k);
      }
      assert k != i;
    }
    if !Settled(Know(t), l) {
      forall k | i < k < |Events(t)| && Events(t)[k].Returned? && Events(t)[k].run == l.run
        ensures Events(t)[k].report.Unproved?
      {
        ReportSettles(t, i, k);
      }
      forall k | i < k < |Events(t)|
        ensures Events(t)[k] != Closed(l.scope)
      {
        if Events(t)[k] == Closed(l.scope) {
          ClosedIsKnown(t, k);
        }
      }
    }
  }

  /** At every launch for an execution each earlier process of it has ended or lies in a closed scope, save
      exactly the reads left open until then. */
  lemma {:induction false} FencedSaveReadsLeftOpen(t: Trace, i: nat, j: nat) returns (before: Trace)
    requires Lawful(t) && i < j < |Events(t)| && Events(t)[i].Launched? && Events(t)[j].Launched?
    requires Events(t)[i].launch.who.Some? && Events(t)[j].launch.who == Events(t)[i].launch.who
    ensures Events(before) == Events(t)[..j]
    ensures !Settled(Know(before), Events(t)[i].launch) <==> !Events(t)[i].launch.mutating && LeftOpen(before, i)
  {
    before := LawfulAt(t, j);
    if Events(t)[i].launch.mutating {
      LaunchIsKnown(before, i);
    } else {
      ReadUnsettledExactlyWhenLeftOpen(before, i);
    }
  }
}
