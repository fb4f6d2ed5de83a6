/** Closing an `ora-git` socket: requests of one session race the session's end.

    A session has one request slot. A request takes it without waiting, keeps it through its Git and
    until its answer is out; closing clears the running flag and then waits for the slot. Every shared
    access is one step, and any number of requests interleave with the close. */
module OraGitSocket {
  import opened Basics

  type RequestId = nat

  /** `Slotted` holds the slot and has not asked whether the session still runs; `Permitted` has asked
      and was told yes; `Answering` has no Git left but still holds the slot. */
  datatype Phase = Arrived | Admitted | Slotted | Permitted | InGit | Answering | Gone

  datatype Holder = Request(id: RequestId) | Closer

  /** `Flagged` waits for the slot; `Abandoned` is a socket dropped without being closed, or while its close
      was still waiting. */
  datatype Closing = Open | Flagged | Holding | Closed | Abandoned

  datatype State = State(
    running: bool,
    slot: Option<Holder>,
    requests: map<RequestId, Phase>,
    closing: Closing)

  const START := State(true, None, map[], Open)

  datatype Step =
    | Connect(id: RequestId)
    | Admit(id: RequestId)
    | TryAcquire(id: RequestId)
    | AnswerWithoutGit(id: RequestId)
    | RequireRunning(id: RequestId, nodeServes: bool)
    | BeginGit(id: RequestId)
    | EndGit(id: RequestId)
    | Release(id: RequestId)
    | Disconnect(id: RequestId)
    | BeginClose
    | AcquireForClose
    | FinishClose
    | DropSocket

  predicate At(s: State, id: RequestId, phase: Phase) {
    id in s.requests && s.requests[id] == phase
  }

  function To(s: State, id: RequestId, phase: Phase): State {
    s.(requests := s.requests[id := phase])
  }

  /** One step; a step that is not possible changes nothing. Whether the Node still serves and the ledger
      still counts the session as running is the environment's to say. */
  function Next(s: State, step: Step): State {
    match step
    case Connect(id) => if id in s.requests then s else To(s, id, Arrived)
    case Admit(id) => if At(s, id, Arrived) then To(s, id, if s.running then Admitted else Gone) else s
    case TryAcquire(id) =>
      if !At(s, id, Admitted) then s
      else if s.slot.None? then To(s, id, Slotted).(slot := Some(Request(id)))
      else To(s, id, Gone)
    case AnswerWithoutGit(id) => if At(s, id, Slotted) then To(s, id, Answering) else s
    case RequireRunning(id, nodeServes) =>
      if At(s, id, Slotted) then To(s, id, if s.running && nodeServes then Permitted else Answering) else s
    case BeginGit(id) => if At(s, id, Permitted) then To(s, id, InGit) else s
    case EndGit(id) => if At(s, id, InGit) then To(s, id, Answering) else s
    case Release(id) => if At(s, id, Answering) then To(s, id, Gone).(slot := None) else s
    case Disconnect(id) => if At(s, id, Arrived) || At(s, id, Admitted) then To(s, id, Gone) else s
    case BeginClose => if s.closing.Open? then s.(running := false, closing := Flagged) else s
    case AcquireForClose =>
      if s.closing.Flagged? && s.slot.None? then s.(slot := Some(Closer), closing := Holding) else s
    case FinishClose => if s.closing.Holding? then s.(slot := None, closing := Closed) else s
    case DropSocket =>
      if s.closing.Open? || s.closing.Flagged? then s.(running := false, closing := Abandoned) else s
  }

  function After(s: State, steps: seq<Step>): State {
    if steps == [] then s else Next(After(s, steps[..|steps| - 1]), steps[|steps| - 1])
  }

  lemma AfterOneMore(s: State, steps: seq<Step>, step: Step)
    ensures After(s, steps + [step]) == Next(After(s, steps), step)
  {
    assert (steps + [step])[..|steps + [step]| - 1] == steps;
  }

  // ---- What every step keeps ----

  predicate HoldsSlot(p: Phase) {
    p.Slotted? || p.Permitted? || p.InGit? || p.Answering?
  }

  /** Git may be running, or is about to be. */
  predicate Active(p: Phase) {
    p.Permitted? || p.InGit?
  }

  ghost predicate Quiet(s: State) {
    forall id :: id in s.requests ==> !Active(s.requests[id])
  }

  ghost predicate Inv(s: State) {
    && (forall id :: id in s.requests ==> (HoldsSlot(s.requests[id]) <==> s.slot == Some(Request(id))))
    && (s.slot.Some? && s.slot.value.Request? ==> s.slot.value.id in s.requests)
    && (s.slot == Some(Closer) <==> s.closing.Holding?)
    && (s.running <==> s.closing.Open?)
    && (s.closing.Closed? ==> Quiet(s))
  }

  lemma StepKeeps(s: State, step: Step)
    requires Inv(s)
    ensures Inv(Next(s, step))
    ensures s.closing.Closed? ==> Next(s, step).closing.Closed?
  {
  }

  lemma {:induction false} RunKeeps(s: State, steps: seq<Step>)
    requires Inv(s)
    ensures Inv(After(s, steps))
    ensures s.closing.Closed? ==> After(s, steps).closing.Closed?
  {
    if steps != [] {
      RunKeeps(s, steps[..|steps| - 1]);
      StepKeeps(After(s, steps[..|steps| - 1]), steps[|steps| - 1]);
    }
  }

  // ---- Promises about every interleaving ----

  /** At most one request of the session holds the slot, so at most one runs Git. */
  lemma OneRequestAtATime(steps: seq<Step>, a: RequestId, b: RequestId)
    requires var s := After(START, steps);
             a in s.requests && b in s.requests && HoldsSlot(s.requests[a]) && HoldsSlot(s.requests[b])
    ensures a == b
  {
    RunKeeps(START, steps);
  }

  /** Closing quiesces: from the moment the close holds the slot, and for ever after it returned, no Git
      of the session runs or is about to run, whatever arrives. */
  lemma CloseQuiesces(steps: seq<Step>, more: seq<Step>)
    requires After(START, steps).closing.Holding? || After(START, steps).closing.Closed?
    ensures Quiet(After(START, steps))
    ensures After(START, steps).closing.Closed? ==> Quiet(After(After(START, steps), more))
  {
    RunKeeps(START, steps);
    RunKeeps(After(START, steps), more);
  }

  lemma FlagDownBarsGit(s: State, step: Step, id: RequestId)
    requires !s.running && (id !in s.requests || !Active(s.requests[id]))
    ensures !Next(s, step).running && (id !in Next(s, step).requests || !Active(Next(s, step).requests[id]))
  {
  }

  /** Once the running flag is down no request that gets the slot is let through to Git. */
  lemma {:induction false} LateRequestsAreTurnedAway(s: State, more: seq<Step>, id: RequestId)
    requires !s.running && (id !in s.requests || !Active(s.requests[id]))
    ensures !After(s, more).running
    ensures id !in After(s, more).requests || !Active(After(s, more).requests[id])
  {
    if more != [] {
      LateRequestsAreTurnedAway(s, more[..|more| - 1], id);
      FlagDownBarsGit(After(s, more[..|more| - 1]), more[|more| - 1], id);
    }
  }

  /** Git runs for a request only after, holding the slot, it asked and was told that the session still runs
      and that the Node still serves it. */
  lemma {:induction false} FindPermission(steps: seq<Step>, id: RequestId) returns (k: nat)
    requires id in After(START, steps).requests && Active(After(START, steps).requests[id])
    ensures k < |steps| && steps[k] == RequireRunning(id, true)
    ensures After(START, steps[..k]).running && At(After(START, steps[..k]), id, Slotted)
  {
    var front := steps[..|steps| - 1];
    var before := After(START, front);
    if id in before.requests && Active(before.requests[id]) {
      k := FindPermission(front, id);
      assert front[..k] == steps[..k];
    } else {
      k := |front|;
    }
  }

  /** Has not been admitted, or is gone again. */
  predicate Outside(s: State, id: RequestId) {
    id !in s.requests || s.requests[id].Arrived? || s.requests[id].Gone?
  }

  lemma OutsideStep(s: State, step: Step, id: RequestId)
    requires !s.running && Outside(s, id)
    ensures !Next(s, step).running && Outside(Next(s, step), id)
  {
  }

  /** Once the running flag is down a request that was not admitted before never is. */
  lemma {:induction false} LateArrivalsStayOutside(s: State, more: seq<Step>, id: RequestId)
    requires !s.running && Outside(s, id)
    ensures !After(s, more).running && Outside(After(s, more), id)
  {
    if more != [] {
      LateArrivalsStayOutside(s, more[..|more| - 1], id);
      OutsideStep(After(s, more[..|more| - 1]), more[|more| - 1], id);
    }
  }

  /** A caller that leaves before its request has the slot takes nothing with it. */
  lemma LeavingEarlyLeavesNoTrace(s: State, id: RequestId)
    requires At(s, id, Arrived) || At(s, id, Admitted)
    ensures var t := Next(s, Disconnect(id));
            && t.requests[id].Gone? && t.slot == s.slot && t.running == s.running && t.closing == s.closing
            && forall other :: other in s.requests && other != id ==> t.requests[other] == s.requests[other]
  {
  }

  /** An admitted request takes the slot at once or is turned away at once; it never waits for it. */
  lemma NobodyWaitsForTheSlot(s: State, id: RequestId)
    requires At(s, id, Admitted)
    ensures var t := Next(s, TryAcquire(id));
            && (s.slot.None? <==> HoldsSlot(t.requests[id])) && (s.slot.Some? <==> t.requests[id].Gone?)
            && t.slot == if s.slot.None? then Some(Request(id)) else s.slot
  {
  }

  lemma {:induction false} AfterFirst(s: State, step: Step, rest: seq<Step>)
    ensures After(s, [step] + rest) == After(Next(s, step), rest)
  {
    if rest == [] {
      AfterOneMore(s, [], step);
    } else {
      var front := rest[..|rest| - 1];
      AfterFirst(s, step, front);
      AfterOneMore(s, [step] + front, rest[|rest| - 1]);
      assert [step] + rest == ([step] + front) + [rest[|rest| - 1]];
    }
  }

  /** What a request in this phase does next, and how far it is from letting go of the slot. */
  function Onward(p: Phase, id: RequestId): Step {
    match p
    case Slotted => AnswerWithoutGit(id)
    case Permitted => BeginGit(id)
    case InGit => EndGit(id)
    case _ => Release(id)
  }

  function Distance(p: Phase): nat {
    if p.Permitted? then 3 else if p.InGit? || p.Slotted? then 2 else if p.Answering? then 1 else 0
  }

  lemma {:induction false} HolderFinishes(s: State, id: RequestId) returns (steps: seq<Step>)
    requires Inv(s) && s.closing.Flagged? && id in s.requests && HoldsSlot(s.requests[id])
    ensures After(s, steps).slot.None? && After(s, steps).closing.Flagged?
    decreases Distance(s.requests[id])
  {
    var step := Onward(s.requests[id], id);
    StepKeeps(s, step);
    if s.requests[id].Answering? {
      steps := [];
      assert Next(s, step).slot.None? && After(Next(s, step), []) == Next(s, step);
    } else {
      steps := HolderFinishes(Next(s, step), id);
    }
    AfterFirst(s, step, steps);
    steps := [step] + steps;
  }

  /** Closing never deadlocks: a waiting close only ever waits for one request's own remaining steps. */
  lemma CloseCanAlwaysFinish(steps: seq<Step>) returns (more: seq<Step>)
    requires After(START, steps).closing.Flagged?
    ensures After(After(START, steps), more).closing.Closed?
  {
    var s := After(START, steps);
    RunKeeps(START, steps);
    var free: seq<Step> := [];
    if s.slot.Some? {
      free := HolderFinishes(s, s.slot.value.id);
    }
    more := free + [AcquireForClose] + [FinishClose];
    AfterOneMore(s, free, AcquireForClose);
    AfterOneMore(s, free + [AcquireForClose], FinishClose);
  }

  ghost predicate QuietForGood(s: State) {
    forall more: seq<Step> :: Quiet(After(s, more))
  }

  lemma QuietForGoodIsQuiet(s: State)
    requires QuietForGood(s)
    ensures Quiet(s)
  {
    var nothing: seq<Step> := [];
    assert Quiet(After(s, nothing));
  }

  /** Dropping the socket quiesces the session, now and however it goes on, if and only if no request had been
      let through to Git when it was dropped. */
  lemma DropQuiescesExactlyWhenIdle(s: State)
    requires s.closing.Open? || s.closing.Flagged?
    ensures QuietForGood(Next(s, DropSocket)) <==> Quiet(s)
  {
    var t := Next(s, DropSocket);
    if Quiet(s) {
      forall more: seq<Step>
        ensures Quiet(After(t, more))
      {
        forall id | id in After(t, more).requests
          ensures !Active(After(t, more).requests[id])
        {
          LateRequestsAreTurnedAway(t, more, id);
        }
      }
    }
    if QuietForGood(t) {
      QuietForGoodIsQuiet(t);
    }
  }

  lemma Extend(steps: seq<Step>, s: State, step: Step, t: State)
    requires After(START, steps) == s && Next(s, step) == t
    ensures After(START, steps + [step]) == t
  {
    AfterOneMore(START, steps, step);
  }

  lemma RequestReachesSlot() returns (steps: seq<Step>)
    ensures After(START, steps) == State(true, Some(Request(0)), map[0 := Slotted], Open)
  {
    var s := State(true, None, map[0 := Arrived], Open);
    Extend([], START, Connect(0), s);
    steps := [] + [Connect(0)];
    Extend(steps, s, Admit(0), s.(requests := map[0 := Admitted]));
    steps := steps + [Admit(0)];
    Extend(steps, s.(requests := map[0 := Admitted]), TryAcquire(0),
           State(true, Some(Request(0)), map[0 := Slotted], Open));
    steps := steps + [TryAcquire(0)];
  }

  /** Merely dropping the socket does not wait: the Git of a request may outlive it. */
  lemma DropDoesNotWait() returns (steps: seq<Step>)
    ensures After(START, steps).closing.Abandoned? && !Quiet(After(START, steps))
  {
    steps := RequestReachesSlot();
    var s := State(true, Some(Request(0)), map[0 := Slotted], Open);
    Extend(steps, s, RequireRunning(0, true), s.(requests := map[0 := Permitted]));
    steps := steps + [RequireRunning(0, true)];
    Extend(steps, s.(requests := map[0 := Permitted]), BeginGit(0), s.(requests := map[0 := InGit]));
    steps := steps + [BeginGit(0)];
    var t := State(false, Some(Request(0)), map[0 := InGit], Abandoned);
    Extend(steps, s.(requests := map[0 := InGit]), DropSocket, t);
    steps := steps + [DropSocket];
    assert 0 in t.requests && Active(t.requests[0]);
  }
}
