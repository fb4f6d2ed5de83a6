/** Transcript debt: which provider session holds the conversation, and when a new one is owed it.

    The row durably names a provider session; a session rebuilt in its place is only in memory until the
    prompt that carries the transcript is accepted. A switch of agents writes the row first and its
    history line second. Turns here are the accepted ones the history file holds, and restoring a
    provider session brings back exactly what it held. */
module TranscriptDebt {
  import opened Basics

  type Session = nat

  /** `Recorded` debt is raised by a switch of agents; `Ephemeral` debt by a rebuilt session. */
  datatype Debt = Settled | Recorded | Ephemeral

  /** `switchOwed` is what the history file says: its last switch line has no delivery line after it. */
  datatype Ledger = Ledger(
    turns: nat,
    held: map<Session, set<nat>>,
    row: Session,
    nextSession: Session,
    switchOwed: bool,
    debt: Debt,
    rebuilt: Option<Session>,
    attached: bool)

  /** `Restart` is any loss of the actor: a new process, or an actor discarded to resume its history. */
  datatype Step =
    | Restore
    | Rebuild
    | Send(readable: bool, rowWrites: bool, lineWrites: bool)
    | FailSend
    | Detach
    | SwitchAgent(lineWrites: bool)
    | Restart(readable: bool)

  const START := Ledger(0, map[0 := {}], 0, 1, false, Settled, None, true)

  /** The provider session every frame is addressed to. */
  function Named(s: Ledger): Session {
    if s.rebuilt.Some? then s.rebuilt.value else s.row
  }

  function Holds(s: Ledger, x: Session): set<nat> {
    if x in s.held then s.held[x] else {}
  }

  /** The first `n` turns. */
  function All(n: nat): (turns: set<nat>)
    ensures forall t :: t in turns <==> 0 <= t < n
  {
    if n == 0 then {} else All(n - 1) + {n - 1}
  }

  /** The provider session holds every accepted turn. */
  predicate Full(s: Ledger, x: Session) {
    All(s.turns) <= Holds(s, x)
  }

  /** Whether a prompt carries the transcript, and so settles the debt when it is accepted. */
  predicate Delivers(debt: Debt, readable: bool) {
    !debt.Settled? && readable
  }

  /** The provider accepts a prompt. */
  function Accepted(s: Ledger, readable: bool, rowWrites: bool, lineWrites: bool): Ledger {
    var served := Named(s);
    var delivers := Delivers(s.debt, readable);
    s.(turns := s.turns + 1,
       held := s.held[served := Holds(s, served) + {s.turns} + if delivers then All(s.turns) else {}],
       row := if delivers && rowWrites then served else s.row,
       rebuilt := if delivers && rowWrites then None else s.rebuilt,
       debt := if delivers then Settled else s.debt,
       switchOwed := s.switchOwed && !(delivers && s.debt.Recorded? && lineWrites))
  }

  function Rebuilt(s: Ledger): Ledger {
    s.(rebuilt := Some(s.nextSession),
       held := s.held[s.nextSession := {}],
       nextSession := s.nextSession + 1,
       debt := if s.debt.Settled? then Ephemeral else s.debt,
       attached := true)
  }

  /** The row moves to the new agent's session; the line that opens the debt may be lost. */
  function Switched(s: Ledger, lineWrites: bool): Ledger {
    s.(row := s.nextSession, held := s.held[s.nextSession := {}], nextSession := s.nextSession + 1,
       switchOwed := s.switchOwed || lineWrites, debt := Recorded, rebuilt := None, attached := true)
  }

  /** Memory is gone; the debt is read back from the history file, and an unreadable one owes nothing. */
  function Restarted(s: Ledger, readable: bool): Ledger {
    s.(rebuilt := None, attached := false, debt := if s.switchOwed && readable then Recorded else Settled)
  }

  function Next(s: Ledger, step: Step): Ledger {
    match step
    case Restore => s.(attached := true)
    case Rebuild => if s.attached then s else Rebuilt(s)
    case Send(readable, rowWrites, lineWrites) =>
      if s.attached then Accepted(s, readable, rowWrites, lineWrites) else s
    case FailSend => s.(attached := false)
    case Detach => s.(attached := false)
    case SwitchAgent(lineWrites) => Switched(s, lineWrites)
    case Restart(readable) => Restarted(s, readable)
  }

  function After(s: Ledger, steps: seq<Step>): Ledger {
    if steps == [] then s else Next(After(s, steps[..|steps| - 1]), steps[|steps| - 1])
  }

  // ---- The actor ----

  /** What stands between an unattached actor and a provider session. */
  datatype Attaching = Attaching(opens: bool, loadSupported: bool, snapshot: bool, loadWorks: bool, createWorks: bool)

  /** The session the row names can be loaded, and is. */
  predicate Loads(a: Attaching) {
    a.loadSupported && a.snapshot && a.loadWorks
  }

  /** Loading is not to be had: the agent does not offer it, or it was tried and failed. */
  predicate MayRebuild(a: Attaching) {
    !a.loadSupported || (a.snapshot && !a.loadWorks)
  }

  class SessionActor {
    // Durable.
    var row: Session
    var switchOwed: bool
    // In memory.
    var debt: Debt
    var rebuilt: Option<Session>
    var attached: bool
    /** The next provider session an agent would create. */
    var nextSession: Session
    ghost var ledger: Ledger

    ghost predicate Valid()
      reads this
    {
      && row == ledger.row && switchOwed == ledger.switchOwed && debt == ledger.debt
      && rebuilt == ledger.rebuilt && attached == ledger.attached && nextSession == ledger.nextSession
    }

    constructor ()
      ensures Valid() && ledger == START
    {
      row, switchOwed, debt, rebuilt, attached, nextSession := 0, false, Settled, None, true, 1;
      ledger := START;
    }

    /** Restores the named provider session, or rebuilds one and owes it the conversation; an actor that
        gets neither stays as it was. */
    method EnsureAttached(a: Attaching) returns (ok: bool)
      requires Valid()
      modifies this
      ensures Valid() && (ok <==> attached)
      ensures ok <==> old(attached) || (a.opens && (Loads(a) || (MayRebuild(a) && a.createWorks)))
      ensures row == old(row) && switchOwed == old(switchOwed)
      ensures old(attached) || !ok || Loads(a) ==>
        rebuilt == old(rebuilt) && debt == old(debt) && nextSession == old(nextSession)
      ensures !old(attached) && ok && !Loads(a) ==>
        && rebuilt == Some(old(nextSession)) && nextSession == old(nextSession) + 1
        && debt == if old(debt).Settled? then Ephemeral else old(debt)
      ensures ledger == if old(attached) || !ok then old(ledger)
                        else Next(old(ledger), if Loads(a) then Restore else Rebuild)
    {
      if attached {
        return true;
      }
      if !a.opens {
        return false;
      }
      if a.loadSupported {
        if !a.snapshot {
          return false;
        }
        if a.loadWorks {
          attached := true;
          ledger := Next(ledger, Restore);
          return true;
        }
      }
      ok := RebuildSession(a.createWorks);
    }

    method RebuildSession(createWorks: bool) returns (ok: bool)
      requires Valid() && !attached
      modifies this
      ensures Valid() && (ok <==> createWorks) && (ok <==> attached)
      ensures row == old(row) && switchOwed == old(switchOwed)
      ensures !ok ==> rebuilt == old(rebuilt) && debt == old(debt) && nextSession == old(nextSession)
      ensures ok ==>
        && rebuilt == Some(old(nextSession)) && nextSession == old(nextSession) + 1
        && debt == if old(debt).Settled? then Ephemeral else old(debt)
      ensures ledger == if ok then Next(old(ledger), Rebuild) else old(ledger)
    {
      if !createWorks {
        return false;
      }
      rebuilt := Some(nextSession);
      nextSession := nextSession + 1;
      if debt.Settled? {
        debt := Ephemeral;
      }
      attached := true;
      ledger := Next(ledger, Rebuild);
      ok := true;
    }

    /** Sends a prompt, with the transcript in front when one is owed and can be read. */
    method Send(readable: bool, sendWorks: bool, rowWrites: bool, lineWrites: bool)
      requires Valid() && attached
      modifies this
      ensures Valid() && (attached <==> sendWorks) && nextSession == old(nextSession)
      ensures debt == if sendWorks && readable then Settled else old(debt)
      ensures var committed := sendWorks && readable && !old(debt).Settled? && rowWrites && old(rebuilt).Some?;
              && row == (if committed then old(rebuilt).value else old(row))
              && rebuilt == (if committed then None else old(rebuilt))
      ensures switchOwed <==>
        old(switchOwed) && !(sendWorks && readable && old(debt).Recorded? && lineWrites)
      ensures ledger == Next(old(ledger), if sendWorks then Step.Send(readable, rowWrites, lineWrites) else FailSend)
    {
      var settles := !debt.Settled? && readable;
      ledger := Next(ledger, if sendWorks then Step.Send(readable, rowWrites, lineWrites) else FailSend);
      if !sendWorks {
        // Nothing was delivered, so nothing is settled.
        attached := false;
        return;
      }
      if settles {
        var was := debt;
        debt := Settled;
        CommitRebuilt(rowWrites);
        if was.Recorded? && lineWrites {
          switchOwed := false;
        }
      }
    }

    /** A rebuilt binding enters the row only here, and stays in memory when the row cannot be written. */
    method CommitRebuilt(rowWrites: bool)
      modifies `row, `rebuilt
      ensures row == (if old(rebuilt).Some? && rowWrites then old(rebuilt).value else old(row))
      ensures rebuilt == if rowWrites then None else old(rebuilt)
    {
      if rebuilt.Some? && rowWrites {
        row := rebuilt.value;
        rebuilt := None;
      }
    }

    /** Moves the conversation to another agent's fresh session: the row first, the history line second. */
    method Rebind(lineWrites: bool)
      requires Valid()
      modifies this
      ensures Valid() && ledger == Next(old(ledger), SwitchAgent(lineWrites))
      ensures row == old(nextSession) < nextSession && debt == Recorded && rebuilt.None? && attached
      ensures switchOwed <==> old(switchOwed) || lineWrites
    {
      row := nextSession;
      nextSession := nextSession + 1;
      if lineWrites {
        switchOwed := true;
      }
      debt, rebuilt, attached := Recorded, None, true;
      ledger := Next(ledger, SwitchAgent(lineWrites));
    }

    /** Reopens the session from its row and its history file. */
    method Reopen(readable: bool)
      requires Valid()
      modifies this
      ensures Valid() && ledger == Next(old(ledger), Restart(readable))
      ensures row == old(row) && switchOwed == old(switchOwed) && rebuilt.None? && !attached
      ensures debt == if old(switchOwed) && readable then Recorded else Settled
    {
      rebuilt, attached := None, false;
      debt := if switchOwed && readable then Recorded else Settled;
      ledger := Next(ledger, Restart(readable));
    }
  }

  // ---- What one step does to the promise ----

  ghost predicate Inv(s: Ledger) {
    && s.row < s.nextSession
    && (s.rebuilt.Some? ==> s.rebuilt.value < s.nextSession && s.rebuilt.value != s.row)
    && (forall x :: x in s.held ==> x < s.nextSession && s.held[x] <= All(s.turns))
  }

  /** An accepted turn that the session the row names afterwards does not hold: a rebuilt session took it
      and the row was not written to name that session, or a switch moved a conversation with turns. */
  predicate Bypasses(s: Ledger, step: Step) {
    match step
    case Send(readable, rowWrites, _) =>
      s.attached && s.rebuilt.Some? && !(Delivers(s.debt, readable) && rowWrites)
    case SwitchAgent(_) => s.turns > 0
    case _ => false
  }

  /** The transcript reaches the session the row names afterwards. */
  predicate Informs(s: Ledger, step: Step) {
    match step
    case Send(readable, rowWrites, _) =>
      s.attached && Delivers(s.debt, readable) && (s.rebuilt.None? || rowWrites)
    case _ => false
  }

  /** The actor is lost and the next one reads no debt from the history file. */
  predicate Forgets(s: Ledger, step: Step) {
    step.Restart? && !(s.switchOwed && step.readable)
  }

  /** Steps that set the debt anew. */
  predicate Resets(s: Ledger, step: Step) {
    step.Restart? || step.SwitchAgent? || (step.Rebuild? && !s.attached)
  }

  /** The actor believes nothing is owed, and the session it addresses lacks a turn. */
  predicate Missing(s: Ledger) {
    s.debt.Settled? && !Full(s, Named(s))
  }

  lemma AllGrows(n: nat)
    ensures All(n + 1) == All(n) + {n} && n !in All(n)
  {
  }

  lemma StepKeeps(s: Ledger, step: Step)
    requires Inv(s)
    ensures Inv(Next(s, step))
  {
    AllGrows(s.turns);
  }

  lemma AcceptedFills(s: Ledger, readable: bool, rowWrites: bool, lineWrites: bool)
    requires Inv(s)
    ensures var t := Accepted(s, readable, rowWrites, lineWrites);
            && (Full(t, Named(s)) <==> Full(s, Named(s)) || Delivers(s.debt, readable))
            && (Named(s) != s.row ==> !Full(t, s.row))
            && Named(t) == Named(s)
  {
    AllGrows(s.turns);
    var t := Accepted(s, readable, rowWrites, lineWrites);
    assert s.turns in All(t.turns) && s.turns !in Holds(s, s.row);
    if !Delivers(s.debt, readable) && !Full(s, Named(s)) {
      var lacking :| lacking in All(s.turns) && lacking !in Holds(s, Named(s));
      assert lacking in All(t.turns) && lacking !in Holds(t, Named(s));
    }
  }

  /** The row's session holds every turn after a step exactly when that step informed it, or it did before
      and no turn bypassed it. */
  lemma RowFullStep(s: Ledger, step: Step)
    requires Inv(s)
    ensures Full(Next(s, step), Next(s, step).row) <==> Informs(s, step) || (Full(s, s.row) && !Bypasses(s, step))
  {
    match step {
      case Send(readable, rowWrites, lineWrites) => AcceptedFills(s, readable, rowWrites, lineWrites);
      case SwitchAgent(_) => assert s.turns > 0 ==> 0 in All(s.turns);
      case _ =>
    }
  }

  lemma MissingStep(s: Ledger, step: Step)
    requires Inv(s)
    ensures Missing(Next(s, step)) <==>
      if Resets(s, step) then Forgets(s, step) && !Full(s, s.row) else Missing(s)
  {
    if step.Send? {
      AcceptedFills(s, step.readable, step.rowWrites, step.lineWrites);
    }
  }

  // ---- Promises about every run ----

  lemma {:induction false} RunKeeps(steps: seq<Step>)
    ensures Inv(After(START, steps))
  {
    if steps != [] {
      RunKeeps(steps[..|steps| - 1]);
      StepKeeps(After(START, steps[..|steps| - 1]), steps[|steps| - 1]);
    }
  }

  /** The ledger before step `k` of a run. */
  function At(steps: seq<Step>, k: nat): Ledger
    requires k <= |steps|
  {
    After(START, steps[..k])
  }

  /** A turn bypassed the row's session at step `k`, and the row's session was not informed since. */
  ghost predicate BypassedSince(steps: seq<Step>, k: nat) {
    && k < |steps| && Bypasses(At(steps, k), steps[k])
    && forall j :: k < j < |steps| ==> !Informs(At(steps, j), steps[j])
  }

  /** The actor was last set anew at step `i`, by forgetting, from a row that a turn had bypassed. */
  ghost predicate ForgotAt(steps: seq<Step>, i: nat, k: nat) {
    && i < |steps| && Forgets(At(steps, i), steps[i]) && BypassedSince(steps[..i], k)
    && forall j :: i < j < |steps| ==> !Resets(At(steps, j), steps[j])
  }

  lemma PrefixIsRun(steps: seq<Step>, n: nat)
    requires n <= |steps|
    ensures forall k :: 0 <= k <= n ==> At(steps[..n], k) == At(steps, k)
  {
    forall k | 0 <= k <= n
      ensures At(steps[..n], k) == At(steps, k)
    {
      assert steps[..n][..k] == steps[..k];
    }
  }

  /** In every run the row's session lacks an accepted turn exactly when some turn bypassed it and the
      transcript has not reached it since. */
  lemma {:induction false} RowLacksExactlyWhenBypassed(steps: seq<Step>)
    ensures !Full(After(START, steps), After(START, steps).row) <==> exists k :: BypassedSince(steps, k)
  {
    if steps != [] {
      var n := |steps| - 1;
      var front := steps[..n];
      RowLacksExactlyWhenBypassed(front);
      RunKeeps(front);
      RowFullStep(After(START, front), steps[n]);
      PrefixIsRun(steps, n);
      assert At(steps, n) == After(START, front);
      BypassGrows(steps);
    }
  }

  lemma BypassGrows(steps: seq<Step>)
    requires steps != []
    ensures var n := |steps| - 1;
            var s := At(steps, n);
            (exists k :: BypassedSince(steps, k)) <==>
              !Informs(s, steps[n]) && (Bypasses(s, steps[n]) || exists k :: BypassedSince(steps[..n], k))
  {
    var n := |steps| - 1;
    var s, step := At(steps, n), steps[n];
    PrefixIsRun(steps, n);
    forall k: nat | BypassedSince(steps, k)
      ensures !Informs(s, step) && (Bypasses(s, step) || BypassedSince(steps[..n], k))
    {
      if k < n {
        assert !Informs(At(steps, n), steps[n]);
        forall j | k < j < n
          ensures !Informs(At(steps[..n], j), steps[..n][j])
        {
          assert !Informs(At(steps, j), steps[j]);
        }
      }
    }
    if !Informs(s, step) {
      if Bypasses(s, step) {
        assert BypassedSince(steps, n);
      }
      forall k: nat | BypassedSince(steps[..n], k)
        ensures BypassedSince(steps, k)
      {
        forall j | k < j < |steps|
          ensures !Informs(At(steps, j), steps[j])
        {
          if j < n {
            assert !Informs(At(steps[..n], j), steps[..n][j]);
          }
        }
      }
    }
  }

  /** In every run an actor that believes nothing is owed addresses a session lacking an accepted turn
      exactly when it was last set anew by forgetting, from a row that some turn had bypassed. */
  lemma {:induction false} SettledLacksExactlyWhenForgotten(steps: seq<Step>)
    ensures Missing(After(START, steps)) <==> exists i, k :: ForgotAt(steps, i, k)
  {
    if steps == [] {
      assert !Missing(START);
    } else {
      var n := |steps| - 1;
      SettledLacksExactlyWhenForgotten(steps[..n]);
      RunKeeps(steps[..n]);
      MissingStep(At(steps, n), steps[n]);
      RowLacksExactlyWhenBypassed(steps[..n]);
      ForgettingGrows(steps);
    }
  }

  lemma ForgettingGrows(steps: seq<Step>)
    requires steps != []
    ensures var n := |steps| - 1;
            var s := At(steps, n);
            (exists i, k :: ForgotAt(steps, i, k)) <==>
              if Resets(s, steps[n]) then Forgets(s, steps[n]) && exists k :: BypassedSince(steps[..n], k)
              else exists i, k :: ForgotAt(steps[..n], i, k)
  {
    var n := |steps| - 1;
    var s, step := At(steps, n), steps[n];
    PrefixIsRun(steps, n);
    forall i: nat, k: nat | ForgotAt(steps, i, k)
      ensures if Resets(s, step) then Forgets(s, step) && BypassedSince(steps[..n], k) else ForgotAt(steps[..n], i, k)
    {
      if i < n {
        assert !Resets(At(steps, n), steps[n]);
        assert steps[..n][..i] == steps[..i];
        forall j | i < j < n
          ensures !Resets(At(steps[..n], j), steps[..n][j])
        {
          assert !Resets(At(steps, j), steps[j]);
        }
      }
    }
    if Resets(s, step) {
      forall k: nat | Forgets(s, step) && BypassedSince(steps[..n], k)
        ensures ForgotAt(steps, n, k)
      {
      }
    } else {
      forall i: nat, k: nat | ForgotAt(steps[..n], i, k)
        ensures ForgotAt(steps, i, k)
      {
        assert steps[..n][..i] == steps[..i];
        forall j | i < j < |steps|
          ensures !Resets(At(steps, j), steps[j])
        {
          if j < n {
            assert !Resets(At(steps[..n], j), steps[..n][j]);
          }
        }
      }
    }
  }

  /** Within one actor's life, where nothing is forgotten, the promise holds outright. */
  lemma {:induction false} SettledMeansFullWithinOneLife(s: Ledger, steps: seq<Step>)
    requires Inv(s) && !Missing(s) && forall i :: 0 <= i < |steps| ==> !steps[i].Restart?
    ensures Inv(After(s, steps)) && !Missing(After(s, steps))
  {
    if steps != [] {
      var front := steps[..|steps| - 1];
      SettledMeansFullWithinOneLife(s, front);
      StepKeeps(After(s, front), steps[|steps| - 1]);
      MissingStep(After(s, front), steps[|steps| - 1]);
    }
  }

  /** The debt is cleared only by an accepted prompt that carried a readable transcript, or forgotten when
      the actor is lost and the history file proves no debt. */
  lemma DebtIsPaidByDelivery(s: Ledger, step: Step)
    requires !s.debt.Settled? && Next(s, step).debt.Settled?
    ensures (step.Send? && step.readable && s.attached) || Forgets(s, step)
  {
  }

  /** The row comes to name another session only by a switch, or by the accepted delivery of the whole
      conversation to that session. */
  lemma RowNamesOnlyInformedSessions(s: Ledger, step: Step)
    requires Inv(s) && Next(s, step).row != s.row && !step.SwitchAgent?
    ensures step.Send? && s.attached && Delivers(s.debt, step.readable)
    ensures s.rebuilt == Some(Next(s, step).row) && Full(Next(s, step), Next(s, step).row)
  {
    RowFullStep(s, step);
  }

  // ---- Three ways to be wrong ----

  lemma AfterOneMore(s: Ledger, steps: seq<Step>, step: Step)
    ensures After(s, steps + [step]) == Next(After(s, steps), step)
  {
    assert (steps + [step])[..|steps + [step]| - 1] == steps;
  }

  lemma AfterTwo(s: Ledger, a: Step, b: Step)
    ensures After(s, [a, b]) == Next(Next(s, a), b)
  {
    AfterOneMore(s, [], a);
    AfterOneMore(s, [a], b);
    assert [] + [a] == [a] && [a] + [b] == [a, b];
  }

  lemma AfterFour(s: Ledger, a: Step, b: Step, c: Step, d: Step)
    ensures After(s, [a, b, c, d]) == Next(Next(Next(Next(s, a), b), c), d)
  {
    AfterTwo(s, a, b);
    AfterOneMore(s, [a, b], c);
    assert [a, b] + [c] == [a, b, c];
    AfterOneMore(s, [a, b, c], d);
    assert [a, b, c] + [d] == [a, b, c, d];
  }

  /** A rebuilt session accepts the turn, the row cannot be written, the process restarts, and the old
      session can be restored after all. */
  lemma BypassedRowIsBelieved()
    ensures var s := After(START, [Detach, Rebuild, Send(true, false, true), Restart(true)]);
            Missing(Next(s, Restore)) && Next(s, Restore).attached
  {
    AfterFour(START, Detach, Rebuild, Send(true, false, true), Restart(true));
    var s := Next(Next(Next(START, Detach), Rebuild), Send(true, false, true));
    assert s.turns == 1 && s.row == 0 && Holds(s, 0) == {} && 0 in All(1);
  }

  /** A switch writes the row and loses its line; the next actor reads no debt and restores the new
      agent's session, which holds nothing. */
  lemma UnrecordedSwitchIsForgotten()
    ensures var s := After(START, [Send(true, true, true), SwitchAgent(false), Restart(true), Restore]);
            Missing(s) && s.attached
  {
    AfterFour(START, Send(true, true, true), SwitchAgent(false), Restart(true), Restore);
    var s := Next(Next(START, Send(true, true, true)), SwitchAgent(false));
    assert s.turns == 1 && s.row == 1 && Holds(s, 1) == {} && 0 in All(1);
  }

  /** A recorded switch is forgotten as well when the actor that a prompt opens cannot read the history
      file: the prompt has passed the check for degraded histories already. */
  lemma UnreadableSwitchIsForgotten()
    ensures var s := After(START, [Send(true, true, true), SwitchAgent(true), Restart(false), Restore]);
            Missing(s) && s.attached && s.switchOwed
  {
    AfterFour(START, Send(true, true, true), SwitchAgent(true), Restart(false), Restore);
    var s := Next(Next(START, Send(true, true, true)), SwitchAgent(true));
    assert s.turns == 1 && s.row == 1 && Holds(s, 1) == {} && 0 in All(1);
  }
}
