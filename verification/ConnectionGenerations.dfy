/** Generation handover: openers of session channels race the supervisor that replaces connections.

    The supervisor numbers connections; an opener reads the published connection, checks the active
    generation, registers a route, and checks again. Every shared read or write is one step, and any
    number of openers interleave with the supervisor across any number of generations. */
module ConnectionGenerations {
  import opened Basics

  type Session = string
  type OpenerId = nat
  type Token = nat

  datatype Entry = Entry(generation: nat, token: Token)

  /** What a channel's control queue tells its owner; `Cut` is the queue closing. */
  datatype Notice = Lost | Overflowed | Cut

  datatype Opener =
    | Holding(session: Session, generation: nat)
    | Cleared(session: Session, generation: nat)
    | Registered(session: Session, generation: nat, token: Token)
    | Returned(session: Session, generation: nat, token: Token)
    | TurnedAway
    | Dropped

  /** Where the supervisor stands with its current generation. */
  datatype Phase =
    | Idle
    | Activated
    | Serving
    | Deactivated
    | Withdrawn
    | Notifying(left: set<Token>)

  datatype State = State(
    phase: Phase,
    generation: nat,
    active: nat,
    published: Option<nat>,
    entries: map<Session, Entry>,
    lastToken: Token,
    openers: map<OpenerId, Opener>,
    heard: map<Token, Notice>)

  datatype Step =
    | Activate
    | Publish
    | Deactivate
    | Withdraw
    | BeginFail
    | Notify(token: Token)
    | EndFail
    | ReadCurrent(opener: OpenerId, session: Session)
    | CheckBefore(opener: OpenerId)
    | Register(opener: OpenerId)
    | CheckAfter(opener: OpenerId)
    | RemoveRoute(session: Session, token: Token, overflowed: bool)
    | DropChannel(opener: OpenerId)

  const START := State(Idle, 0, 0, None, map[], 0, map[], map[])

  // ---- The route registry ----

  /** The first notice a channel gets is the one that counts. */
  function Tell(heard: map<Token, Notice>, token: Token, notice: Notice): map<Token, Notice> {
    if token in heard then heard else heard[token := notice]
  }

  /** Removes only the route with this very token. */
  function Without(entries: map<Session, Entry>, session: Session, token: Token): map<Session, Entry> {
    if session in entries && entries[session].token == token then entries - {session} else entries
  }

  /** Splits off every route of a generation. */
  function Surviving(entries: map<Session, Entry>, generation: nat): map<Session, Entry> {
    map session | session in entries && entries[session].generation != generation :: entries[session]
  }

  function Failing(entries: map<Session, Entry>, generation: nat): set<Token> {
    set session | session in entries && entries[session].generation == generation :: entries[session].token
  }

  // ---- Steps ----

  function Set(s: State, o: OpenerId, opener: Opener): State {
    s.(openers := s.openers[o := opener])
  }

  function Next(s: State, step: Step): State {
    match step
    case Activate =>
      if s.phase.Idle? then s.(phase := Activated, generation := s.generation + 1, active := s.generation + 1) else s
    case Publish => if s.phase.Activated? then s.(phase := Serving, published := Some(s.generation)) else s
    case Deactivate => if s.phase.Serving? then s.(phase := Deactivated, active := 0) else s
    case Withdraw => if s.phase.Deactivated? then s.(phase := Withdrawn, published := None) else s
    case BeginFail =>
      if s.phase.Withdrawn?
      then s.(phase := Notifying(Failing(s.entries, s.generation)), entries := Surviving(s.entries, s.generation))
      else s
    case Notify(token) =>
      if s.phase.Notifying? && token in s.phase.left
      then s.(phase := Notifying(s.phase.left - {token}), heard := Tell(s.heard, token, Lost)) else s
    case EndFail => if s.phase == Notifying({}) then s.(phase := Idle) else s
    case ReadCurrent(o, session) =>
      if o in s.openers then s
      else Set(s, o, if s.published.Some? then Holding(session, s.published.value) else TurnedAway)
    case CheckBefore(o) =>
      if o in s.openers && s.openers[o].Holding?
      then Set(s, o, if s.active == s.openers[o].generation then Cleared(s.openers[o].session, s.openers[o].generation)
                     else TurnedAway)
      else s
    case Register(o) => if o in s.openers && s.openers[o].Cleared? then Installed(s, o) else s
    case CheckAfter(o) => if o in s.openers && s.openers[o].Registered? then Rechecked(s, o) else s
    case RemoveRoute(session, token, overflowed) =>
      if session in s.entries && s.entries[session].token == token
      then s.(entries := Without(s.entries, session, token),
              heard := Tell(s.heard, token, if overflowed then Overflowed else Cut))
      else s
    case DropChannel(o) =>
      if o in s.openers && s.openers[o].Returned?
      then Set(s, o, Dropped).(entries := Without(s.entries, s.openers[o].session, s.openers[o].token)) else s
  }

  /** Installing a route displaces an earlier one of the same session, whose control queue then closes. */
  function Installed(s: State, o: OpenerId): State
    requires o in s.openers && s.openers[o].Cleared?
  {
    var me := s.openers[o];
    var token := s.lastToken + 1;
    s.(lastToken := token,
       entries := s.entries[me.session := Entry(me.generation, token)],
       heard := if me.session in s.entries then Tell(s.heard, s.entries[me.session].token, Cut) else s.heard,
       openers := s.openers[o := Registered(me.session, me.generation, token)])
  }

  function Rechecked(s: State, o: OpenerId): State
    requires o in s.openers && s.openers[o].Registered?
  {
    var me := s.openers[o];
    if s.active == me.generation then Set(s, o, Returned(me.session, me.generation, me.token))
    else Set(s, o, TurnedAway).(entries := Without(s.entries, me.session, me.token))
  }

  function After(s: State, steps: seq<Step>): State {
    if steps == [] then s else Next(After(s, steps[..|steps| - 1]), steps[|steps| - 1])
  }

  // ---- What every step keeps ----

  /** The generation existed and its failure has been delivered to every route it had. */
  predicate Ended(s: State, g: nat) {
    1 <= g < s.generation || (1 <= g == s.generation && s.phase.Idle?)
  }

  /** The generation's routes have been split off already. */
  predicate Severed(s: State, g: nat) {
    Ended(s, g) || (g == s.generation && s.phase.Notifying?)
  }

  predicate SupervisorSound(s: State) {
    && s.active == (if s.phase.Activated? || s.phase.Serving? then s.generation else 0)
    && s.published == (if s.phase.Serving? || s.phase.Deactivated? then Some(s.generation) else None)
    && (!s.phase.Idle? ==> s.generation >= 1)
  }

  predicate Routed(s: State, o: Opener)
    requires o.Registered? || o.Returned?
  {
    o.session in s.entries && s.entries[o.session] == Entry(o.generation, o.token)
  }

  predicate OpenerSound(s: State, o: Opener) {
    && (o.Holding? || o.Cleared? || o.Registered? || o.Returned? ==> 1 <= o.generation <= s.generation)
    && (o.Registered? || o.Returned? ==>
          && o.token <= s.lastToken
          && (|| Routed(s, o)
              || o.token in s.heard
              || (s.phase.Notifying? && o.generation == s.generation && o.token in s.phase.left)))
    && (o.Returned? && Severed(s, o.generation) ==> !Routed(s, o))
  }

  ghost predicate TokensDistinct(s: State) {
    forall a, b :: a in s.openers && b in s.openers && a != b && HasToken(s.openers[a]) && HasToken(s.openers[b]) ==>
      s.openers[a].token != s.openers[b].token
  }

  predicate HasToken(o: Opener) {
    o.Registered? || o.Returned?
  }

  ghost predicate Inv(s: State) {
    && SupervisorSound(s)
    && (forall session :: session in s.entries ==> s.entries[session].token <= s.lastToken)
    && (forall o :: o in s.openers ==> OpenerSound(s, s.openers[o]))
    && TokensDistinct(s)
  }

  lemma SupervisorStepKeeps(s: State, step: Step)
    requires Inv(s)
    requires
      || step.Activate? || step.Publish? || step.Deactivate? || step.Withdraw?
      || step.BeginFail? || step.Notify? || step.EndFail?
    ensures Inv(Next(s, step))
  {
    var t := Next(s, step);
    forall o | o in t.openers
      ensures OpenerSound(t, t.openers[o])
    {
      assert OpenerSound(s, s.openers[o]);
    }
  }

  lemma InstallKeeps(s: State, o: OpenerId)
    requires Inv(s) && o in s.openers && s.openers[o].Cleared?
    ensures Inv(Installed(s, o))
  {
    var t := Installed(s, o);
    forall p | p in t.openers
      ensures OpenerSound(t, t.openers[p])
    {
      assert OpenerSound(s, s.openers[p]);
    }
  }

  lemma RecheckKeeps(s: State, o: OpenerId)
    requires Inv(s) && o in s.openers && s.openers[o].Registered?
    ensures Inv(Rechecked(s, o))
  {
    var t := Rechecked(s, o);
    forall p | p in t.openers
      ensures OpenerSound(t, t.openers[p])
    {
      assert OpenerSound(s, s.openers[p]);
    }
  }

  lemma OpenerStepKeeps(s: State, step: Step)
    requires Inv(s)
    requires step.ReadCurrent? || step.CheckBefore? || step.RemoveRoute? || step.DropChannel?
    ensures Inv(Next(s, step))
  {
    var t := Next(s, step);
    forall p | p in t.openers
      ensures OpenerSound(t, t.openers[p])
    {
      if p in s.openers {
        assert OpenerSound(s, s.openers[p]);
      }
    }
  }

  lemma StepKeeps(s: State, step: Step)
    requires Inv(s)
    ensures Inv(Next(s, step))
  {
    match step {
      case Register(o) =>
        if o in s.openers && s.openers[o].Cleared? {
          InstallKeeps(s, o);
        }
      case CheckAfter(o) =>
        if o in s.openers && s.openers[o].Registered? {
          RecheckKeeps(s, o);
        }
      case ReadCurrent(_, _) => OpenerStepKeeps(s, step);
      case CheckBefore(_) => OpenerStepKeeps(s, step);
      case RemoveRoute(_, _, _) => OpenerStepKeeps(s, step);
      case DropChannel(_) => OpenerStepKeeps(s, step);
      case _ => SupervisorStepKeeps(s, step);
    }
  }

  lemma {:induction false} RunKeeps(s: State, steps: seq<Step>)
    requires Inv(s)
    ensures Inv(After(s, steps))
  {
    if steps != [] {
      RunKeeps(s, steps[..|steps| - 1]);
      StepKeeps(After(s, steps[..|steps| - 1]), steps[|steps| - 1]);
    }
  }

  /** Tokens are handed out once, and no routed token has been told anything yet. */
  ghost predicate TokensSound(s: State) {
    && (forall a :: a in s.entries ==> s.entries[a].token <= s.lastToken && s.entries[a].token !in s.heard)
    && (forall a, b :: a in s.entries && b in s.entries && a != b ==> s.entries[a].token != s.entries[b].token)
    && (forall t :: t in s.heard ==> t <= s.lastToken)
    && (s.phase.Notifying? ==> forall t :: t in s.phase.left ==>
          t <= s.lastToken && forall a :: a in s.entries ==> s.entries[a].token != t)
  }

  lemma InstallKeepsTokens(s: State, o: OpenerId)
    requires TokensSound(s) && o in s.openers && s.openers[o].Cleared?
    ensures TokensSound(Installed(s, o))
  {
  }

  lemma FailKeepsTokens(s: State)
    requires TokensSound(s) && s.phase.Withdrawn?
    ensures TokensSound(Next(s, BeginFail))
  {
  }

  lemma RemovalKeepsTokens(s: State, session: Session, token: Token, notice: Notice)
    requires TokensSound(s) && session in s.entries && s.entries[session].token == token
    ensures TokensSound(s.(entries := Without(s.entries, session, token), heard := Tell(s.heard, token, notice)))
  {
  }

  lemma TokenStepKeeps(s: State, step: Step)
    requires TokensSound(s)
    ensures TokensSound(Next(s, step))
  {
    match step {
      case Register(o) =>
        if o in s.openers && s.openers[o].Cleared? {
          InstallKeepsTokens(s, o);
        }
      case BeginFail =>
        if s.phase.Withdrawn? {
          FailKeepsTokens(s);
        }
      case RemoveRoute(session, token, overflowed) =>
        if session in s.entries && s.entries[session].token == token {
          RemovalKeepsTokens(s, session, token, if overflowed then Overflowed else Cut);
        }
      case _ =>
    }
  }

  lemma {:induction false} TokensStaySound(s: State, steps: seq<Step>)
    requires TokensSound(s)
    ensures TokensSound(After(s, steps))
  {
    if steps != [] {
      TokensStaySound(s, steps[..|steps| - 1]);
      TokenStepKeeps(After(s, steps[..|steps| - 1]), steps[|steps| - 1]);
    }
  }

  /** The channel is on the list of a failing generation, or has been told of the loss first. */
  predicate LossUnderway(s: State, g: nat, token: Token) {
    || (&& s.phase.Notifying? && s.generation == g && token in s.phase.left && token !in s.heard)
    || (token in s.heard && s.heard[token] == Lost)
  }

  lemma LossStepKeeps(s: State, step: Step, g: nat, token: Token)
    requires TokensSound(s) && LossUnderway(s, g, token)
    requires forall a :: a in s.entries ==> s.entries[a].token != token
    requires token <= s.lastToken
    ensures LossUnderway(Next(s, step), g, token)
    ensures forall a :: a in Next(s, step).entries ==> Next(s, step).entries[a].token != token
    ensures token <= Next(s, step).lastToken
  {
  }

  lemma {:induction false} LossRunKeeps(s: State, steps: seq<Step>, g: nat, token: Token)
    requires TokensSound(s) && LossUnderway(s, g, token)
    requires forall a :: a in s.entries ==> s.entries[a].token != token
    requires token <= s.lastToken
    ensures LossUnderway(After(s, steps), g, token)
    ensures forall a :: a in After(s, steps).entries ==> After(s, steps).entries[a].token != token
    ensures token <= After(s, steps).lastToken
  {
    if steps != [] {
      LossRunKeeps(s, steps[..|steps| - 1], g, token);
      TokensStaySound(s, steps[..|steps| - 1]);
      LossStepKeeps(After(s, steps[..|steps| - 1]), steps[|steps| - 1], g, token);
    }
  }

  // ---- Promises about every interleaving ----

  /** The handover misses nobody: once a generation has ended, every channel ever returned for it has
      heard something, and until then it is routed, has heard, or is about to be told of the loss. */
  lemma HandoverMissesNobody(steps: seq<Step>, o: OpenerId)
    requires o in After(START, steps).openers && After(START, steps).openers[o].Returned?
    ensures var s := After(START, steps);
            var channel := s.openers[o];
            && (Ended(s, channel.generation) ==> channel.token in s.heard && !Routed(s, channel))
            && (|| Routed(s, channel)
                || channel.token in s.heard
                || (s.phase.Notifying? && channel.generation == s.generation && channel.token in s.phase.left))
  {
    RunKeeps(START, steps);
    assert OpenerSound(After(START, steps), After(START, steps).openers[o]);
  }

  /** A returned channel's generation is the active one at the step that returns it, and that generation's
      failure has not begun: the registration always precedes it. */
  lemma ReturnedWhileActive(s: State, step: Step, o: OpenerId)
    requires Inv(s) && o in Next(s, step).openers && Next(s, step).openers[o].Returned?
    requires o !in s.openers || !s.openers[o].Returned?
    ensures step == CheckAfter(o) && o in s.openers && s.openers[o].Registered?
    ensures s.active == s.generation == s.openers[o].generation && (s.phase.Activated? || s.phase.Serving?)
    ensures !Severed(Next(s, step), s.openers[o].generation)
  {
    assert OpenerSound(s, s.openers[o]);
  }

  lemma LeavingIsFinal(s: State, step: Step, g: nat)
    requires SupervisorSound(s) && 1 <= g <= s.generation && s.active != g
    ensures Next(s, step).active != g && g <= Next(s, step).generation
  {
  }

  lemma {:induction false} LeftIsLeft(s: State, more: seq<Step>, g: nat)
    requires Inv(s) && 1 <= g <= s.generation && s.active != g
    ensures After(s, more).active != g && g <= After(s, more).generation
  {
    if more != [] {
      LeftIsLeft(s, more[..|more| - 1], g);
      RunKeeps(s, more[..|more| - 1]);
      LeavingIsFinal(After(s, more[..|more| - 1]), more[|more| - 1], g);
    }
  }

  predicate PastFirstLook(o: Opener) {
    o.Cleared? || o.Registered? || o.Returned?
  }

  lemma FirstLookIsRemembered(s: State, step: Step, o: OpenerId)
    requires o in Next(s, step).openers && PastFirstLook(Next(s, step).openers[o])
    ensures
      var now := Next(s, step).openers[o];
      || (o in s.openers && PastFirstLook(s.openers[o]) && s.openers[o].generation == now.generation)
      || (step == CheckBefore(o) && s.active == now.generation)
  {
  }

  /** Whoever got past the first look, has a route or was handed a channel had found its generation active. */
  lemma {:induction false} FindFirstLook(steps: seq<Step>, o: OpenerId) returns (k: nat)
    requires o in After(START, steps).openers && PastFirstLook(After(START, steps).openers[o])
    ensures k < |steps| && steps[k] == CheckBefore(o)
    ensures After(START, steps[..k]).active == After(START, steps).openers[o].generation
  {
    var front := steps[..|steps| - 1];
    var before := After(START, front);
    FirstLookIsRemembered(before, steps[|steps| - 1], o);
    var now := After(START, steps).openers[o];
    if o in before.openers && PastFirstLook(before.openers[o]) && before.openers[o].generation == now.generation {
      k := FindFirstLook(front, o);
      assert front[..k] == steps[..k];
    } else {
      k := |front|;
    }
  }

  lemma {:induction false} FindReturn(steps: seq<Step>, o: OpenerId) returns (n: nat)
    requires o in After(START, steps).openers && After(START, steps).openers[o].Returned?
    ensures n < |steps| && steps[n] == CheckAfter(o)
    ensures var s := After(START, steps[..n]);
            && o in s.openers && s.openers[o].Registered?
            && s.active == s.openers[o].generation == After(START, steps).openers[o].generation
  {
    var front := steps[..|steps| - 1];
    var before := After(START, front);
    RunKeeps(START, front);
    if o in before.openers && before.openers[o].Returned? {
      ReturnedStays(before, steps[|steps| - 1], o);
      n := FindReturn(front, o);
      assert front[..n] == steps[..n];
    } else {
      ReturnedWhileActive(before, steps[|steps| - 1], o);
      n := |front|;
    }
  }

  lemma {:induction false} RunsCompose(s: State, steps: seq<Step>, more: seq<Step>)
    ensures After(s, steps + more) == After(After(s, steps), more)
  {
    if more == [] {
      assert steps + more == steps;
    } else {
      RunsCompose(s, steps, more[..|more| - 1]);
      assert (steps + more)[..|steps + more| - 1] == steps + more[..|more| - 1];
    }
  }

  lemma GenerationGrows(s: State, step: Step)
    ensures s.generation <= Next(s, step).generation
  {
  }

  lemma {:induction false} GenerationsGrow(s: State, more: seq<Step>)
    ensures s.generation <= After(s, more).generation
  {
    if more != [] {
      GenerationsGrow(s, more[..|more| - 1]);
      GenerationGrows(After(s, more[..|more| - 1]), more[|more| - 1]);
    }
  }

  /** The two looks of a returned channel enclose no gap: its generation was active from the one, through the
      registration, to the other, so the route was there before that generation could begin to fail. */
  lemma {:induction false} ReturnedWasActiveThroughout(steps: seq<Step>, o: OpenerId) returns (k: nat, n: nat)
    requires o in After(START, steps).openers && After(START, steps).openers[o].Returned?
    ensures k < n < |steps| && steps[k] == CheckBefore(o) && steps[n] == CheckAfter(o)
    ensures forall i :: k <= i <= n ==>
      After(START, steps[..i]).active == After(START, steps).openers[o].generation
  {
    var g := After(START, steps).openers[o].generation;
    n := FindReturn(steps, o);
    k := FindFirstLook(steps[..n], o);
    assert steps[..n][..k] == steps[..k];
    RunKeeps(START, steps);
    forall i | k <= i <= n
      ensures After(START, steps[..i]).active == g
    {
      StaysActiveBetween(steps, k, i, n, g);
    }
  }

  lemma {:induction false} StaysActiveBetween(steps: seq<Step>, k: nat, i: nat, n: nat, g: nat)
    requires k <= i <= n <= |steps| && g >= 1
    requires After(START, steps[..k]).active == g && After(START, steps[..n]).active == g
    ensures After(START, steps[..i]).active == g
  {
    RunKeeps(START, steps[..k]);
    RunKeeps(START, steps[..i]);
    assert steps[..i] == steps[..k] + steps[k..i] && steps[..n] == steps[..i] + steps[i..n];
    RunsCompose(START, steps[..k], steps[k..i]);
    RunsCompose(START, steps[..i], steps[i..n]);
    GenerationsGrow(After(START, steps[..k]), steps[k..i]);
    if After(START, steps[..i]).active != g {
      LeftIsLeft(After(START, steps[..i]), steps[i..n], g);
    }
  }

  lemma ReturnedStays(s: State, step: Step, o: OpenerId)
    requires o in s.openers && s.openers[o].Returned?
    ensures o in Next(s, step).openers
    ensures Next(s, step).openers[o] == if step == DropChannel(o) then Dropped else s.openers[o]
  {
  }

  /** From the moment the supervisor leaves a generation no channel is returned for it any more. */
  lemma {:induction false} NoReturnAfterTheEnd(s: State, more: seq<Step>, g: nat, o: OpenerId)
    requires Inv(s) && 1 <= g <= s.generation && s.active != g
    requires o in After(s, more).openers && After(s, more).openers[o].Returned?
    requires After(s, more).openers[o].generation == g
    ensures o in s.openers && s.openers[o] == After(s, more).openers[o]
  {
    if more != [] {
      var before, step := After(s, more[..|more| - 1]), more[|more| - 1];
      RunKeeps(s, more[..|more| - 1]);
      LeftIsLeft(s, more[..|more| - 1], g);
      if o in before.openers && before.openers[o].Returned? {
        ReturnedStays(before, step, o);
        NoReturnAfterTheEnd(s, more[..|more| - 1], g, o);
      } else {
        ReturnedWhileActive(before, step, o);
      }
    }
  }

  /** The steps that end the routing of a channel `c` returned to opener `o`. */
  predicate Cuts(s: State, step: Step, o: OpenerId, c: Opener)
    requires c.Returned?
  {
    match step
    case Register(p) => p in s.openers && s.openers[p].Cleared? && s.openers[p].session == c.session
    case RemoveRoute(session, token, _) => session == c.session && token == c.token
    case DropChannel(p) => p == o
    case BeginFail => s.phase.Withdrawn? && c.generation == s.generation
    case _ => false
  }

  /** A routed channel stops being routed exactly by those steps, and unless its own owner dropped it, it
      hears of it there and then or is on the list to be told of the loss. */
  lemma RouteEndsExactlyByCuts(s: State, step: Step, o: OpenerId)
    requires Inv(s) && o in s.openers && s.openers[o].Returned? && Routed(s, s.openers[o])
    ensures !Routed(Next(s, step), s.openers[o]) <==> Cuts(s, step, o, s.openers[o])
    ensures Cuts(s, step, o, s.openers[o]) && step != DropChannel(o) ==>
      || s.openers[o].token in Next(s, step).heard
      || (Next(s, step).phase.Notifying? && s.openers[o].token in Next(s, step).phase.left)
  {
    assert OpenerSound(s, s.openers[o]);
    match step {
      case Register(p) =>
        if p in s.openers && s.openers[p].Cleared? {
          assert Installed(s, p).entries[s.openers[p].session].token == s.lastToken + 1;
        }
      case CheckAfter(p) =>
        if p in s.openers && s.openers[p].Registered? {
          assert s.openers[p].token != s.openers[o].token;
        }
      case DropChannel(p) =>
        if p in s.openers && s.openers[p].Returned? && p != o {
          assert s.openers[p].token != s.openers[o].token;
        }
      case _ =>
    }
  }

  // ---- Which channels hear of the loss ----

  /** A token means one route: only its session can be routed under it, only with its generation, and only
      that generation's failure can reach it. */
  ghost predicate Tagged(s: State, session: Session, g: nat, token: Token) {
    && token <= s.lastToken
    && (forall a :: a in s.entries && s.entries[a].token == token ==> a == session && s.entries[a].generation == g)
    && (token in s.heard && s.heard[token] == Lost ==> Severed(s, g))
    && (s.phase.Notifying? && token in s.phase.left ==> s.generation == g)
  }

  lemma TagStep(s: State, step: Step, session: Session, g: nat, token: Token)
    requires Tagged(s, session, g, token) && 1 <= g <= s.generation
    ensures Tagged(Next(s, step), session, g, token) && g <= Next(s, step).generation
  {
  }

  lemma {:induction false} TagRun(s: State, more: seq<Step>, session: Session, g: nat, token: Token)
    requires Tagged(s, session, g, token) && 1 <= g <= s.generation
    ensures Tagged(After(s, more), session, g, token) && g <= After(s, more).generation
  {
    if more != [] {
      TagRun(s, more[..|more| - 1], session, g, token);
      TagStep(After(s, more[..|more| - 1]), more[|more| - 1], session, g, token);
    }
  }

  lemma TagBegins(s: State, o: OpenerId)
    requires TokensSound(s) && o in s.openers && s.openers[o].Cleared?
    ensures Tagged(Installed(s, o), s.openers[o].session, s.openers[o].generation, s.lastToken + 1)
  {
  }

  ghost predicate AllTagged(s: State) {
    forall o :: o in s.openers && HasToken(s.openers[o]) ==>
      Tagged(s, s.openers[o].session, s.openers[o].generation, s.openers[o].token)
  }

  lemma TokenIsKept(s: State, step: Step, o: OpenerId)
    requires o in Next(s, step).openers && HasToken(Next(s, step).openers[o])
    ensures
      var now := Next(s, step).openers[o];
      || (step == Register(o) && o in s.openers && s.openers[o].Cleared?)
      || (&& o in s.openers && HasToken(s.openers[o])
          && s.openers[o].session == now.session && s.openers[o].generation == now.generation
          && s.openers[o].token == now.token)
  {
  }

  lemma {:induction false} RunTags(steps: seq<Step>)
    ensures AllTagged(After(START, steps))
  {
    if steps != [] {
      var before, step := After(START, steps[..|steps| - 1]), steps[|steps| - 1];
      RunTags(steps[..|steps| - 1]);
      RunKeeps(START, steps[..|steps| - 1]);
      TokensStaySound(START, steps[..|steps| - 1]);
      forall o | o in Next(before, step).openers && HasToken(Next(before, step).openers[o])
        ensures
          var now := Next(before, step).openers[o];
          Tagged(Next(before, step), now.session, now.generation, now.token)
      {
        TokenIsKept(before, step, o);
        if step == Register(o) && before.openers[o].Cleared? {
          TagBegins(before, o);
        } else {
          assert OpenerSound(before, before.openers[o]);
          TagStep(before, step, before.openers[o].session, before.openers[o].generation, before.openers[o].token);
        }
      }
    }
  }

  /** The state before step `k` of a run. */
  function At(steps: seq<Step>, k: nat): State
    requires k <= |steps|
  {
    After(START, steps[..k])
  }

  lemma Onward(steps: seq<Step>, i: nat, k: nat)
    requires i <= k <= |steps|
    ensures At(steps, k) == After(At(steps, i), steps[i..k])
  {
    RunsCompose(START, steps[..i], steps[i..k]);
    assert steps[..i] + steps[i..k] == steps[..k];
  }

  /** The step at which generation `g` begins to fail. */
  predicate FailsAt(steps: seq<Step>, k: nat, g: nat) {
    k < |steps| && steps[k] == BeginFail && At(steps, k).phase.Withdrawn? && At(steps, k).generation == g
  }

  lemma SeveredByFailure(s: State, step: Step, g: nat)
    requires !Severed(s, g) && Severed(Next(s, step), g) && g <= s.generation
    ensures step == BeginFail && s.phase.Withdrawn? && s.generation == g
  {
  }

  lemma {:induction false} FindFailure(steps: seq<Step>, g: nat) returns (k: nat)
    requires Severed(After(START, steps), g)
    ensures FailsAt(steps, k, g)
  {
    var front := steps[..|steps| - 1];
    if Severed(After(START, front), g) {
      k := FindFailure(front, g);
      assert front[..k] == steps[..k];
    } else {
      k := |front|;
      SeveredByFailure(After(START, front), steps[k], g);
    }
  }

  /** No route and no pending notice bears the token, and it has not been told of a loss. */
  ghost predicate OutOfReach(s: State, token: Token) {
    && token <= s.lastToken
    && (forall a :: a in s.entries ==> s.entries[a].token != token)
    && !(s.phase.Notifying? && token in s.phase.left)
    && !(token in s.heard && s.heard[token] == Lost)
  }

  lemma OutOfReachStep(s: State, step: Step, token: Token)
    requires OutOfReach(s, token)
    ensures OutOfReach(Next(s, step), token)
  {
  }

  lemma {:induction false} OutOfReachRun(s: State, more: seq<Step>, token: Token)
    requires OutOfReach(s, token)
    ensures OutOfReach(After(s, more), token)
  {
    if more != [] {
      OutOfReachRun(s, more[..|more| - 1], token);
      OutOfReachStep(After(s, more[..|more| - 1]), more[|more| - 1], token);
    }
  }

  /** Whenever a channel is returned, its token means its route when its generation begins to fail. */
  lemma TaggedAtFailure(steps: seq<Step>, i: nat, o: OpenerId, k: nat)
    requires i <= |steps| && o in At(steps, i).openers && At(steps, i).openers[o].Returned?
    requires FailsAt(steps, k, At(steps, i).openers[o].generation)
    ensures var c := At(steps, i).openers[o];
            Tagged(At(steps, k), c.session, c.generation, c.token)
  {
    var c := At(steps, i).openers[o];
    if i <= k {
      TaggedOnward(steps, i, o, k);
    } else {
      RunKeeps(START, steps[..i]);
      RunKeeps(START, steps[..k]);
      RunTags(steps[..k]);
      assert OpenerSound(At(steps, i), c);
      Onward(steps, k, i);
      NoReturnAfterTheEnd(At(steps, k), steps[k..i], c.generation, o);
    }
  }

  lemma FailureDecides(s: State, more: seq<Step>, c: Opener)
    requires TokensSound(s) && s.phase.Withdrawn? && c.Returned? && c.generation == s.generation
    requires Tagged(s, c.session, c.generation, c.token)
    requires Ended(After(Next(s, BeginFail), more), c.generation)
    ensures var heard := After(Next(s, BeginFail), more).heard;
            c.token in heard && heard[c.token] == Lost <==> Routed(s, c)
  {
    if Routed(s, c) {
      TokenStepKeeps(s, BeginFail);
      assert s.entries[c.session].token in Failing(s.entries, s.generation);
      LossRunKeeps(Next(s, BeginFail), more, c.generation, c.token);
    } else {
      OutOfReachStep(s, BeginFail, c.token);
      OutOfReachRun(Next(s, BeginFail), more, c.token);
    }
  }

  /** In every run in which the generation of a returned channel has ended, the channel has heard of the loss
      if and only if it was still routed when that generation began to fail, at step `k`. */
  lemma LossHeardExactlyWhenRouted(steps: seq<Step>, i: nat, o: OpenerId) returns (k: nat)
    requires i <= |steps| && o in At(steps, i).openers && At(steps, i).openers[o].Returned?
    requires Ended(After(START, steps), At(steps, i).openers[o].generation)
    ensures FailsAt(steps, k, At(steps, i).openers[o].generation)
    ensures var c := At(steps, i).openers[o];
            var heard := After(START, steps).heard;
            c.token in heard && heard[c.token] == Lost <==> Routed(At(steps, k), c)
  {
    var c := At(steps, i).openers[o];
    k := FindFailure(steps, c.generation);
    TaggedAtFailure(steps, i, o, k);
    var s := At(steps, k);
    var failing := Next(s, BeginFail);
    assert steps[..k + 1][..k] == steps[..k] && steps[..|steps|] == steps;
    assert At(steps, k + 1) == failing;
    Onward(steps, k + 1, |steps|);
    TokensStaySound(START, steps[..k]);
    FailureDecides(s, steps[k + 1..], c);
  }

  lemma UnroutedStays(s: State, step: Step, c: Opener)
    requires c.Returned? && Tagged(s, c.session, c.generation, c.token) && !Routed(s, c)
    ensures !Routed(Next(s, step), c)
  {
  }

  /** `c` is routed, and then it is still the channel of `o`. */
  predicate Connected(s: State, o: OpenerId, c: Opener)
    requires c.Returned?
  {
    Routed(s, c) && o in s.openers && s.openers[o] == c
  }

  lemma ConnectedUntilCut(s: State, step: Step, o: OpenerId, c: Opener)
    requires Inv(s) && c.Returned? && Tagged(s, c.session, c.generation, c.token)
    requires Routed(s, c) ==> Connected(s, o, c)
    ensures Routed(Next(s, step), c) <==> Routed(s, c) && !Cuts(s, step, o, c)
    ensures Routed(Next(s, step), c) ==> Connected(Next(s, step), o, c)
  {
    if Routed(s, c) {
      RouteEndsExactlyByCuts(s, step, o);
      ReturnedStays(s, step, o);
    } else {
      UnroutedStays(s, step, c);
    }
  }

  lemma TaggedOnward(steps: seq<Step>, i: nat, o: OpenerId, k: nat)
    requires i <= k <= |steps| && o in At(steps, i).openers && At(steps, i).openers[o].Returned?
    ensures var c := At(steps, i).openers[o];
            Tagged(At(steps, k), c.session, c.generation, c.token)
  {
    var c := At(steps, i).openers[o];
    RunKeeps(START, steps[..i]);
    RunTags(steps[..i]);
    assert OpenerSound(At(steps, i), c);
    Onward(steps, i, k);
    TagRun(At(steps, i), steps[i..k], c.session, c.generation, c.token);
  }

  /** A returned channel is routed later on if and only if it was routed at first and no cut came between. */
  lemma {:induction false} RoutedUntilCut(steps: seq<Step>, i: nat, o: OpenerId, k: nat)
    requires i <= k <= |steps| && o in At(steps, i).openers && At(steps, i).openers[o].Returned?
    ensures var c := At(steps, i).openers[o];
            && (Routed(At(steps, k), c) <==>
                  Routed(At(steps, i), c) && forall j :: i <= j < k ==> !Cuts(At(steps, j), steps[j], o, c))
            && (Routed(At(steps, k), c) ==> Connected(At(steps, k), o, c))
    decreases k
  {
    if i < k {
      RoutedUntilCut(steps, i, o, k - 1);
      assert steps[..k][..k - 1] == steps[..k - 1];
      RunKeeps(START, steps[..k - 1]);
      TaggedOnward(steps, i, o, k - 1);
      ConnectedUntilCut(At(steps, k - 1), steps[k - 1], o, At(steps, i).openers[o]);
    }
  }

  lemma UnusedStays(s: State, step: Step, token: Token)
    requires token <= s.lastToken && forall a :: a in s.entries ==> s.entries[a].token != token
    ensures token <= Next(s, step).lastToken
    ensures forall a :: a in Next(s, step).entries ==> Next(s, step).entries[a].token != token
  {
  }

  lemma {:induction false} UnusedForGood(s: State, more: seq<Step>, token: Token)
    requires token <= s.lastToken && forall a :: a in s.entries ==> s.entries[a].token != token
    ensures token <= After(s, more).lastToken
    ensures forall a :: a in After(s, more).entries ==> After(s, more).entries[a].token != token
  {
    if more != [] {
      UnusedForGood(s, more[..|more| - 1], token);
      UnusedStays(After(s, more[..|more| - 1]), more[|more| - 1], token);
    }
  }

  /** An opener that registered too late leaves no route behind: from its second look on, its token routes
      nothing any more. */
  lemma TurnedAwayLeavesNoRoute(steps: seq<Step>, o: OpenerId, more: seq<Step>)
    requires var s := After(START, steps);
             o in s.openers && s.openers[o].Registered? && s.active != s.openers[o].generation
    ensures var s := After(START, steps);
            var t := Next(s, CheckAfter(o));
            && t.openers[o].TurnedAway?
            && forall a :: a in After(t, more).entries ==> After(t, more).entries[a].token != s.openers[o].token
  {
    var s := After(START, steps);
    RunTags(steps);
    var me := s.openers[o];
    assert Tagged(s, me.session, me.generation, me.token);
    UnusedForGood(Next(s, CheckAfter(o)), more, me.token);
  }

  /** What a cut tells the channel there and then. */
  lemma CutIsHeard(s: State, step: Step, o: OpenerId)
    requires Inv(s) && TokensSound(s) && o in s.openers && s.openers[o].Returned? && Routed(s, s.openers[o])
    requires Cuts(s, step, o, s.openers[o]) && (step.Register? || step.RemoveRoute?)
    ensures var heard := Next(s, step).heard;
            && s.openers[o].token in heard
            && heard[s.openers[o].token] ==
                 if step.RemoveRoute? && step.overflowed then Overflowed else Cut
  {
  }

  /** The first notice is the one that counts: what a channel has heard never changes. */
  lemma {:induction false} HeardIsFinal(s: State, more: seq<Step>, token: Token)
    requires token in s.heard
    ensures token in After(s, more).heard && After(s, more).heard[token] == s.heard[token]
  {
    if more != [] {
      HeardIsFinal(s, more[..|more| - 1], token);
      HeardStays(After(s, more[..|more| - 1]), more[|more| - 1], token);
    }
  }

  lemma HeardStays(s: State, step: Step, token: Token)
    requires token in s.heard
    ensures token in Next(s, step).heard && Next(s, step).heard[token] == s.heard[token]
  {
  }

  ghost predicate Reachable(s: State) {
    exists steps :: After(START, steps) == s
  }

  lemma Reach(s: State, step: Step, t: State)
    requires Reachable(s) && t == Next(s, step)
    ensures Reachable(t)
  {
    var steps :| After(START, steps) == s;
    assert (steps + [step])[..|steps + [step]| - 1] == steps;
    assert After(START, steps + [step]) == t;
  }

  const STALE := map[0 := Cleared("session", 1)]

  /** An opener may read a connection that is published and no longer active. */
  lemma OpenerReadsDeadConnection()
    ensures Reachable(State(Deactivated, 1, 0, Some(1), map[], 0, map[0 := Holding("session", 1)], map[]))
  {
    assert After(START, []) == START;
    var a := State(Activated, 1, 1, None, map[], 0, map[], map[]);
    var b := State(Serving, 1, 1, Some(1), map[], 0, map[], map[]);
    var c := State(Deactivated, 1, 0, Some(1), map[], 0, map[], map[]);
    Reach(START, Activate, a);
    Reach(a, Publish, b);
    Reach(b, Deactivate, c);
    Reach(c, ReadCurrent(0, "session"), c.(openers := map[0 := Holding("session", 1)]));
  }

  /** An opener may be past its first check ... */
  lemma OpenerPastFirstCheck()
    ensures Reachable(State(Serving, 1, 1, Some(1), map[], 0, STALE, map[]))
  {
    assert After(START, []) == START;
    var a := State(Activated, 1, 1, None, map[], 0, map[], map[]);
    var b := State(Serving, 1, 1, Some(1), map[], 0, map[], map[]);
    var c := b.(openers := map[0 := Holding("session", 1)]);
    Reach(START, Activate, a);
    Reach(a, Publish, b);
    Reach(b, ReadCurrent(0, "session"), c);
    Reach(c, CheckBefore(0), b.(openers := STALE));
  }

  /** ... when its generation is replaced ... */
  lemma OpenerOutlivesGeneration()
    ensures Reachable(State(Idle, 1, 0, None, map[], 0, STALE, map[]))
  {
    OpenerPastFirstCheck();
    var a := State(Deactivated, 1, 0, Some(1), map[], 0, STALE, map[]);
    var b := State(Withdrawn, 1, 0, None, map[], 0, STALE, map[]);
    var c := State(Notifying({}), 1, 0, None, map[], 0, STALE, map[]);
    assert Failing(b.entries, 1) == {} && Surviving(b.entries, 1) == map[];
    Reach(State(Serving, 1, 1, Some(1), map[], 0, STALE, map[]), Deactivate, a);
    Reach(a, Withdraw, b);
    Reach(b, BeginFail, c);
    Reach(c, EndFail, c.(phase := Idle));
  }

  /** ... and the next one serves the same session. */
  lemma NextGenerationServes()
    ensures Reachable(State(Serving, 2, 2, Some(2), map[], 0, STALE[1 := Cleared("session", 2)], map[]))
  {
    OpenerOutlivesGeneration();
    var a := State(Activated, 2, 2, None, map[], 0, STALE, map[]);
    var b := State(Serving, 2, 2, Some(2), map[], 0, STALE, map[]);
    var c := b.(openers := STALE[1 := Holding("session", 2)]);
    Reach(State(Idle, 1, 0, None, map[], 0, STALE, map[]), Activate, a);
    Reach(a, Publish, b);
    Reach(b, ReadCurrent(1, "session"), c);
    Reach(c, CheckBefore(1), b.(openers := STALE[1 := Cleared("session", 2)]));
  }

  const LIVE := State(Serving, 2, 2, Some(2), map["session" := Entry(2, 1)], 1,
                      STALE[1 := Returned("session", 2, 1)], map[])

  lemma LiveIsReachable()
    ensures Reachable(LIVE)
  {
    NextGenerationServes();
    var a := LIVE.(openers := STALE[1 := Registered("session", 2, 1)]);
    Reach(State(Serving, 2, 2, Some(2), map[], 0, STALE[1 := Cleared("session", 2)], map[]), Register(1), a);
    Reach(a, CheckAfter(1), LIVE);
  }

  /** An opener left over from an earlier generation cuts the live channel of a later one: its late
      registration displaces the newer route before the second check turns it away. */
  lemma StaleOpenerCuts(s: State, o: OpenerId, stale: OpenerId)
    requires o in s.openers && s.openers[o].Returned? && Routed(s, s.openers[o])
    requires s.openers[o].token <= s.lastToken && s.openers[o].generation == s.active
    requires stale in s.openers && s.openers[stale].Cleared? && s.openers[stale].generation != s.active
    requires s.openers[stale].session == s.openers[o].session
    ensures var t := Next(Next(s, Register(stale)), CheckAfter(stale));
            && t.active == s.active && stale in t.openers && t.openers[stale].TurnedAway?
            && o in t.openers && t.openers[o] == s.openers[o] && !Routed(t, t.openers[o])
            && s.openers[o].token in t.heard
            && (s.openers[o].token !in s.heard ==> t.heard[s.openers[o].token] == Cut)
  {
    var u := Installed(s, stale);
    assert u.openers[stale] == Registered(s.openers[stale].session, s.openers[stale].generation, s.lastToken + 1);
    assert Next(u, CheckAfter(stale)) == Rechecked(u, stale);
  }

  lemma StaleOpenerCutsLiveChannel() returns (s: State)
    ensures Reachable(s) && s.active == 2
    ensures 1 in s.openers && s.openers[1] == Returned("session", 2, 1) && !Routed(s, s.openers[1])
    ensures 1 in s.heard && s.heard[1] == Cut && 0 in s.openers && s.openers[0].TurnedAway?
  {
    LiveIsReachable();
    s := Next(Next(LIVE, Register(0)), CheckAfter(0));
    Reach(LIVE, Register(0), Next(LIVE, Register(0)));
    Reach(Next(LIVE, Register(0)), CheckAfter(0), s);
    StaleOpenerCuts(LIVE, 1, 0);
  }
}
