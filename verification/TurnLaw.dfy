/** What a session actor may do with prompts, stated over the history of its turns.

    `Lawful` says of each event that what came before permits it; the lemmas at the end read the turn's
    promises off a lawful history of any length. */
module TurnLaw {
  import opened Basics

  type Channel = nat
  type RequestId = nat
  type Operation = nat

  datatype Stop = EndTurn | Cancelled | OtherStop

  /** How the provider answered: with a stop reason, with an error, or with something undecodable. */
  datatype Answer = Good(stop: Stop) | RequestFailed | Undecodable

  /** An answer that proves the provider is done with the prompt. */
  predicate Terminal(a: Answer) {
    !a.Undecodable?
  }

  datatype Cause = Settled | UserStopped | InactivityTimeout | StreamDropped | SessionCrashed | Unattributed

  datatype Event =
    | Attached(channel: Channel)
    | TurnBegan(op: Operation)
    | Prompted
    | Sent(id: RequestId, channel: Channel)
    | Answered(id: RequestId, answer: Answer, inLoop: bool)
    | Caused(cause: Cause)
    | TurnEnded(stop: Stop)
    | Receipt(op: Operation, ok: bool)
    | Kept(channel: Channel)
    | Isolated

  datatype Trace = Empty | Then(before: Trace, event: Event)

  function Events(t: Trace): seq<Event> {
    match t
    case Empty => []
    case Then(before, e) => Events(before) + [e]
  }

  datatype Wire = Wire(id: RequestId, channel: Channel)

  /** `turn` holds what the current turn has done; `owed` are prompts sent and not answered, ever. */
  datatype Turn = Turn(
    op: Operation,
    prompted: bool,
    last: Option<Wire>,
    answer: Option<Answer>,
    inLoop: bool,
    cause: Option<Cause>,
    ended: bool)

  datatype Digest = Digest(
    turn: Option<Turn>,
    owed: set<Wire>,
    nextId: RequestId,
    channel: Option<Channel>,
    nextChannel: Channel,
    prompts: set<Operation>,
    loads: set<Operation>,
    confirmed: set<Operation>)

  function Know(t: Trace): Digest {
    match t
    case Empty => Digest(None, {}, 0, None, 0, {}, {}, {})
    case Then(before, e) => Advance(Know(before), e)
  }

  function Without(owed: set<Wire>, id: RequestId): set<Wire> {
    set w | w in owed && w.id != id
  }

  function InTurn(d: Digest, turn: Turn): Digest {
    d.(turn := Some(turn))
  }

  function Advance(d: Digest, e: Event): Digest {
    match e
    case Attached(c) => d.(channel := Some(c), nextChannel := c + 1)
    case TurnBegan(op) =>
      d.(turn := Some(Turn(op, false, None, None, false, None, false)), prompts := d.prompts + {op})
    case Kept(c) => d.(channel := Some(c))
    case Isolated => d.(channel := None)
    case Receipt(op, _) => if op in d.prompts then d else d.(loads := d.loads + {op})
    case _ => if d.turn.None? then d else AdvanceTurn(d, d.turn.value, e)
  }

  function AdvanceTurn(d: Digest, turn: Turn, e: Event): Digest {
    match e
    case Prompted => InTurn(d, turn.(prompted := true))
    case Sent(id, c) =>
      InTurn(d, turn.(last := Some(Wire(id, c)), answer := None)).(owed := d.owed + {Wire(id, c)}, nextId := id + 1)
    case Answered(id, a, inLoop) =>
      InTurn(d, turn.(answer := Some(a), inLoop := inLoop))
      .(owed := Without(d.owed, id), confirmed := if Terminal(a) then d.confirmed + {turn.op} else d.confirmed)
    case Caused(c) => InTurn(d, turn.(cause := Some(c)))
    case TurnEnded(_) => InTurn(d, turn.(ended := true))
    case _ => d
  }

  /** Nothing sent on the channel still awaits its answer. */
  ghost predicate Idle(d: Digest, c: Channel) {
    forall w :: w in d.owed ==> w.channel != c
  }

  /** The turn has its cause and, if its prompt was recorded, its end. */
  predicate Finished(d: Digest) {
    d.turn.Some? ==> d.turn.value.cause.Some? && (d.turn.value.prompted ==> d.turn.value.ended)
  }

  /** The answer the prompt loop itself consumed. */
  predicate SettledInLoop(turn: Turn) {
    turn.answer.Some? && turn.answer.value.Good? && turn.inLoop
  }

  function StopFor(turn: Turn): Stop {
    if SettledInLoop(turn) then turn.answer.value.stop else Cancelled
  }

  ghost predicate Allowed(d: Digest, e: Event) {
    match e
    case Attached(c) => d.channel.None? && c >= d.nextChannel && Finished(d)
    case TurnBegan(op) => Finished(d) && op !in d.prompts && op !in d.loads
    case Prompted => d.turn.Some? && !d.turn.value.prompted && d.turn.value.cause.None?
    case Sent(id, c) =>
      && d.turn.Some? && d.turn.value.prompted && d.turn.value.cause.None? && !d.turn.value.ended
      && id >= d.nextId && Idle(d, c)
      && (d.turn.value.last.Some? ==> d.turn.value.answer == Some(Good(Cancelled)))
    case Answered(id, _, _) =>
      d.turn.Some? && d.turn.value.last.Some? && d.turn.value.last.value.id == id && d.turn.value.answer.None?
    case Caused(c) =>
      d.turn.Some? && d.turn.value.cause.None? && (c.Settled? <==> SettledInLoop(d.turn.value))
    case TurnEnded(stop) =>
      && d.turn.Some? && d.turn.value.prompted && !d.turn.value.ended && d.turn.value.cause.Some?
      && stop == if d.turn.value.cause.value.Settled? then StopFor(d.turn.value) else Cancelled
    case Receipt(op, ok) => ok && op in d.prompts ==> op in d.confirmed
    case Kept(c) => c < d.nextChannel && Idle(d, c)
    case Isolated => true
  }

  ghost predicate Lawful(t: Trace) {
    t.Then? ==> Lawful(t.before) && Allowed(Know(t.before), t.event)
  }

  // ---- Promises read off a lawful history ----

  lemma {:induction false} LawfulAt(t: Trace, i: nat) returns (before: Trace)
    requires Lawful(t) && i < |Events(t)|
    ensures Events(before) == Events(t)[..i] && Lawful(before) && Allowed(Know(before), Events(t)[i])
  {
    if i == |Events(t)| - 1 {
      before := t.before;
    } else {
      before := LawfulAt(t.before, i);
    }
  }

  /** A prompt that was sent stays owed until it is answered. */
  lemma {:induction false} OwedUntilAnswered(t: Trace, i: nat) returns (k: nat)
    requires Lawful(t) && i < |Events(t)| && Events(t)[i].Sent?
    requires Wire(Events(t)[i].id, Events(t)[i].channel) !in Know(t).owed
    ensures i < k < |Events(t)| && Events(t)[k].Answered? && Events(t)[k].id == Events(t)[i].id
  {
    if t.event.Answered? && t.event.id == Events(t)[i].id {
      k := |Events(t)| - 1;
    } else {
      k := OwedUntilAnswered(t.before, i);
    }
  }

  /** One outstanding prompt per channel: between two prompts sent on a channel, ever, the first was
      answered. */
  lemma {:induction false} OneOutstandingPrompt(t: Trace, i: nat, j: nat) returns (k: nat)
    requires Lawful(t) && i < j < |Events(t)| && Events(t)[i].Sent? && Events(t)[j].Sent?
    requires Events(t)[i].channel == Events(t)[j].channel
    ensures i < k < j && Events(t)[k].Answered? && Events(t)[k].id == Events(t)[i].id
  {
    var before := LawfulAt(t, j);
    k := OwedUntilAnswered(before, i);
  }

  /** No turn boundary in `lo..`. */
  ghost predicate SameTurn(t: Trace, lo: nat) {
    forall n :: lo <= n < |Events(t)| ==> !Events(t)[n].TurnBegan?
  }

  /** What the turn knows about its last prompt is what happened since. */
  lemma {:induction false} FindAnswer(t: Trace, i: nat) returns (k: nat)
    requires Lawful(t) && i < |Events(t)| && Events(t)[i].Sent? && SameTurn(t, i + 1)
    requires forall n :: i < n < |Events(t)| ==> !Events(t)[n].Sent?
    requires Know(t).turn.Some? && Know(t).turn.value.answer.Some?
    ensures i < k < |Events(t)| && Events(t)[k].Answered? && Events(t)[k].id == Events(t)[i].id
    ensures Events(t)[k].answer == Know(t).turn.value.answer.value
  {
    assert i < |Events(t)| - 1;
    forall n | i + 1 <= n < |Events(t.before)|
      ensures !Events(t.before)[n].TurnBegan? && !Events(t.before)[n].Sent?
    {
      assert Events(t)[n] == Events(t.before)[n];
    }
    assert t.event == Events(t)[|Events(t)| - 1];
    if t.event.Answered? {
      k := |Events(t)| - 1;
      LastSent(t.before, i);
    } else {
      k := FindAnswer(t.before, i);
    }
  }

  lemma {:induction false} LastSent(t: Trace, i: nat)
    requires Lawful(t) && i < |Events(t)| && Events(t)[i].Sent? && SameTurn(t, i + 1)
    requires forall n :: i < n < |Events(t)| ==> !Events(t)[n].Sent?
    ensures Know(t).turn.Some? && Know(t).turn.value.last == Some(Wire(Events(t)[i].id, Events(t)[i].channel))
  {
    if i < |Events(t)| - 1 {
      forall n | i + 1 <= n < |Events(t.before)|
        ensures !Events(t.before)[n].TurnBegan? && !Events(t.before)[n].Sent?
      {
        assert Events(t)[n] == Events(t.before)[n];
      }
      assert !t.event.TurnBegan? && !t.event.Sent? by {
        assert Events(t)[|Events(t)| - 1] == t.event;
      }
      LastSent(t.before, i);
    }
  }

  /** A retry follows only a confirmed cancellation: two consecutive prompts of one turn have the first
      one's answer between them, and it says Cancelled. */
  lemma {:induction false} RetryFollowsCancelled(t: Trace, i: nat, j: nat) returns (k: nat)
    requires Lawful(t) && i < j < |Events(t)| && Events(t)[i].Sent? && Events(t)[j].Sent?
    requires forall n :: i < n < j ==> !Events(t)[n].Sent? && !Events(t)[n].TurnBegan?
    ensures i < k < j && Events(t)[k].Answered? && Events(t)[k].id == Events(t)[i].id
    ensures Events(t)[k].answer == Good(Cancelled)
  {
    var before := LawfulAt(t, j);
    LastSent(before, i);
    k := FindAnswer(before, i);
  }

  predicate AlreadyHad(turn: Turn, e: Event) {
    match e
    case Caused(_) => turn.cause.Some?
    case TurnEnded(_) => turn.ended
    case Prompted => turn.prompted
    case _ => false
  }

  /** The events a turn has at most one of. */
  predicate SameKind(a: Event, b: Event) {
    (a.Caused? && b.Caused?) || (a.TurnEnded? && b.TurnEnded?) || (a.Prompted? && b.Prompted?)
  }

  lemma {:induction false} OnceHadStays(t: Trace, i: nat, e: Event)
    requires Lawful(t) && i < |Events(t)| && SameKind(Events(t)[i], e) && SameTurn(t, i + 1)
    ensures Know(t).turn.Some? && AlreadyHad(Know(t).turn.value, e)
  {
    if i < |Events(t)| - 1 {
      forall n | i + 1 <= n < |Events(t.before)|
        ensures !Events(t.before)[n].TurnBegan?
      {
        assert Events(t)[n] == Events(t.before)[n];
      }
      assert !t.event.TurnBegan? by {
        assert Events(t)[|Events(t)| - 1] == t.event;
      }
      OnceHadStays(t.before, i, e);
    }
  }

  /** Every turn has at most one cause, at most one recorded prompt and at most one recorded end. */
  lemma {:induction false} AtMostOncePerTurn(t: Trace, i: nat, j: nat) returns (k: nat)
    requires Lawful(t) && i < j < |Events(t)| && SameKind(Events(t)[i], Events(t)[j])
    ensures i < k < j && Events(t)[k].TurnBegan?
  {
    var before := LawfulAt(t, j);
    if SameTurn(before, i + 1) {
      OnceHadStays(before, i, Events(t)[j]);
      assert false;
    } else {
      k :| i + 1 <= k < |Events(before)| && Events(before)[k].TurnBegan?;
    }
  }

  lemma {:induction false} FindSingular(t: Trace, i: nat, e: Event) returns (k: nat)
    requires Lawful(t) && i < |Events(t)| && Events(t)[i].TurnBegan? && SameTurn(t, i + 1)
    requires Know(t).turn.Some? && AlreadyHad(Know(t).turn.value, e)
    ensures i < k < |Events(t)| && SameKind(Events(t)[k], e)
  {
    if SameKind(t.event, e) {
      k := |Events(t)| - 1;
    } else {
      forall n | i + 1 <= n < |Events(t.before)|
        ensures !Events(t.before)[n].TurnBegan?
      {
        assert Events(t)[n] == Events(t.before)[n];
      }
      k := FindSingular(t.before, i, e);
    }
  }

  lemma {:induction false} EndHasCause(t: Trace, i: nat, k: nat) returns (cause: nat)
    requires Lawful(t) && i < k < |Events(t)| && Events(t)[i].TurnBegan? && SameTurn(t, i + 1)
    requires Events(t)[k].TurnEnded?
    ensures i < cause < k && Events(t)[cause].Caused?
  {
    var before := LawfulAt(t, k);
    forall n | 0 <= n < k
      ensures Events(before)[n] == Events(t)[n]
    {
    }
    cause := FindSingular(before, i, Caused(Settled));
  }

  /** The last turn, once it is over, has a cause, and then, if its prompt was recorded, a recorded end. */
  lemma {:induction false} FinishedTurnHasCauseAndEnd(t: Trace, i: nat) returns (cause: nat, end: Option<nat>)
    requires Lawful(t) && Finished(Know(t)) && i < |Events(t)| && Events(t)[i].TurnBegan? && SameTurn(t, i + 1)
    ensures i < cause < |Events(t)| && Events(t)[cause].Caused?
    ensures end.Some? ==> cause < end.value < |Events(t)| && Events(t)[end.value].TurnEnded?
    ensures end.None? ==> forall n :: i < n < |Events(t)| ==> !Events(t)[n].Prompted?
  {
    TurnIsKnown(t, i);
    if Know(t).turn.value.prompted {
      var k := FindSingular(t, i, TurnEnded(Cancelled));
      cause := EndHasCause(t, i, k);
      end := Some(k);
    } else {
      cause := FindSingular(t, i, Caused(Settled));
      end := None;
      forall n | i < n < |Events(t)|
        ensures !Events(t)[n].Prompted?
      {
        if Events(t)[n].Prompted? {
          OnceHadStays(t, n, Prompted);
        }
      }
    }
  }

  /** The same for every turn of a history: a turn that another one follows, or that is over at the end, has
      its cause, and its end if its prompt was recorded, before anything of the next turn. */
  lemma {:induction false} EveryTurnHasCauseAndEnd(t: Trace, i: nat, j: nat) returns (cause: nat, end: Option<nat>)
    requires Lawful(t) && i < j <= |Events(t)| && Events(t)[i].TurnBegan?
    requires forall n :: i < n < j ==> !Events(t)[n].TurnBegan?
    requires if j < |Events(t)| then Events(t)[j].TurnBegan? else Finished(Know(t))
    ensures i < cause < j && Events(t)[cause].Caused?
    ensures end.Some? ==> cause < end.value < j && Events(t)[end.value].TurnEnded?
    ensures end.None? ==> forall n :: i < n < j ==> !Events(t)[n].Prompted?
  {
    var before := t;
    if j < |Events(t)| {
      before := LawfulAt(t, j);
      forall n | 0 <= n < j
        ensures Events(before)[n] == Events(t)[n]
      {
      }
    }
    cause, end := FinishedTurnHasCauseAndEnd(before, i);
  }

  lemma {:induction false} TurnIsKnown(t: Trace, i: nat)
    requires i < |Events(t)| && Events(t)[i].TurnBegan?
    ensures Know(t).turn.Some?
  {
    if i < |Events(t)| - 1 {
      TurnIsKnown(t.before, i);
    }
  }

  lemma {:induction false} FindConfirmation(t: Trace, op: Operation) returns (b: nat, k: nat)
    requires Lawful(t) && op in Know(t).confirmed
    ensures b < k < |Events(t)| && Events(t)[b] == TurnBegan(op)
    ensures Events(t)[k].Answered? && Terminal(Events(t)[k].answer)
    ensures forall n :: b < n < k ==> !Events(t)[n].TurnBegan?
  {
    if op in Know(t.before).confirmed {
      b, k := FindConfirmation(t.before, op);
    } else {
      k := |Events(t)| - 1;
      b := FindTurn(t.before);
    }
  }

  lemma {:induction false} FindTurn(t: Trace) returns (b: nat)
    requires Know(t).turn.Some?
    ensures b < |Events(t)| && Events(t)[b] == TurnBegan(Know(t).turn.value.op) && SameTurn(t, b + 1)
  {
    if t.event.TurnBegan? {
      b := |Events(t)| - 1;
    } else {
      b := FindTurn(t.before);
    }
  }

  /** A prompt's receipt is Ok only after, within that prompt's own turn, the provider's terminal answer
      arrived. */
  lemma {:induction false} ReceiptIsHonest(t: Trace, i: nat, n: nat) returns (b: nat, k: nat)
    requires Lawful(t) && n < i < |Events(t)| && Events(t)[i].Receipt? && Events(t)[i].ok
    requires Events(t)[n] == TurnBegan(Events(t)[i].op)
    ensures b < k < i && Events(t)[b] == TurnBegan(Events(t)[i].op)
    ensures Events(t)[k].Answered? && Terminal(Events(t)[k].answer)
    ensures forall m :: b < m < k ==> !Events(t)[m].TurnBegan?
  {
    var before := LawfulAt(t, i);
    PromptIsKnown(before, n);
    b, k := FindConfirmation(before, Events(t)[i].op);
    assert Events(before)[b] == Events(t)[b] && Events(before)[k] == Events(t)[k];
    forall m | b < m < k
      ensures !Events(t)[m].TurnBegan?
    {
      assert Events(before)[m] == Events(t)[m];
    }
  }

  lemma {:induction false} PromptIsKnown(t: Trace, n: nat)
    requires n < |Events(t)| && Events(t)[n].TurnBegan?
    ensures Events(t)[n].op in Know(t).prompts
  {
    if n < |Events(t)| - 1 {
      PromptIsKnown(t.before, n);
    }
  }
}
