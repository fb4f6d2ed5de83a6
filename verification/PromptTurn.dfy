/** One prompt turn of a session actor: admission, the event loop with its exits, cancellation and retry.

    A turn is driven by a finite script of what arrives; a script that ends without ending the turn
    stands for the command queue closing. */
module PromptTurn {
  import opened Basics
  import opened TurnLaw

  const RECEIPT_CAPACITY: nat := 256

  datatype Traffic =
    | Update(delivered: bool)
    | Permission(allowed: bool, answered: bool)
    | Response(id: RequestId, answer: Answer, delivered: bool)

  datatype Control = ConnectionLost | QueueOverflow

  /** Commands the loop reacts to; `Ignored` are those that neither end the turn nor touch its evidence.
      A cancellation carries what arrives until its grace expires or the queue closes. */
  datatype Command =
    | Cancel(byUser: bool, settling: seq<Traffic>, notified: bool)
    | StopSession
    | Load(op: Operation)
    | Ignored

  /** `Stalled` is the inactivity window expiring: what arrives while the attempt is cancelled, whether
      the schedule allows another one, whether the owner hears of it, and whether sending works. */
  datatype Input =
    | Event(traffic: Traffic)
    | Controlled(control: Control)
    | QueueClosed
    | Commanded(command: Command)
    | Stalled(settling: seq<Traffic>, retry: bool, told: bool, sendWorks: bool)

  class Actor {
    var channel: Option<Channel>
    var nextId: RequestId
    var nextChannel: Channel
    var receipts: map<Operation, bool>
    ghost var trace: Trace

    ghost predicate Sound()
      reads `nextId, `nextChannel, `receipts, `trace
    {
      var d := Know(trace);
      && Lawful(trace)
      && nextId == d.nextId && nextChannel == d.nextChannel
      && (forall w :: w in d.owed ==> w.id < nextId && w.channel < nextChannel)
      && (forall op :: op in receipts ==> op in d.prompts || op in d.loads)
      && (forall op :: op in receipts && receipts[op] && op in d.prompts ==> op in d.confirmed)
      && |receipts| <= RECEIPT_CAPACITY
    }

    /** Between turns: the last one is finished, and a kept channel owes nothing. */
    ghost predicate Valid()
      reads this
    {
      && Sound()
      && Finished(Know(trace))
      && channel == Know(trace).channel
      && (channel.Some? ==> channel.value < Know(trace).nextChannel && Idle(Know(trace), channel.value))
    }

    constructor ()
      ensures Valid() && trace == Empty && channel.None? && receipts == map[]
    {
      channel, nextId, nextChannel, receipts, trace := None, 0, 0, map[], Empty;
    }

    ghost method Note(e: TurnLaw.Event)
      requires Lawful(trace) && Allowed(Know(trace), e)
      modifies `trace
      ensures Lawful(trace) && trace == Then(old(trace), e)
    {
      trace := Then(trace, e);
    }

    /** Acquires a fresh channel for an actor that holds none. */
    method Attach()
      requires Valid() && channel.None?
      modifies `channel, `nextChannel, `trace
      ensures Valid() && channel == Some(old(nextChannel)) && trace == Then(old(trace), Attached(old(nextChannel)))
    {
      channel := Some(nextChannel);
      nextChannel := nextChannel + 1;
      Note(Attached(channel.value));
    }

    // ---- Receipts ----

    /** Keeps at most 256 receipts; the oldest operation's goes first. */
    method RecordCleanup(op: Operation, ok: bool)
      requires Sound() && (ok && op in Know(trace).prompts ==> op in Know(trace).confirmed)
      modifies `receipts, `trace
      ensures Sound() && trace == Then(old(trace), Receipt(op, ok))
      ensures op in receipts && receipts[op] == ok
      ensures forall x :: x in receipts && x != op ==> x in old(receipts) && receipts[x] == old(receipts)[x]
    {
      Note(Receipt(op, ok));
      receipts := Retained(receipts, op, ok);
    }

    /** Confirms only what this operation's own retained receipt says. */
    method CleanupOutcome(op: Operation) returns (confirmed: bool)
      requires Sound()
      ensures confirmed ==> (op in Know(trace).prompts ==> op in Know(trace).confirmed)
      ensures confirmed <==> op in receipts && receipts[op]
    {
      confirmed := op in receipts && receipts[op];
    }

    // ---- Leaving a turn ----

    /** The turn is on the wire: its latest prompt awaits the only answer its channel owes. */
    ghost predicate InFlight(op: Operation, pending: RequestId, ch: Channel, cause: Option<Cause>)
      reads `nextId, `nextChannel, `receipts, `trace
    {
      var d := Know(trace);
      && Sound()
      && pending + 1 == nextId
      && Open(op, cause) && d.turn.value.last == Some(Wire(pending, ch)) && d.turn.value.answer.None?
      && (forall w :: w in d.owed && w.channel == ch ==> w.id == pending)
      && ch < d.nextChannel
    }

    /** The prompt is recorded and its turn neither ended nor confirmed. */
    ghost predicate Open(op: Operation, cause: Option<Cause>)
      reads `receipts, `trace
    {
      var d := Know(trace);
      && d.turn.Some? && d.turn.value.op == op && d.turn.value.prompted && !d.turn.value.ended
      && d.turn.value.cause == cause && op in d.prompts
      && (op in receipts ==> !receipts[op])
    }

    /** The prompt's answer has arrived. */
    ghost predicate Replied(op: Operation, ch: Channel, answer: Answer, inLoop: bool, cause: Option<Cause>)
      reads `nextId, `nextChannel, `receipts, `trace
    {
      var d := Know(trace);
      && Sound()
      && Open(op, cause)
      && d.turn.value.last.Some? && d.turn.value.answer == Some(answer) && d.turn.value.inLoop == inLoop
      && Idle(d, ch) && ch < d.nextChannel
      && (Terminal(answer) ==> op in d.confirmed)
    }

    /** Reports the cause and records the end of the turn. */
    method End(cause: Cause)
      requires Sound() && Know(trace).turn.Some? && Know(trace).turn.value.prompted && !Know(trace).turn.value.ended
      requires Know(trace).turn.value.cause.None?
      requires cause.Settled? <==> SettledInLoop(Know(trace).turn.value)
      modifies `trace
      ensures Sound() && Finished(Know(trace))
      ensures Know(trace) == InTurn(Know(old(trace)), Know(old(trace)).turn.value.(cause := Some(cause), ended := true))
    {
      Note(Caused(cause));
      Note(TurnEnded(if cause.Settled? then StopFor(Know(trace).turn.value) else Cancelled));
    }

    method Keep(ch: Channel)
      requires Sound() && Finished(Know(trace)) && Idle(Know(trace), ch) && ch < Know(trace).nextChannel
      modifies `channel, `trace
      ensures Valid() && channel == Some(ch) && trace == Then(old(trace), Kept(ch))
    {
      channel := Some(ch);
      Note(Kept(ch));
    }

    /** The channel is dropped: whatever it still owes can no longer be mistaken for a later answer. */
    method Isolate()
      requires Sound() && Finished(Know(trace))
      modifies `channel, `trace
      ensures Valid() && channel.None? && trace == Then(old(trace), Isolated)
    {
      channel := None;
      Note(Isolated);
    }

    /** Sends a prompt on an idle channel. */
    method Send(op: Operation, ch: Channel) returns (pending: RequestId)
      requires Sound() && Open(op, None) && Allowed(Know(trace), Sent(nextId, ch)) && ch < Know(trace).nextChannel
      modifies `nextId, `trace
      ensures InFlight(op, pending, ch, None) && pending == old(nextId) && trace == Then(old(trace), Sent(pending, ch))
    {
      pending := nextId;
      nextId := nextId + 1;
      Note(Sent(pending, ch));
    }

    /** Takes the answer of the prompt in flight. */
    method Take(
      op: Operation, pending: RequestId, ch: Channel, answer: Answer, inLoop: bool, ghost cause: Option<Cause>)
      requires InFlight(op, pending, ch, cause)
      modifies `trace
      ensures Replied(op, ch, answer, inLoop, cause)
      ensures trace == Then(old(trace), Answered(pending, answer, inLoop))
    {
      Note(Answered(pending, answer, inLoop));
    }

    // ---- The turn ----

    /** Drains a cancelled prompt up to its answer; `None` when the grace expires or the queue closes. */
    method Settle(op: Operation, pending: RequestId, ch: Channel, settling: seq<Traffic>, ghost cause: Option<Cause>)
      returns (answer: Option<Answer>)
      requires InFlight(op, pending, ch, cause)
      modifies `trace
      ensures answer == AnswerIn(pending, settling)
      ensures answer.None? ==> InFlight(op, pending, ch, cause) && trace == old(trace)
      ensures answer.Some? ==> Replied(op, ch, answer.value, false, cause)
      ensures Know(trace).prompts == Know(old(trace)).prompts
    {
      for n := 0 to |settling|
        invariant trace == old(trace)
        invariant AnswerIn(pending, settling) == AnswerIn(pending, settling[n..])
      {
        match settling[n] {
          case Response(id, reply, _) =>
            if id == pending {
              Take(op, pending, ch, reply, false, cause);
              return Some(reply);
            }
          case _ =>
        }
      }
      answer := None;
    }

    /** Gives up on an attempt that stalled; its prompt goes out again if its cancellation is answered. */
    method Retry(op: Operation, pending: RequestId, ch: Channel, settling: seq<Traffic>, retry: bool, told: bool,
                 sendWorks: bool)
      returns (resent: bool)
      requires InFlight(op, pending, ch, None)
      modifies `nextId, `trace
      ensures resent <==> AnswerIn(pending, settling) == Some(Good(Cancelled)) && retry && told && sendWorks
      ensures resent ==> InFlight(op, pending + 1, ch, None)
      ensures !resent ==> Sound() && Open(op, None) && !SettledInLoop(Know(trace).turn.value)
      ensures Know(trace).prompts == Know(old(trace)).prompts
    {
      var settled := Settle(op, pending, ch, settling, None);
      if settled != Some(Good(Cancelled)) || !retry {
        return false;
      }
      if !told || !sendWorks {
        return false;
      }
      var again := Send(op, ch);
      resent := true;
    }

    /** Ends a turn whose channel cannot be trusted any more. */
    method Abort(op: Operation, cause: Cause)
      requires Sound() && Open(op, None) && !SettledInLoop(Know(trace).turn.value) && !cause.Settled?
      modifies `channel, `trace
      ensures Valid() && Over(op, Ending(cause, false, false))
      ensures Know(trace).prompts == Know(old(trace)).prompts
    {
      End(cause);
      Isolate();
    }

    /** How the turn of `op` ended. */
    ghost predicate Over(op: Operation, e: Ending)
      reads this
    {
      && Know(trace).turn.Some? && Know(trace).turn.value.op == op && op in Know(trace).prompts
      && Know(trace).turn.value.cause == Some(e.cause)
      && (channel.Some? <==> e.kept)
      && (e.confirmed ==> op in receipts)
      && (op in receipts ==> (receipts[op] <==> e.confirmed))
    }

    method Complete(op: Operation, pending: RequestId, ch: Channel, answer: Answer, delivered: bool)
      requires InFlight(op, pending, ch, None)
      modifies `channel, `receipts, `trace
      ensures Valid() && Over(op, Completion(answer, delivered))
      ensures Know(trace).prompts == Know(old(trace)).prompts
    {
      Take(op, pending, ch, answer, true, None);
      if Terminal(answer) {
        RecordCleanup(op, true);
      }
      Conclude(op, ch, answer, delivered);
    }

    method Conclude(op: Operation, ch: Channel, answer: Answer, delivered: bool)
      requires Sound() && Know(trace).turn.Some?
      requires Know(trace).turn == Some(Turn(op, true, Know(trace).turn.value.last, Some(answer), true, None, false))
      requires op in Know(trace).prompts && Idle(Know(trace), ch) && ch < Know(trace).nextChannel
      requires Terminal(answer) ==> op in receipts
      requires op in receipts ==> (receipts[op] <==> Terminal(answer))
      modifies `channel, `trace
      ensures Valid() && Over(op, Completion(answer, delivered))
      ensures Know(trace).prompts == Know(old(trace)).prompts
    {
      End(if answer.Good? then Settled else Unattributed);
      if Terminal(answer) && delivered {
        Keep(ch);
      } else {
        Isolate();
      }
    }

    method CancelTurn(
      op: Operation, pending: RequestId, ch: Channel, byUser: bool, settling: seq<Traffic>, notified: bool)
      requires InFlight(op, pending, ch, None)
      modifies `channel, `receipts, `trace
      ensures Valid() && Over(op, Cancellation(pending, byUser, settling, notified))
      ensures Know(trace).prompts == Know(old(trace)).prompts
    {
      var cause := if byUser then UserStopped else StreamDropped;
      Note(Caused(cause));
      var settled := Settle(op, pending, ch, settling, Some(cause));
      var reusable := settled.Some? && Terminal(settled.value);
      CloseCancelled(op, ch, cause, reusable, reusable && (!byUser || notified));
    }

    /** Ends a cancelled turn; its channel and its receipt depend on whether the provider confirmed. */
    method CloseCancelled(op: Operation, ch: Channel, ghost cause: Cause, reusable: bool, keep: bool)
      requires Sound() && Open(op, Some(cause)) && !cause.Settled? && (keep ==> reusable)
      requires reusable ==> op in Know(trace).confirmed && Idle(Know(trace), ch) && ch < Know(trace).nextChannel
      modifies `channel, `receipts, `trace
      ensures Valid() && Over(op, Ending(cause, keep, reusable))
      ensures Know(trace).prompts == Know(old(trace)).prompts
    {
      Note(TurnEnded(Cancelled));
      if keep {
        Keep(ch);
      } else {
        Isolate();
      }
      RecordCleanup(op, reusable);
    }

    /** Agent traffic during the turn. */
    method HandleTraffic(op: Operation, pending: RequestId, ch: Channel, traffic: Traffic) returns (over: bool)
      requires InFlight(op, pending, ch, None)
      modifies `channel, `receipts, `trace
      ensures match OnTraffic(pending, traffic)
              case GoesOn(next) => !over && next == pending && InFlight(op, pending, ch, None)
              case Ends(e) => over && Valid() && Over(op, e)
      ensures Know(trace).prompts == Know(old(trace)).prompts
    {
      match traffic {
        case Update(delivered) =>
          if !delivered {
            Abort(op, StreamDropped);
            return true;
          }
        case Permission(allowed, answered) =>
          if !allowed || !answered {
            Abort(op, Unattributed);
            return true;
          }
        case Response(id, answer, delivered) =>
          if id == pending {
            Complete(op, pending, ch, answer, delivered);
            return true;
          }
      }
      over := false;
    }

    method HandleCommand(op: Operation, pending: RequestId, ch: Channel, command: Command) returns (over: bool)
      requires InFlight(op, pending, ch, None)
      requires command.Load? ==> command.op !in Know(trace).prompts
      modifies `channel, `receipts, `trace
      ensures command.Load? ==> command.op in receipts && receipts[command.op]
      ensures match OnCommand(pending, command)
              case GoesOn(next) => !over && next == pending && InFlight(op, pending, ch, None)
              case Ends(e) => over && Valid() && Over(op, e)
      ensures Know(trace).prompts == Know(old(trace)).prompts
    {
      match command {
        case Cancel(byUser, settling, notified) =>
          CancelTurn(op, pending, ch, byUser, settling, notified);
          return true;
        case StopSession =>
          Abort(op, Unattributed);
          return true;
        case Load(load) => RecordCleanup(load, true);
        case Ignored =>
      }
      over := false;
    }

    /** One input of the prompt loop; the pending prompt changes only by a retry. */
    method Handle(op: Operation, pending: RequestId, ch: Channel, input: Input) returns (next: Option<RequestId>)
      requires InFlight(op, pending, ch, None)
      requires input.Commanded? && input.command.Load? ==> input.command.op !in Know(trace).prompts
      modifies this
      ensures match On(pending, input)
              case GoesOn(p) => next == Some(p) && InFlight(op, p, ch, None)
              case Ends(e) => next.None? && Valid() && Over(op, e)
      ensures Know(trace).prompts == Know(old(trace)).prompts
    {
      var over := true;
      match input {
        case Event(traffic) => over := HandleTraffic(op, pending, ch, traffic);
        case Commanded(command) => over := HandleCommand(op, pending, ch, command);
        case Controlled(control) => Abort(op, if control.ConnectionLost? then SessionCrashed else Unattributed);
        case QueueClosed => Abort(op, SessionCrashed);
        case Stalled(settling, retry, told, sendWorks) =>
          var resent := Retry(op, pending, ch, settling, retry, told, sendWorks);
          if resent {
            return Some(pending + 1);
          }
          Abort(op, InactivityTimeout);
      }
      next := if over then None else Some(pending);
    }

    /** The prompt loop. */
    method Stream(op: Operation, first: RequestId, ch: Channel, script: seq<Input>)
      requires InFlight(op, first, ch, None) && LoadsAvoid(script, Know(trace).prompts)
      modifies this
      ensures Valid() && Over(op, Outcome(first, script))
      ensures Know(trace).prompts == Know(old(trace)).prompts
    {
      var pending := first;
      for n := 0 to |script|
        invariant InFlight(op, pending, ch, None) && Know(trace).prompts == Know(old(trace)).prompts
        invariant Outcome(first, script) == Outcome(pending, script[n..])
      {
        assert script[n..][0] == script[n] && script[n..][1..] == script[n + 1..];
        var next := Handle(op, pending, ch, script[n]);
        if next.None? {
          return;
        }
        pending := next.value;
      }
      Abort(op, SessionCrashed);
    }

    /** One whole turn, from the command to the settled owner. */
    method RunPrompt(op: Operation, control: Option<Control>, setupDelivered: bool, recordingBreaks: bool,
                     sendWorks: bool, script: seq<Input>)
      requires Valid() && op !in Know(trace).prompts && op !in Know(trace).loads
      requires LoadsAvoid(script, Know(trace).prompts + {op})
      modifies this
      ensures Valid()
      ensures Over(
        op, Whole(old(channel).Some?, control, setupDelivered, recordingBreaks, sendWorks, old(nextId), script))
      ensures Know(trace).prompts == Know(old(trace)).prompts + {op}
    {
      Begin(op);
      if channel.None? {
        Refuse(op, Unattributed);
        return;
      }
      var ch := channel.value;
      channel := None;
      if control.Some? {
        Refuse(op, if control.value.ConnectionLost? then SessionCrashed else Unattributed);
        return;
      }
      if !setupDelivered {
        Refuse(op, StreamDropped);
        return;
      }
      Prompt(op, ch, recordingBreaks, sendWorks, script);
    }

    /** Nothing proves yet that remote work stopped, so the turn opens with a negative receipt. */
    method Begin(op: Operation)
      requires Sound() && Allowed(Know(trace), TurnBegan(op))
      modifies `receipts, `trace
      ensures Sound() && Know(trace) == Advance(Know(old(trace)), TurnBegan(op))
      ensures op in receipts && !receipts[op]
    {
      Note(TurnBegan(op));
      RecordCleanup(op, false);
    }

    /** Leaves a turn before its prompt was recorded. */
    method Refuse(op: Operation, cause: Cause)
      requires Sound() && !cause.Settled? && op in Know(trace).prompts && op in receipts && !receipts[op]
      requires Know(trace).turn == Some(Turn(op, false, None, None, false, None, false))
      modifies `channel, `trace
      ensures Valid() && Over(op, Ending(cause, false, false))
      ensures Know(trace).prompts == Know(old(trace)).prompts
    {
      Note(Caused(cause));
      Isolate();
    }

    /** Records the prompt, sends it, and streams the turn. */
    method Prompt(op: Operation, ch: Channel, recordingBreaks: bool, sendWorks: bool, script: seq<Input>)
      requires Sound() && Know(trace).turn == Some(Turn(op, false, None, None, false, None, false))
      requires op in Know(trace).prompts && op in receipts && !receipts[op]
      requires ch < Know(trace).nextChannel && Idle(Know(trace), ch)
      requires LoadsAvoid(script, Know(trace).prompts)
      modifies this
      ensures Valid()
      ensures Over(op, Whole(true, None, true, recordingBreaks, sendWorks, old(nextId), script))
      ensures Know(trace).prompts == Know(old(trace)).prompts
    {
      if recordingBreaks {
        // Nothing was sent: the turn is refused and the channel stays.
        Note(Caused(Unattributed));
        Keep(ch);
        return;
      }
      Note(Prompted);
      if !sendWorks {
        Abort(op, Unattributed);
        return;
      }
      var pending := Send(op, ch);
      Stream(op, pending, ch, script);
    }
  }

  // ---- What a script leads to ----

  /** How a turn ends: why, whether its channel is kept, and whether its receipt confirms. */
  datatype Ending = Ending(cause: Cause, kept: bool, confirmed: bool)

  datatype Verdict = GoesOn(pending: RequestId) | Ends(ending: Ending)

  /** The first answer to the pending prompt. */
  function AnswerIn(pending: RequestId, settling: seq<Traffic>): Option<Answer> {
    if settling == [] then None
    else if settling[0].Response? && settling[0].id == pending then Some(settling[0].answer)
    else AnswerIn(pending, settling[1..])
  }

  function Completion(answer: Answer, delivered: bool): Ending {
    Ending(if answer.Good? then Settled else Unattributed, Terminal(answer) && delivered, Terminal(answer))
  }

  function Cancellation(pending: RequestId, byUser: bool, settling: seq<Traffic>, notified: bool): Ending {
    var answer := AnswerIn(pending, settling);
    var reusable := answer.Some? && Terminal(answer.value);
    Ending(if byUser then UserStopped else StreamDropped, reusable && (!byUser || notified), reusable)
  }

  function OnTraffic(pending: RequestId, traffic: Traffic): Verdict {
    match traffic
    case Update(delivered) => if delivered then GoesOn(pending) else Ends(Ending(StreamDropped, false, false))
    case Permission(allowed, answered) =>
      if allowed && answered then GoesOn(pending) else Ends(Ending(Unattributed, false, false))
    case Response(id, answer, delivered) =>
      if id == pending then Ends(Completion(answer, delivered)) else GoesOn(pending)
  }

  function OnCommand(pending: RequestId, command: Command): Verdict {
    match command
    case Cancel(byUser, settling, notified) => Ends(Cancellation(pending, byUser, settling, notified))
    case StopSession => Ends(Ending(Unattributed, false, false))
    case Load(_) => GoesOn(pending)
    case Ignored => GoesOn(pending)
  }

  function On(pending: RequestId, input: Input): Verdict {
    match input
    case Event(traffic) => OnTraffic(pending, traffic)
    case Commanded(command) => OnCommand(pending, command)
    case Controlled(ConnectionLost) => Ends(Ending(SessionCrashed, false, false))
    case Controlled(QueueOverflow) => Ends(Ending(Unattributed, false, false))
    case QueueClosed => Ends(Ending(SessionCrashed, false, false))
    case Stalled(settling, retry, told, sendWorks) =>
      if AnswerIn(pending, settling) == Some(Good(Cancelled)) && retry && told && sendWorks then GoesOn(pending + 1)
      else Ends(Ending(InactivityTimeout, false, false))
  }

  function Outcome(pending: RequestId, script: seq<Input>): Ending
    decreases |script|
  {
    if script == [] then Ending(SessionCrashed, false, false)
    else
      match On(pending, script[0])
      case GoesOn(next) => Outcome(next, script[1..])
      case Ends(e) => e
  }

  function Whole(attached: bool, control: Option<Control>, setupDelivered: bool, recordingBreaks: bool,
                 sendWorks: bool, id: RequestId, script: seq<Input>): Ending {
    if !attached then Ending(Unattributed, false, false)
    else if control == Some(ConnectionLost) then Ending(SessionCrashed, false, false)
    else if control.Some? then Ending(Unattributed, false, false)
    else if !setupDelivered then Ending(StreamDropped, false, false)
    else if recordingBreaks then Ending(Unattributed, true, false)
    else if !sendWorks then Ending(Unattributed, false, false)
    else Outcome(id, script)
  }

  // ---- How a turn ends, read off its script ----

  /** The first answer is the first response that names the prompt. */
  lemma {:induction false} AnswerIsTheFirst(pending: RequestId, settling: seq<Traffic>)
    ensures AnswerIn(pending, settling).None? <==>
      forall i :: 0 <= i < |settling| ==> !(settling[i].Response? && settling[i].id == pending)
    ensures AnswerIn(pending, settling).Some? ==>
      exists n :: 0 <= n < |settling|
                  && settling[n].Response? && settling[n].id == pending
                  && settling[n].answer == AnswerIn(pending, settling).value
                  && forall i :: 0 <= i < n ==> !(settling[i].Response? && settling[i].id == pending)
  {
    if settling != [] && !(settling[0].Response? && settling[0].id == pending) {
      AnswerIsTheFirst(pending, settling[1..]);
      assert forall i :: 0 < i < |settling| ==> settling[i] == settling[1..][i - 1];
      if AnswerIn(pending, settling).Some? {
        var n :| 0 <= n < |settling| - 1
                 && settling[1..][n].Response? && settling[1..][n].id == pending
                 && settling[1..][n].answer == AnswerIn(pending, settling).value
                 && forall i :: 0 <= i < n ==> !(settling[1..][i].Response? && settling[1..][i].id == pending);
        assert settling[n + 1] == settling[1..][n];
        assert forall i :: 0 < i < n + 1 ==> settling[i] == settling[1..][i - 1];
      }
    }
  }

  /** The prompt goes out once more: the provider confirmed that the stalled attempt is cancelled, the
      schedule allows another, the owner was told and the transport took it. */
  predicate Resent(input: Input, pending: RequestId) {
    && input.Stalled?
    && AnswerIn(pending, input.settling) == Some(Good(Cancelled))
    && input.retry && input.told && input.sendWorks
  }

  /** The inputs that end a turn: an update its owner does not get, a permission that fails, the answer to the
      pending prompt, any control, a closed queue, a cancel, a stop, and a stall that is not resent. */
  predicate EndsTurn(input: Input, pending: RequestId) {
    || input.Controlled? || input.QueueClosed?
    || (input.Event? && input.traffic.Update? && !input.traffic.delivered)
    || (input.Event? && input.traffic.Permission? && !(input.traffic.allowed && input.traffic.answered))
    || (input.Event? && input.traffic.Response? && input.traffic.id == pending)
    || (input.Commanded? && (input.command.Cancel? || input.command.StopSession?))
    || (input.Stalled? && !Resent(input, pending))
  }

  /** The prompt pending at input `n` of a turn still going: each stall so far has made it the next one. */
  function PendingAt(first: RequestId, script: seq<Input>, n: nat): RequestId
    requires n <= |script|
  {
    if n == 0 then first
    else PendingAt(first, script, n - 1) + if script[n - 1].Stalled? then 1 else 0
  }

  /** The turn goes on up to input `n`, which ends it, or up to the end of the script. */
  ghost predicate EndsAt(first: RequestId, script: seq<Input>, n: nat) {
    && n <= |script|
    && (forall i :: 0 <= i < n ==> !EndsTurn(script[i], PendingAt(first, script, i)))
    && (n < |script| ==> EndsTurn(script[n], PendingAt(first, script, n)))
  }

  /** The input is the provider's good answer to the pending prompt. */
  predicate AnswersWell(input: Input, pending: RequestId) {
    input.Event? && input.traffic.Response? && input.traffic.id == pending && input.traffic.answer.Good?
  }

  predicate IsCancel(input: Input, byUser: bool) {
    input.Commanded? && input.command.Cancel? && input.command.byUser == byUser
  }

  /** The input brings the provider's terminal answer: to the loop, or to the cancellation that ends the turn. */
  predicate Confirms(input: Input, pending: RequestId) {
    match input
    case Event(Response(id, answer, _)) => id == pending && Terminal(answer)
    case Commanded(Cancel(_, settling, _)) =>
      AnswerIn(pending, settling).Some? && Terminal(AnswerIn(pending, settling).value)
    case _ => false
  }

  /** The owner heard of that answer, or went away by their own wish. */
  predicate OwnerHeard(input: Input) {
    || (input.Event? && input.traffic.Response? && input.traffic.delivered)
    || IsCancel(input, false)
    || (IsCancel(input, true) && input.command.notified)
  }

  /** How a turn ends that `last` ends; `None` is the command queue closing at the end of the script. */
  predicate FitsLast(e: Ending, last: Option<Input>, pending: RequestId) {
    && (e.cause.Settled? <==> last.Some? && AnswersWell(last.value, pending))
    && (e.cause.UserStopped? <==> last.Some? && IsCancel(last.value, true))
    && (e.cause.StreamDropped? <==>
          last.Some? && (IsCancel(last.value, false) || last.value == Event(Update(false))))
    && (e.cause.SessionCrashed? <==>
          last.None? || last.value.QueueClosed? || last.value == Controlled(ConnectionLost))
    && (e.cause.InactivityTimeout? <==> last.Some? && last.value.Stalled?)
    && (e.confirmed <==> last.Some? && Confirms(last.value, pending))
    && (e.kept <==> last.Some? && Confirms(last.value, pending) && OwnerHeard(last.value))
  }

  /** For every script the turn ends at the first input that ends turns, and cause, channel and receipt follow
      from what that input is. Every other cause is the unattributed one. */
  lemma {:induction false} EndingIsHonest(first: RequestId, script: seq<Input>) returns (n: nat)
    ensures EndsAt(first, script, n)
    ensures FitsLast(Outcome(first, script), if n < |script| then Some(script[n]) else None,
                     PendingAt(first, script, n))
    decreases |script|
  {
    if script == [] || EndsTurn(script[0], first) {
      n := 0;
    } else {
      var next := if script[0].Stalled? then first + 1 else first;
      var m := EndingIsHonest(next, script[1..]);
      n := m + 1;
      forall i | 0 <= i <= m
        ensures PendingAt(first, script, i + 1) == PendingAt(next, script[1..], i)
      {
        PendingShifts(first, script, i);
      }
      assert forall i :: 0 < i < |script| ==> script[i] == script[1..][i - 1];
      forall i | 0 <= i < n
        ensures !EndsTurn(script[i], PendingAt(first, script, i))
      {
        if i > 0 {
          assert !EndsTurn(script[1..][i - 1], PendingAt(next, script[1..], i - 1));
        }
      }
    }
  }

  lemma {:induction false} PendingShifts(first: RequestId, script: seq<Input>, i: nat)
    requires i < |script|
    ensures PendingAt(first, script, i + 1) ==
      PendingAt(if script[0].Stalled? then first + 1 else first, script[1..], i)
  {
    if i > 0 {
      PendingShifts(first, script, i - 1);
      assert script[1..][i - 1] == script[i];
    }
  }

  /** The prompt gets as far as the wire. */
  predicate Admitted(attached: bool, control: Option<Control>, setupDelivered: bool, recordingBreaks: bool,
                     sendWorks: bool) {
    attached && control.None? && setupDelivered && !recordingBreaks && sendWorks
  }

  /** A turn that does not get to the wire is never confirmed nor settled, keeps its channel exactly when only
      its recording failed, and is blamed on the connection exactly when that was lost before. */
  lemma RefusalIsHonest(attached: bool, control: Option<Control>, setupDelivered: bool, recordingBreaks: bool,
                        sendWorks: bool, id: RequestId, script: seq<Input>)
    ensures var e := Whole(attached, control, setupDelivered, recordingBreaks, sendWorks, id, script);
            if Admitted(attached, control, setupDelivered, recordingBreaks, sendWorks) then e == Outcome(id, script)
            else
              && !e.confirmed && !e.cause.Settled? && !e.cause.UserStopped? && !e.cause.InactivityTimeout?
              && (e.kept <==> attached && control.None? && setupDelivered && recordingBreaks)
              && (e.cause.SessionCrashed? <==> attached && control == Some(ConnectionLost))
              && (e.cause.StreamDropped? <==> attached && control.None? && !setupDelivered)
  {
  }

  /** Operation numbers are unique: no load in the script carries a prompt's. */
  ghost predicate LoadsAvoid(script: seq<Input>, prompts: set<Operation>) {
    forall n :: 0 <= n < |script| && script[n].Commanded? && script[n].command.Load? ==>
      script[n].command.op !in prompts
  }

  lemma HasOldest(ops: set<Operation>) returns (oldest: Operation)
    requires ops != {}
    ensures oldest in ops && forall x :: x in ops ==> oldest <= x
    decreases |ops|
  {
    var one :| one in ops;
    var rest := ops - {one};
    if rest == {} {
      assert ops == {one};
      oldest := one;
    } else {
      var other := HasOldest(rest);
      oldest := if other < one then other else one;
      assert forall x :: x in ops ==> x == one || x in rest;
    }
  }

  method Oldest(ops: set<Operation>) returns (oldest: Operation)
    requires ops != {}
    ensures oldest in ops && forall x :: x in ops ==> oldest <= x
  {
    ghost var _ := HasOldest(ops);
    oldest :| oldest in ops && forall x :: x in ops ==> oldest <= x;
  }

  method Retained(receipts: map<Operation, bool>, op: Operation, ok: bool) returns (r: map<Operation, bool>)
    requires |receipts| <= RECEIPT_CAPACITY
    ensures |r| <= RECEIPT_CAPACITY && op in r && r[op] == ok
    ensures forall x :: x in r && x != op ==> x in receipts && r[x] == receipts[x]
    ensures forall x :: x in receipts && x !in r ==> op !in receipts && forall y :: y in receipts ==> x <= y
  {
    r := receipts;
    if |receipts| >= RECEIPT_CAPACITY && op !in receipts {
      var oldest := Oldest(receipts.Keys);
      r := receipts - {oldest};
      assert r.Keys == receipts.Keys - {oldest};
      assert |r.Keys| == |receipts.Keys| - 1;
    }
    r := r[op := ok];
    assert r.Keys == (r - {op}).Keys + {op};
  }
}
