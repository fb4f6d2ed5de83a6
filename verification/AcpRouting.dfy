/** Inbound routing of one ACP connection: a receive loop refined to a fold over what arrived.

    The script interleaves arriving messages with what the connection's callers do in between; the end
    of the script is the end of the stream. */
module AcpRouting {
  import opened Basics
  import opened AcpCorrelation

  /** The method names the router knows, and every other one. */
  datatype Verb = UpdateVerb | PermissionVerb | OtherVerb(name: string)

  const METHOD_NOT_FOUND: int := -32601

  datatype IdField = NoId | BadId | Id(id: RequestId)

  datatype ErrorField = NoError | BadError | RpcError(error: string)

  /** A decoded JSON value: an object's members as the router looks at them, `params` being `None` when
      it does not decode to what the method expects. */
  datatype Value =
    | NotAnObject
    | Object(versionOk: bool, verb: Option<Verb>, id: IdField, params: Option<string>,
             result: Option<string>, error: ErrorField)

  datatype Message = TransportFailed(reason: string) | Decoded(value: Value)

  datatype Body = Success(result: string) | Failure(error: string)

  datatype Failing = Transport(reason: string) | InvalidFrame | SendFailed | StreamClosed

  datatype Event =
    | SessionUpdate(params: string)
    | PermissionRequest(request: RequestId, params: string)
    | SessionResponse(request: RequestId, session: string, body: Body)
    | Fatal(failing: Failing)

  datatype Rejection = MethodNotFound(request: RequestId, code: int)

  /** One message arrives (and writing a reply to it works or not), or a caller acts. */
  datatype Input = Arrives(message: Message, replyWorks: bool) | Caller(op: Op)

  /** What one routed input lets out: an event, a direct answer, a reply to the agent, or nothing. */
  datatype Effect =
    | Silent
    | Emits(event: Event)
    | Answers(request: RequestId, body: Body)
    | Rejects(rejection: Rejection)

  datatype Verdict = Routed(log: Log, effect: Effect) | Invalid(log: Log, failing: Failing)

  // ---- What one frame means ----

  function BodyOf(v: Value): Option<Body>
    requires v.Object?
  {
    if v.result.Some? then Some(Success(v.result.value))
    else if v.error.RpcError? then Some(Failure(v.error.error))
    else None
  }

  function Frame(log: Log, v: Value, replyWorks: bool): Verdict {
    if v.NotAnObject? || !v.versionOk || v.id.BadId? then Invalid(log, InvalidFrame)
    else if v.verb.Some? then
      if v.id.Id? then
        if v.verb.value.PermissionVerb? then
          if v.params.None? then Invalid(log, InvalidFrame)
          else Routed(log, Emits(PermissionRequest(v.id.id, v.params.value)))
        else if !replyWorks then Invalid(log, SendFailed)
        else Routed(log, Rejects(MethodNotFound(v.id.id, METHOD_NOT_FOUND)))
      else if v.verb.value.UpdateVerb? then
        if v.params.None? then Invalid(log, InvalidFrame)
        else Routed(log, Emits(SessionUpdate(v.params.value)))
      else Routed(log, Silent)
    else if v.id.NoId? || BodyOf(v).None? then Invalid(log, InvalidFrame)
    else Response(log, v.id.id, BodyOf(v).value)
  }

  function Response(log: Log, id: RequestId, body: Body): Verdict {
    match Lookup(log, id)
    case Unmatched => Invalid(Answered(log, id), InvalidFrame)
    case Abandoned => Routed(Answered(log, id), Silent)
    case Pending(Direct) => Routed(Answered(log, id), Answers(id, body))
    case Pending(ForSession(session)) => Routed(Answered(log, id), Emits(SessionResponse(id, session, body)))
  }

  function One(log: Log, input: Input): Verdict {
    match input
    case Caller(op) => Routed(if op.Respond? then log else Apply(log, op), Silent)
    case Arrives(TransportFailed(reason), _) => Invalid(log, Transport(reason))
    case Arrives(Decoded(v), works) => Frame(log, v, works)
  }

  /** The whole connection: everything up to the first failure, then exactly that failure. */
  function Fold(log: Log, script: seq<Input>): seq<Effect>
    decreases |script|
  {
    if script == [] then [Emits(Fatal(StreamClosed))]
    else
      match One(log, script[0])
      case Routed(after, effect) => [effect] + Fold(after, script[1..])
      case Invalid(_, failing) => [Emits(Fatal(failing))]
  }

  lemma FoldUnfolds(log: Log, script: seq<Input>, n: nat, out: seq<Effect>)
    requires n < |script|
    ensures out + Fold(log, script[n..]) ==
      match One(log, script[n])
      case Routed(after, effect) => (out + [effect]) + Fold(after, script[n + 1..])
      case Invalid(_, failing) => out + [Emits(Fatal(failing))]
  {
    assert script[n..][0] == script[n] && script[n..][1..] == script[n + 1..];
  }

  // ---- The loop ----

  class Router {
    const pending: PendingRequests
    /** Everything let out so far, in order. */
    var out: seq<Effect>

    constructor (pending: PendingRequests)
      ensures this.pending == pending && out == []
    {
      this.pending := pending;
      out := [];
    }

    /** Receives until the transport fails, a frame is invalid, or the stream ends; reports that once and
        releases everyone who still waits. */
    method RouteMessages(script: seq<Input>)
      requires pending.Valid() && out == []
      modifies this, pending
      ensures pending.Valid() && pending.active == map[] && pending.abandoned == []
      ensures out == Fold(old(pending.log), script)
    {
      ghost var whole := Fold(pending.log, script);
      var n := 0;
      while n < |script|
        invariant 0 <= n <= |script| && pending.Valid()
        invariant out + Fold(pending.log, script[n..]) == whole
      {
        FoldUnfolds(pending.log, script, n, out);
        var failing := RouteOne(script[n]);
        if failing.Some? {
          out := out + [Emits(Fatal(failing.value))];
          pending.Clear();
          return;
        }
        n := n + 1;
      }
      assert script[n..] == [];
      out := out + [Emits(Fatal(StreamClosed))];
      pending.Clear();
    }

    method RouteOne(input: Input) returns (failing: Option<Failing>)
      requires pending.Valid()
      modifies `out, pending
      ensures pending.Valid()
      ensures match One(old(pending.log), input)
              case Routed(log, effect) => failing.None? && pending.log == log && out == old(out) + [effect]
              case Invalid(log, reason) => failing == Some(reason) && pending.log == log && out == old(out)
    {
      failing := None;
      match input {
        case Caller(op) =>
          Act(op);
          out := out + [Silent];
        case Arrives(TransportFailed(reason), _) => failing := Some(Transport(reason));
        case Arrives(Decoded(v), works) => failing := RouteFrame(v, works);
      }
    }

    method Act(op: Op)
      requires pending.Valid()
      modifies pending
      ensures pending.Valid()
      ensures pending.log == if op.Respond? then old(pending.log) else Apply(old(pending.log), op)
    {
      match op {
        case Issue(kind) => var _ := pending.Insert(kind);
        case FailSend(id) => pending.RemoveActive(id);
        case CancelSend(id) => pending.CancelSend(id);
        case Retire(id) => pending.Abandon(id);
        case Respond(_) =>
      }
    }

    method RouteFrame(v: Value, replyWorks: bool) returns (failing: Option<Failing>)
      requires pending.Valid()
      modifies `out, pending
      ensures pending.Valid()
      ensures match Frame(old(pending.log), v, replyWorks)
              case Routed(log, effect) => failing.None? && pending.log == log && out == old(out) + [effect]
              case Invalid(log, reason) => failing == Some(reason) && pending.log == log && out == old(out)
    {
      if v.NotAnObject? || !v.versionOk || v.id.BadId? {
        return Some(InvalidFrame);
      }
      if v.verb.Some? {
        if v.id.Id? {
          if v.verb.value.PermissionVerb? {
            if v.params.None? {
              return Some(InvalidFrame);
            }
            out := out + [Emits(PermissionRequest(v.id.id, v.params.value))];
          } else {
            if !replyWorks {
              return Some(SendFailed);
            }
            out := out + [Rejects(MethodNotFound(v.id.id, METHOD_NOT_FOUND))];
          }
        } else if v.verb.value.UpdateVerb? {
          if v.params.None? {
            return Some(InvalidFrame);
          }
          out := out + [Emits(SessionUpdate(v.params.value))];
        } else {
          out := out + [Silent];
        }
        return None;
      }
      if v.id.NoId? {
        return Some(InvalidFrame);
      }
      if v.result.Some? {
        failing := RouteResponse(v.id.id, Success(v.result.value));
      } else if v.error.RpcError? {
        failing := RouteResponse(v.id.id, Failure(v.error.error));
      } else {
        failing := Some(InvalidFrame);
      }
    }

    method RouteResponse(id: RequestId, body: Body) returns (failing: Option<Failing>)
      requires pending.Valid()
      modifies `out, pending
      ensures pending.Valid()
      ensures match Response(old(pending.log), id, body)
              case Routed(log, effect) => failing.None? && pending.log == log && out == old(out) + [effect]
              case Invalid(log, reason) => failing == Some(reason) && pending.log == log && out == old(out)
    {
      var request := pending.TakeResponse(id);
      match request {
        case Unmatched => return Some(InvalidFrame);
        case Abandoned => out := out + [Silent];
        case Pending(Direct) => out := out + [Answers(id, body)];
        case Pending(ForSession(session)) => out := out + [Emits(SessionResponse(id, session, body))];
      }
      failing := None;
    }
  }

  // ---- What the fold promises ----

  /** How many inputs are routed before the first failure. */
  function Good(log: Log, script: seq<Input>): (n: nat)
    ensures n <= |script|
    decreases |script|
  {
    if script == [] then 0
    else
      match One(log, script[0])
      case Routed(after, _) => 1 + Good(after, script[1..])
      case Invalid(_, _) => 0
  }

  predicate IsFatal(e: Effect) {
    e.Emits? && e.event.Fatal?
  }

  /** The frame is a response to one of our requests. */
  predicate IsResponse(input: Input) {
    input.Arrives? && input.message.Decoded? && input.message.value.Object? && input.message.value.verb.None?
  }

  /** What an input lets out whatever went before it, unless it is a response. */
  function Image(input: Input): Effect {
    match input
    case Arrives(Decoded(Object(_, Some(PermissionVerb), Id(id), Some(params), _, _)), _) =>
      Emits(PermissionRequest(id, params))
    case Arrives(Decoded(Object(_, Some(UpdateVerb), NoId, Some(params), _, _)), _) => Emits(SessionUpdate(params))
    case Arrives(Decoded(Object(_, Some(_), Id(id), _, _, _)), _) => Rejects(MethodNotFound(id, -32601))
    case _ => Silent
  }

  /** A response reaches whoever its id names with the body it carries, or nobody. */
  predicate Delivers(input: Input, e: Effect)
    requires IsResponse(input)
  {
    var v := input.message.value;
    && v.id.Id? && BodyOf(v).Some?
    && (|| e == Silent
        || e == Answers(v.id.id, BodyOf(v).value)
        || (e.Emits? && e.event.SessionResponse? && e.event.request == v.id.id && e.event.body == BodyOf(v).value))
  }

  predicate Mirrors(input: Input, e: Effect) {
    if IsResponse(input) then Delivers(input, e) else e == Image(input)
  }

  lemma OneMirrors(log: Log, input: Input)
    requires One(log, input).Routed?
    ensures Mirrors(input, One(log, input).effect) && !IsFatal(One(log, input).effect)
  {
  }

  /** What comes out is the in-order image of what arrived before the first failure, and then exactly one
      Fatal, last. */
  lemma {:induction false} OutputIsTheImage(log: Log, script: seq<Input>)
    ensures var out, n := Fold(log, script), Good(log, script);
            && |out| == n + 1
            && IsFatal(out[n])
            && (forall i :: 0 <= i < n ==> Mirrors(script[i], out[i]) && !IsFatal(out[i]))
    decreases |script|
  {
    if script != [] && One(log, script[0]).Routed? {
      OneMirrors(log, script[0]);
      OutputIsTheImage(One(log, script[0]).log, script[1..]);
    }
  }

  // ---- Answers ----

  /** The kinds of request issued in a script, in order. */
  function Issues(script: seq<Input>): seq<Kind> {
    if script == [] then []
    else (if script[0].Caller? && script[0].op.Issue? then [script[0].op.kind] else []) + Issues(script[1..])
  }

  function Grow(issued: seq<Kind>, input: Input): seq<Kind> {
    if input.Caller? && input.op.Issue? then issued + [input.op.kind] else issued
  }

  /** Request numbers count the issues: `issued[n - 1]` is what request n was registered for. */
  ghost predicate Numbered(log: Log, issued: seq<Kind>) {
    && log.next == |issued| + 1
    && (forall id :: id in log.open ==> 1 <= id < log.next && log.open[id] == issued[id - 1])
  }

  /** The request an effect answers, and whom it answers. */
  function AnswerOf(e: Effect): Option<(RequestId, Kind)> {
    match e
    case Answers(id, _) => Some((id, Direct))
    case Emits(SessionResponse(id, session, _)) => Some((id, ForSession(session)))
    case _ => None
  }

  /** An answer goes to a request that waits for it, as registered, and ends the waiting; nothing reopens
      a request. */
  lemma OneAnswersWhoWaits(log: Log, input: Input, issued: seq<Kind>)
    requires One(log, input).Routed? && Numbered(log, issued)
    ensures var one := One(log, input);
            && Numbered(one.log, Grow(issued, input))
            && (forall id :: id in one.log.open ==> id in log.open || id == |issued| + 1)
            && (AnswerOf(one.effect).Some? ==>
                  && var (id, kind) := AnswerOf(one.effect).value;
                  id in log.open && log.open[id] == kind && id !in one.log.open)
  {
  }

  /** Whoever no longer waits is not answered later. */
  lemma {:induction false} GoneIsNeverAnswered(log: Log, script: seq<Input>, issued: seq<Kind>, id: RequestId)
    requires Numbered(log, issued) && id <= |issued| && id !in log.open
    ensures forall i :: 0 <= i < |Fold(log, script)| && AnswerOf(Fold(log, script)[i]).Some? ==>
      AnswerOf(Fold(log, script)[i]).value.0 != id
    decreases |script|
  {
    if script != [] && One(log, script[0]).Routed? {
      OneAnswersWhoWaits(log, script[0], issued);
      GoneIsNeverAnswered(One(log, script[0]).log, script[1..], Grow(issued, script[0]), id);
    }
  }

  ghost predicate AnswersFit(out: seq<Effect>, kinds: seq<Kind>) {
    forall i :: 0 <= i < |out| && AnswerOf(out[i]).Some? ==>
      && 1 <= AnswerOf(out[i]).value.0 <= |kinds|
      && kinds[AnswerOf(out[i]).value.0 - 1] == AnswerOf(out[i]).value.1
  }

  ghost predicate AnsweredOnce(out: seq<Effect>) {
    forall i, j :: 0 <= i < j < |out| && AnswerOf(out[i]).Some? && AnswerOf(out[j]).Some? ==>
      AnswerOf(out[i]).value.0 != AnswerOf(out[j]).value.0
  }

  /** Each answer goes to the caller or session its request was registered for. */
  lemma {:induction false} AnswersReachTheirRequests(log: Log, script: seq<Input>, issued: seq<Kind>)
    requires Numbered(log, issued)
    ensures AnswersFit(Fold(log, script), issued + Issues(script))
    decreases |script|
  {
    if script != [] && One(log, script[0]).Routed? {
      var one := One(log, script[0]);
      OneAnswersWhoWaits(log, script[0], issued);
      assert issued + Issues(script) == Grow(issued, script[0]) + Issues(script[1..]);
      AnswersReachTheirRequests(one.log, script[1..], Grow(issued, script[0]));
      assert Fold(log, script) == [one.effect] + Fold(one.log, script[1..]);
    }
  }

  /** No request is answered twice, on either path. */
  lemma {:induction false} RequestsAreAnsweredOnce(log: Log, script: seq<Input>, issued: seq<Kind>)
    requires Numbered(log, issued)
    ensures AnsweredOnce(Fold(log, script))
    decreases |script|
  {
    if script != [] && One(log, script[0]).Routed? {
      var one := One(log, script[0]);
      OneAnswersWhoWaits(log, script[0], issued);
      RequestsAreAnsweredOnce(one.log, script[1..], Grow(issued, script[0]));
      if AnswerOf(one.effect).Some? {
        GoneIsNeverAnswered(one.log, script[1..], Grow(issued, script[0]), AnswerOf(one.effect).value.0);
      }
      assert Fold(log, script) == [one.effect] + Fold(one.log, script[1..]);
    }
  }

  // ---- What happens to each input, read off the script ----

  /** What an input does to the requests. */
  function OpOf(input: Input): seq<Op> {
    match input
    case Caller(op) => if op.Respond? then [] else [op]
    case Arrives(Decoded(Object(_, None, Id(id), _, _, _)), _) => [Respond(id)]
    case _ => []
  }

  function OpsOf(script: seq<Input>): seq<Op> {
    if script == [] then [] else OpsOf(script[..|script| - 1]) + OpOf(script[|script| - 1])
  }

  /** The requests as they stand before input `n`. */
  function LogAt(script: seq<Input>, n: nat): Log
    requires n <= |script|
  {
    After(EMPTY, OpsOf(script[..n]))
  }

  /** A frame the connection survives, whatever went before it, unless it answers nobody. */
  predicate WellShaped(v: Value, replyWorks: bool) {
    && v.Object? && v.versionOk && !v.id.BadId?
    && (v.verb == Some(UpdateVerb) && v.id.NoId? ==> v.params.Some?)
    && (v.verb == Some(PermissionVerb) && v.id.Id? ==> v.params.Some?)
    && (v.verb.Some? && v.verb.value != PermissionVerb && v.id.Id? ==> replyWorks)
    && (v.verb.None? ==> v.id.Id? && (v.result.Some? || v.error.RpcError?))
  }

  /** The input is routed: a caller's act, or a well-shaped frame that does not answer an unknown request. */
  predicate Passes(log: Log, input: Input) {
    || input.Caller?
    || (&& input.message.Decoded? && WellShaped(input.message.value, input.replyWorks)
        && (IsResponse(input) ==> !Lookup(log, input.message.value.id.id).Unmatched?))
  }

  /** Why an input that is not routed ends the connection. */
  predicate FailsBecause(input: Input, failing: Failing) {
    && (failing.Transport? <==> input.Arrives? && input.message.TransportFailed?)
    && (failing.Transport? ==> failing.reason == input.message.reason)
    && (failing.SendFailed? <==>
          && input.Arrives? && input.message.Decoded? && WellShaped(input.message.value, true)
          && input.message.value.verb.Some? && !input.replyWorks)
    && !failing.StreamClosed?
  }

  lemma OnePasses(log: Log, input: Input)
    ensures One(log, input).Routed? <==> Passes(log, input)
    ensures One(log, input).Routed? ==> One(log, input).log == After(log, OpOf(input))
    ensures One(log, input).Invalid? ==> FailsBecause(input, One(log, input).failing)
  {
    var ops := OpOf(input);
    if |ops| == 1 {
      assert ops[..0] == [];
      assert After(log, ops[..0]) == log;
    }
  }

  lemma {:induction false} AfterComposes(l: Log, a: seq<Op>, b: seq<Op>)
    ensures After(l, a + b) == After(After(l, a), b)
  {
    if b == [] {
      assert a + b == a;
    } else {
      AfterComposes(l, a, b[..|b| - 1]);
      assert (a + b)[..|a + b| - 1] == a + b[..|b| - 1];
    }
  }

  ghost predicate AllPass(script: seq<Input>, n: nat)
    requires n <= |script|
  {
    forall i :: 0 <= i < n ==> Passes(LogAt(script, i), script[i])
  }

  /** After `n` inputs that pass, the rest of what comes out is what the rest of the script lets out. */
  lemma {:induction false} FoldOnward(script: seq<Input>, n: nat)
    requires n <= |script| && AllPass(script, n)
    ensures |Fold(EMPTY, script)| > n
    ensures Fold(EMPTY, script)[n..] == Fold(LogAt(script, n), script[n..])
  {
    if n == 0 {
      assert script[..0] == [] && script[0..] == script;
      assert Fold(EMPTY, script)[0..] == Fold(EMPTY, script);
    } else {
      FoldOnward(script, n - 1);
      LogAdvances(script, n - 1);
      var out, log, rest := Fold(EMPTY, script), LogAt(script, n - 1), script[n - 1..];
      assert rest[0] == script[n - 1] && rest[1..] == script[n..];
      TailOf(out, n - 1, One(log, script[n - 1]).effect, Fold(LogAt(script, n), script[n..]));
    }
  }

  lemma LogAdvances(script: seq<Input>, n: nat)
    requires n < |script| && Passes(LogAt(script, n), script[n])
    ensures One(LogAt(script, n), script[n]).Routed? && One(LogAt(script, n), script[n]).log == LogAt(script, n + 1)
  {
    OnePasses(LogAt(script, n), script[n]);
    assert script[..n + 1][..n] == script[..n];
    AfterComposes(EMPTY, OpsOf(script[..n]), OpOf(script[n]));
  }

  lemma TailOf(out: seq<Effect>, n: nat, head: Effect, tail: seq<Effect>)
    requires n < |out| && out[n..] == [head] + tail
    ensures out[n + 1..] == tail && out[n] == head
  {
    assert out[n..][1..] == out[n + 1..];
  }

  /** The connection ends at the first input that does not pass, for that input's reason, and otherwise with
      its stream. */
  lemma EndsAtFirstFailure(script: seq<Input>, n: nat)
    requires n <= |script| && AllPass(script, n)
    requires n < |script| ==> !Passes(LogAt(script, n), script[n])
    ensures |Fold(EMPTY, script)| == n + 1
    ensures var last := Fold(EMPTY, script)[n];
            && last.Emits? && last.event.Fatal?
            && (n == |script| ==> last.event.failing.StreamClosed?)
            && (n < |script| ==> FailsBecause(script[n], last.event.failing))
  {
    FoldOnward(script, n);
    var out := Fold(EMPTY, script);
    assert out[n] == out[n..][0];
    if n < |script| {
      OnePasses(LogAt(script, n), script[n]);
      assert script[n..][0] == script[n];
    }
  }

  /** The body a response carries. */
  predicate Carries(v: Value, body: Body)
    requires v.Object?
  {
    match body
    case Success(result) => v.result == Some(result)
    case Failure(error) => v.result.None? && v.error == RpcError(error)
  }

  predicate AnswersWith(e: Effect, id: RequestId, kind: Kind, v: Value)
    requires v.Object?
  {
    match kind
    case Direct => e.Answers? && e.request == id && Carries(v, e.body)
    case ForSession(session) =>
      && e.Emits? && e.event.SessionResponse? && e.event.request == id && e.event.session == session
      && Carries(v, e.event.body)
  }

  /** Every response that arrives before the first failure: if its request was issued and not released since,
      exactly its answer comes out, to whom it was registered for and with the body it carries; nothing
      comes out if it is one of the latest 256 that were given up; and otherwise the connection ends. */
  lemma ResponseReachesWhoWaits(script: seq<Input>, n: nat)
    requires n < |script| && AllPass(script, n)
    requires IsResponse(script[n]) && WellShaped(script[n].message.value, script[n].replyWorks)
    ensures var v, ops, out := script[n].message.value, OpsOf(script[..n]), Fold(EMPTY, script);
            var given := v.id.id in Latest(After(EMPTY, ops).retired);
            && |out| > n
            && (forall kind :: Waits(ops, v.id.id, kind) ==> AnswersWith(out[n], v.id.id, kind, v))
            && (given ==> out[n] == Silent)
            && (!given && (forall kind :: !Waits(ops, v.id.id, kind)) ==>
                  |out| == n + 1 && out[n] == Emits(Fatal(InvalidFrame)))
  {
    var v, ops, out := script[n].message.value, OpsOf(script[..n]), Fold(EMPTY, script);
    var log := LogAt(script, n);
    HeadOf(script, n);
    OneResponse(log, script[n]);
    RunIsSound(EMPTY, ops);
    LatestIsSubset(log.retired);
    forall kind
      ensures Waits(ops, v.id.id, kind) <==> Lookup(log, v.id.id) == Pending(kind)
    {
      OpenMeansWaiting(ops, v.id.id, kind);
    }
  }

  /** What comes out at input `n` is what that input alone lets out. */
  lemma HeadOf(script: seq<Input>, n: nat)
    requires n < |script| && AllPass(script, n)
    ensures var one, out := One(LogAt(script, n), script[n]), Fold(EMPTY, script);
            && |out| > n
            && (one.Routed? ==> out[n] == one.effect)
            && (one.Invalid? ==> |out| == n + 1 && out[n] == Emits(Fatal(one.failing)))
  {
    FoldOnward(script, n);
    var out := Fold(EMPTY, script);
    assert out[n] == out[n..][0] && script[n..][0] == script[n];
  }

  lemma OneResponse(log: Log, input: Input)
    requires IsResponse(input) && WellShaped(input.message.value, input.replyWorks)
    ensures var v, one := input.message.value, One(log, input);
            match Lookup(log, v.id.id)
            case Pending(kind) => one.Routed? && AnswersWith(one.effect, v.id.id, kind, v)
            case Abandoned => one.Routed? && one.effect == Silent
            case Unmatched => one.Invalid? && one.failing == InvalidFrame
  {
  }
}
