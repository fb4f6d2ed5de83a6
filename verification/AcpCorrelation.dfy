/** Request correlation of one ACP connection (JSON-RPC 2.0): active entries, and a bounded queue of
    tombstones for requests given up before their response arrived.

    The specification is a log that forgets nothing; the class keeps at most 256 tombstones and is
    proved to answer exactly as the log does when it looks back over its latest 256 retirements. */
module AcpCorrelation {
  type RequestId = nat

  /** Who waits for a response: one direct caller, or a session whose responses stay ordered with its events. */
  datatype Kind = Direct | ForSession(session: string)

  const ABANDONED_REQUEST_CAPACITY: nat := 256

  // ---- The unbounded log ----

  /** Ids below `next` were issued; `retired` lists every request ever given up, oldest first. */
  datatype Log = Log(next: RequestId, open: map<RequestId, Kind>, retired: seq<RequestId>)

  const EMPTY := Log(1, map[], [])

  function Latest(ids: seq<RequestId>): seq<RequestId> {
    if |ids| <= ABANDONED_REQUEST_CAPACITY then ids else ids[|ids| - ABANDONED_REQUEST_CAPACITY..]
  }

  function Issued(l: Log, kind: Kind): Log {
    l.(next := l.next + 1, open := l.open[l.next := kind])
  }

  /** A request that could not be written leaves no trace. */
  function Unsent(l: Log, id: RequestId): Log {
    l.(open := l.open - {id})
  }

  /** Dropping, abandoning or mis-finishing a request that was answered already changes nothing. */
  function Retired(l: Log, id: RequestId): Log {
    if id in l.open then l.(open := l.open - {id}, retired := l.retired + [id]) else l
  }

  function Answered(l: Log, id: RequestId): Log {
    l.(open := l.open - {id})
  }

  datatype Match = Pending(kind: Kind) | Abandoned | Unmatched

  function Lookup(l: Log, id: RequestId): Match {
    if id in l.open then Pending(l.open[id])
    else if id in Latest(l.retired) then Abandoned
    else Unmatched
  }

  /** A caller goes away while its request is being sent. A direct request is guarded by then and is given
      up; a session's request has no guard before it is sent, and its entry stays. */
  function Cancelled(l: Log, id: RequestId): Log {
    if id in l.open && l.open[id].Direct? then Retired(l, id) else l
  }

  datatype Op =
    | Issue(kind: Kind)
    | FailSend(id: RequestId)
    | CancelSend(id: RequestId)
    | Retire(id: RequestId)
    | Respond(id: RequestId)

  function Apply(l: Log, op: Op): Log {
    match op
    case Issue(kind) => Issued(l, kind)
    case FailSend(id) => Unsent(l, id)
    case CancelSend(id) => Cancelled(l, id)
    case Retire(id) => Retired(l, id)
    case Respond(id) => Answered(l, id)
  }

  function After(l: Log, ops: seq<Op>): Log {
    if ops == [] then l else Apply(After(l, ops[..|ops| - 1]), ops[|ops| - 1])
  }

  /** Open and retired requests are issued ones, no request is both, and none is retired twice. */
  ghost predicate Sound(l: Log) {
    && (forall id :: id in l.open ==> id < l.next && id !in l.retired)
    && (forall id :: id in l.retired ==> id < l.next)
    && (forall i, j :: 0 <= i < j < |l.retired| ==> l.retired[i] != l.retired[j])
  }

  lemma {:induction false} RunIsSound(l: Log, ops: seq<Op>)
    requires Sound(l)
    ensures Sound(After(l, ops)) && l.next <= After(l, ops).next && l.retired <= After(l, ops).retired
  {
    if ops != [] {
      RunIsSound(l, ops[..|ops| - 1]);
    }
  }

  /** Neither waiting nor given up. */
  predicate Gone(l: Log, id: RequestId) {
    id < l.next && id !in l.open && id !in l.retired
  }

  /** An answered or unwritten request never matches again: whatever follows, a repeat is unmatched. */
  lemma {:induction false} AnsweredNeverMatchesAgain(l: Log, id: RequestId, ops: seq<Op>)
    requires Sound(l) && Gone(l, id)
    ensures Gone(After(l, ops), id) && Lookup(After(l, ops), id) == Unmatched
  {
    if ops != [] {
      AnsweredNeverMatchesAgain(l, id, ops[..|ops| - 1]);
      RunIsSound(l, ops[..|ops| - 1]);
      LatestIsSubset(After(l, ops).retired);
    } else {
      LatestIsSubset(l.retired);
    }
  }

  lemma LatestIsSubset(ids: seq<RequestId>)
    ensures forall id :: id in Latest(ids) ==> id in ids
  {
  }

  /** A response is looked up to a live request once: answering it makes every repeat unmatched. */
  lemma ResponseMatchesOnce(l: Log, id: RequestId, ops: seq<Op>)
    requires Sound(l) && Lookup(l, id).Pending?
    ensures Lookup(After(Answered(l, id), ops), id) == Unmatched
  {
    AnsweredNeverMatchesAgain(Answered(l, id), id, ops);
  }

  /** An id that was never issued is unmatched, in every run. */
  lemma NeverIssuedIsUnmatched(ops: seq<Op>, id: RequestId)
    requires id >= After(EMPTY, ops).next
    ensures Lookup(After(EMPTY, ops), id) == Unmatched
  {
    RunIsSound(EMPTY, ops);
    LatestIsSubset(After(EMPTY, ops).retired);
  }

  /** The late response to a retired request is ignored exactly while fewer than 256 requests have been
      retired after it. */
  lemma RetiredIsIgnoredWithinWindow(l: Log, p: nat, ops: seq<Op>)
    requires Sound(l) && p < |l.retired|
    ensures var later := After(l, ops);
            |later.retired| > p
            && (Lookup(later, l.retired[p]) ==
                  if |later.retired| - p <= ABANDONED_REQUEST_CAPACITY then Abandoned else Unmatched)
  {
    RunIsSound(l, ops);
    var later := After(l, ops);
    var id := l.retired[p];
    assert later.retired[p] == id;
    if |later.retired| > ABANDONED_REQUEST_CAPACITY && p >= |later.retired| - ABANDONED_REQUEST_CAPACITY {
      assert Latest(later.retired)[p - (|later.retired| - ABANDONED_REQUEST_CAPACITY)] == id;
    }
  }

  /** What releases the entry of a request of this kind. */
  predicate Releases(op: Op, id: RequestId, kind: Kind) {
    op == FailSend(id) || op == Retire(id) || op == Respond(id) || (op == CancelSend(id) && kind.Direct?)
  }

  lemma ReleaseStep(l: Log, op: Op, id: RequestId, kind: Kind)
    requires id < l.next && (id in l.open ==> l.open[id] == kind)
    ensures id < Apply(l, op).next && (id in Apply(l, op).open ==> Apply(l, op).open[id] == kind)
    ensures id in Apply(l, op).open <==> id in l.open && !Releases(op, id, kind)
  {
  }

  /** In every run a request issued at step `k` keeps its entry exactly until it fails to be sent, is given up
      or is answered; cancelling its sending releases it exactly if it is a direct one. */
  lemma {:induction false} OpenExactlyUntilReleased(ops: seq<Op>, k: nat)
    requires k < |ops| && ops[k].Issue?
    ensures var id, l := After(EMPTY, ops[..k]).next, After(EMPTY, ops);
            && id < l.next && (id in l.open ==> l.open[id] == ops[k].kind)
            && (id in l.open <==> forall j :: k < j < |ops| ==> !Releases(ops[j], id, ops[k].kind))
  {
    var n := |ops| - 1;
    var front := ops[..n];
    if k < n {
      OpenExactlyUntilReleased(front, k);
      assert front[..k] == ops[..k];
      ReleaseStep(After(EMPTY, front), ops[n], After(EMPTY, ops[..k]).next, ops[k].kind);
    } else {
      assert front == ops[..k];
    }
  }

  /** What releases a request by giving it up. */
  predicate GivesUp(op: Op, id: RequestId, kind: Kind) {
    op == Retire(id) || (op == CancelSend(id) && kind.Direct?)
  }

  lemma GiveUpStep(l: Log, op: Op, id: RequestId, kind: Kind)
    requires id < l.next && (id in l.open ==> l.open[id] == kind)
    ensures id in Apply(l, op).retired <==> id in l.retired || (id in l.open && GivesUp(op, id, kind))
  {
  }

  /** In every run a request issued at step `k` is among the retired exactly when the first thing that released
      it was giving it up. */
  lemma {:induction false} RetiredExactlyWhenGivenUp(ops: seq<Op>, k: nat)
    requires k < |ops| && ops[k].Issue?
    ensures var id, kind := After(EMPTY, ops[..k]).next, ops[k].kind;
            id in After(EMPTY, ops).retired <==>
              exists j :: k < j < |ops| && GivesUp(ops[j], id, kind)
                          && forall i :: k < i < j ==> !Releases(ops[i], id, kind)
  {
    var n := |ops| - 1;
    var front := ops[..n];
    var id, kind := After(EMPTY, ops[..k]).next, ops[k].kind;
    assert forall i :: 0 <= i < n ==> front[i] == ops[i];
    if k < n {
      assert front[..k] == ops[..k];
      RetiredExactlyWhenGivenUp(front, k);
      OpenExactlyUntilReleased(front, k);
      GiveUpStep(After(EMPTY, front), ops[n], id, kind);
      if j :| k < j < n && GivesUp(front[j], id, kind) && forall i :: k < i < j ==> !Releases(front[i], id, kind) {
        assert GivesUp(ops[j], id, kind) && forall i :: k < i < j ==> !Releases(ops[i], id, kind);
      }
    } else {
      assert front == ops[..k];
      RunIsSound(EMPTY, front);
    }
  }

  /** Whatever is open was issued at some step. */
  lemma {:induction false} FindIssue(ops: seq<Op>, id: RequestId) returns (k: nat)
    requires id in After(EMPTY, ops).open
    ensures k < |ops| && ops[k].Issue? && After(EMPTY, ops[..k]).next == id
  {
    var n := |ops| - 1;
    var front := ops[..n];
    if id in After(EMPTY, front).open {
      k := FindIssue(front, id);
      assert front[..k] == ops[..k];
    } else {
      k := n;
    }
  }

  /** Request `id` was issued for `kind` and nothing has released it since. */
  ghost predicate Waits(ops: seq<Op>, id: RequestId, kind: Kind) {
    exists k :: 0 <= k < |ops| && ops[k] == Issue(kind) && After(EMPTY, ops[..k]).next == id
                && forall j :: k < j < |ops| ==> !Releases(ops[j], id, kind)
  }

  lemma OpenMeansWaiting(ops: seq<Op>, id: RequestId, kind: Kind)
    ensures Waits(ops, id, kind) <==> Lookup(After(EMPTY, ops), id) == Pending(kind)
  {
    var l := After(EMPTY, ops);
    if Waits(ops, id, kind) {
      var k :| 0 <= k < |ops| && ops[k] == Issue(kind) && After(EMPTY, ops[..k]).next == id
               && forall j :: k < j < |ops| ==> !Releases(ops[j], id, kind);
      OpenExactlyUntilReleased(ops, k);
    }
    if id in l.open && l.open[id] == kind {
      var k := FindIssue(ops, id);
      OpenExactlyUntilReleased(ops, k);
    }
  }

  /** A session's request whose sending was cancelled leaks: while the connection lasts and no answer to it
      arrives after all, nothing takes its entry away. */
  lemma CancelledSessionSendLeaks(session: string, more: seq<Op>)
    requires forall j :: 0 <= j < |more| ==> !Releases(more[j], 1, ForSession(session))
    ensures 1 in After(EMPTY, [Issue(ForSession(session)), CancelSend(1)] + more).open
  {
    var ops := [Issue(ForSession(session)), CancelSend(1)] + more;
    assert After(EMPTY, ops[..0]) == EMPTY;
    forall j | 0 < j < |ops|
      ensures !Releases(ops[j], 1, ForSession(session))
    {
      assert j >= 2 ==> ops[j] == more[j - 2];
    }
    OpenExactlyUntilReleased(ops, 0);
  }

  // ---- The bounded implementation ----

  class PendingRequests {
    var nextRequestId: RequestId
    var active: map<RequestId, Kind>
    var abandoned: seq<RequestId>
    ghost var log: Log

    ghost predicate Valid()
      reads this
    {
      && Sound(log)
      && nextRequestId == log.next
      && active == log.open
      && abandoned == Latest(log.retired)
    }

    constructor ()
      ensures Valid() && log == EMPTY
    {
      nextRequestId, active, abandoned, log := 1, map[], [], EMPTY;
    }

    /** Takes a fresh id and registers the request until it is answered or given up. */
    method Insert(kind: Kind) returns (id: RequestId)
      requires Valid()
      modifies this
      ensures Valid() && log == Issued(old(log), kind)
      ensures id == old(log).next && Lookup(old(log), id) == Unmatched && Lookup(log, id) == Pending(kind)
    {
      LatestIsSubset(log.retired);
      id := nextRequestId;
      nextRequestId := nextRequestId + 1;
      active := active[id := kind];
      log := Issued(log, kind);
    }

    method RemoveActive(id: RequestId)
      requires Valid()
      modifies this
      ensures Valid() && log == Unsent(old(log), id)
    {
      active := active - {id};
      log := Unsent(log, id);
    }

    /** Retires a request, evicting the oldest tombstone when the queue is full. */
    method Abandon(id: RequestId)
      requires Valid()
      modifies this
      ensures Valid() && log == Retired(old(log), id)
      ensures |abandoned| <= ABANDONED_REQUEST_CAPACITY
    {
      if id !in active {
        return;
      }
      active := active - {id};
      if |abandoned| == ABANDONED_REQUEST_CAPACITY {
        abandoned := abandoned[1..];
      }
      abandoned := abandoned + [id];
      log := Retired(log, id);
    }

    /** The sending of a request is cancelled. */
    method CancelSend(id: RequestId)
      requires Valid()
      modifies this
      ensures Valid() && log == Cancelled(old(log), id)
      ensures id in active <==> id in old(active) && old(active)[id].ForSession?
    {
      if id in active && active[id].Direct? {
        Abandon(id);
      }
    }

    method TakeResponse(id: RequestId) returns (m: Match)
      requires Valid()
      modifies this
      ensures Valid() && m == Lookup(old(log), id) && log == Answered(old(log), id)
    {
      if id in active {
        m := Pending(active[id]);
        active := active - {id};
      } else if id in abandoned {
        m := Abandoned;
      } else {
        m := Unmatched;
      }
      log := Answered(log, id);
    }

    /** Finishing a request with a response that is not its own retires it. */
    method Finish(id: RequestId, session: string, responseId: RequestId, responseSession: string)
      returns (owned: bool)
      requires Valid()
      modifies this
      ensures Valid() && (owned <==> responseId == id && responseSession == session)
      ensures log == if owned then old(log) else Retired(old(log), id)
      ensures !owned ==> id !in active
    {
      owned := responseId == id && responseSession == session;
      if !owned {
        Abandon(id);
      }
    }

    /** The end of the connection releases everyone who waits. */
    method Clear()
      requires Valid()
      modifies this
      ensures Valid() && active == map[] && abandoned == []
      ensures log == Log(old(log).next, map[], [])
    {
      active, abandoned := map[], [];
      log := Log(log.next, map[], []);
    }
  }
}
