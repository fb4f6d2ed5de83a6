/** What one worktree execution may do, stated over the history of its actions.

    The life of an execution is a sequence of passes. A crash may end a pass at any point, and the next
    pass, run by whichever process recovers, starts from the durable progress the previous one left.
    `Lawful` says of each event of a pass that what came before it permits it; the lemmas at the end
    read the promises off a lawful life. */
module ExecutionLaw {
  import opened Basics
  import opened WorktreeFacts

  datatype Command = Ensure | Remove

  datatype Stage = Create | CleanupCreation | RemoveWorktree | RemoveBranch

  datatype Result =
    | Ready(path: Path, branch: string, baseCommit: string)
    | Failed(code: FailureCode)
    | Removed(alreadyAbsent: bool)
    | RemovalFailed(code: FailureCode)

  datatype Progress =
    | Accepted
    | Running(stage: Stage)
    | Unknown(stage: Stage)
    | Completed(result: Result)

  datatype Mutation = CreateWorktree | DeleteWorktree | DeleteBranch | DeleteEmptyDirectory

  /** `retired` is the resource row's `Removed` state, fixed while its execution is unfinished. */
  datatype Job = Job(command: Command, target: Target, retired: bool)

  /** `Declined` is an ownership check or a creation that was refused; `Blind` is a look that was. */
  datatype Event =
    | Fenced
    | Persisted(progress: Progress)
    | Verified
    | Declined(code: FailureCode)
    | Observed(facts: Observation)
    | Blind
    | Mutated(mutation: Mutation)

  /** One pass, oldest event innermost. */
  datatype Pass = Began(progress: Progress) | Then(before: Pass, event: Event)

  function Start(h: Pass): Progress {
    match h
    case Began(p) => p
    case Then(before, _) => Start(before)
  }

  function Events(h: Pass): seq<Event> {
    match h
    case Began(_) => []
    case Then(before, e) => Events(before) + [e]
  }

  /** The stage a command's durable intent must name before it mutates. */
  function IntentFor(command: Command, m: Mutation): Stage {
    match (command, m)
    case (Ensure, CreateWorktree) => Create
    case (Ensure, _) => CleanupCreation
    case (Remove, DeleteBranch) => RemoveBranch
    case (Remove, _) => RemoveWorktree
  }

  predicate StageBelongs(command: Command, stage: Stage) {
    command.Ensure? <==> stage.Create? || stage.CleanupCreation?
  }

  /** What the driver knows at one point of a pass: `fenced` says the process attempts of earlier passes
      are known to have ended, `first` and `seen` are the pass's first and latest
      observation, `untouched` says no mutation followed `seen`, `intent` says the pass has written its
      progress, `verified` says ownership was rechecked after that write, and `trusted` that it was
      rechecked after the latest mutation. */
  datatype Digest = Digest(
    progress: Progress,
    fenced: bool,
    first: Option<Observation>,
    seen: Option<Observation>,
    untouched: bool,
    intent: bool,
    verified: bool,
    trusted: bool,
    creates: nat)

  function Advance(d: Digest, e: Event): Digest {
    match e
    case Fenced => d.(fenced := true)
    case Persisted(p) => d.(progress := p, intent := true, verified := false)
    case Verified => d.(verified := d.intent, trusted := true)
    case Declined(_) => d
    case Blind => d
    case Observed(o) => d.(first := if d.first.None? then Some(o) else d.first, seen := Some(o), untouched := true)
    case Mutated(m) =>
      d.(untouched := false, trusted := false, creates := d.creates + if m.CreateWorktree? then 1 else 0)
  }

  function Know(h: Pass): Digest {
    match h
    case Began(p) => Digest(p, false, None, None, false, false, false, false, 0)
    case Then(before, e) => Advance(Know(before), e)
  }

  /** What bears on a pass's verdict: `looked` says it has looked and `blind` that its latest look was
      refused, `again` that the latest look was not its first, `tried` that it has announced a creation,
      `judged` that its latest look came after that, and `reason` why the creation was refused. */
  datatype Trial = Trial(looked: bool, blind: bool, again: bool, tried: bool, judged: bool, reason: FailureCode)

  function Follow(t: Trial, e: Event): Trial {
    match e
    case Persisted(Running(Create)) => t.(tried := true, reason := OperationFailed)
    case Declined(code) => t.(reason := code)
    case Observed(_) => t.(looked := true, blind := false, again := t.looked, judged := t.tried)
    case Blind => t.(blind := true)
    case _ => t
  }

  function Judge(h: Pass): Trial {
    match h
    case Began(_) => Trial(false, false, false, false, false, OperationFailed)
    case Then(before, e) => Follow(Judge(before), e)
  }

  /** The residue of an interrupted creation that an Ensure may clear away. */
  predicate Clearable(o: Observation, t: Target) {
    && o.checkout.None?
    && (o.branch == Some(t.baseCommit) || o.branch.None?)
    && !o.branchElsewhere
    && o.directory != DirNonempty
  }

  /** The evidence under which a mutation may be issued. */
  predicate Justified(job: Job, d: Digest, m: Mutation)
    requires d.seen.Some?
  {
    var o := d.seen.value;
    match (job.command, m)
    case (Ensure, CreateWorktree) => d.untouched && Absent(o) && d.creates == 0
    case (Ensure, DeleteWorktree) => false
    case (Ensure, DeleteBranch) => d.untouched && Clearable(o, job.target) && o.branch == Some(job.target.baseCommit)
    case (Ensure, DeleteEmptyDirectory) => d.creates == 0 && Clearable(o, job.target) && o.directory == DirEmpty
    case (Remove, CreateWorktree) => false
    case (Remove, DeleteWorktree) => d.untouched && o.checkout.Some? && !o.branchElsewhere
    case (Remove, DeleteEmptyDirectory) =>
      d.untouched && o.checkout.None? && o.directory == DirEmpty && !o.branchElsewhere
    case (Remove, DeleteBranch) =>
      d.untouched && o.checkout.None? && o.directory == DirAbsent && !o.branchElsewhere
  }

  /** The evidence a terminal result must rest on. */
  predicate Backs(job: Job, first: Observation, o: Observation, r: Result) {
    match r
    case Ready(path, branch, base) =>
      && job.command.Ensure?
      && ReadyFacts(o, job.target)
      && path == job.target.path && branch == job.target.branch && base == job.target.baseCommit
    case Failed(code) => job.command.Ensure? && Absent(o) && code != ResultUnknown
    case Removed(already) => job.command.Remove? && Absent(o) && (already <==> Absent(first))
    case RemovalFailed(code) => job.command.Remove? && job.retired && !Absent(o) && code == WorktreeConflict
  }

  /** Nothing was there when the pass last looked, and it has mutated nothing since. */
  predicate SawNothing(d: Digest, t: Trial) {
    d.seen.Some? && !t.blind && d.untouched && Absent(d.seen.value)
  }

  /** What a pass knows decides its execution. A creation is decided by a checkout that is ready at the first
      look, or by what its own attempt left: such a checkout, or nothing. A removal is decided by absence, or
      by something found where ownership is retired. */
  predicate Conclusive(job: Job, d: Digest, t: Trial) {
    match job.command
    case Ensure =>
      || (SawNothing(d, t) && t.judged)
      || (&& d.seen.Some? && !t.blind && d.untouched && ReadyFacts(d.seen.value, job.target)
          && (!t.again || t.judged))
    case Remove => SawNothing(d, t) || (job.retired && d.first.Some? && !Absent(d.first.value))
  }

  /** A result is sealed only on conclusive knowledge, and a failure only with the reason that was given. */
  predicate Earned(job: Job, h: Pass) {
    h.Then? ==>
      && Earned(job, h.before)
      && (h.event.Persisted? && h.event.progress.Completed? ==>
            && Conclusive(job, Know(h.before), Judge(h.before))
            && (h.event.progress.result.Failed? ==>
                  Judge(h.before).judged && h.event.progress.result.code == Judge(h.before).reason))
  }

  predicate Retains(p: Progress, stage: Stage) {
    p == Running(stage) || p == Unknown(stage)
  }

  predicate Allowed(job: Job, d: Digest, e: Event) {
    match e
    case Fenced => true
    case Verified => d.fenced
    case Declined(_) => true
    case Observed(_) => d.fenced
    case Blind => true
    case Mutated(m) =>
      && d.progress == Running(IntentFor(job.command, m))
      && d.verified
      && d.seen.Some?
      && Justified(job, d, m)
    case Persisted(p) =>
      && !d.progress.Completed?
      && !p.Accepted?
      && (d.progress.Accepted? ==> d.fenced)
      && (p.Running? || p.Unknown? ==> StageBelongs(job.command, p.stage))
      && (p == Unknown(CleanupCreation) ==> Retains(d.progress, CleanupCreation))
      && (p == Running(CleanupCreation) ==>
            && d.seen.Some? && d.untouched && Clearable(d.seen.value, job.target)
            && (d.seen.value.branch == Some(job.target.baseCommit) || Retains(d.progress, CleanupCreation)))
      && (p.Completed? ==>
            && d.seen.Some? && d.first.Some? && d.untouched && d.trusted
            && Backs(job, d.first.value, d.seen.value, p.result))
  }

  predicate Lawful(job: Job, h: Pass) {
    h.Then? ==> Lawful(job, h.before) && Allowed(job, Know(h.before), h.event)
  }

  /** A whole life: the first pass starts Accepted and each later one from what was left durable. */
  ghost predicate LawfulLife(job: Job, life: seq<Pass>) {
    && (forall n :: 0 <= n < |life| ==> Lawful(job, life[n]) && Earned(job, life[n]))
    && (|life| > 0 ==> Start(life[0]) == Accepted)
    && (forall n :: 0 < n < |life| ==> Start(life[n]) == Know(life[n - 1]).progress)
  }

  /** A retained stage always belongs to the execution's own command. */
  lemma {:induction false} StageIsOurs(job: Job, h: Pass)
    requires Lawful(job, h)
    requires StageFits(job, Start(h))
    ensures StageFits(job, Know(h).progress)
  {
    if h.Then? {
      StageIsOurs(job, h.before);
    }
  }

  predicate StageFits(job: Job, p: Progress) {
    p.Running? || p.Unknown? ==> StageBelongs(job.command, p.stage)
  }

  // ---- Promises read off one lawful pass ----

  lemma {:induction false} LawfulAt(job: Job, h: Pass, i: nat) returns (before: Pass)
    requires Lawful(job, h) && i < |Events(h)|
    ensures Events(before) == Events(h)[..i] && Start(before) == Start(h)
    ensures Lawful(job, before) && Allowed(job, Know(before), Events(h)[i])
  {
    if i == |Events(h)| - 1 {
      before := h.before;
    } else {
      before := LawfulAt(job, h.before, i);
    }
  }

  /** Nothing is looked at before the pass has fenced what ran earlier. */
  lemma {:induction false} SeenIsFenced(job: Job, h: Pass)
    requires Lawful(job, h) && Know(h).first.Some?
    ensures Know(h).fenced
  {
    if h.Then? && !h.event.Observed? {
      SeenIsFenced(job, h.before);
    }
  }

  lemma {:induction false} FindFence(h: Pass) returns (f: nat)
    requires Know(h).fenced
    ensures f < |Events(h)| && Events(h)[f] == Fenced
  {
    if h.event.Fenced? {
      f := |Events(h)| - 1;
    } else {
      f := FindFence(h.before);
    }
  }

  /** Every observation of a pass, and the write that takes a record out of Accepted, follows the fencing
      of whatever earlier passes may have left running. */
  lemma {:induction false} FencedFirst(job: Job, h: Pass, i: nat) returns (f: nat)
    requires Lawful(job, h) && i < |Events(h)|
    requires Events(h)[i].Observed? || (Start(h).Accepted? && Events(h)[i].Persisted?)
    ensures f < i && Events(h)[f] == Fenced
  {
    var before := LawfulAt(job, h, i);
    if Know(before).fenced {
      f := FindFence(before);
    } else {
      AcceptedUntilFenced(job, before);
      assert false;
    }
  }

  lemma {:induction false} AcceptedUntilFenced(job: Job, h: Pass)
    requires Lawful(job, h) && Start(h).Accepted? && !Know(h).fenced
    ensures Know(h).progress.Accepted?
  {
    if h.Then? {
      AcceptedUntilFenced(job, h.before);
    }
  }

  /** Every mutation follows, within its own pass, the durable intent naming its stage and then a
      successful ownership check, with no other durable write in between. */
  lemma {:induction false} MutationFollowsIntent(job: Job, h: Pass, i: nat) returns (j: nat, k: nat)
    requires Lawful(job, h) && i < |Events(h)| && Events(h)[i].Mutated?
    ensures j < k < i
    ensures Events(h)[j] == Persisted(Running(IntentFor(job.command, Events(h)[i].mutation)))
    ensures Events(h)[k] == Verified
    ensures forall n :: j < n < i ==> !Events(h)[n].Persisted?
  {
    var before := LawfulAt(job, h, i);
    j, k := FindIntent(before);
  }

  lemma {:induction false} FindIntent(h: Pass) returns (j: nat, k: nat)
    requires Know(h).verified
    ensures j < k < |Events(h)|
    ensures Events(h)[j] == Persisted(Know(h).progress)
    ensures Events(h)[k] == Verified
    ensures forall n :: j < n < |Events(h)| ==> !Events(h)[n].Persisted?
  {
    if h.event.Verified? {
      k := |Events(h)| - 1;
      j := FindPersist(h.before);
    } else {
      j, k := FindIntent(h.before);
    }
  }

  lemma {:induction false} FindPersist(h: Pass) returns (j: nat)
    requires Know(h).intent
    ensures j < |Events(h)|
    ensures Events(h)[j] == Persisted(Know(h).progress)
    ensures forall n :: j < n < |Events(h)| ==> !Events(h)[n].Persisted?
  {
    if h.event.Persisted? {
      j := |Events(h)| - 1;
    } else {
      j := FindPersist(h.before);
    }
  }

  /** The observation the driver last made in its pass, and whether a mutation came after it. */
  lemma {:induction false} FindSeen(h: Pass) returns (k: nat)
    requires Know(h).seen.Some?
    ensures k < |Events(h)| && Events(h)[k] == Observed(Know(h).seen.value)
    ensures forall n :: k < n < |Events(h)| ==> !Events(h)[n].Observed?
    ensures Know(h).untouched ==> forall n :: k < n < |Events(h)| ==> !Events(h)[n].Mutated?
  {
    if h.event.Observed? {
      k := |Events(h)| - 1;
    } else {
      k := FindSeen(h.before);
    }
  }

  lemma FirstStep(d: Digest, e: Event)
    ensures Advance(d, e).first == if e.Observed? && d.first.None? then Some(e.facts) else d.first
    ensures Advance(d, e).progress == if e.Persisted? then e.progress else d.progress
  {
  }

  lemma {:induction false} FindFirst(h: Pass) returns (f: nat)
    requires Know(h).first.Some?
    ensures f < |Events(h)| && Events(h)[f] == Observed(Know(h).first.value)
    ensures forall n :: 0 <= n < f ==> !Events(h)[n].Observed?
  {
    FirstStep(Know(h.before), h.event);
    if Know(h.before).first.None? {
      f := |Events(h)| - 1;
      NothingSeenYet(h.before);
    } else {
      f := FindFirst(h.before);
    }
  }

  lemma {:induction false} NothingSeenYet(h: Pass)
    requires Know(h).first.None?
    ensures forall n :: 0 <= n < |Events(h)| ==> !Events(h)[n].Observed?
  {
    if h.Then? {
      NothingSeenYet(h.before);
    }
  }

  /** Every sealed result rests on an observation of the same pass, `k`, that no mutation and no later
      observation followed; a removal's outcome is decided by the first observation of that pass, `f`. */
  lemma {:induction false} SealIsBacked(job: Job, h: Pass, i: nat) returns (f: nat, k: nat)
    requires Lawful(job, h) && i < |Events(h)|
    requires Events(h)[i].Persisted? && Events(h)[i].progress.Completed?
    ensures f <= k < i && Events(h)[f].Observed? && Events(h)[k].Observed?
    ensures Backs(job, Events(h)[f].facts, Events(h)[k].facts, Events(h)[i].progress.result)
    ensures forall n :: 0 <= n < f ==> !Events(h)[n].Observed?
    ensures forall n :: k < n < i ==> !Events(h)[n].Mutated? && !Events(h)[n].Observed?
  {
    var before := LawfulAt(job, h, i);
    f := FindFirst(before);
    k := FindSeen(before);
    assert Events(before)[k].Observed?;
  }

  /** Every sealed result follows, within its pass, a successful ownership check after the last mutation. */
  lemma {:induction false} SealIsTrusted(job: Job, h: Pass, i: nat) returns (k: nat)
    requires Lawful(job, h) && i < |Events(h)|
    requires Events(h)[i].Persisted? && Events(h)[i].progress.Completed?
    ensures k < i && Events(h)[k] == Verified
    ensures forall n :: k < n < i ==> !Events(h)[n].Mutated?
  {
    var before := LawfulAt(job, h, i);
    k := FindCheck(before);
  }

  lemma {:induction false} FindCheck(h: Pass) returns (k: nat)
    requires Know(h).trusted
    ensures k < |Events(h)| && Events(h)[k] == Verified
    ensures forall n :: k < n < |Events(h)| ==> !Events(h)[n].Mutated?
  {
    if h.event.Verified? {
      k := |Events(h)| - 1;
    } else {
      k := FindCheck(h.before);
    }
  }

  lemma {:induction false} EarnedAt(job: Job, h: Pass, i: nat) returns (before: Pass)
    requires Earned(job, h) && i < |Events(h)|
    requires Events(h)[i].Persisted? && Events(h)[i].progress.Completed? && Events(h)[i].progress.result.Failed?
    ensures Events(before) == Events(h)[..i]
    ensures Judge(before).judged && Events(h)[i].progress.result.code == Judge(before).reason
  {
    if i == |Events(h)| - 1 {
      before := h.before;
    } else {
      before := EarnedAt(job, h.before, i);
    }
  }

  lemma {:induction false} JudgedWasTried(h: Pass)
    requires Judge(h).judged
    ensures Judge(h).tried
  {
    if !h.event.Observed? {
      JudgedWasTried(h.before);
    }
  }

  /** What was found out about the announced creation since: nothing, or the latest refusal. */
  lemma {:induction false} FindReason(h: Pass) returns (j: nat, k: nat)
    requires Judge(h).tried
    ensures j <= k < |Events(h)| && Events(h)[j] == Persisted(Running(Create))
    ensures j < k ==> Events(h)[k] == Declined(Judge(h).reason)
    ensures j == k ==> Judge(h).reason == OperationFailed
    ensures forall n :: k < n < |Events(h)| ==> !Events(h)[n].Declined?
  {
    if h.event == Persisted(Running(Create)) {
      j, k := |Events(h)| - 1, |Events(h)| - 1;
    } else {
      j, k := FindReason(h.before);
      if h.event.Declined? {
        k := |Events(h)| - 1;
      }
    }
  }

  /** A creation sealed as failed was announced in the same pass, at `j`, and the code is that of the latest
      refusal since, at `k`, or the general one where nothing was refused. */
  lemma {:induction false} FailureIsTheReported(job: Job, h: Pass, i: nat) returns (j: nat, k: nat)
    requires Earned(job, h) && i < |Events(h)|
    requires Events(h)[i].Persisted? && Events(h)[i].progress.Completed? && Events(h)[i].progress.result.Failed?
    ensures j <= k < i && Events(h)[j] == Persisted(Running(Create))
    ensures j < k ==> Events(h)[k] == Declined(Events(h)[i].progress.result.code)
    ensures j == k ==> Events(h)[i].progress.result.code == OperationFailed
    ensures forall n :: k < n < i ==> !Events(h)[n].Declined?
  {
    var before := EarnedAt(job, h, i);
    JudgedWasTried(before);
    j, k := FindReason(before);
    forall n | 0 <= n < i
      ensures Events(before)[n] == Events(h)[n]
    {
    }
  }

  /** A pass issues at most one creation. */
  lemma {:induction false} OneCreatePerPass(job: Job, h: Pass, i: nat, j: nat)
    requires Lawful(job, h) && i < |Events(h)| && j < |Events(h)|
    requires Events(h)[i] == Mutated(CreateWorktree) && Events(h)[j] == Mutated(CreateWorktree)
    ensures i == j
  {
    if i < j {
      var before := LawfulAt(job, h, j);
      CreatesAreCounted(before, i);
    } else if j < i {
      var before := LawfulAt(job, h, i);
      CreatesAreCounted(before, j);
    }
  }

  lemma {:induction false} CreatesAreCounted(h: Pass, i: nat)
    requires i < |Events(h)| && Events(h)[i] == Mutated(CreateWorktree)
    ensures Know(h).creates > 0
  {
    if i < |Events(h)| - 1 {
      CreatesAreCounted(h.before, i);
    }
  }

  /** An Ensure never removes a worktree, and each thing it does remove is the residue its own latest
      observation showed: a branch sitting at the frozen base with no checkout, or an empty directory.
      It creates only from observed absence. */
  lemma {:induction false} EnsureIsNeverDestructive(job: Job, h: Pass, i: nat) returns (k: nat)
    requires Lawful(job, h) && i < |Events(h)| && Events(h)[i].Mutated? && job.command.Ensure?
    ensures k < i && Events(h)[k].Observed?
    ensures forall n :: k < n < i ==> !Events(h)[n].Observed?
    ensures Events(h)[i].mutation != DeleteWorktree
    ensures Events(h)[k].facts.checkout.None? && !Events(h)[k].facts.branchElsewhere
    ensures Events(h)[i].mutation == DeleteBranch ==> Events(h)[k].facts.branch == Some(job.target.baseCommit)
    ensures Events(h)[i].mutation == DeleteEmptyDirectory ==> Events(h)[k].facts.directory == DirEmpty
    ensures Events(h)[i].mutation == CreateWorktree ==> Absent(Events(h)[k].facts)
    ensures Events(h)[i].mutation != DeleteEmptyDirectory ==> forall n :: k < n < i ==> !Events(h)[n].Mutated?
  {
    var before := LawfulAt(job, h, i);
    k := FindSeen(before);
  }

  // ---- Promises read off a whole life, crashes included ----

  predicate Idle(h: Pass) {
    forall e :: e in Events(h) ==> !e.Mutated? && !e.Persisted?
  }

  lemma {:induction false} AcceptedPassIsIdle(job: Job, h: Pass)
    requires Lawful(job, h) && Know(h).progress.Accepted?
    ensures Start(h) == Accepted && Idle(h)
  {
    if h.Then? {
      AcceptedPassIsIdle(job, h.before);
    }
  }

  /** An execution still recorded as Accepted has never been the cause of a mutation. */
  lemma {:induction false} AcceptedMeansUntouched(job: Job, life: seq<Pass>)
    requires LawfulLife(job, life) && |life| > 0 && Know(life[|life| - 1]).progress.Accepted?
    ensures forall n :: 0 <= n < |life| ==> Idle(life[n])
  {
    AcceptedPassIsIdle(job, life[|life| - 1]);
    if |life| > 1 {
      AcceptedMeansUntouched(job, life[..|life| - 1]);
    }
  }

  lemma {:induction false} SealedPassIsIdle(job: Job, h: Pass)
    requires Lawful(job, h) && Start(h).Completed?
    ensures Know(h).progress == Start(h) && Idle(h)
  {
    if h.Then? {
      SealedPassIsIdle(job, h.before);
    }
  }

  /** A pass that starts without a cleanup and ends with one has seen the branch at the frozen base, with no
      checkout and no files. */
  lemma {:induction false} CleanupBeginsAtOwnBranch(job: Job, h: Pass) returns (k: nat)
    requires Lawful(job, h) && Retains(Know(h).progress, CleanupCreation) && !Retains(Start(h), CleanupCreation)
    ensures k < |Events(h)| && Events(h)[k].Observed?
    ensures Clearable(Events(h)[k].facts, job.target) && Events(h)[k].facts.branch == Some(job.target.baseCommit)
  {
    FirstStep(Know(h.before), h.event);
    if Retains(Know(h.before).progress, CleanupCreation) {
      k := CleanupBeginsAtOwnBranch(job, h.before);
    } else {
      k := FindSeen(h.before);
    }
  }

  /** An execution that is at clearing residue once saw, in some pass, its own branch without a checkout. */
  lemma {:induction false} CleanupIsWarranted(job: Job, life: seq<Pass>) returns (n: nat, k: nat)
    requires LawfulLife(job, life) && |life| > 0
    requires Retains(Know(life[|life| - 1]).progress, CleanupCreation)
    ensures n < |life| && k < |Events(life[n])| && Events(life[n])[k].Observed?
    ensures Clearable(Events(life[n])[k].facts, job.target)
    ensures Events(life[n])[k].facts.branch == Some(job.target.baseCommit)
  {
    var last := life[|life| - 1];
    if Retains(Start(last), CleanupCreation) {
      assert |life| > 1;
      n, k := CleanupIsWarranted(job, life[..|life| - 1]);
    } else {
      n := |life| - 1;
      k := CleanupBeginsAtOwnBranch(job, last);
    }
  }

  /** Once a result is durable, no later pass writes, mutates or changes it. */
  lemma {:induction false} SealIsFinal(job: Job, life: seq<Pass>, i: nat, n: nat)
    requires LawfulLife(job, life) && i < n < |life| && Know(life[i]).progress.Completed?
    ensures Know(life[n]).progress == Know(life[i]).progress && Idle(life[n])
  {
    if i < n - 1 {
      SealIsFinal(job, life, i, n - 1);
    }
    SealedPassIsIdle(job, life[n]);
  }
}
