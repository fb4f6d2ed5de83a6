/** The fact-driven driver of one accepted worktree execution, and its recovery.

    The process may die at any collaborator call (`Died`), Git may refuse, half-do or be killed inside a
    mutation, and unless `quiet` the rest of the world may rewrite the repository between any two calls.
    The driver is proved to keep its history lawful whatever happens, and to converge once the world calms
    down unless a killed command left a registration that no longer verifies. */
module WorktreeDriver {
  import opened Basics
  import opened WorktreeFacts
  import opened ExecutionLaw

  datatype CreatePass = Recovery | AfterMutation

  /** Whether a Git worktree command is killed after it began and before its registration is in order. */
  datatype Kill = Never | Perhaps | Always

  /** What an interrupted or failed creation may leave where nothing was before; facts that no longer
      verify only where it was killed. */
  predicate CreateResidue(t: Target, kill: Kill, after: Option<Observation>) {
    if after.None? then !kill.Never?
    else
      || Absent(after.value)
      || after.value == Observation(None, Some(t.baseCommit), DirAbsent, false)
      || after.value == Observation(None, Some(t.baseCommit), DirEmpty, false)
      || after.value == FullCheckout(t)
  }

  /** What a forced removal may leave of `before`, where the branch and its other uses stay. */
  predicate RemoveResidue(before: Observation, kill: Kill, after: Option<Observation>) {
    if after.None? then !kill.Never?
    else
      || after.value == before
      || after.value == before.(checkout := None, directory := DirEmpty)
      || after.value == before.(checkout := None, directory := DirAbsent)
  }

  /** Exactly the evidence from which one undisturbed, fault-free pass succeeds. Evidence that cannot be
      had, because a registration offends or the target is no directory, is not among it. */
  predicate Recoverable(job: Job, p: Progress, view: Option<Observation>) {
    view.Some? && RecoverableFrom(job, p, view.value)
  }

  predicate RecoverableFrom(job: Job, p: Progress, o: Observation) {
    match job.command
    case Ensure =>
      || ReadyFacts(o, job.target)
      || Absent(o)
      || (&& !p.Accepted?
          && Clearable(o, job.target)
          && (o.branch.Some? || Retains(p, CleanupCreation)))
    case Remove =>
      && !o.branchElsewhere
      && (o.checkout.Some? || o.directory != DirNonempty)
      && (job.retired ==> Absent(o))
  }

  /** A pass from this evidence issues a Git worktree command. */
  predicate NeedsGit(job: Job, o: Observation) {
    if job.command.Ensure? then !ReadyFacts(o, job.target) else o.checkout.Some?
  }

  /** The stage a pass starts with: the one retained, or the command's first. */
  function StageAt(job: Job, p: Progress): Stage
    requires !p.Completed?
  {
    if p.Accepted? then (if job.command.Ensure? then Create else RemoveWorktree) else p.stage
  }

  /** Something a removal must not touch: a use of the branch elsewhere, or files that are not a checkout. */
  predicate Foreign(o: Observation) {
    o.branchElsewhere || (o.checkout.None? && o.directory == DirNonempty)
  }

  /** The pass has looked once, saw something, and has announced no creation. */
  predicate FirstLook(t: Trial) {
    t.looked && !t.blind && !t.again && !t.tried && !t.judged
  }

  /** How a look that shows something moves the trial on. */
  predicate Seeing(before: Trial, after: Trial) {
    && after.looked && !after.blind && after.again == before.looked
    && after.tried == before.tried && after.judged == before.tried && after.reason == before.reason
  }

  predicate Successful(p: Progress) {
    p.Completed? && (p.result.Ready? || p.result.Removed?)
  }

  /** The command's own success is recorded, and the facts bear it out. */
  predicate Attained(job: Job, p: Progress, view: Option<Observation>) {
    && p.Completed?
    && view.Some?
    && (job.command.Ensure? ==>
          && p.result == Ready(job.target.path, job.target.branch, job.target.baseCommit)
          && view.value.branch.Some?
          && view.value == Observation(Some(Checkout(job.target.path, job.target.branch, view.value.branch.value)),
                                       view.value.branch, DirNonempty, false))
    && (job.command.Remove? ==> p.result.Removed? && view.value == Observation(None, None, DirAbsent, false))
  }

  /** The creation is recorded as failed, and indeed nothing is there. */
  predicate FailedCleanly(job: Job, p: Progress, view: Option<Observation>) {
    && job.command.Ensure? && p.Completed? && p.result.Failed?
    && view == Some(Observation(None, None, DirAbsent, false))
  }

  /** A sealed result rests on what was there before the pass and on what is there after it. */
  predicate Borne(job: Job, first: Option<Observation>, last: Option<Observation>, p: Progress) {
    p.Completed? ==> first.Some? && last.Some? && Backs(job, first.value, last.value, p.result)
  }

  class WorktreeRun {
    const job: Job
    /** The durable record. */
    var record: Progress
    /** The repository and filesystem as they really are. */
    var site: Site
    /** Whether configuration, topology and the resource row still grant this execution its target. */
    var owned: bool
    /** No one but this driver touches the target. */
    var quiet: bool
    /** No collaborator refuses a call it could carry out; the process may still die inside it. */
    var obliging: bool
    /** No collaborator fails and the process does not die. */
    var faultless: bool
    /** Whether Git worktree commands are killed half way. */
    var kill: Kill
    /** The passes before the current one, and the current one. */
    ghost var past: seq<Pass>
    ghost var pass: Pass
    /** The durable progress the current pass started from. */
    ghost var began: Progress

    ghost function Life(): seq<Pass>
      reads this
    {
      past + [pass]
    }

    /** What looking at the repository and filesystem would report, if it could. */
    ghost function Facts(): Option<Observation>
      reads `site
    {
      View(site, job.target)
    }

    /** Nothing that bears on the verdict has changed. */
    ghost predicate KeepsVerdict(before: Pass, after: Pass) {
      && Know(after).first == Know(before).first
      && (Conclusive(job, Know(after), Judge(after)) <==> Conclusive(job, Know(before), Judge(before)))
    }

    /** The current pass is lawful and the record is what it last wrote. */
    ghost predicate Sound()
      reads `record, `pass, `began
    {
      Lawful(job, pass) && Earned(job, pass) && record == Know(pass).progress && Start(pass) == began
    }

    /** A killed Git command has left facts that no longer verify. */
    ghost predicate Wedged()
      reads `site, `kill
    {
      Facts().None? && !kill.Never?
    }

    ghost predicate Valid()
      reads this
    {
      Sound() && LawfulLife(job, Life()) && StageFits(job, record)
    }

    /** An execution enters the driver right after its durable acceptance. */
    constructor (job: Job, site: Site, owned: bool)
      ensures Valid() && record == Accepted && Life() == [Began(Accepted)]
      ensures this.job == job && this.site == site && this.owned == owned
    {
      this.job := job;
      this.site := site;
      this.owned := owned;
      record := Accepted;
      quiet := false;
      obliging := false;
      faultless := false;
      kill := Perhaps;
      past := [];
      pass := Began(Accepted);
      began := Accepted;
    }

    ghost method Note(e: Event)
      requires Lawful(job, pass) && Allowed(job, Know(pass), e) && Earned(job, Then(pass, e))
      modifies `pass
      ensures Lawful(job, pass) && Earned(job, pass) && pass == Then(old(pass), e)
    {
      pass := Then(pass, e);
    }

    /** The world acts between two of the driver's calls. */
    method Disturb()
      modifies `site, `owned
      ensures quiet ==> site == old(site) && owned == old(owned)
    {
      if !quiet {
        site := *;
        owned := *;
      }
    }

    /** Whether this call fails, and how. */
    method Fault() returns (refuse: bool, die: bool)
      ensures obliging ==> !refuse
      ensures faultless ==> !refuse && !die
    {
      refuse, die := *, *;
      if obliging {
        refuse := false;
      }
      if faultless {
        refuse, die := false, false;
      }
    }

    // ---- The durable record ----

    /** Compare-and-swap of the progress column; a death may strike before or after the commit. */
    method Write(expected: Progress, next: Progress) returns (r: Reply<Progress>)
      requires Sound()
      requires record == expected ==> Allowed(job, Know(pass), Persisted(next))
      requires Earned(job, Then(pass, Persisted(next)))
      modifies `record, `pass
      ensures Sound()
      ensures r.Done? ==> r.value == next && pass == Then(old(pass), Persisted(next))
      ensures !r.Done? ==> r.Died?
      ensures (pass == old(pass) && record == old(record))
           || (pass == Then(old(pass), Persisted(next)) && record == next)
      ensures faultless && old(record) == expected ==> r.Done?
    {
      var _, early := Fault();
      if record != expected || early {
        return Died;
      }
      record := next;
      Note(Persisted(next));
      var _, late := Fault();
      return if late then Died else Done(next);
    }

    /** Persists mutation intent before calling Git. */
    method RunningAt(current: Progress, stage: Stage) returns (r: Reply<Progress>)
      requires Sound() && current == record && !current.Completed? && StageBelongs(job.command, stage)
      requires current.Accepted? ==> Know(pass).fenced
      requires Allowed(job, Know(pass), Persisted(Running(stage)))
      modifies `record, `pass
      ensures Sound()
      ensures r.Done? ==> r.value == Running(stage) && pass == Then(old(pass), Persisted(Running(stage)))
      ensures r.Done? ==> Judge(pass) == Follow(Judge(old(pass)), Persisted(Running(stage)))
      ensures !r.Done? ==> r.Died?
      ensures (pass == old(pass) && record == old(record))
           || (pass == Then(old(pass), Persisted(Running(stage))) && record == Running(stage))
      ensures faultless ==> r.Done?
    {
      r := Write(current, Running(stage));
    }

    /** Leaves the execution open under `stage`, for a later pass to decide. */
    method UnknownAt(current: Progress, stage: Stage) returns (r: Reply<()>)
      requires Sound() && current == record && !current.Completed? && StageBelongs(job.command, stage)
      requires current.Accepted? ==> Know(pass).fenced
      requires stage.CleanupCreation? ==> Retains(current, CleanupCreation)
      modifies `record, `pass
      ensures Sound()
      ensures !r.Refused? && (r.Done? ==> record == Unknown(stage))
      ensures r.Done? ==> KeepsVerdict(old(pass), pass)
      ensures record == old(record) || record == Unknown(stage)
      ensures faultless ==> r.Done?
    {
      var w := Write(current, Unknown(stage));
      r := if w.Done? then Done(()) else Died;
    }

    /** Seals a result; storage refuses to seal one whose failure code says the result is unknown. */
    method Complete(current: Progress, result: Result) returns (r: Reply<()>)
      requires Sound() && current == record
      requires !(result.Failed? && result.code == ResultUnknown)
               ==> Allowed(job, Know(pass), Persisted(Completed(result)))
      requires Earned(job, Then(pass, Persisted(Completed(result))))
      modifies `record, `pass
      ensures Sound()
      ensures !r.Refused? && (r.Done? ==> record == Completed(result))
      ensures r.Done? ==> KeepsVerdict(old(pass), pass)
      ensures
        || record == old(record)
        || (record == Completed(result) && !(result.Failed? && result.code == ResultUnknown))
      ensures faultless && !(result.Failed? && result.code == ResultUnknown) ==> r.Done?
    {
      if result.Failed? && result.code == ResultUnknown {
        return Died;
      }
      var w := Write(current, Completed(result));
      r := if w.Done? then Done(()) else Died;
    }

    // ---- Git and the filesystem ----

    /** Fences earlier process attempts of this execution. */
    method BeginExecution() returns (r: Reply<()>)
      requires Sound()
      modifies `site, `owned, `pass
      ensures Sound() && pass == if r.Done? then Then(old(pass), Fenced) else old(pass)
      ensures quiet ==> site == old(site) && owned == old(owned)
      ensures faultless ==> r.Done?
    {
      Disturb();
      var refuse, die := Fault();
      r := if die then Died else if refuse then Refused(ResultUnknown) else Done(());
      if r.Done? {
        Note(Fenced);
      }
    }

    method Verify() returns (r: Reply<()>)
      requires Sound() && Know(pass).fenced
      modifies `site, `owned, `pass
      ensures Sound()
      ensures pass == match r {
                case Done(_) => Then(old(pass), Verified)
                case Refused(code) => Then(old(pass), Declined(code))
                case Died => old(pass)
              }
      ensures Judge(pass) == if r.Refused? then Judge(old(pass)).(reason := r.code) else Judge(old(pass))
      ensures quiet ==> site == old(site) && owned == old(owned)
      ensures quiet && obliging && old(owned) ==> !r.Refused?
      ensures quiet && faultless && old(owned) ==> r.Done?
    {
      Disturb();
      var refuse, die := Fault();
      if die {
        return Died;
      }
      if refuse || !owned {
        var code: FailureCode := *;
        Note(Declined(code));
        return Refused(code);
      }
      Note(Verified);
      return Done(());
    }

    method Observe() returns (r: Reply<Observation>)
      requires Sound() && Know(pass).fenced
      modifies `site, `owned, `pass
      ensures Sound()
      ensures pass == match r {
                case Done(o) => Then(old(pass), Observed(o))
                case Refused(_) => Then(old(pass), Blind)
                case Died => old(pass)
              }
      ensures r.Done? ==> Seeing(Judge(old(pass)), Judge(pass))
      ensures r.Refused? ==> Judge(pass).blind
      ensures Know(pass) == if r.Done? then Advance(Know(old(pass)), Observed(r.value)) else Know(old(pass))
      ensures quiet ==> site == old(site) && owned == old(owned)
      ensures quiet && r.Done? ==> Facts() == Some(r.value)
      ensures quiet && faultless ==> (r.Done? <==> Facts().Some?) && !r.Died?
    {
      Disturb();
      var refuse, die := Fault();
      if die {
        return Died;
      }
      if refuse {
        var code: FailureCode := *;
        Note(Blind);
        return Refused(code);
      }
      r := WorktreeFacts.Observe(site.worktrees, site.tip, site.directory, job.target);
      Note(if r.Done? then Observed(r.value) else Blind);
    }

    method VerifyThenObserve() returns (r: Reply<Observation>)
      requires Sound() && Know(pass).fenced
      modifies `site, `owned, `pass
      ensures Sound()
      ensures Know(pass) == if r.Done? then Advance(Advance(Know(old(pass)), Verified), Observed(r.value))
                      else Know(old(pass)).(verified := Know(pass).verified, trusted := Know(pass).trusted)
      ensures r.Done? ==> Seeing(Judge(old(pass)), Judge(pass))
      ensures r.Refused? ==> Judge(pass).blind
      ensures quiet ==> site == old(site) && owned == old(owned)
      ensures quiet && r.Done? ==> Facts() == Some(r.value)
      ensures quiet && faultless && old(owned) ==> (r.Done? <==> Facts().Some?) && !r.Died?
    {
      var v := Verify();
      if v.Done? {
        r := Observe();
      } else if v.Refused? {
        Note(Blind);
        r := Refused(v.code);
      } else {
        r := Died;
      }
    }

    /** Whether a kill strikes this command. */
    method Struck() returns (struck: bool)
      ensures kill.Never? ==> !struck
      ensures kill.Always? ==> struck
    {
      struck := *;
      if !kill.Perhaps? {
        struck := kill.Always?;
      }
    }

    /** What `git worktree add` does where nothing is; told to fail it stops anywhere. */
    method AddCheckout(refuse: bool, die: bool) returns (refused: bool)
      requires Facts().Some? && Absent(Facts().value)
      modifies `site
      ensures CreateResidue(job.target, kill, Facts())
      ensures refuse ==> refused
      ensures !refused && !die ==> Facts() == Some(FullCheckout(job.target))
      ensures refused && !refuse ==> Facts().None?
      ensures refused != refuse ==> !kill.Never?
      ensures kill.Always? ==> refused && Facts().None?
    {
      refused := refuse;
      var struck := Struck();
      var directory: Directory := *;
      CreationView(site, job.target, directory);
      if struck {
        site, refused := CreationCut(site, job.target, directory), true;
      } else if refuse || die {
        var stop: nat := *;
        site := if stop == 0 then site
                else if stop == 1 then site.(tip := Some(job.target.baseCommit))
                else if stop == 2 then site.(tip := Some(job.target.baseCommit), directory := Some(DirEmpty))
                else Created(site, job.target);
      } else {
        site := Created(site, job.target);
      }
    }

    /** Asks Git for checkout and branch at the target, which it refuses unless nothing is there. */
    method CreateWorktreeNow() returns (r: Reply<()>)
      requires Sound() && Allowed(job, Know(pass), Mutated(CreateWorktree))
      modifies `site, `owned, `pass
      ensures Sound()
      ensures pass == (if r.Refused? then Then(Then(old(pass), Mutated(CreateWorktree)), Declined(r.code))
                       else Then(old(pass), Mutated(CreateWorktree)))
      ensures Judge(pass) == if r.Refused? then Judge(old(pass)).(reason := r.code) else Judge(old(pass))
      ensures quiet ==> owned == old(owned)
      ensures quiet && old(Facts().Some? && Absent(Facts().value)) ==>
        && CreateResidue(job.target, kill, Facts())
        && (r.Done? ==> Facts() == Some(FullCheckout(job.target)))
        && (obliging && r.Refused? ==> Facts().None?)
        && (faultless && kill.Never? ==> r.Done?)
        && (faultless ==> !r.Died?)
        && (kill.Always? ==> Facts().None?)
    {
      Disturb();
      Note(Mutated(CreateWorktree));
      var refuse, die := Fault();
      var look := View(site, job.target);
      if look.Some? && Absent(look.value) {
        refuse := AddCheckout(refuse, die);
      } else {
        refuse := true;
      }
      var code: FailureCode := *;
      r := if die then Died else if refuse then Refused(code) else Done(());
      if r.Refused? {
        Note(Declined(code));
      }
    }

    /** What a forced removal does to a checkout that verifies; told to fail it stops before or after. */
    method TakeDown(refuse: bool, die: bool) returns (refused: bool)
      requires Facts().Some? && Facts().value.checkout.Some?
      modifies `site
      ensures RemoveResidue(old(Facts()).value, kill, Facts())
      ensures refuse ==> refused
      ensures !refused && !die ==> Facts().Some? && Facts().value.checkout.None?
      ensures refused != refuse ==> !kill.Never?
      ensures kill.Always? ==> refused && Facts().None?
    {
      refused := refuse;
      var struck := Struck();
      var directory: Directory := *;
      var removed: bool, leftover: bool := *, *;
      if struck {
        RemovalView(site, job.target, directory);
        site, refused := RemovalCut(site, job.target, directory), true;
      } else if removed || (!refuse && !die) {
        directory := if leftover then DirEmpty else DirAbsent;
        RemovalView(site, job.target, directory);
        site := Dropped(site, job.target, directory);
      }
    }

    /** Force-removes the registered checkout, leaving no directory or an empty one. The registration is
        verified once more first; killed half way, the removal leaves one that no longer verifies. */
    method DeleteWorktreeNow() returns (r: Reply<()>)
      requires Sound() && Allowed(job, Know(pass), Mutated(DeleteWorktree))
      modifies `site, `owned, `pass
      ensures Sound()
      ensures pass == Then(old(pass), Mutated(DeleteWorktree)) && Judge(pass) == Judge(old(pass))
      ensures quiet ==> owned == old(owned)
      ensures quiet && old(Facts()).Some? ==> RemoveResidue(old(Facts()).value, kill, Facts())
      ensures quiet && r.Done? ==> Facts().Some? && Facts().value.checkout.None?
      ensures quiet && old(Facts()).None? ==> site == old(site)
      ensures quiet && faultless && old(Facts().Some? && Facts().value.checkout.Some?) ==>
        && !r.Died?
        && (kill.Never? ==> r.Done?)
        && (kill.Always? ==> r.Refused? && Facts().None?)
    {
      Disturb();
      Note(Mutated(DeleteWorktree));
      var refuse, die := Fault();
      var code: FailureCode := *;
      var look := WorktreeFacts.Observe(site.worktrees, site.tip, site.directory, job.target);
      if !look.Done? || look.value.checkout.None? {
        return if die then Died else Refused(WorktreeConflict);
      }
      refuse := TakeDown(refuse, die);
      r := if die then Died else if refuse then Refused(code) else Done(());
    }

    /** Force-removes the branch unless some checkout uses it. */
    method DeleteBranchNow() returns (r: Reply<()>)
      requires Sound() && Allowed(job, Know(pass), Mutated(DeleteBranch))
      modifies `site, `owned, `pass
      ensures Sound()
      ensures pass == Then(old(pass), Mutated(DeleteBranch)) && Judge(pass) == Judge(old(pass))
      ensures quiet ==> owned == old(owned)
      ensures quiet && old(Facts()).Some? ==>
        && (Facts() == old(Facts()) || Facts() == Some(old(Facts()).value.(branch := None)))
        && (r.Done? ==> Facts() == Some(old(Facts()).value.(branch := None)))
      ensures quiet && faultless && old(Facts()).Some? ==>
        var o := old(Facts()).value;
        !r.Died? && (o.branch.Some? && o.checkout.None? && !o.branchElsewhere ==> r.Done?)
    {
      Disturb();
      Note(Mutated(DeleteBranch));
      var refuse, die := Fault();
      if Facts().Some? {
        FreeBranchScan(site.worktrees, job.target);
      }
      if site.tip.Some? && BranchIsFree(site.worktrees, job.target) {
        var removed: bool := *;
        if removed || (!refuse && !die) {
          site := site.(tip := None);
        }
      } else {
        refuse := true;
      }
      var code: FailureCode := *;
      r := if die then Died else if refuse then Refused(code) else Done(());
    }

    /** Nonrecursive: whatever the observation said, a directory with entries stays. */
    method DeleteEmptyDirectoryNow() returns (r: Reply<()>)
      requires Sound() && Allowed(job, Know(pass), Mutated(DeleteEmptyDirectory))
      modifies `site, `owned, `pass
      ensures Sound()
      ensures pass == Then(old(pass), Mutated(DeleteEmptyDirectory)) && Judge(pass) == Judge(old(pass))
      ensures quiet ==> owned == old(owned)
      ensures quiet && old(Facts()).Some? ==>
        && (|| Facts() == old(Facts())
            || (&& old(Facts()).value.directory == DirEmpty
                && Facts() == Some(old(Facts()).value.(directory := DirAbsent))))
        && (r.Done? ==> Facts() == Some(old(Facts()).value.(directory := DirAbsent)))
        && (faultless && old(Facts()).value.directory == DirEmpty ==> r.Done?)
    {
      Disturb();
      Note(Mutated(DeleteEmptyDirectory));
      var refuse, die := Fault();
      if site.directory == Some(DirEmpty) {
        var removed: bool := *;
        if removed || (!refuse && !die) {
          site := site.(directory := Some(DirAbsent));
        }
      } else {
        refuse := true;
      }
      var code: FailureCode := *;
      r := if die then Died else if refuse then Refused(code) else Done(());
    }

    // ---- The driver ----

    /** One pass, whether the execution is new or is being recovered. */
    method Drive() returns (r: Reply<()>)
      requires Valid()
      modifies `record, `site, `owned, `past, `pass, `began
      ensures Valid() && !r.Refused? && (r.Done? && !old(record).Completed? ==> !record.Running?)
      ensures Life() == if old(record).Completed? then old(Life()) else old(Life()) + [pass]
      ensures r.Done? && !old(record).Completed? ==>
                (record.Completed? <==> Conclusive(job, Know(pass), Judge(pass)))
      ensures r.Done? && !old(record).Completed? && Know(pass).first.None? ==>
                record == old(record) || record == Unknown(StageAt(job, old(record)))
      ensures quiet ==> owned == old(owned)
      ensures old(record).Completed? ==> record == old(record) && site == old(site)
      ensures quiet && old(Recoverable(job, record, Facts())) ==>
                record.Completed? || Recoverable(job, record, Facts()) || Wedged()
      ensures quiet && (obliging || job.command.Remove?)
              && old(owned && Recoverable(job, record, Facts()) && !record.Completed?) && record.Completed? ==>
                Successful(record)
      ensures quiet && faultless && kill.Never? && old(owned && !record.Completed?) ==>
                r.Done? && (Successful(record) <==> old(Recoverable(job, record, Facts())))
      ensures quiet && faultless && kill.Always? && old(owned && !record.Completed?)
              && old(Recoverable(job, record, Facts()) && NeedsGit(job, Facts().value)) ==>
                Facts().None?
      ensures quiet && old(Facts().None? && !record.Completed?) ==> site == old(site)
      ensures quiet && !old(record).Completed? ==> Borne(job, old(Facts()), Facts(), record)
    {
      if record.Completed? {
        return Done(());
      }
      past, pass, began := past + [pass], Began(record), record;
      r := Proceed();
      StageIsOurs(job, pass);
    }

    /** Recovery converges: however many passes fail or die, wherever they do, one pass without faults in a
        quiet repository then completes the execution, and the facts really are what it reports. That is
        the command's own success, unless Git refused a creation in an earlier pass and left nothing. The
        execution stays open exactly when a killed Git command has left facts that no longer verify. */
    method ConvergeAfterCrashes(crashes: nat)
      requires Valid() && quiet && owned && !record.Completed? && Recoverable(job, record, Facts())
      modifies `record, `site, `owned, `faultless, `kill, `past, `pass, `began
      ensures Valid()
      ensures record.Completed? <==> Facts().Some?
      ensures old(kill).Never? ==> record.Completed?
      ensures record.Completed? ==> Attained(job, record, Facts()) || FailedCleanly(job, record, Facts())
      ensures record.Completed? && (obliging || job.command.Remove?) ==> Attained(job, record, Facts())
    {
      faultless := false;
      for n := 0 to crashes
        invariant Valid() && quiet && owned && kill == old(kill)
        invariant !record.Completed? ==> Recoverable(job, record, Facts()) || Wedged()
        invariant record.Completed? ==> Attained(job, record, Facts()) || FailedCleanly(job, record, Facts())
        invariant record.Completed? && (obliging || job.command.Remove?) ==> Attained(job, record, Facts())
      {
        var _ := Drive();
      }
      faultless, kill := true, Never;
      var _ := Drive();
    }

    /** Facts that do not verify stop every later pass: none of them completes, and none changes anything. */
    method StayOpen(passes: nat)
      requires Valid() && quiet && !record.Completed? && Facts().None?
      modifies `record, `site, `owned, `past, `pass, `began
      ensures Valid() && !record.Completed? && site == old(site)
    {
      for n := 0 to passes
        invariant Valid() && !record.Completed? && site == old(site)
      {
        var _ := Drive();
      }
    }

    /** One killed Git command is enough: from any recoverable evidence that calls for one, the execution
        then stays open however often it is recovered, although nothing fails any more. */
    method KillThenRecover(passes: nat)
      requires Valid() && quiet && owned && !record.Completed?
      requires Recoverable(job, record, Facts()) && NeedsGit(job, Facts().value)
      modifies `record, `site, `owned, `faultless, `kill, `past, `pass, `began
      ensures Valid() && !record.Completed? && Facts().None? && faultless && kill.Never?
    {
      faultless, kill := true, Always;
      var _ := Drive();
      kill := Never;
      StayOpen(passes);
    }

    /** Fences, verifies, observes, and hands the facts to the command's own machine. */
    method Proceed() returns (r: Reply<()>)
      requires Sound() && pass == Began(record) && !record.Completed? && StageFits(job, record)
      modifies `record, `site, `owned, `pass
      ensures Sound() && !r.Refused? && (r.Done? ==> !record.Running?)
      ensures r.Done? ==> (record.Completed? <==> Conclusive(job, Know(pass), Judge(pass)))
      ensures r.Done? && Know(pass).first.None? ==>
                (record == Accepted && old(record) == Accepted) || record == Unknown(StageAt(job, old(record)))
      ensures quiet ==> owned == old(owned)
      ensures quiet && old(Recoverable(job, record, Facts())) ==>
                record.Completed? || Recoverable(job, record, Facts()) || Wedged()
      ensures quiet && (obliging || job.command.Remove?)
              && old(owned && Recoverable(job, record, Facts())) && record.Completed? ==>
                Successful(record)
      ensures quiet && faultless && kill.Never? && old(owned) ==>
                r.Done? && (Successful(record) <==> old(Recoverable(job, record, Facts())))
      ensures quiet && faultless && kill.Always? && old(owned)
              && old(Recoverable(job, record, Facts()) && NeedsGit(job, Facts().value)) ==>
                Facts().None?
      ensures quiet && old(Facts()).None? ==> site == old(site)
      ensures quiet ==> Borne(job, old(Facts()), Facts(), record)
    {
      var stage: Stage;
      match record {
        case Accepted => stage := if job.command.Ensure? then Create else RemoveWorktree;
        case Running(s) => stage := s;
        case Unknown(s) => stage := s;
      }
      var begun := BeginExecution();
      if begun.Died? {
        return Died;
      }
      if begun.Refused? {
        // Acceptance still proves nothing began; rewriting it would strand a safe retry.
        if record == Accepted {
          return Done(());
        }
        r := UnknownAt(record, stage);
        return;
      }
      r := LookAndAct(stage);
    }

    /** Verifies, observes, and hands the facts to the command's own machine. */
    method LookAndAct(stage: Stage) returns (r: Reply<()>)
      requires Sound() && Know(pass) == Advance(Know(Began(record)), Fenced) && Judge(pass) == Judge(Began(record))
      requires !record.Completed? && stage == StageAt(job, record) && StageBelongs(job.command, stage)
      modifies `record, `site, `owned, `pass
      ensures Sound() && !r.Refused? && (r.Done? ==> !record.Running?)
      ensures r.Done? ==> (record.Completed? <==> Conclusive(job, Know(pass), Judge(pass)))
      ensures r.Done? && Know(pass).first.None? ==> record == Unknown(stage)
      ensures quiet ==> owned == old(owned)
      ensures quiet && old(Recoverable(job, record, Facts())) ==>
                record.Completed? || Recoverable(job, record, Facts()) || Wedged()
                || (record == Unknown(stage) && Facts() == old(Facts()))
      ensures quiet && (obliging || job.command.Remove?)
              && old(owned && Recoverable(job, record, Facts())) && record.Completed? ==>
                Successful(record)
      ensures quiet && faultless && kill.Never? && old(owned) ==>
                r.Done? && (Successful(record) <==> old(Recoverable(job, record, Facts())))
      ensures quiet && faultless && kill.Always? && old(owned)
              && old(Recoverable(job, record, Facts()) && NeedsGit(job, Facts().value)) ==>
                Facts().None?
      ensures quiet && old(Facts()).None? ==> site == old(site)
      ensures quiet ==> Borne(job, old(Facts()), Facts(), record)
    {
      var observation := VerifyThenObserve();
      if observation.Died? {
        return Died;
      }
      if observation.Refused? {
        r := UnknownAt(record, stage);
        return;
      }
      if job.command.Ensure? {
        r := EnsureFrom(record, observation.value, Recovery);
      } else {
        r := RemoveFrom(record, observation.value);
      }
    }

    /** Reports a checkout that is ready; otherwise sweeps away what its retained stage allows, and creates. */
    method EnsureFrom(current: Progress, found: Observation, turn: CreatePass) returns (r: Reply<()>)
      requires Sound() && job.command.Ensure? && current == record && !current.Completed?
      requires Know(pass).seen == Some(found) && Know(pass).first.Some? && Know(pass).untouched
      requires turn.Recovery? ==> Know(pass).creates == 0 && FirstLook(Judge(pass))
      requires turn.AfterMutation? ==> current == Running(Create) && !Absent(found) && Judge(pass).judged
      requires !Judge(pass).blind
      requires Know(pass).trusted
      requires quiet ==> Facts() == Some(found)
      modifies `record, `site, `owned, `pass
      ensures Sound() && !r.Refused? && (r.Done? ==> !record.Running?)
      ensures r.Done? ==> (record.Completed? <==> Conclusive(job, Know(pass), Judge(pass)))
      ensures r.Done? ==> Know(pass).first.Some?
      ensures r.Done? && !record.Completed? ==>
                record == Unknown(Create) || (turn.Recovery? && record == Unknown(CleanupCreation))
      ensures quiet ==> owned == old(owned)
      ensures quiet && RecoverableFrom(job, current, found) ==>
                record.Completed? || Recoverable(job, record, Facts()) || Wedged()
      ensures quiet && obliging && old(owned) && RecoverableFrom(job, current, found) && record.Completed? ==>
                Successful(record)
      ensures quiet && faultless && kill.Never? && old(owned) ==>
                r.Done? && (Successful(record) <==> if turn.Recovery? then RecoverableFrom(job, current, found)
                                                    else ReadyFacts(found, job.target))
      ensures quiet && faultless && kill.Always? && old(owned)
              && turn.Recovery? && RecoverableFrom(job, current, found) && NeedsGit(job, found) ==>
                Facts().None?
      ensures quiet && turn.AfterMutation? ==> Facts() == Some(found)
      ensures quiet && turn.AfterMutation? ==> record.Completed? || Retains(record, Create)
      ensures quiet && turn.AfterMutation? && record.Completed? ==> ReadyFacts(found, job.target) && Successful(record)
      ensures quiet ==> Borne(job, Some(found), Facts(), record)
      decreases if turn.Recovery? then 4 else 1
    {
      SeenIsFenced(job, pass);
      var known, observed := current, found;
      if ReadyFacts(observed, job.target) {
        r := Complete(known, Ready(observed.checkout.value.path, observed.checkout.value.branch,
                                   job.target.baseCommit));
        return;
      }
      if && turn.Recovery?
         && !known.Accepted?
         && observed.checkout.None?
         && (observed.branch == Some(job.target.baseCommit)
             || (observed.branch.None? && Retains(known, CleanupCreation)))
         && !observed.branchElsewhere
         && observed.directory != DirNonempty
      {
        var again := ClearResidue(known, observed);
        if again.Died? {
          return Died;
        }
        known := Running(CleanupCreation);
        if again.Refused? {
          r := UnknownAt(known, CleanupCreation);
          return;
        }
        observed := again.value;
      }
      r := CreateFrom(known, observed);
    }

    /** Creates from absence, and judges what the creation left; any other evidence stays inconclusive. */
    method CreateFrom(current: Progress, observed: Observation) returns (r: Reply<()>)
      requires Sound() && job.command.Ensure? && current == record && !current.Completed?
      requires Know(pass).seen == Some(observed) && Know(pass).first.Some? && Know(pass).untouched
      requires Absent(observed) ==> Know(pass).creates == 0
      requires !Conclusive(job, Know(pass), Judge(pass))
      requires quiet ==> Facts() == Some(observed)
      modifies `record, `site, `owned, `pass
      ensures Sound() && !r.Refused? && (r.Done? ==> !record.Running?)
      ensures r.Done? ==> (record.Completed? <==> Conclusive(job, Know(pass), Judge(pass)))
      ensures r.Done? ==> Know(pass).first.Some? && (!record.Completed? ==> record == Unknown(Create))
      ensures quiet ==> owned == old(owned)
      ensures quiet && !Absent(observed) ==>
                Facts() == Some(observed) && (record == current || record == Unknown(Create))
      ensures quiet && Absent(observed) ==>
                record.Completed? || Recoverable(job, record, Facts()) || Wedged()
      ensures quiet && obliging && old(owned) && record.Completed? ==> Successful(record)
      ensures quiet && faultless && kill.Never? && old(owned) ==>
                r.Done? && (Successful(record) <==> Absent(observed))
      ensures quiet && faultless && kill.Always? && old(owned) && Absent(observed) ==> Facts().None?
      ensures quiet ==> Borne(job, Some(observed), Facts(), record)
      decreases if Absent(observed) then 3 else 0
    {
      SeenIsFenced(job, pass);
      if !Absent(observed) {
        r := UnknownAt(current, Create);
        return;
      }
      var after, failure := CreateFresh(current);
      if after.Died? {
        return Died;
      }
      var known := Running(Create);
      if after.Refused? {
        r := UnknownAt(known, Create);
        return;
      }
      r := JudgeCreation(after.value, failure);
    }

    /** Decides a creation by what it left: nothing is a failure, anything else is looked into. */
    method JudgeCreation(after: Observation, failure: FailureCode) returns (r: Reply<()>)
      requires Sound() && job.command.Ensure? && record == Running(Create)
      requires Know(pass).seen == Some(after) && Know(pass).first.Some? && Know(pass).untouched && Know(pass).trusted
      requires Judge(pass).judged && !Judge(pass).blind && failure == Judge(pass).reason
      requires quiet ==> Facts() == Some(after)
      modifies `record, `site, `owned, `pass
      ensures Sound() && !r.Refused? && (r.Done? ==> !record.Running?)
      ensures r.Done? ==> (record.Completed? <==> Conclusive(job, Know(pass), Judge(pass)))
      ensures r.Done? ==> Know(pass).first.Some? && (!record.Completed? ==> record == Unknown(Create))
      ensures quiet ==> owned == old(owned)
      ensures quiet ==> Facts() == Some(after) && (record.Completed? || Retains(record, Create))
      ensures quiet && record.Completed? ==> (Successful(record) <==> ReadyFacts(after, job.target))
      ensures quiet && faultless && kill.Never? && old(owned) && ReadyFacts(after, job.target) ==>
                r.Done? && Successful(record)
      ensures quiet ==> Borne(job, Some(after), Facts(), record)
      decreases 2
    {
      SeenIsFenced(job, pass);
      if Absent(after) {
        r := Complete(Running(Create), Failed(failure));
        return;
      }
      // What is there now is judged once more; finding something, that cannot lead back to a creation.
      r := EnsureFrom(Running(Create), after, AfterMutation);
    }

    /** Clears what an interrupted creation left, under its own durable stage, and looks again.
        `Refused` means the caller has to keep the stage as inconclusive. */
    method ClearResidue(current: Progress, observed: Observation) returns (r: Reply<Observation>)
      requires Sound() && job.command.Ensure? && current == record && !current.Completed?
      requires Know(pass).seen == Some(observed) && Know(pass).first.Some? && Know(pass).untouched
      requires Know(pass).creates == 0 && FirstLook(Judge(pass))
      requires Clearable(observed, job.target)
      requires observed.branch == Some(job.target.baseCommit) || Retains(current, CleanupCreation)
      requires quiet ==> Facts() == Some(observed)
      modifies `record, `site, `owned, `pass
      ensures Sound()
      ensures quiet ==> owned == old(owned)
      ensures !r.Died? ==> record == Running(CleanupCreation) && Know(pass).first.Some?
      ensures r.Done? ==> Know(pass).seen == Some(r.value) && Know(pass).first.Some? && Know(pass).untouched
      ensures r.Done? ==> Know(pass).creates == 0
      ensures !r.Died? ==> !Conclusive(job, Know(pass), Judge(pass))
      ensures quiet ==>
        || (record == current && Facts() == Some(observed))
        || (record == Running(CleanupCreation) && Facts().Some? && Clearable(Facts().value, job.target))
      ensures quiet && r.Done? ==> Facts() == Some(r.value) && Absent(r.value)
      ensures quiet && faultless && old(owned) ==> r.Done?
    {
      SeenIsFenced(job, pass);
      var intent := RunningAt(current, CleanupCreation);
      if !intent.Done? {
        return Died;
      }
      var cleanup := Verify();
      if !cleanup.Done? {
        return if cleanup.Died? then Died else Refused(cleanup.code);
      }
      r := Sweep(observed);
    }

    /** Removes the residual branch, then the residual empty directory, and looks again. */
    method Sweep(observed: Observation) returns (r: Reply<Observation>)
      requires Sound() && job.command.Ensure? && record == Running(CleanupCreation)
      requires Know(pass).seen == Some(observed) && Know(pass).first.Some? && Know(pass).untouched
      requires Know(pass).creates == 0
      requires Know(pass).fenced && Know(pass).verified && Clearable(observed, job.target)
      requires FirstLook(Judge(pass))
      requires quiet ==> Facts() == Some(observed)
      modifies `site, `owned, `pass
      ensures Sound()
      ensures quiet ==> owned == old(owned)
      ensures r.Done? ==> Know(pass).seen == Some(r.value) && Know(pass).first.Some? && Know(pass).untouched
      ensures r.Done? ==> Know(pass).creates == 0
      ensures !r.Died? ==> !Conclusive(job, Know(pass), Judge(pass)) && Know(pass).first.Some?
      ensures quiet ==> Facts().Some? && Clearable(Facts().value, job.target)
      ensures quiet && r.Done? ==> Facts() == Some(r.value) && Absent(r.value)
      ensures quiet && faultless ==> r.Done?
    {
      var cleanup: Reply<()> := Done(());
      if observed.branch.Some? {
        cleanup := DeleteBranchNow();
      }
      if cleanup.Done? && observed.directory == DirEmpty {
        cleanup := DeleteEmptyDirectoryNow();
      }
      if cleanup.Done? {
        r := Observe();
      } else {
        r := if cleanup.Died? then Died else Refused(cleanup.code);
      }
    }

    /** Issues the one creation of this pass from observed absence and looks at what it left.
        `failure` is the reason to report should nothing be there. */
    method CreateFresh(current: Progress) returns (r: Reply<Observation>, failure: FailureCode)
      requires Sound() && job.command.Ensure? && current == record && !current.Completed?
      requires Know(pass).seen.Some? && Absent(Know(pass).seen.value) && Know(pass).first.Some?
      requires Know(pass).untouched && Know(pass).creates == 0
      requires quiet ==> Facts().Some? && Absent(Facts().value)
      modifies `record, `site, `owned, `pass
      ensures Sound()
      ensures quiet ==> owned == old(owned)
      ensures !r.Died? ==> record == Running(Create) && Know(pass).first.Some?
      ensures r.Done? ==> Know(pass).seen == Some(r.value) && Know(pass).first.Some? && Know(pass).untouched
      ensures r.Done? ==> Know(pass).trusted
      ensures r.Done? ==> Judge(pass).judged && !Judge(pass).blind && failure == Judge(pass).reason
      ensures r.Refused? ==> Judge(pass).blind
      ensures quiet ==>
        || (record == current && Facts() == old(Facts()))
        || (record == Running(Create) && CreateResidue(job.target, kill, Facts()))
      ensures quiet && r.Done? ==> Facts() == Some(r.value)
      ensures quiet && obliging && old(owned) && r.Done? ==> r.value == FullCheckout(job.target)
      ensures quiet && faultless && kill.Never? && old(owned) ==> r.Done? && r.value == FullCheckout(job.target)
      ensures quiet && faultless && kill.Always? && old(owned) ==> Facts().None?
    {
      SeenIsFenced(job, pass);
      failure := OperationFailed;
      var intent := RunningAt(current, Create);
      if !intent.Done? {
        return Died, failure;
      }
      r, failure := CreateAndLook();
    }

    method CreateAndLook() returns (r: Reply<Observation>, failure: FailureCode)
      requires Sound() && job.command.Ensure? && record == Running(Create) && Know(pass).intent && Know(pass).fenced
      requires Know(pass).seen.Some? && Absent(Know(pass).seen.value) && Know(pass).first.Some?
      requires Know(pass).untouched && Know(pass).creates == 0
      requires Judge(pass).tried && Judge(pass).reason == OperationFailed
      requires quiet ==> Facts().Some? && Absent(Facts().value)
      modifies `site, `owned, `pass
      ensures Sound()
      ensures quiet ==> owned == old(owned)
      ensures r.Done? ==> Know(pass).seen == Some(r.value) && Know(pass).first.Some? && Know(pass).untouched
      ensures r.Done? ==> Know(pass).trusted
      ensures r.Done? ==> Judge(pass).judged && !Judge(pass).blind && failure == Judge(pass).reason
      ensures r.Refused? ==> Judge(pass).blind && Know(pass).first.Some?
      ensures quiet ==> CreateResidue(job.target, kill, Facts())
      ensures quiet && r.Done? ==> Facts() == Some(r.value)
      ensures quiet && obliging && old(owned) && r.Done? ==> r.value == FullCheckout(job.target)
      ensures quiet && faultless && kill.Never? && old(owned) ==> r.Done? && r.value == FullCheckout(job.target)
      ensures quiet && faultless && kill.Always? && old(owned) ==> Facts().None?
    {
      failure := OperationFailed;
      var mutation := AttemptCreation();
      if mutation.Died? {
        return Died, failure;
      }
      if mutation.Refused? {
        failure := mutation.code;
      }
      assert Judge(pass).tried && failure == Judge(pass).reason;
      r := VerifyThenObserve();
    }

    method AttemptCreation() returns (r: Reply<()>)
      requires Sound() && job.command.Ensure? && record == Running(Create) && Know(pass).intent && Know(pass).fenced
      requires Know(pass).seen.Some? && Absent(Know(pass).seen.value) && Know(pass).untouched
      requires Know(pass).creates == 0
      modifies `site, `owned, `pass
      ensures Sound() && Know(pass).fenced && Know(pass).first == Know(old(pass)).first
      ensures Judge(pass) == if r.Refused? then Judge(old(pass)).(reason := r.code) else Judge(old(pass))
      ensures quiet ==> owned == old(owned)
      ensures quiet && old(Facts().Some? && Absent(Facts().value)) ==>
        && CreateResidue(job.target, kill, Facts())
        && (r.Done? ==> Facts() == Some(FullCheckout(job.target)))
        && (obliging && old(owned) && r.Refused? ==> Facts().None?)
        && (faultless && old(owned) ==> !r.Died? && (kill.Never? ==> r.Done?) && (kill.Always? ==> Facts().None?))
    {
      r := Verify();
      if r.Done? {
        r := CreateWorktreeNow();
      }
    }

    /** Takes the target apart step by step, each step announced in the record before it is made. */
    method RemoveFrom(current: Progress, found: Observation) returns (r: Reply<()>)
      requires Sound() && job.command.Remove? && current == record && !current.Completed?
      requires Know(pass).seen == Know(pass).first == Some(found) && Know(pass).untouched
      requires Know(pass).trusted
      requires quiet ==> Facts() == Some(found)
      modifies `record, `site, `owned, `pass
      ensures Sound() && !r.Refused? && (r.Done? ==> !record.Running?)
      ensures r.Done? ==> (record.Completed? <==> Conclusive(job, Know(pass), Judge(pass)))
      ensures r.Done? ==> Know(pass).first.Some?
      ensures r.Done? && !record.Completed? && Foreign(found) ==> record == Unknown(RemoveWorktree)
      ensures quiet ==> owned == old(owned)
      ensures quiet && RecoverableFrom(job, current, found) ==>
                record.Completed? || Recoverable(job, record, Facts()) || Wedged()
      ensures quiet && RecoverableFrom(job, current, found) && record.Completed? ==> Successful(record)
      ensures quiet && faultless && kill.Never? && old(owned) ==>
                r.Done? && (Successful(record) <==> RecoverableFrom(job, current, found))
      ensures quiet && faultless && kill.Always? && old(owned)
              && RecoverableFrom(job, current, found) && NeedsGit(job, found) ==>
                Facts().None?
      ensures quiet ==> Borne(job, Some(found), Facts(), record)
    {
      SeenIsFenced(job, pass);
      var known, observed := current, found;
      var initiallyAbsent := Absent(observed);
      if job.retired && !initiallyAbsent {
        r := Complete(known, RemovalFailed(WorktreeConflict));
        return;
      }
      if observed.branchElsewhere || (observed.checkout.None? && observed.directory == DirNonempty) {
        r := UnknownAt(known, RemoveWorktree);
        return;
      }
      if observed.checkout.Some? {
        var again := RemoveCheckout(known);
        if again.Died? {
          return Died;
        }
        known := Running(RemoveWorktree);
        if again.Refused? {
          r := UnknownAt(known, RemoveWorktree);
          return;
        }
        observed := again.value;
      }
      r := RemoveRest(known, observed, initiallyAbsent);
    }

    /** The part of a removal that starts once no checkout is expected any more. */
    method RemoveRest(current: Progress, observed: Observation, initiallyAbsent: bool) returns (r: Reply<()>)
      requires Sound() && job.command.Remove? && current == record && !current.Completed?
      requires Know(pass).seen == Some(observed) && Know(pass).first.Some? && Know(pass).untouched
      requires (initiallyAbsent <==> Absent(Know(pass).first.value)) && (job.retired ==> initiallyAbsent)
      requires quiet ==> Facts() == Some(observed)
      modifies `record, `site, `owned, `pass
      ensures Sound() && !r.Refused? && (r.Done? ==> !record.Running?)
      ensures r.Done? ==> (record.Completed? <==> Conclusive(job, Know(pass), Judge(pass)))
      ensures r.Done? ==> Know(pass).first.Some?
      ensures r.Done? && !record.Completed? && (observed.checkout.Some? || Foreign(observed)) ==>
                record == Unknown(RemoveWorktree)
      ensures quiet ==> owned == old(owned)
      ensures quiet ==>
        && Facts().Some?
        && Facts().value.checkout == observed.checkout
        && Facts().value.branchElsewhere == observed.branchElsewhere
        && (Facts().value.directory == observed.directory || Facts().value.directory == DirAbsent)
        && (Absent(observed) ==> Absent(Facts().value))
      ensures quiet && faultless && old(owned) ==>
        && r.Done?
        && (Successful(record) <==>
              observed.checkout.None? && observed.directory != DirNonempty && !observed.branchElsewhere)
      ensures quiet && record.Completed? ==>
        Facts().Some? && Absent(Facts().value) && record.result == Removed(initiallyAbsent)
    {
      SeenIsFenced(job, pass);
      var known := current;
      if observed.checkout.Some? || observed.directory == DirNonempty || observed.branchElsewhere {
        r := UnknownAt(known, RemoveWorktree);
        return;
      }
      if observed.directory == DirEmpty {
        var removal := RemoveLeftover(known);
        if removal.Died? {
          return Died;
        }
        known := Running(RemoveWorktree);
        if removal.Refused? {
          r := UnknownAt(known, RemoveWorktree);
          return;
        }
      }
      r := RemoveBranchAndSeal(known, observed, initiallyAbsent);
    }

    /** The last part of a removal: the branch, and the look that decides. */
    method RemoveBranchAndSeal(current: Progress, observed: Observation, initiallyAbsent: bool)
      returns (r: Reply<()>)
      requires Sound() && job.command.Remove? && current == record && !current.Completed?
      requires Know(pass).first.Some? && (initiallyAbsent <==> Absent(Know(pass).first.value))
      requires job.retired ==> initiallyAbsent
      requires quiet ==> Facts() == Some(observed.(directory := DirAbsent))
      modifies `record, `site, `owned, `pass
      ensures Sound() && !r.Refused? && (r.Done? ==> !record.Running?)
      ensures r.Done? ==> (record.Completed? <==> Conclusive(job, Know(pass), Judge(pass)))
      ensures r.Done? ==> Know(pass).first.Some? && (!record.Completed? ==> record == Unknown(RemoveBranch))
      ensures quiet ==> owned == old(owned)
      ensures quiet ==>
        || Facts() == Some(observed.(directory := DirAbsent))
        || Facts() == Some(observed.(directory := DirAbsent, branch := None))
      ensures quiet && faultless && old(owned) && observed.checkout.None? && !observed.branchElsewhere ==>
        r.Done? && Successful(record)
      ensures quiet && record.Completed? ==>
        Facts().Some? && Absent(Facts().value) && record.result == Removed(initiallyAbsent)
    {
      SeenIsFenced(job, pass);
      var known := current;
      if observed.branch.Some? {
        var removal := RemoveOwnedBranch(known);
        if removal.Died? {
          return Died;
        }
        known := Running(RemoveBranch);
        if removal.Refused? {
          r := UnknownAt(known, RemoveBranch);
          return;
        }
      }
      r := SealRemoval(known, initiallyAbsent);
    }

    /** Removal is sealed only on a last look that finds complete absence. */
    method SealRemoval(current: Progress, initiallyAbsent: bool) returns (r: Reply<()>)
      requires Sound() && job.command.Remove? && current == record && !current.Completed?
      requires Know(pass).first.Some? && (initiallyAbsent <==> Absent(Know(pass).first.value))
      requires job.retired ==> initiallyAbsent
      modifies `record, `site, `owned, `pass
      ensures Sound() && !r.Refused? && (r.Done? ==> !record.Running?)
      ensures r.Done? ==> (record.Completed? <==> Conclusive(job, Know(pass), Judge(pass)))
      ensures r.Done? ==> Know(pass).first.Some? && (!record.Completed? ==> record == Unknown(RemoveBranch))
      ensures quiet ==> owned == old(owned) && site == old(site)
      ensures quiet && faultless && old(owned) && Facts().Some? ==>
        r.Done? && (Successful(record) <==> Absent(Facts().value))
      ensures quiet && record.Completed? ==>
        Facts().Some? && Absent(Facts().value) && record.result == Removed(initiallyAbsent)
    {
      SeenIsFenced(job, pass);
      var after := VerifyThenObserve();
      if after.Died? {
        return Died;
      }
      if after.Done? && Absent(after.value) {
        r := Complete(current, Removed(initiallyAbsent));
      } else {
        r := UnknownAt(current, RemoveBranch);
      }
    }

    method RemoveCheckout(current: Progress) returns (r: Reply<Observation>)
      requires Sound() && job.command.Remove? && current == record && !current.Completed?
      requires Know(pass).seen.Some? && Know(pass).first.Some? && Know(pass).untouched
      requires Know(pass).seen.value.checkout.Some? && !Know(pass).seen.value.branchElsewhere
      modifies `record, `site, `owned, `pass
      ensures Sound()
      ensures Know(pass).first == Know(old(pass)).first
      ensures quiet ==> owned == old(owned)
      ensures !r.Died? ==> record == Running(RemoveWorktree)
      ensures record == current || record == Running(RemoveWorktree)
      ensures r.Done? ==> Know(pass).seen == Some(r.value) && Know(pass).untouched
      ensures r.Refused? ==> !SawNothing(Know(pass), Judge(pass))
      ensures quiet && old(Facts()).Some? ==> RemoveResidue(old(Facts()).value, kill, Facts())
      ensures quiet && r.Done? ==> Facts() == Some(r.value)
      ensures quiet && faultless && old(owned && Facts().Some? && Facts().value.checkout.Some?) ==>
        && (kill.Never? ==> r.Done? && r.value.checkout.None?)
        && (kill.Always? ==> Facts().None?)
    {
      SeenIsFenced(job, pass);
      var intent := RunningAt(current, RemoveWorktree);
      if !intent.Done? {
        return Died;
      }
      var removal := AttemptRemoval();
      if removal.Done? {
        r := VerifyThenObserve();
      } else {
        r := if removal.Died? then Died else Refused(removal.code);
      }
    }

    method AttemptRemoval() returns (r: Reply<()>)
      requires Sound() && job.command.Remove? && record == Running(RemoveWorktree)
      requires Know(pass).intent && Know(pass).fenced && Know(pass).seen.Some? && Know(pass).untouched
      requires Know(pass).seen.value.checkout.Some? && !Know(pass).seen.value.branchElsewhere
      modifies `site, `owned, `pass
      ensures Sound() && Know(pass).fenced && Know(pass).first == Know(old(pass)).first
      ensures r.Refused? ==> !SawNothing(Know(pass), Judge(pass))
      ensures quiet ==> owned == old(owned)
      ensures quiet && old(Facts()).Some? ==> RemoveResidue(old(Facts()).value, kill, Facts())
      ensures quiet && r.Done? ==> Facts().Some? && Facts().value.checkout.None?
      ensures quiet && faultless && old(owned && Facts().Some? && Facts().value.checkout.Some?) ==>
        && (kill.Never? ==> r.Done?)
        && (kill.Always? ==> r.Refused? && Facts().None?)
    {
      r := Verify();
      if r.Done? {
        r := DeleteWorktreeNow();
      }
    }

    method RemoveLeftover(current: Progress) returns (r: Reply<()>)
      requires Sound() && job.command.Remove? && current == record && !current.Completed?
      requires Know(pass).seen.Some? && Know(pass).first.Some? && Know(pass).untouched
      requires Know(pass).seen.value.checkout.None? && !Know(pass).seen.value.branchElsewhere
      requires Know(pass).seen.value.directory == DirEmpty
      requires quiet ==> Facts() == Know(pass).seen
      modifies `record, `site, `owned, `pass
      ensures Sound()
      ensures Know(pass).first == Know(old(pass)).first && Know(pass).seen == Know(old(pass)).seen
      ensures quiet ==> owned == old(owned)
      ensures !r.Died? ==> record == Running(RemoveWorktree)
      ensures record == current || record == Running(RemoveWorktree)
      ensures quiet ==>
        var absent := Know(old(pass)).seen.value.(directory := DirAbsent);
        && (Facts() == old(Facts()) || Facts() == Some(absent))
        && (r.Done? ==> Facts() == Some(absent))
      ensures quiet && faultless && old(owned) ==> r.Done?
    {
      SeenIsFenced(job, pass);
      var intent := RunningAt(current, RemoveWorktree);
      if !intent.Done? {
        return Died;
      }
      r := Verify();
      if r.Done? {
        r := DeleteEmptyDirectoryNow();
      }
    }

    /** The branch goes only after a fresh look finds nothing else left. */
    method RemoveOwnedBranch(current: Progress) returns (r: Reply<()>)
      requires Sound() && job.command.Remove? && current == record && !current.Completed?
      requires Know(pass).first.Some?
      modifies `record, `site, `owned, `pass
      ensures Sound()
      ensures Know(pass).first == Know(old(pass)).first
      ensures quiet ==> owned == old(owned)
      ensures !r.Died? ==> record == Running(RemoveBranch)
      ensures r.Refused? ==> !SawNothing(Know(pass), Judge(pass))
      ensures record == current || record == Running(RemoveBranch)
      ensures quiet && old(Facts()).Some? ==>
        var without := old(Facts()).value.(branch := None);
        && (Facts() == old(Facts()) || Facts() == Some(without))
        && (r.Done? ==> Facts() == Some(without))
        && (faultless && old(owned) && old(Facts()).value.branch.Some? && Absent(without) ==> r.Done?)
    {
      SeenIsFenced(job, pass);
      var intent := RunningAt(current, RemoveBranch);
      if !intent.Done? {
        return Died;
      }
      var check := VerifyThenObserve();
      if check.Died? {
        return Died;
      }
      if check.Refused? {
        return Refused(check.code);
      }
      var now := check.value;
      if now.branchElsewhere || now.checkout.Some? || now.directory != DirAbsent {
        return Refused(WorktreeConflict);
      }
      r := DeleteBranchNow();
    }
  }
}
