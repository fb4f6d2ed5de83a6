/** Git and filesystem evidence about one frozen worktree target, and the loop that gathers it. */
module WorktreeFacts {
  import opened Basics

  type Path = seq<string>

  datatype Directory = DirAbsent | DirEmpty | DirNonempty

  datatype Checkout = Checkout(path: Path, branch: string, head: string)

  /** Independent facts: neither registration nor files alone prove success. */
  datatype Observation = Observation(
    checkout: Option<Checkout>,
    branch: Option<string>,
    directory: Directory,
    branchElsewhere: bool)

  /** The frozen place and baseline of one execution. */
  datatype Target = Target(path: Path, branch: string, baseCommit: string)

  /** Complete absence, including the task branch and its registration. */
  predicate Absent(o: Observation) {
    o.checkout.None? && o.branch.None? && o.directory == DirAbsent && !o.branchElsewhere
  }

  /** A registered checkout at the frozen path and branch whose branch tip is its head. */
  predicate ReadyFacts(o: Observation, t: Target) {
    && o.checkout.Some?
    && !o.branchElsewhere
    && o.branch == Some(o.checkout.value.head)
    && o.checkout.value.branch == t.branch
    && o.checkout.value.path == t.path
    && o.directory == DirNonempty
  }

  /** One entry of `git worktree list`, with what verifying it would report. */
  datatype Registration = Registration(
    path: Path,
    isMain: bool,
    branch: Option<string>,
    linked: bool,
    head: Option<string>)

  /** Ancestor-or-equal on path components. */
  predicate StartsWith(p: Path, prefix: Path) {
    prefix <= p
  }

  predicate Overlaps(p: Path, q: Path) {
    StartsWith(p, q) || StartsWith(q, p)
  }

  /** A registration that makes the facts about `t` unusable. */
  predicate Offends(w: Registration, t: Target) {
    if w.path != t.path then Overlaps(w.path, t.path)
    else w.isMain || w.branch != Some(t.branch) || !w.linked || w.head.None?
  }

  predicate HoldsBranchElsewhere(w: Registration, t: Target) {
    w.path != t.path && w.branch == Some(t.branch)
  }

  /** What reading the registrations in order yields: the verified checkout at the target, and whether the
      branch is used elsewhere; `None` once an entry offends. */
  datatype Scan = Scan(checkout: Option<Checkout>, elsewhere: bool)

  function Scanned(worktrees: seq<Registration>, t: Target): Option<Scan> {
    if worktrees == [] then Some(Scan(None, false))
    else
      var w := worktrees[|worktrees| - 1];
      match Scanned(worktrees[..|worktrees| - 1], t)
      case None => None
      case Some(before) =>
        if Offends(w, t) then None
        else if w.path == t.path then Some(before.(checkout := Some(Checkout(w.path, t.branch, w.head.value))))
        else Some(before.(elsewhere := before.elsewhere || HoldsBranchElsewhere(w, t)))
  }

  /** The repository and file system around one target, as they really are. */
  datatype Site = Site(worktrees: seq<Registration>, tip: Option<string>, directory: Option<Directory>)

  /** What an undisturbed observation reports, if it does not refuse. */
  function View(site: Site, t: Target): Option<Observation> {
    match (site.directory, Scanned(site.worktrees, t))
    case (Some(d), Some(scan)) => Some(Observation(scan.checkout, site.tip, d, scan.elsewhere))
    case _ => None
  }

  /** Gathers registration, branch and directory facts; the first offending entry refuses them all,
      and so does a target path that is a link or not a directory (`directory.None?`). */
  method Observe(worktrees: seq<Registration>, tip: Option<string>, directory: Option<Directory>, t: Target)
    returns (r: Reply<Observation>)
    ensures !r.Died?
    ensures View(Site(worktrees, tip, directory), t) == if r.Done? then Some(r.value) else None
  {
    var checkout: Option<Checkout> := None;
    var branchElsewhere := false;
    for n := 0 to |worktrees|
      invariant Scanned(worktrees[..n], t) == Some(Scan(checkout, branchElsewhere))
    {
      var w := worktrees[n];
      assert worktrees[..n + 1][..n] == worktrees[..n];
      if Offends(w, t) {
        OffenceIsFinal(worktrees, t, n);
      }
      if w.path != t.path {
        if w.branch == Some(t.branch) {
          branchElsewhere := true;
        }
        if StartsWith(w.path, t.path) || StartsWith(t.path, w.path) {
          return Refused(WorktreeConflict);
        }
        continue;
      }
      if w.isMain || w.branch != Some(t.branch) {
        return Refused(WorktreeConflict);
      }
      if !w.linked || w.head.None? {
        return Refused(OperationFailed);
      }
      checkout := Some(Checkout(w.path, t.branch, w.head.value));
    }
    assert worktrees[..|worktrees|] == worktrees;
    if directory.None? {
      return Refused(WorktreeConflict);
    }
    r := Done(Observation(checkout, tip, directory.value, branchElsewhere));
  }

  lemma {:induction false} OffenceIsFinal(worktrees: seq<Registration>, t: Target, n: nat)
    requires n < |worktrees| && Offends(worktrees[n], t)
    ensures Scanned(worktrees, t).None?
  {
    if n < |worktrees| - 1 {
      OffenceIsFinal(worktrees[..|worktrees| - 1], t, n);
    }
  }

  /** What a scan means: it fails exactly on an offending entry, and otherwise reports the checkout that is
      registered at the target and whether some other one has its branch. */
  lemma {:induction false} ScanIsExact(worktrees: seq<Registration>, t: Target)
    ensures Scanned(worktrees, t).None? <==>
      exists w :: w in worktrees
                  && (|| (w.path != t.path && (w.path <= t.path || t.path <= w.path))
                      || (w.path == t.path && (w.isMain || w.branch != Some(t.branch) || !w.linked || w.head.None?)))
    ensures Scanned(worktrees, t).Some? ==>
      var scan := Scanned(worktrees, t).value;
      && (scan.checkout.None? <==> forall w :: w in worktrees ==> w.path != t.path)
      && (scan.checkout.Some? ==>
            exists w :: w in worktrees && w.path == t.path && w.head.Some?
                        && scan.checkout.value == Checkout(t.path, t.branch, w.head.value))
      && (scan.elsewhere <==> exists w :: w in worktrees && w.path != t.path && w.branch == Some(t.branch))
  {
    if worktrees != [] {
      var front, w := worktrees[..|worktrees| - 1], worktrees[|worktrees| - 1];
      ScanIsExact(front, t);
      assert worktrees == front + [w];
    }
  }

  // ---- What Git does to a site ----

  /** A completed `git worktree add` registers the checkout. */
  function Registered(t: Target): Registration {
    Registration(t.path, false, Some(t.branch), true, Some(t.baseCommit))
  }

  /** A forced removal drops the registrations at its path. */
  function Unregistered(worktrees: seq<Registration>, path: Path): seq<Registration> {
    if worktrees == [] then []
    else
      var w := worktrees[|worktrees| - 1];
      Unregistered(worktrees[..|worktrees| - 1], path) + if w.path == path then [] else [w]
  }

  /** A forced removal killed on its way leaves the registration, but its checkout no longer verifies. */
  function Mauled(worktrees: seq<Registration>, path: Path): seq<Registration> {
    if worktrees == [] then []
    else
      var w := worktrees[|worktrees| - 1];
      Mauled(worktrees[..|worktrees| - 1], path) + [if w.path == path then w.(linked := false) else w]
  }

  lemma ScannedOneMore(worktrees: seq<Registration>, w: Registration, t: Target)
    ensures Scanned(worktrees + [w], t) ==
      match Scanned(worktrees, t)
      case None => None
      case Some(before) =>
        if Offends(w, t) then None
        else if w.path == t.path then Some(before.(checkout := Some(Checkout(w.path, t.branch, w.head.value))))
        else Some(before.(elsewhere := before.elsewhere || HoldsBranchElsewhere(w, t)))
  {
    assert (worktrees + [w])[..|worktrees|] == worktrees;
  }

  lemma {:induction false} UnregisteredScan(worktrees: seq<Registration>, t: Target)
    requires Scanned(worktrees, t).Some?
    ensures Scanned(Unregistered(worktrees, t.path), t) == Some(Scanned(worktrees, t).value.(checkout := None))
  {
    if worktrees != [] {
      var front, w := worktrees[..|worktrees| - 1], worktrees[|worktrees| - 1];
      UnregisteredScan(front, t);
      if w.path == t.path {
        assert Unregistered(front, t.path) + [] == Unregistered(front, t.path);
      } else {
        ScannedOneMore(Unregistered(front, t.path), w, t);
      }
    }
  }

  lemma {:induction false} MauledScan(worktrees: seq<Registration>, t: Target)
    requires Scanned(worktrees, t).Some? && Scanned(worktrees, t).value.checkout.Some?
    ensures Scanned(Mauled(worktrees, t.path), t).None?
  {
    var front, w := worktrees[..|worktrees| - 1], worktrees[|worktrees| - 1];
    ScannedOneMore(Mauled(front, t.path), if w.path == t.path then w.(linked := false) else w, t);
    if w.path != t.path {
      MauledScan(front, t);
    }
  }

  /** No checkout uses the target's branch. */
  predicate BranchIsFree(worktrees: seq<Registration>, t: Target) {
    worktrees != [] ==>
      && BranchIsFree(worktrees[..|worktrees| - 1], t)
      && worktrees[|worktrees| - 1].branch != Some(t.branch)
  }

  lemma {:induction false} FreeBranchScan(worktrees: seq<Registration>, t: Target)
    requires Scanned(worktrees, t).Some?
    ensures BranchIsFree(worktrees, t) <==>
      Scanned(worktrees, t).value.checkout.None? && !Scanned(worktrees, t).value.elsewhere
  {
    if worktrees != [] {
      FreeBranchScan(worktrees[..|worktrees| - 1], t);
    }
  }

  /** What `git worktree add` leaves when it completes where nothing was. */
  function FullCheckout(t: Target): Observation {
    Observation(Some(Checkout(t.path, t.branch, t.baseCommit)), Some(t.baseCommit), DirNonempty, false)
  }

  function Created(site: Site, t: Target): Site {
    Site(site.worktrees + [Registered(t)], Some(t.baseCommit), Some(DirNonempty))
  }

  /** A creation killed after registering its checkout and before that checkout verifies. */
  function CreationCut(site: Site, t: Target, d: Directory): Site {
    Site(site.worktrees + [Registered(t).(linked := false)], Some(t.baseCommit), Some(d))
  }

  function Dropped(site: Site, t: Target, d: Directory): Site {
    site.(worktrees := Unregistered(site.worktrees, t.path), directory := Some(d))
  }

  /** A forced removal killed after it began to delete files and before it dropped the registration. */
  function RemovalCut(site: Site, t: Target, d: Directory): Site {
    site.(worktrees := Mauled(site.worktrees, t.path), directory := Some(d))
  }

  lemma CreationView(site: Site, t: Target, d: Directory)
    requires View(site, t).Some? && Absent(View(site, t).value)
    ensures View(Created(site, t), t) == Some(FullCheckout(t))
    ensures View(CreationCut(site, t, d), t).None?
  {
    ScannedOneMore(site.worktrees, Registered(t), t);
    ScannedOneMore(site.worktrees, Registered(t).(linked := false), t);
  }

  lemma RemovalView(site: Site, t: Target, d: Directory)
    requires View(site, t).Some? && View(site, t).value.checkout.Some?
    ensures View(Dropped(site, t, d), t) == Some(View(site, t).value.(checkout := None, directory := d))
    ensures View(RemovalCut(site, t, d), t).None?
  {
    UnregisteredScan(site.worktrees, t);
    MauledScan(site.worktrees, t);
  }
}
