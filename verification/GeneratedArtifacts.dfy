/** Publication and drift checks of generated files over a workspace's file map.

    A file is owned by the generator when it lies below a declared root, has a generated extension and
    starts with a generated header. Everything else belongs to someone else. */
module GeneratedArtifacts {
  import opened Basics

  type Path = seq<string>

  /** What lies at a path: text, bytes that are not UTF-8, a symbolic link, or a directory. A directory that
      holds something need not be listed. */
  datatype Entry = Text(content: string) | Binary | Link | Folder

  type Files = map<Path, Entry>

  type Artifacts = map<Path, string>

  const ROOTS: seq<Path> := [
    ["packages", "contracts", "src"],
    ["packages", "plugin-sdk", "src", "protocol"],
    ["apps", "desktop", "web"],
    ["apps", "desktop", "src-tauri", "src"],
    ["apps", "desktop", "src-tauri", "permissions"]
  ]

  const EXTENSIONS: seq<string> := [".ts", ".rs", ".toml"]

  const HEADERS: seq<string> := [
    "// This file was generated by [ts-rs]",
    "// This file was generated by `cargo xtask export-contracts`.",
    "# This file was generated by `cargo xtask export-contracts`."
  ]

  predicate BelowRoot(p: Path) {
    exists i :: 0 <= i < |ROOTS| && ROOTS[i] < p
  }

  predicate EndsWith(name: string, suffix: string) {
    |name| > |suffix| && name[|name| - |suffix|..] == suffix
  }

  /** A candidate: the right kind of name in the right place. */
  predicate Candidate(p: Path) {
    && BelowRoot(p)
    && exists i :: 0 <= i < |EXTENSIONS| && EndsWith(p[|p| - 1], EXTENSIONS[i])
  }

  predicate Headed(content: string) {
    exists i :: 0 <= i < |HEADERS| && HEADERS[i] <= content
  }

  predicate Owned(p: Path, e: Entry) {
    Candidate(p) && e.Text? && Headed(e.content)
  }

  predicate IsFile(e: Entry) {
    e.Text? || e.Binary?
  }

  /** Looking at `p` fails because something above it is a regular file. */
  predicate Blocked(files: Files, p: Path) {
    exists q :: q in files && q < p && IsFile(files[q])
  }

  /** Only directories hold anything. */
  predicate Tree(files: Files) {
    forall p, q :: p in files && q in files && p < q ==> files[p].Folder?
  }

  predicate BadRoot(files: Files, root: Path) {
    (root in files && !files[root].Folder?) || Blocked(files, root)
  }

  /** The walk fails on a root that is not a real directory or lies below a regular file, and on a candidate
      that is not text. */
  predicate Unreadable(files: Files) {
    || (exists i :: 0 <= i < |ROOTS| && BadRoot(files, ROOTS[i]))
    || (exists p :: p in files && Candidate(p) && files[p].Binary?)
  }

  function Collected(files: Files): Artifacts {
    map p | p in files && Owned(p, files[p]) :: files[p].content
  }

  // ---- Line endings ----

  function Normalized(s: string): string {
    if s == "" then ""
    else if |s| >= 2 && s[0] == '\r' && s[1] == '\n' then "\n" + Normalized(s[2..])
    else [s[0]] + Normalized(s[1..])
  }

  function WithCrlf(s: string): string {
    if s == "" then "" else (if s[0] == '\n' then "\r\n" else [s[0]]) + WithCrlf(s[1..])
  }

  ghost predicate HasCrlf(s: string) {
    exists i :: 0 <= i < |s| - 1 && s[i] == '\r' && s[i + 1] == '\n'
  }

  /** A text and its CRLF form are the same artifact, and nothing but CRLF is made the same. */
  lemma {:induction false} CrlfFormIsSame(s: string)
    requires !HasCrlf(s)
    ensures Normalized(s) == s && Normalized(WithCrlf(s)) == s
  {
    if s != "" {
      assert forall i :: 0 <= i < |s| - 1 ==> s[1..][i] == s[i + 1];
      CrlfFormIsSame(s[1..]);
      var rest := WithCrlf(s[1..]);
      if s[0] == '\n' {
        assert ("\r\n" + rest)[2..] == rest;
      } else {
        assert ([s[0]] + rest)[1..] == rest;
      }
    }
  }

  predicate Same(a: string, b: string) {
    Normalized(a) == Normalized(b)
  }

  predicate UpToDate(current: Artifacts, p: Path, content: string) {
    p in current && Same(current[p], content)
  }

  /** Nothing missing, changed or stale. */
  predicate Matches(current: Artifacts, expected: Artifacts) {
    && (forall p :: p in expected ==> UpToDate(current, p, expected[p]))
    && (forall p :: p in current ==> p in expected)
  }

  datatype Failure = CannotRead | Drifted | Escapes | Collides | NotADirectory | CannotWrite

  datatype Outcome = Ok | Err(failure: Failure)

  /** Something is there already: a file, a link, or a directory, empty or not. */
  predicate Occupied(files: Files, p: Path) {
    p in files || exists q :: q in files && p < q
  }

  predicate Collision(files: Files, p: Path) {
    Occupied(files, p) && p !in Collected(files)
  }

  /** Why a staged path cannot be published. */
  predicate Refuses(files: Files, p: Path, escaping: set<Path>) {
    p in escaping || Collision(files, p) || Blocked(files, p)
  }

  predicate RefusedFor(files: Files, p: Path, escaping: set<Path>, failure: Failure) {
    match failure
    case Escapes => p in escaping
    case Collides => Collision(files, p)
    case NotADirectory => Blocked(files, p)
    case _ => false
  }

  // ---- What publication does ----

  function ToWrite(current: Artifacts, expected: Artifacts): set<Path> {
    set p | p in expected && !UpToDate(current, p, expected[p])
  }

  function ToRemove(current: Artifacts, expected: Artifacts): set<Path> {
    set p | p in current && p !in expected
  }

  /** The workspace with some of the expected files written and some of the stale ones removed. */
  function Applied(files: Files, expected: Artifacts, written: set<Path>, removed: set<Path>): Files
    requires written <= expected.Keys
  {
    map p | p in files.Keys + written && p !in removed :: if p in written then Text(expected[p]) else files[p]
  }

  /** A write truncates its file and then fills it, so one that breaks off may leave any part of the text,
      and one that breaks off inside a character leaves bytes that are no text. */
  datatype Tear = Whole | Torn(path: Path, entry: Entry)

  predicate PartOf(e: Entry, content: string) {
    || (e.Text? && e.content <= content)
    || (e.Binary? && exists i :: 0 <= i < |content| && content[i] as int >= 0x80)
  }

  /** What a publication that wrote and removed this much, and broke off there, may have torn. */
  predicate TearFits(current: Artifacts, expected: Artifacts, written: set<Path>, removed: set<Path>, tear: Tear) {
    tear.Torn? ==>
      && tear.path in ToWrite(current, expected) && tear.path !in written
      && PartOf(tear.entry, expected[tear.path])
      && removed == {}
  }

  predicate Reached(current: Artifacts, expected: Artifacts, written: set<Path>, removed: set<Path>, tear: Tear) {
    && written <= ToWrite(current, expected)
    && removed <= ToRemove(current, expected)
    && TearFits(current, expected, written, removed, tear)
  }

  /** The workspace a publication leaves, whole or broken off. */
  function LeftBy(files: Files, expected: Artifacts, written: set<Path>, removed: set<Path>, tear: Tear): Files
    requires written <= expected.Keys
  {
    var applied := Applied(files, expected, written, removed);
    if tear.Torn? then applied[tear.path := tear.entry] else applied
  }

  function Published(files: Files, staging: Files): Files {
    var current, expected := Collected(files), Collected(staging);
    Applied(files, expected, ToWrite(current, expected), ToRemove(current, expected))
  }

  method Snapshot(files: Files) returns (r: Option<Artifacts>)
    ensures r.None? <==> Unreadable(files)
    ensures r.Some? ==> r.value == Collected(files)
  {
    if exists i :: 0 <= i < |ROOTS| && BadRoot(files, ROOTS[i]) {
      return None;
    }
    var found: Artifacts := map[];
    var todo := files.Keys;
    while todo != {}
      invariant todo <= files.Keys
      invariant found == map p | p in files && p !in todo && Owned(p, files[p]) :: files[p].content
      invariant forall p :: p in files && p !in todo ==> !(Candidate(p) && files[p].Binary?)
      decreases |todo|
    {
      var p :| p in todo;
      todo := todo - {p};
      if Candidate(p) {
        if files[p].Binary? {
          return None;
        }
        if files[p].Text? && Headed(files[p].content) {
          found := found[p := files[p].content];
        }
      }
    }
    r := Some(found);
  }

  datatype Difference = MissingOrChanged(path: Path) | Stale(path: Path)

  method Changed(current: Artifacts, expected: Artifacts) returns (differences: set<Difference>)
    ensures differences == set p | p in ToWrite(current, expected) :: MissingOrChanged(p)
  {
    differences := {};
    var todo := expected.Keys;
    while todo != {}
      invariant todo <= expected.Keys
      invariant differences == set p | p in ToWrite(current, expected) && p !in todo :: MissingOrChanged(p)
      decreases |todo|
    {
      var p :| p in todo;
      todo := todo - {p};
      if p !in current || Normalized(current[p]) != Normalized(expected[p]) {
        differences := differences + {MissingOrChanged(p)};
      }
    }
  }

  method StaleOnes(current: Artifacts, expected: Artifacts) returns (differences: set<Difference>)
    ensures differences == set p | p in ToRemove(current, expected) :: Stale(p)
  {
    differences := {};
    var todo := current.Keys;
    while todo != {}
      invariant todo <= current.Keys
      invariant differences == set p | p in ToRemove(current, expected) && p !in todo :: Stale(p)
      decreases |todo|
    {
      var p :| p in todo;
      todo := todo - {p};
      if p !in expected {
        differences := differences + {Stale(p)};
      }
    }
  }

  /** Reports drift without repairing it: succeeds exactly when both trees can be read and match. */
  method Check(workspace: Files, staging: Files) returns (r: Outcome, differences: set<Difference>)
    ensures r == Err(CannotRead) <==> Unreadable(workspace) || Unreadable(staging)
    ensures r == Ok <==>
      !Unreadable(workspace) && !Unreadable(staging) && Matches(Collected(workspace), Collected(staging))
    ensures !Unreadable(workspace) && !Unreadable(staging) ==>
      && (forall p :: MissingOrChanged(p) in differences <==> p in ToWrite(Collected(workspace), Collected(staging)))
      && (forall p :: Stale(p) in differences <==> p in ToRemove(Collected(workspace), Collected(staging)))
  {
    var current := Snapshot(workspace);
    var expected := Snapshot(staging);
    if current.None? || expected.None? {
      return Err(CannotRead), {};
    }
    var changed := Changed(current.value, expected.value);
    var stale := StaleOnes(current.value, expected.value);
    differences := changed + stale;
    DriftIsMismatch(current.value, expected.value);
    assert forall p :: p in ToWrite(current.value, expected.value) ==> MissingOrChanged(p) in differences;
    assert forall p :: p in ToRemove(current.value, expected.value) ==> Stale(p) in differences;
    r := if differences == {} then Ok else Err(Drifted);
  }

  lemma DriftIsMismatch(current: Artifacts, expected: Artifacts)
    ensures Matches(current, expected) <==> ToWrite(current, expected) == {} && ToRemove(current, expected) == {}
  {
    assert forall p :: p in expected && !UpToDate(current, p, expected[p]) ==> p in ToWrite(current, expected);
    assert forall p :: p in current && p !in expected ==> p in ToRemove(current, expected);
  }

  // ---- Publication ----

  /** Why publication refuses before it changes anything. */
  predicate Declines(files: Files, staging: Files, escaping: set<Path>) {
    || Unreadable(files)
    || Unreadable(staging)
    || (exists p :: p in Collected(staging) && Refuses(files, p, escaping))
  }

  class Workspace {
    var files: Files

    constructor (files: Files)
      ensures this.files == files
    {
      this.files := files;
    }

    /** Publishes owned artifacts only, after every collision check. `escaping` are destinations whose
        resolved path leaves the workspace, `broken` those the file system refuses to write or remove. */
    method Publish(staging: Files, escaping: set<Path>, broken: set<Path>) returns (r: Outcome)
      modifies this
      ensures old(Declines(files, staging, escaping)) ==> r.Err? && r != Err(CannotWrite) && files == old(files)
      ensures r == Err(CannotRead) <==> Unreadable(old(files)) || Unreadable(staging)
      ensures r.Err? && r.failure != CannotRead && r.failure != CannotWrite ==>
        exists p :: p in Collected(staging) && RefusedFor(old(files), p, escaping, r.failure)
      ensures !old(Declines(files, staging, escaping)) ==>
        var current, expected := Collected(old(files)), Collected(staging);
        && (r == Ok <==> broken !! ToWrite(current, expected) + ToRemove(current, expected))
        && (r == Ok ==> files == Published(old(files), staging))
        && (r == Ok || r == Err(CannotWrite))
      ensures exists written: set<Path>, removed: set<Path>, tear: Tear ::
        && Reached(Collected(old(files)), Collected(staging), written, removed, tear)
        && files == LeftBy(old(files), Collected(staging), written, removed, tear)
    {
      AppliedNothing(files, Collected(staging));
      assert files == LeftBy(files, Collected(staging), {}, {}, Whole);
      var current := Snapshot(files);
      var expected := Snapshot(staging);
      if current.None? || expected.None? {
        return Err(CannotRead);
      }
      var refusal := FindRefusal(current.value, expected.value, escaping);
      if refusal.Some? {
        return Err(refusal.value);
      }
      ghost var written, removed, tear;
      r, written, removed, tear := Apply(current.value, expected.value, broken);
    }

    /** Writes what is missing or changed and then removes what is stale, as far as the file system lets it. */
    method Apply(current: Artifacts, expected: Artifacts, broken: set<Path>)
      returns (r: Outcome, ghost written: set<Path>, ghost removed: set<Path>, ghost tear: Tear)
      modifies this
      ensures r == Ok || r == Err(CannotWrite)
      ensures r == Ok <==> broken !! ToWrite(current, expected) + ToRemove(current, expected)
      ensures Reached(current, expected, written, removed, tear)
      ensures files == LeftBy(old(files), expected, written, removed, tear)
      ensures r == Ok ==>
        written == ToWrite(current, expected) && removed == ToRemove(current, expected) && tear == Whole
    {
      var outdated := ToWrite(current, expected);
      var left, torn := WriteAll(expected, outdated, broken, files);
      written, removed, tear := outdated - left, {}, torn;
      if left != {} {
        return Err(CannotWrite), written, removed, tear;
      }
      assert written == outdated;
      var failed;
      failed, removed := RemoveAll(current, expected, broken, old(files));
      r := if failed then Err(CannotWrite) else Ok;
    }

    method FindRefusal(current: Artifacts, expected: Artifacts, escaping: set<Path>) returns (r: Option<Failure>)
      requires current == Collected(files)
      ensures r.Some? <==> exists p :: p in expected && Refuses(files, p, escaping)
      ensures r.Some? ==> r.value != CannotWrite && r.value != CannotRead
      ensures r.Some? ==> exists p :: p in expected && RefusedFor(files, p, escaping, r.value)
    {
      var todo := expected.Keys;
      while todo != {}
        invariant todo <= expected.Keys
        invariant forall p :: p in expected && p !in todo ==> !Refuses(files, p, escaping)
        decreases |todo|
      {
        var p :| p in todo;
        todo := todo - {p};
        if p in escaping {
          return Some(Escapes);
        }
        if Occupied(files, p) && p !in current {
          return Some(Collides);
        }
        if Blocked(files, p) {
          return Some(NotADirectory);
        }
      }
      r := None;
    }

    /** Writes until the file system refuses; `left` is what remains unwritten then, one of it perhaps torn. */
    method WriteAll(expected: Artifacts, outdated: set<Path>, broken: set<Path>, ghost before: Files)
      returns (left: set<Path>, tear: Tear)
      requires outdated <= expected.Keys && files == before
      modifies this
      ensures left <= outdated && files == LeftBy(before, expected, outdated - left, {}, tear)
      ensures tear.Torn? ==> tear.path in left && PartOf(tear.entry, expected[tear.path])
      ensures left == {} <==> broken !! outdated
    {
      AppliedNothing(files, expected);
      assert outdated - outdated == {};
      left, tear := outdated, Whole;
      while left != {}
        invariant left <= outdated && tear == Whole
        invariant files == Applied(before, expected, outdated - left, {})
        invariant forall p :: p in outdated && p !in left ==> p !in broken
        decreases |left|
      {
        var p :| p in left;
        if p in broken {
          tear := WriteBroken(expected, p);
          return;
        }
        WriteOne(expected, p, outdated - left, before);
        assert outdated - (left - {p}) == (outdated - left) + {p};
        left := left - {p};
      }
    }

    /** A write that breaks off, before or after it truncated the file. */
    method WriteBroken(expected: Artifacts, p: Path) returns (tear: Tear)
      requires p in expected
      modifies this
      ensures tear.Torn? ==> tear.path == p && PartOf(tear.entry, expected[p])
      ensures files == if tear.Torn? then old(files)[p := tear.entry] else old(files)
    {
      var truncated: bool, entry: Entry := *, *;
      if truncated && PartOf(entry, expected[p]) {
        files := files[p := entry];
        return Torn(p, entry);
      }
      return Whole;
    }

    method WriteOne(expected: Artifacts, p: Path, ghost written: set<Path>, ghost before: Files)
      requires written <= expected.Keys && p in expected && files == Applied(before, expected, written, {})
      modifies this
      ensures files == Applied(before, expected, written + {p}, {})
    {
      files := files[p := Text(expected[p])];
      AppliedWrite(before, expected, written, p);
    }

    method RemoveAll(current: Artifacts, expected: Artifacts, broken: set<Path>, ghost before: Files)
      returns (failed: bool, ghost removed: set<Path>)
      requires files == Applied(before, expected, ToWrite(current, expected), {})
      modifies this
      ensures !failed <==> broken !! ToRemove(current, expected)
      ensures removed <= ToRemove(current, expected) && (!failed ==> removed == ToRemove(current, expected))
      ensures files == Applied(before, expected, ToWrite(current, expected), removed)
    {
      failed, removed := false, {};
      var todo := ToRemove(current, expected);
      while todo != {}
        invariant todo + removed == ToRemove(current, expected) && todo !! removed
        invariant files == Applied(before, expected, ToWrite(current, expected), removed)
        invariant removed !! broken
        decreases |todo|
      {
        var p :| p in todo;
        if p in broken {
          return true, removed;
        }
        AppliedRemoval(before, expected, ToWrite(current, expected), removed, p);
        todo := todo - {p};
        removed := removed + {p};
        files := files - {p};
      }
    }
  }

  lemma AppliedWrite(files: Files, expected: Artifacts, written: set<Path>, p: Path)
    requires written <= expected.Keys && p in expected
    ensures Applied(files, expected, written + {p}, {}) == Applied(files, expected, written, {})[p := Text(expected[p])]
  {
  }

  lemma AppliedRemoval(files: Files, expected: Artifacts, written: set<Path>, removed: set<Path>, p: Path)
    requires written <= expected.Keys
    ensures Applied(files, expected, written, removed + {p}) == Applied(files, expected, written, removed) - {p}
  {
  }

  lemma AppliedNothing(files: Files, expected: Artifacts)
    ensures Applied(files, expected, {}, {}) == files
  {
  }

  // ---- Promises ----

  /** Whatever was written or removed, and even if publication broke off half way, a file the generator
      does not own is left exactly as it was, nothing is lost but what is no longer staged, and nothing
      appears that was not staged, except that the one file whose write broke off may hold part of its
      text. */
  lemma UnownedFilesSurvive(
    files: Files, staging: Files, escaping: set<Path>, written: set<Path>, removed: set<Path>, tear: Tear)
    requires !Declines(files, staging, escaping)
    requires Reached(Collected(files), Collected(staging), written, removed, tear)
    ensures var after := LeftBy(files, Collected(staging), written, removed, tear);
            && (forall p :: p in files && !Owned(p, files[p]) ==> p in after && after[p] == files[p])
            && (forall p :: p in files && p !in after ==> p !in Collected(staging))
            && (forall p :: p in after && (p !in files || after[p] != files[p]) ==>
                  && p in staging && Owned(p, staging[p]) && (p !in files ==> !Occupied(files, p))
                  && (after[p] == staging[p]
                      || (tear == Torn(p, after[p]) && PartOf(after[p], staging[p].content))))
  {
    forall p | p in files && !Owned(p, files[p])
      ensures p !in Collected(staging) && p !in removed
    {
      if p in Collected(staging) {
        assert Collision(files, p);
      }
    }
  }

  /** A broken publication can be repeated, and then repairs what it left, if and only if the piece it tore
      off still carries its header; cut inside the header the file counts as someone else's, and cut inside
      a character it cannot be read. */
  lemma RepeatableUnlessHeaderIsCut(
    files: Files, staging: Files, escaping: set<Path>, written: set<Path>, removed: set<Path>, tear: Tear)
    requires Tree(staging) && !Declines(files, staging, escaping)
    requires Reached(Collected(files), Collected(staging), written, removed, tear)
    ensures var after := LeftBy(files, Collected(staging), written, removed, tear);
            Declines(after, staging, escaping) <==>
              tear.Torn? && (tear.entry.Binary? || !Headed(tear.entry.content))
  {
    var after := LeftBy(files, Collected(staging), written, removed, tear);
    if tear.Torn? && !Owned(tear.path, tear.entry) {
      assert after[tear.path] == tear.entry && Candidate(tear.path);
      if tear.entry.Text? {
        assert Collision(after, tear.path);
        assert Refuses(after, tear.path, escaping);
      }
    } else {
      StaysReadable(files, staging, escaping, written, removed, tear);
      forall p | p in Collected(staging)
        ensures !Refuses(after, p, escaping)
      {
        StaysPublishable(files, staging, escaping, written, removed, tear, p);
      }
    }
  }

  const CONTRACT: Path := ["packages", "contracts", "src", "a.ts"]

  lemma ContractIsCandidate()
    ensures Candidate(CONTRACT)
  {
    assert ROOTS[0] < CONTRACT;
    assert EndsWith("a.ts", EXTENSIONS[0]);
  }

  /** Breaking off right after truncating any file that was to be written is enough. */
  lemma EmptiedFileBlocksNext(files: Files, staging: Files, escaping: set<Path>, p: Path)
    requires Tree(staging) && !Declines(files, staging, escaping)
    requires p in ToWrite(Collected(files), Collected(staging))
    ensures Declines(LeftBy(files, Collected(staging), {}, {}, Torn(p, Text(""))), staging, escaping)
  {
    assert forall i :: 0 <= i < |HEADERS| ==> |HEADERS[i]| > 0;
    assert !Headed("");
    RepeatableUnlessHeaderIsCut(files, staging, escaping, {}, {}, Torn(p, Text("")));
  }

  lemma ContractCanBePublished(staging: Files)
    requires staging == map[CONTRACT := Text(HEADERS[0])]
    ensures Tree(staging) && !Declines(map[], staging, {})
    ensures CONTRACT in ToWrite(Collected(map[]), Collected(staging))
  {
    ContractIsCandidate();
    assert Headed(HEADERS[0]);
    forall i | 0 <= i < |ROOTS|
      ensures !BadRoot(staging, ROOTS[i])
    {
      assert |ROOTS[i]| <= |CONTRACT| && ROOTS[i] != CONTRACT;
    }
    assert !Unreadable(staging);
  }

  /** The first publication of one file, broken off right after its file was made, is refused from then on. */
  lemma FirstPublicationCutShort() returns (staging: Files)
    ensures !Declines(map[], staging, {})
    ensures Declines(LeftBy(map[], Collected(staging), {}, {}, Torn(CONTRACT, Text(""))), staging, {})
  {
    staging := map[CONTRACT := Text(HEADERS[0])];
    ContractCanBePublished(staging);
    EmptiedFileBlocksNext(map[], staging, {}, CONTRACT);
  }

  /** What was not there before is staged, and what is there and staged is owned. */
  lemma LeftIsKnown(
    files: Files, staging: Files, escaping: set<Path>, written: set<Path>, removed: set<Path>, tear: Tear, q: Path)
    requires !Declines(files, staging, escaping)
    requires Reached(Collected(files), Collected(staging), written, removed, tear)
    requires tear.Torn? ==> Owned(tear.path, tear.entry)
    requires q in LeftBy(files, Collected(staging), written, removed, tear)
    ensures var after := LeftBy(files, Collected(staging), written, removed, tear);
            && ((q in files && after[q] == files[q]) || (q in Collected(staging) && Owned(q, after[q])))
            && (q in Collected(staging) ==> q in Collected(after))
  {
    if q in Collected(staging) && q in files {
      assert !Refuses(files, q, escaping);
    }
  }

  lemma StaysReadable(
    files: Files, staging: Files, escaping: set<Path>, written: set<Path>, removed: set<Path>, tear: Tear)
    requires !Declines(files, staging, escaping)
    requires Reached(Collected(files), Collected(staging), written, removed, tear)
    requires tear.Torn? ==> Owned(tear.path, tear.entry)
    ensures !Unreadable(LeftBy(files, Collected(staging), written, removed, tear))
  {
    var after := LeftBy(files, Collected(staging), written, removed, tear);
    forall i, q | 0 <= i < |ROOTS| && q in after && q <= ROOTS[i]
      ensures if q == ROOTS[i] then after[q].Folder? else !IsFile(after[q])
    {
      LeftIsKnown(files, staging, escaping, written, removed, tear, q);
      assert !BadRoot(files, ROOTS[i]) && !BadRoot(staging, ROOTS[i]);
    }
    forall q | q in after && Candidate(q)
      ensures !after[q].Binary?
    {
      LeftIsKnown(files, staging, escaping, written, removed, tear, q);
    }
  }

  lemma StaysPublishable(
    files: Files, staging: Files, escaping: set<Path>, written: set<Path>, removed: set<Path>, tear: Tear, p: Path)
    requires Tree(staging) && !Declines(files, staging, escaping)
    requires Reached(Collected(files), Collected(staging), written, removed, tear)
    requires tear.Torn? ==> Owned(tear.path, tear.entry)
    requires p in Collected(staging)
    ensures !Refuses(LeftBy(files, Collected(staging), written, removed, tear), p, escaping)
  {
    var after := LeftBy(files, Collected(staging), written, removed, tear);
    assert !Refuses(files, p, escaping);
    if p in after {
      LeftIsKnown(files, staging, escaping, written, removed, tear, p);
    }
    forall q | q in after && (q < p || p < q)
      ensures q in files && after[q] == files[q]
    {
      LeftIsKnown(files, staging, escaping, written, removed, tear, q);
    }
  }

  /** Only a directory or a link leads anywhere. */
  ghost predicate NoFileHolds(files: Files) {
    forall p, q :: p in files && q in files && p < q ==> !IsFile(files[p])
  }

  /** Publication never puts a file where a directory holds something, nor anything below a file. */
  lemma PublicationKeepsDirectories(
    files: Files, staging: Files, escaping: set<Path>, written: set<Path>, removed: set<Path>, tear: Tear)
    requires NoFileHolds(files) && NoFileHolds(staging) && !Declines(files, staging, escaping)
    requires Reached(Collected(files), Collected(staging), written, removed, tear)
    ensures NoFileHolds(LeftBy(files, Collected(staging), written, removed, tear))
  {
    var after := LeftBy(files, Collected(staging), written, removed, tear);
    forall p, q | p in after && q in after && p < q
      ensures !IsFile(after[p])
    {
      Origin(files, staging, written, removed, tear, p);
      Origin(files, staging, written, removed, tear, q);
      HoldsNothing(files, staging, escaping, p, q);
    }
  }

  /** Whatever is there afterwards was there before or is staged. */
  lemma Origin(files: Files, staging: Files, written: set<Path>, removed: set<Path>, tear: Tear, q: Path)
    requires Reached(Collected(files), Collected(staging), written, removed, tear)
    requires q in LeftBy(files, Collected(staging), written, removed, tear)
    ensures q in Collected(staging)
         || (q in files && files[q] == LeftBy(files, Collected(staging), written, removed, tear)[q])
  {
  }

  lemma HoldsNothing(files: Files, staging: Files, escaping: set<Path>, p: Path, q: Path)
    requires NoFileHolds(files) && NoFileHolds(staging) && !Declines(files, staging, escaping) && p < q
    requires p in files || p in Collected(staging)
    requires q in files || q in Collected(staging)
    ensures p !in Collected(staging) && (p in files ==> !IsFile(files[p]))
  {
    if p in Collected(staging) {
      assert !Refuses(files, p, escaping);
      assert q in files ==> Occupied(files, p);
    }
    if q in Collected(staging) {
      assert !Refuses(files, q, escaping);
    }
  }

  /** Line endings are no drift: a workspace that holds exactly the expected files, each as it is or in its CRLF
      form, is up to date. */
  lemma LineEndingsAreNoDrift(current: Artifacts, expected: Artifacts)
    requires current.Keys == expected.Keys
    requires forall p :: p in expected ==>
      !HasCrlf(expected[p]) && (current[p] == expected[p] || current[p] == WithCrlf(expected[p]))
    ensures Matches(current, expected) && ToWrite(current, expected) == {} && ToRemove(current, expected) == {}
  {
    forall p | p in expected
      ensures UpToDate(current, p, expected[p])
    {
      CrlfFormIsSame(expected[p]);
    }
    DriftIsMismatch(current, expected);
  }

  lemma StagedIsOwned(staging: Files, p: Path)
    requires p in Collected(staging)
    ensures Owned(p, Text(Collected(staging)[p]))
  {
  }

  /** The published workspace holds exactly the expected artifacts, up to line endings. */
  lemma PublishedMatches(files: Files, staging: Files, escaping: set<Path>)
    requires !Declines(files, staging, escaping)
    ensures Matches(Collected(Published(files, staging)), Collected(staging))
  {
    var current, expected := Collected(files), Collected(staging);
    var after := Published(files, staging);
    forall p | p in expected
      ensures UpToDate(Collected(after), p, expected[p])
    {
      StagedIsOwned(staging, p);
      if p in ToWrite(current, expected) {
        assert after[p] == Text(expected[p]);
      } else {
        assert after[p] == files[p];
      }
    }
    forall p | p in Collected(after)
      ensures p in expected
    {
      assert p !in ToRemove(current, expected);
    }
  }

  /** After a successful publication a check succeeds, and publishing again is accepted and writes and removes
      nothing. */
  lemma PublishSettles(files: Files, staging: Files, escaping: set<Path>)
    requires !Declines(files, staging, escaping)
    ensures var after := Published(files, staging);
            && !Unreadable(after) && !Unreadable(staging)
            && (Tree(staging) ==> !Declines(after, staging, escaping))
            && Matches(Collected(after), Collected(staging))
            && ToWrite(Collected(after), Collected(staging)) == {}
            && ToRemove(Collected(after), Collected(staging)) == {}
            && Published(after, staging) == after
  {
    PublishedMatches(files, staging, escaping);
    var current, expected := Collected(files), Collected(staging);
    StaysReadable(files, staging, escaping, ToWrite(current, expected), ToRemove(current, expected), Whole);
    if Tree(staging) {
      RepeatableUnlessHeaderIsCut(
        files, staging, escaping, ToWrite(current, expected), ToRemove(current, expected), Whole);
    }
    DriftIsMismatch(Collected(Published(files, staging)), Collected(staging));
    AppliedNothing(Published(files, staging), Collected(staging));
  }
}
