/** The session recorder: what the file holds, what the host was told, and when recording stops.

    A failed write may leave nothing behind or a part of its line. The reader takes newline-separated
    segments and drops those that do not decode. */
module SessionRecorder {
  datatype Record = Gap(reason: string) | Content(text: string)

  datatype Line = Line(seqno: nat, record: Record)

  /** One newline-terminated segment of the file, as the reader sees it. */
  datatype Cell = Good(line: Line) | Garbage

  /** What follows the last newline: nothing, or the beginning of a line cut short; `whole` when only
      its newline is missing, so that it still decodes. */
  datatype Tail = Clean | Torn(line: Line, whole: bool)

  datatype File = File(cells: seq<Cell>, tail: Tail)

  datatype Luck = Written | LostClean | LostTorn(whole: bool)

  /** Appending to a torn tail glues the line to the fragment, and neither decodes any more. */
  function Write(f: File, line: Line, luck: Luck): File {
    match luck
    case Written => File(f.cells + [if f.tail.Clean? then Good(line) else Garbage], Clean)
    case LostClean => f
    case LostTorn(whole) => f.(tail := Torn(line, whole && f.tail.Clean?))
  }

  function GoodLines(cells: seq<Cell>): seq<Line> {
    if cells == [] then []
    else
      var last := cells[|cells| - 1];
      GoodLines(cells[..|cells| - 1]) + if last.Good? then [last.line] else []
  }

  function TailLines(t: Tail): seq<Line> {
    if t.Torn? && t.whole then [t.line] else []
  }

  /** What reading the file back yields, in file order. */
  function Readable(f: File): seq<Line> {
    GoodLines(f.cells) + TailLines(f.tail)
  }

  /** What a lost line left in the file: nothing, something that does not decode, or all but its newline. */
  datatype Remnant = Nothing | Part | Whole

  /** What became of each record handed to the recorder. */
  datatype Fate = Wrote(line: Line) | Lost(line: Line, left: Remnant)

  function RemnantOf(luck: Luck, file: File): Remnant {
    if !luck.LostTorn? then Nothing else if file.tail.Torn? && file.tail.whole then Whole else Part
  }

  datatype Outcome = Continued | JustFailed

  datatype State = State(recording: bool, file: File, reported: seq<Line>, fates: seq<Fate>)

  /** One record: written and reported, lost with the recorder stopping, or dropped by a stopped one. */
  function Put(s: State, line: Line, luck: Luck): State {
    if !s.recording then s.(fates := s.fates + [Lost(line, Nothing)])
    else
      var file := Write(s.file, line, luck);
      if luck.Written? then State(true, file, s.reported + [line], s.fates + [Wrote(line)])
      else State(false, file, s.reported, s.fates + [Lost(line, RemnantOf(luck, file))])
  }

  function PutAll(s: State, lines: seq<Line>, luck: seq<Luck>): State
    requires |luck| == |lines|
  {
    if lines == [] then s
    else Put(PutAll(s, lines[..|lines| - 1], luck[..|lines| - 1]), lines[|lines| - 1], luck[|lines| - 1])
  }

  class Recorder {
    var recording: bool
    var file: File
    var reported: seq<Line>
    var nextSeq: nat
    ghost var fates: seq<Fate>

    ghost function Model(): State
      reads this
    {
      State(recording, file, reported, fates)
    }

    /** A session whose history failed earlier opens stopped. */
    constructor (file: File, nextSeq: nat, degraded: bool)
      ensures Model() == Opened(file, degraded) && this.nextSeq == nextSeq
    {
      this.recording, this.file, this.reported, this.nextSeq := !degraded, file, [], nextSeq;
      this.fates := [];
    }

    /** Appends line by line, reporting each to the host before the next; a failed write stops for good. */
    method Append(lines: seq<Line>, luck: seq<Luck>) returns (outcome: Outcome)
      requires |luck| == |lines|
      modifies `recording, `file, `reported, `fates
      ensures Model() == PutAll(old(Model()), lines, luck)
      ensures outcome.JustFailed? <==> old(recording) && !recording
      ensures !old(recording) ==> file == old(file) && reported == old(reported) && !recording
    {
      ghost var before := Model();
      if !recording {
        DroppedAll(before, lines, luck);
        fates := PutAll(before, lines, luck).fates;
        return Continued;
      }
      for n := 0 to |lines|
        invariant recording && Model() == PutAll(before, lines[..n], luck[..n])
      {
        PutOneMore(before, lines, luck, n);
        var written := luck[n].Written?;
        file := Write(file, lines[n], luck[n]);
        if written {
          reported := reported + [lines[n]];
          fates := fates + [Wrote(lines[n])];
        } else {
          recording := false;
          fates := fates + [Lost(lines[n], RemnantOf(luck[n], file))];
          ghost var stopped := Model();
          DroppedAll(stopped, lines[n + 1..], luck[n + 1..]);
          PutAllSplits(before, lines, luck, n + 1);
          fates := PutAll(stopped, lines[n + 1..], luck[n + 1..]).fates;
          return JustFailed;
        }
      }
      assert lines[..|lines|] == lines && luck[..|lines|] == luck;
      outcome := Continued;
    }

    /** Claims the next position for a record that is not streamed. */
    method AppendStandalone(record: Record, luck: Luck) returns (outcome: Outcome)
      modifies this
      ensures nextSeq == old(nextSeq) + 1
      ensures Model() == Put(old(Model()), Line(old(nextSeq), record), luck)
      ensures outcome.JustFailed? <==> old(recording) && !recording
    {
      var line := Line(nextSeq, record);
      nextSeq := nextSeq + 1;
      ghost var before := Model();
      outcome := Append([line], [luck]);
      PutAllSingle(before, line, luck);
    }

    /** Starts recording again, with a Gap as its first line. */
    method Resume(reason: string, luck: Luck) returns (outcome: Outcome)
      modifies this
      ensures Model() == Put(old(Model()).(recording := true), Line(old(nextSeq), Gap(reason)), luck)
      ensures outcome.JustFailed? <==> !recording
    {
      recording := true;
      outcome := AppendStandalone(Gap(reason), luck);
    }
  }

  lemma PutAllSingle(s: State, line: Line, luck: Luck)
    ensures PutAll(s, [line], [luck]) == Put(s, line, luck)
  {
    assert PutAll(s, [line][..0], [luck][..0]) == s;
  }

  lemma PutOneMore(s: State, lines: seq<Line>, luck: seq<Luck>, n: nat)
    requires |luck| == |lines| && n < |lines|
    ensures PutAll(s, lines[..n + 1], luck[..n + 1]) == Put(PutAll(s, lines[..n], luck[..n]), lines[n], luck[n])
  {
    assert lines[..n + 1][..n] == lines[..n] && luck[..n + 1][..n] == luck[..n];
  }

  lemma {:induction false} DroppedAll(s: State, lines: seq<Line>, luck: seq<Luck>)
    requires |luck| == |lines| && !s.recording
    ensures PutAll(s, lines, luck) == s.(fates := PutAll(s, lines, luck).fates)
  {
    if lines != [] {
      DroppedAll(s, lines[..|lines| - 1], luck[..|lines| - 1]);
    }
  }

  lemma {:induction false} PutAllSplits(s: State, lines: seq<Line>, luck: seq<Luck>, n: nat)
    requires |luck| == |lines| && n <= |lines|
    ensures PutAll(s, lines, luck) == PutAll(PutAll(s, lines[..n], luck[..n]), lines[n..], luck[n..])
  {
    var k := |lines|;
    if n == k {
      assert lines[..n] == lines && luck[..n] == luck;
    } else {
      PutAllSplits(s, lines[..k - 1], luck[..k - 1], n);
      assert lines[..k - 1][..n] == lines[..n] && luck[..k - 1][..n] == luck[..n];
      assert lines[n..][..k - 1 - n] == lines[..k - 1][n..] && luck[n..][..k - 1 - n] == luck[..k - 1][n..];
    }
  }

  /** A recorder in service writes and reports every line up to the first that is lost, which stops it; with
      none lost it stays in service. */
  lemma {:induction false} RecordsUpToFirstLoss(s: State, lines: seq<Line>, luck: seq<Luck>, k: nat)
    requires s.recording && |luck| == |lines| && k <= |lines|
    requires forall i :: 0 <= i < k ==> luck[i].Written?
    requires k < |lines| ==> !luck[k].Written?
    ensures var t := PutAll(s, lines, luck);
            t.reported == s.reported + lines[..k] && (t.recording <==> k == |lines|)
  {
    if lines == [] {
      assert lines[..k] == [];
    } else {
      var n := |lines| - 1;
      if k <= n {
        RecordsUpToFirstLoss(s, lines[..n], luck[..n], k);
        assert lines[..n][..k] == lines[..k];
      } else {
        RecordsUpToFirstLoss(s, lines[..n], luck[..n], n);
        assert lines[..n][..n] == lines[..n] && lines[..k] == lines[..n] + [lines[n]];
      }
    }
  }

  // ---- Every run of one recorder ----

  datatype Op = Batch(lines: seq<Line>, lucks: seq<Luck>) | ResumeWith(line: Line, luck: Luck)

  predicate Sensible(op: Op) {
    match op
    case Batch(lines, luck) => |lines| == |luck|
    case ResumeWith(line, _) => line.record.Gap?
  }

  function Apply(s: State, op: Op): State
    requires Sensible(op)
  {
    match op
    case Batch(lines, luck) => PutAll(s, lines, luck)
    case ResumeWith(line, luck) => Put(s.(recording := true), line, luck)
  }

  function After(s: State, ops: seq<Op>): State
    requires forall i :: 0 <= i < |ops| ==> Sensible(ops[i])
  {
    if ops == [] then s else Apply(After(s, ops[..|ops| - 1]), ops[|ops| - 1])
  }

  /** A recorder that is recording has lost nothing since its last line, and every line that follows a
      loss is a Gap: a lost record, or the history that had failed before a degraded session was opened. */
  ghost predicate NoSilentGap(s: State, degraded: bool) {
    && (s.recording ==> if s.fates == [] then !degraded else s.fates[|s.fates| - 1].Wrote?)
    && (degraded && s.fates != [] && s.fates[0].Wrote? ==> s.fates[0].line.record.Gap?)
    && (forall i :: 0 <= i < |s.fates| - 1 && s.fates[i].Lost? && s.fates[i + 1].Wrote? ==>
          s.fates[i + 1].line.record.Gap?)
  }

  function WroteLines(fates: seq<Fate>): seq<Line> {
    if fates == [] then []
    else
      var last := fates[|fates| - 1];
      WroteLines(fates[..|fates| - 1]) + if last.Wrote? then [last.line] else []
  }

  /** `base` counts the segments the file held when this recorder opened it. */
  ghost predicate Honest(s: State, base: nat, degraded: bool) {
    && NoSilentGap(s, degraded)
    && s.reported == WroteLines(s.fates)
    && |s.file.cells| == base + |s.reported|
    && (forall i :: 0 <= i < |s.reported| && s.file.cells[base + i].Good? ==>
          s.file.cells[base + i].line == s.reported[i])
  }

  /** A recorder just opened on any file. */
  function Opened(file: File, degraded: bool): State {
    State(!degraded, file, [], [])
  }

  lemma WroteLinesExtends(fates: seq<Fate>, fate: Fate)
    ensures WroteLines(fates + [fate]) == WroteLines(fates) + if fate.Wrote? then [fate.line] else []
  {
    assert (fates + [fate])[..|fates|] == fates;
  }

  /** While recording, any line may follow; a stopped recorder may only be followed by a Gap. */
  lemma PutIsHonest(s: State, base: nat, degraded: bool, line: Line, luck: Luck)
    requires Honest(s.(recording := false), base, degraded)
    requires s.recording ==> Honest(s, base, degraded) || line.record.Gap?
    ensures Honest(Put(s, line, luck), base, degraded)
  {
    WroteLinesExtends(s.fates, Wrote(line));
    WroteLinesExtends(s.fates, Lost(line, Nothing));
    WroteLinesExtends(s.fates, Lost(line, RemnantOf(luck, Write(s.file, line, luck))));
  }

  lemma {:induction false} PutAllIsHonest(s: State, base: nat, degraded: bool, lines: seq<Line>, luck: seq<Luck>)
    requires |luck| == |lines| && Honest(s, base, degraded)
    ensures Honest(PutAll(s, lines, luck), base, degraded)
  {
    if lines != [] {
      var k := |lines| - 1;
      PutAllIsHonest(s, base, degraded, lines[..k], luck[..k]);
      PutIsHonest(PutAll(s, lines[..k], luck[..k]), base, degraded, lines[k], luck[k]);
    }
  }

  ghost predicate AllSensible(ops: seq<Op>) {
    forall i :: 0 <= i < |ops| ==> Sensible(ops[i])
  }

  /** The record has no silent gap, in every run from any file: the host was told exactly the lines that
      were written, in order, and any line written after a loss is a Gap. */
  lemma {:induction false} RecordIsHonest(file: File, degraded: bool, ops: seq<Op>)
    requires AllSensible(ops)
    ensures Honest(After(Opened(file, degraded), ops), |file.cells|, degraded)
  {
    if ops != [] {
      var front, op := ops[..|ops| - 1], ops[|ops| - 1];
      RecordIsHonest(file, degraded, front);
      var before := After(Opened(file, degraded), front);
      match op {
        case Batch(lines, luck) => PutAllIsHonest(before, |file.cells|, degraded, lines, luck);
        case ResumeWith(line, luck) => PutIsHonest(before.(recording := true), |file.cells|, degraded, line, luck);
      }
    }
  }

  // ---- What reading back shows ----

  predicate Tears(f: Fate) {
    f.Lost? && !f.left.Nothing?
  }

  /** What follows the last newline after these fates, in a file that ended in `tail`. */
  function EndOf(tail: Tail, fates: seq<Fate>): Tail {
    if fates == [] then tail
    else
      var last := fates[|fates| - 1];
      if last.Wrote? then Clean
      else if last.left.Nothing? then EndOf(tail, fates[..|fates| - 1])
      else Torn(last.line, last.left.Whole?)
  }

  /** The lines written onto a clean tail, which are those that decode. */
  function Decoded(tail: Tail, fates: seq<Fate>): seq<Line> {
    if fates == [] then []
    else
      var front, last := fates[..|fates| - 1], fates[|fates| - 1];
      Decoded(tail, front) + if last.Wrote? && EndOf(tail, front).Clean? then [last.line] else []
  }

  /** How many lines were written onto something dangling. */
  function Glues(tail: Tail, fates: seq<Fate>): nat {
    if fates == [] then 0
    else
      var front, last := fates[..|fates| - 1], fates[|fates| - 1];
      Glues(tail, front) + if last.Wrote? && EndOf(tail, front).Torn? then 1 else 0
  }

  /** Only a line begun on a clean tail can be left whole. */
  predicate Plausible(tail: Tail, fates: seq<Fate>) {
    fates != [] ==>
      && Plausible(tail, fates[..|fates| - 1])
      && (fates[|fates| - 1].Lost? && fates[|fates| - 1].left.Whole? ==> EndOf(tail, fates[..|fates| - 1]).Clean?)
  }

  /** The file is what the fates make of the one that was opened. */
  ghost predicate Accounts(s: State, file: File) {
    && s.file.tail == EndOf(file.tail, s.fates)
    && GoodLines(s.file.cells) == GoodLines(file.cells) + Decoded(file.tail, s.fates)
    && Plausible(file.tail, s.fates)
  }

  lemma FatesGrow(tail: Tail, fates: seq<Fate>, fate: Fate)
    ensures var more := fates + [fate];
            && EndOf(tail, more) == (if fate.Wrote? then Clean else if fate.left.Nothing? then EndOf(tail, fates)
                                     else Torn(fate.line, fate.left.Whole?))
            && Decoded(tail, more) ==
                 Decoded(tail, fates) + (if fate.Wrote? && EndOf(tail, fates).Clean? then [fate.line] else [])
            && (Plausible(tail, more) <==>
                  Plausible(tail, fates) && (fate.Lost? && fate.left.Whole? ==> EndOf(tail, fates).Clean?))
  {
    assert (fates + [fate])[..|fates|] == fates;
  }

  lemma PutAccounts(s: State, file: File, line: Line, luck: Luck)
    requires Accounts(s, file)
    ensures Accounts(Put(s, line, luck), file)
  {
    var t := Put(s, line, luck);
    FatesGrow(file.tail, s.fates, t.fates[|s.fates|]);
    if s.recording && luck.Written? {
      var cell := t.file.cells[|s.file.cells|];
      assert (s.file.cells + [cell])[..|s.file.cells|] == s.file.cells;
    }
  }

  lemma {:induction false} PutAllAccounts(s: State, file: File, lines: seq<Line>, luck: seq<Luck>)
    requires |luck| == |lines| && Accounts(s, file)
    ensures Accounts(PutAll(s, lines, luck), file)
  {
    if lines != [] {
      var k := |lines| - 1;
      PutAllAccounts(s, file, lines[..k], luck[..k]);
      PutAccounts(PutAll(s, lines[..k], luck[..k]), file, lines[k], luck[k]);
    }
  }

  lemma {:induction false} RunAccounts(file: File, degraded: bool, ops: seq<Op>)
    requires AllSensible(ops)
    ensures Accounts(After(Opened(file, degraded), ops), file)
  {
    if ops != [] {
      var front, op := ops[..|ops| - 1], ops[|ops| - 1];
      RunAccounts(file, degraded, front);
      var before := After(Opened(file, degraded), front);
      match op {
        case Batch(lines, luck) => PutAllAccounts(before, file, lines, luck);
        case ResumeWith(line, luck) => PutAccounts(before.(recording := true), file, line, luck);
      }
    }
  }

  /** A line was written onto something dangling: the file was torn at opening and anything was written, or
      some torn write was followed by a written line. */
  ghost predicate TearIsWrittenOver(tail: Tail, fates: seq<Fate>) {
    || (tail.Torn? && exists i :: 0 <= i < |fates| && fates[i].Wrote?)
    || (exists m, i :: 0 <= m < i < |fates| && Tears(fates[m]) && fates[i].Wrote?)
  }

  /** The last line that left anything is `m`, and it was left whole. */
  ghost predicate WholeAtEnd(fates: seq<Fate>, m: nat) {
    && m < |fates| && fates[m].Lost? && fates[m].left.Whole?
    && forall i :: m < i < |fates| ==> fates[i].Lost? && fates[i].left.Nothing?
  }

  /** Nothing of this recorder's was spoilt, nothing readable before was, and nothing unheard can be read. */
  ghost predicate Unharmed(tail: Tail, fates: seq<Fate>) {
    && !TearIsWrittenOver(tail, fates)
    && (tail.Torn? && tail.whole ==> forall i :: 0 <= i < |fates| ==> !Tears(fates[i]))
    && (forall m :: 0 <= m < |fates| ==> !WholeAtEnd(fates, m))
  }

  predicate GluedAt(tail: Tail, fates: seq<Fate>, j: nat) {
    j < |fates| && fates[j].Wrote? && EndOf(tail, fates[..j]).Torn?
  }

  ghost predicate AllWrittenFrom(fates: seq<Fate>, j: nat, line: Line) {
    forall i :: j <= i < |fates| && fates[i].Wrote? ==> fates[i].line == line
  }

  /** Everything written from a spoilt line on is that one line. */
  ghost predicate RepeatsFromGlue(tail: Tail, fates: seq<Fate>, line: Line) {
    exists j: nat :: GluedAt(tail, fates, j) && AllWrittenFrom(fates, j, line)
  }

  /** The one coincidence that hides a spoilt line: it alone was spoilt, every line written since equals it,
      and so does the whole line lost at the end. */
  ghost predicate Echoes(tail: Tail, fates: seq<Fate>) {
    && !(tail.Torn? && tail.whole)
    && Glues(tail, fates) == 1
    && exists m: nat :: WholeAtEnd(fates, m) && RepeatsFromGlue(tail, fates, fates[m].line)
  }

  /** The tail dangles exactly when the tear it was opened with, or one made since, has not been written over. */
  lemma {:induction false} DanglingMeans(tail: Tail, fates: seq<Fate>)
    ensures EndOf(tail, fates).Torn? <==>
      || (tail.Torn? && forall i :: 0 <= i < |fates| ==> !fates[i].Wrote?)
      || (exists m :: 0 <= m < |fates| && Tears(fates[m]) && forall i :: m < i < |fates| ==> !fates[i].Wrote?)
  {
    if fates != [] {
      var n := |fates| - 1;
      var front := fates[..n];
      DanglingMeans(tail, front);
      assert forall i :: 0 <= i < n ==> front[i] == fates[i];
      if fates[n].Lost? && fates[n].left.Nothing? {
        forall m | 0 <= m < |fates| && Tears(fates[m]) && forall i :: m < i < |fates| ==> !fates[i].Wrote?
          ensures EndOf(tail, front).Torn?
        {
          assert m < n && Tears(front[m]);
          assert forall i :: m < i < n ==> !front[i].Wrote?;
        }
        if exists m :: 0 <= m < n && Tears(front[m]) && forall i :: m < i < n ==> !front[i].Wrote? {
          var m :| 0 <= m < n && Tears(front[m]) && forall i :: m < i < n ==> !front[i].Wrote?;
          assert Tears(fates[m]) && forall i :: m < i < |fates| ==> !fates[i].Wrote?;
        }
      } else if fates[n].Lost? {
        assert Tears(fates[n]);
      }
    }
  }

  lemma GlueGrows(tail: Tail, fates: seq<Fate>)
    requires fates != []
    ensures var n := |fates| - 1;
            TearIsWrittenOver(tail, fates) <==>
              TearIsWrittenOver(tail, fates[..n]) || (fates[n].Wrote? && EndOf(tail, fates[..n]).Torn?)
  {
    var n := |fates| - 1;
    var front := fates[..n];
    assert forall i :: 0 <= i < n ==> front[i] == fates[i];
    DanglingMeans(tail, front);
    if TearIsWrittenOver(tail, front) && !tail.Torn? {
      var m, i :| 0 <= m < i < n && Tears(front[m]) && front[i].Wrote?;
      assert Tears(fates[m]) && fates[i].Wrote?;
    }
    if exists m, i :: 0 <= m < i < |fates| && Tears(fates[m]) && fates[i].Wrote? {
      var m, i :| 0 <= m < i < |fates| && Tears(fates[m]) && fates[i].Wrote?;
      if i == n && !TearIsWrittenOver(tail, front) {
        assert Tears(front[m]);
        assert forall j :: m < j < n ==> !front[j].Wrote?;
      } else if i < n {
        assert Tears(front[m]) && front[i].Wrote?;
      }
    }
  }

  lemma {:induction false} GluesMean(tail: Tail, fates: seq<Fate>)
    ensures Glues(tail, fates) > 0 <==> TearIsWrittenOver(tail, fates)
    ensures |Decoded(tail, fates)| + Glues(tail, fates) == |WroteLines(fates)|
    ensures Glues(tail, fates) == 0 ==> Decoded(tail, fates) == WroteLines(fates)
  {
    if fates != [] {
      GluesMean(tail, fates[..|fates| - 1]);
      GlueGrows(tail, fates);
    }
  }

  /** What can be read of the tail: a line left whole since, or the one that was there if nothing came since. */
  lemma {:induction false} TailMeans(tail: Tail, fates: seq<Fate>)
    ensures forall m: nat :: WholeAtEnd(fates, m) ==> TailLines(EndOf(tail, fates)) == [fates[m].line]
    ensures (forall m :: 0 <= m < |fates| ==> !WholeAtEnd(fates, m)) ==>
      TailLines(EndOf(tail, fates)) ==
        if forall i :: 0 <= i < |fates| ==> fates[i].Lost? && fates[i].left.Nothing? then TailLines(tail) else []
  {
    if fates != [] {
      var n := |fates| - 1;
      var front := fates[..n];
      TailMeans(tail, front);
      assert forall i :: 0 <= i < n ==> front[i] == fates[i];
      if fates[n].Lost? && fates[n].left.Nothing? {
        forall m: nat
          ensures WholeAtEnd(fates, m) <==> WholeAtEnd(front, m)
        {
          if WholeAtEnd(front, m) {
            assert fates[m].left.Whole?;
          }
        }
      } else if fates[n].Lost? && fates[n].left.Whole? {
        assert WholeAtEnd(fates, n);
      }
    }
  }

  lemma RepeatsGrow(tail: Tail, fates: seq<Fate>, line: Line)
    requires fates != [] && Glues(tail, fates) == 1
    ensures var front, last := fates[..|fates| - 1], fates[|fates| - 1];
            RepeatsFromGlue(tail, fates, line) <==>
              && (last.Wrote? ==> last.line == line)
              && (Glues(tail, front) == 0 || RepeatsFromGlue(tail, front, line))
  {
    var n := |fates| - 1;
    var front, last := fates[..n], fates[n];
    assert forall i :: 0 <= i < n ==> front[i] == fates[i];
    forall j: nat | j < n
      ensures GluedAt(tail, front, j) <==> GluedAt(tail, fates, j)
      ensures AllWrittenFrom(fates, j, line) <==>
        AllWrittenFrom(front, j, line) && (last.Wrote? ==> last.line == line)
    {
      assert front[..j] == fates[..j];
    }
    if Glues(tail, front) == 0 {
      NoGlueBefore(tail, front);
      assert GluedAt(tail, fates, n) && (AllWrittenFrom(fates, n, line) <==> last.line == line);
    } else {
      assert !GluedAt(tail, fates, n);
    }
  }

  /** With one line spoilt, the rest and one more line make up everything written exactly when all from the
      spoilt one on are that line. */
  lemma {:induction false} OneMoreMakesUp(tail: Tail, fates: seq<Fate>, line: Line)
    requires Glues(tail, fates) == 1
    ensures Decoded(tail, fates) + [line] == WroteLines(fates) <==> RepeatsFromGlue(tail, fates, line)
  {
    var front, last := fates[..|fates| - 1], fates[|fates| - 1];
    var d, w := Decoded(tail, front), WroteLines(front);
    RepeatsGrow(tail, fates, line);
    GluesMean(tail, front);
    if Glues(tail, front) == 0 {
      assert Decoded(tail, fates) == d == w;
      LastMatches(w, line, w, last.line);
    } else {
      OneMoreMakesUp(tail, front, line);
      if last.Wrote? {
        assert Decoded(tail, fates) == d + [last.line];
        LastMatches(d + [last.line], line, w, last.line);
      } else {
        assert Decoded(tail, fates) == d;
      }
    }
  }

  lemma LastMatches(a: seq<Line>, x: Line, b: seq<Line>, y: Line)
    ensures a + [x] == b + [y] <==> a == b && x == y
  {
    if a + [x] == b + [y] {
      assert a == (a + [x])[..|a|] && b == (b + [y])[..|b|];
      assert (a + [x])[|a|] == x && (b + [y])[|b|] == y;
    }
  }

  lemma {:induction false} NoGlueBefore(tail: Tail, fates: seq<Fate>)
    requires Glues(tail, fates) == 0
    ensures forall j: nat :: !GluedAt(tail, fates, j)
  {
    if fates != [] {
      var front := fates[..|fates| - 1];
      NoGlueBefore(tail, front);
      forall j: nat
        ensures !GluedAt(tail, fates, j)
      {
        if j < |front| {
          assert front[..j] == fates[..j] && !GluedAt(tail, front, j);
        }
      }
    }
  }

  lemma {:induction false} TornUntilWritten(tail: Tail, fates: seq<Fate>)
    requires tail.Torn? && forall i :: 0 <= i < |fates| ==> !fates[i].Wrote?
    ensures EndOf(tail, fates).Torn?
    ensures Plausible(tail, fates) ==> forall i :: 0 <= i < |fates| ==> !fates[i].left.Whole?
  {
    if fates != [] {
      TornUntilWritten(tail, fates[..|fates| - 1]);
    }
  }

  /** Fates alone: what decodes and what can be read of the tail make up what was there and what was written. */
  lemma FatesDecide(tail: Tail, fates: seq<Fate>)
    requires Plausible(tail, fates)
    ensures Decoded(tail, fates) + TailLines(EndOf(tail, fates)) == TailLines(tail) + WroteLines(fates) <==>
      Unharmed(tail, fates) || Echoes(tail, fates)
  {
    if tail.Torn? && tail.whole {
      WholeTailDecides(tail, fates);
    } else {
      EndingDecides(tail, fates);
    }
  }

  lemma WholeTailDecides(tail: Tail, fates: seq<Fate>)
    requires Plausible(tail, fates) && tail.Torn? && tail.whole
    ensures Decoded(tail, fates) + TailLines(EndOf(tail, fates)) == TailLines(tail) + WroteLines(fates) <==>
      Unharmed(tail, fates)
  {
    GluesMean(tail, fates);
    TailMeans(tail, fates);
    if Glues(tail, fates) == 0 {
      TornUntilWritten(tail, fates);
      assert forall m :: 0 <= m < |fates| ==> !WholeAtEnd(fates, m);
      NothingWritten(fates);
    }
  }

  lemma {:induction false} NothingWritten(fates: seq<Fate>)
    requires forall i :: 0 <= i < |fates| ==> !fates[i].Wrote?
    ensures WroteLines(fates) == []
  {
    if fates != [] {
      NothingWritten(fates[..|fates| - 1]);
    }
  }

  lemma EndingDecides(tail: Tail, fates: seq<Fate>)
    requires !(tail.Torn? && tail.whole)
    ensures Decoded(tail, fates) + TailLines(EndOf(tail, fates)) == WroteLines(fates) <==>
      Unharmed(tail, fates) || Echoes(tail, fates)
  {
    GluesMean(tail, fates);
    TailMeans(tail, fates);
    if m: nat :| m < |fates| && WholeAtEnd(fates, m) {
      assert TailLines(EndOf(tail, fates)) == [fates[m].line];
      OneWholeAtEnd(tail, fates, m);
    } else {
      assert TailLines(EndOf(tail, fates)) == [];
      assert Decoded(tail, fates) + [] == Decoded(tail, fates);
    }
  }

  lemma OneWholeAtEnd(tail: Tail, fates: seq<Fate>, m: nat)
    requires !(tail.Torn? && tail.whole) && WholeAtEnd(fates, m)
    ensures Decoded(tail, fates) + [fates[m].line] == WroteLines(fates) <==> Echoes(tail, fates)
  {
    GluesMean(tail, fates);
    if Glues(tail, fates) == 1 {
      OneMoreMakesUp(tail, fates, fates[m].line);
      forall k: nat | WholeAtEnd(fates, k)
        ensures k == m
      {
      }
    }
  }

  /** Over every run from any file: reading it back yields what could be read before and then exactly what the
      host was told, if and only if no line was written over a tear, no torn write spoilt a readable tail,
      and no line lost for its newline alone is still the tail, or a spoilt line is echoed at the end. */
  lemma ReadsBackExactlyUnharmed(file: File, degraded: bool, ops: seq<Op>)
    requires AllSensible(ops)
    ensures var s := After(Opened(file, degraded), ops);
            Readable(s.file) == Readable(file) + s.reported <==>
              Unharmed(file.tail, s.fates) || Echoes(file.tail, s.fates)
  {
    var s := After(Opened(file, degraded), ops);
    RecordIsHonest(file, degraded, ops);
    RunAccounts(file, degraded, ops);
    FatesDecide(file.tail, s.fates);
    var g, d, t := GoodLines(file.cells), Decoded(file.tail, s.fates), TailLines(s.file.tail);
    assert Readable(s.file) == g + (d + t);
    assert Readable(file) + s.reported == g + (TailLines(file.tail) + s.reported);
    SameStart(g, d + t, TailLines(file.tail) + s.reported);
  }

  lemma SameStart(g: seq<Line>, a: seq<Line>, b: seq<Line>)
    ensures g + a == g + b <==> a == b
  {
    assert a == (g + a)[|g|..] && b == (g + b)[|g|..];
  }

  /** An echo takes a line handed over twice. */
  lemma EchoNeedsARepeat(tail: Tail, fates: seq<Fate>)
    requires Echoes(tail, fates)
    ensures exists i, j :: 0 <= i < j < |fates| && fates[i].line == fates[j].line
  {
    var m: nat :| WholeAtEnd(fates, m) && RepeatsFromGlue(tail, fates, fates[m].line);
    var j: nat :| GluedAt(tail, fates, j) && AllWrittenFrom(fates, j, fates[m].line);
    assert j < m && fates[j].line == fates[m].line;
  }

  // ---- Concrete files ----

  /** One line written, the next torn, the Gap glued to it. */
  lemma TornWriteHidesTheGap()
    ensures var first, second, gap := Line(0, Content("a")), Line(1, Content("b")), Line(2, Gap("disk full"));
            var torn := PutAll(Opened(File([], Clean), false), [first, second], [Written, LostTorn(false)]);
            var resumed := Put(torn.(recording := true), gap, Written);
            && resumed.reported == [first, gap]
            && resumed.file == File([Good(first), Garbage], Clean)
  {
    var first, second := Line(0, Content("a")), Line(1, Content("b"));
    PutAllSingle(Opened(File([], Clean), false), first, Written);
    assert [first, second][..1] == [first] && [Written, LostTorn(false)][..1] == [Written];
  }

  /** A process killed inside an append leaves a torn tail in a session still writable: the first line of
      the next recorder is glued to it, reported and unreadable, and no write has failed. */
  lemma CrashedAppendHidesThePrompt()
    ensures var fragment, prompt := Line(0, Content("answer")), Line(0, Content("prompt"));
            var s := Put(Opened(File([], Torn(fragment, false)), false), prompt, Written);
            && s.recording && s.reported == [prompt] && s.fates == [Wrote(prompt)]
            && s.file == File([Garbage], Clean) && Readable(s.file) == []
  {
    assert GoodLines([Garbage]) == GoodLines([Garbage][..0]);
  }

  lemma AfterOne(s: State, op: Op)
    requires Sensible(op)
    ensures After(s, [op]) == Apply(s, op)
  {
    assert [op][..0] == [];
    assert After(s, [op][..0]) == s;
  }

  /** A write that failed for want of its newline alone leaves a line that reads back and that the host was
      never told. */
  lemma LostNewlineLeavesUnheardLine(line: Line)
    ensures var s := After(Opened(File([], Clean), false), [Batch([line], [LostTorn(true)])]);
            Readable(s.file) == [line] && s.reported == [] && !s.recording
  {
    var s := Opened(File([], Clean), false);
    AfterOne(s, Batch([line], [LostTorn(true)]));
    PutAllSingle(s, line, LostTorn(true));
  }

  /** The coincidence: the first of two equal lines is spoilt, and the second, lost, reads back in its place. */
  lemma EchoHidesTheLoss(fragment: Line, line: Line)
    ensures var s := PutAll(Opened(File([], Torn(fragment, false)), false), [line, line], [Written, LostTorn(true)]);
            s.file == File([Garbage], Torn(line, true)) && Readable(s.file) == [line] == s.reported
  {
    PutAllSingle(Opened(File([], Torn(fragment, false)), false), line, Written);
    assert [line, line][..1] == [line] && [Written, LostTorn(true)][..1] == [Written];
    assert GoodLines([Garbage]) == GoodLines([Garbage][..0]);
  }

  /** A torn write after a tail that only lacked its newline takes the line that could be read there. */
  lemma TornWriteSpoilsOldLine(earlier: Line, line: Line)
    ensures var file := File([], Torn(earlier, true));
            var s := After(Opened(file, false), [Batch([line], [LostTorn(false)])]);
            Readable(file) == [earlier] && Readable(s.file) == [] && s.reported == []
  {
    var s := Opened(File([], Torn(earlier, true)), false);
    AfterOne(s, Batch([line], [LostTorn(false)]));
    PutAllSingle(s, line, LostTorn(false));
  }
}
