/** The import-specifier rewriter: a loop over the remaining text, proved to be a transformation of the
    text's specifiers and nothing else.

    A text is read as a document: leads that end in `from "`, each followed by its specifier up to the
    closing quote, and a rest. Reading and rendering are inverse to each other on such documents. */
module SpecifierRewriter {
  import opened Basics

  const PREFIX := "from \""
  const QUOTE := '"'
  const SUFFIX := ".ts"

  datatype Split = Split(before: string, after: string)

  /** Splits a text right after the first occurrence of `p`. */
  function Cut(s: string, p: string): (r: Option<Split>)
    ensures r.Some? ==> r.value.before + r.value.after == s && |r.value.before| >= |p|
  {
    if p <= s then Some(Split(p, s[|p|..]))
    else if s == [] then None
    else
      match Cut(s[1..], p)
      case None => None
      case Some(later) => Some(Split([s[0]] + later.before, later.after))
  }

  /** Splits a text right before the first occurrence of `c`. */
  function CutChar(s: string, c: char): (r: Option<Split>)
    ensures r.Some? ==> r.value.before + r.value.after == s && r.value.after != "" && r.value.after[0] == c
  {
    if s == [] then None
    else if s[0] == c then Some(Split("", s))
    else
      match CutChar(s[1..], c)
      case None => None
      case Some(later) => Some(Split([s[0]] + later.before, later.after))
  }

  /** No occurrence ends before the first one: a text that is cut has none in any shorter beginning. */
  lemma {:induction false} CutIsFirst(a: string, p: string, b: string)
    ensures Cut(a + (p + b), p).Some? && |Cut(a + (p + b), p).value.before| <= |a| + |p|
  {
    var s := a + (p + b);
    if a == [] {
      assert s == p + b;
    } else if !(p <= s) {
      assert s[1..] == a[1..] + (p + b);
      CutIsFirst(a[1..], p, b);
    }
  }

  /** A text that goes on is still cut at the same place. */
  lemma {:induction false} CutStays(s: string, p: string, more: string)
    requires Cut(s, p).Some?
    ensures Cut(s + more, p) == Some(Split(Cut(s, p).value.before, Cut(s, p).value.after + more))
  {
    if p <= s {
      assert (s + more)[|p|..] == s[|p|..] + more;
    } else {
      CutStays(s[1..], p, more);
      assert (s + more)[1..] == s[1..] + more;
      assert |Cut(s, p).value.before| <= |s|;
      assert p <= s + more ==> p <= s;
    }
  }

  /** The part up to a first occurrence is cut at its very end. */
  lemma {:induction false} CutEndsLead(s: string, p: string)
    requires Cut(s, p).Some?
    ensures Cut(Cut(s, p).value.before, p) == Some(Split(Cut(s, p).value.before, ""))
  {
    if !(p <= s) {
      CutEndsLead(s[1..], p);
      var later := Cut(s[1..], p).value.before;
      var lead := [s[0]] + later;
      assert lead[1..] == later;
      assert p <= lead ==> p <= s by {
        assert lead <= s;
      }
    }
  }

  lemma {:induction false} NoneBeforeChar(s: string, c: char)
    requires CutChar(s, c).Some?
    ensures CutChar(CutChar(s, c).value.before, c).None?
  {
    if s[0] != c {
      NoneBeforeChar(s[1..], c);
      var later := CutChar(s[1..], c).value.before;
      assert ([s[0]] + later)[1..] == later;
    }
  }

  lemma {:induction false} CharComesNext(a: string, b: string, c: char)
    requires CutChar(a, c).None? && b != [] && b[0] == c
    ensures CutChar(a + b, c) == Some(Split(a, b))
  {
    if a == [] {
      assert a + b == b;
    } else {
      var s, rest := a + b, a[1..];
      CharComesNext(rest, b, c);
      assert s[1..] == rest + b && s[0] == a[0] != c;
      assert CutChar(s, c) == Some(Split([a[0]] + rest, b));
      assert [a[0]] + rest == a;
    }
  }

  lemma {:induction false} NoneInBoth(a: string, b: string, c: char)
    requires CutChar(a, c).None? && CutChar(b, c).None?
    ensures CutChar(a + b, c).None?
  {
    if a == [] {
      assert a + b == b;
    } else {
      NoneInBoth(a[1..], b, c);
      assert (a + b)[1..] == a[1..] + b;
    }
  }

  // ---- Documents ----

  datatype Document = End(rest: string) | Piece(lead: string, specifier: string, next: Document)

  function Render(d: Document): string {
    match d
    case End(rest) => rest
    case Piece(lead, specifier, next) => lead + (specifier + Render(next))
  }

  datatype Found = Found(lead: string, specifier: string, tail: string)

  /** The first terminated specifier of a text. */
  function Terminated(s: string): (r: Option<Found>)
    ensures r.Some? ==> r.value.lead + (r.value.specifier + r.value.tail) == s && |r.value.tail| < |s|
  {
    match Cut(s, PREFIX)
    case None => None
    case Some(cut) =>
      match CutChar(cut.after, QUOTE)
      case None => None
      case Some(end) => Some(Found(cut.before, end.before, end.after))
  }

  function Parse(s: string): Document
    decreases |s|
  {
    match Terminated(s)
    case None => End(s)
    case Some(f) => Piece(f.lead, f.specifier, Parse(f.tail))
  }

  /** The lead holds the prefix exactly once, at its end; the specifier runs up to the next quote. */
  predicate PieceFits(lead: string, specifier: string, tail: string) {
    && Cut(lead, PREFIX) == Some(Split(lead, ""))
    && CutChar(specifier, QUOTE).None?
    && tail != "" && tail[0] == QUOTE
  }

  predicate WellFormed(d: Document) {
    match d
    case End(rest) => Terminated(rest).None?
    case Piece(lead, specifier, next) => PieceFits(lead, specifier, Render(next)) && WellFormed(next)
  }

  lemma {:induction false} RenderParse(s: string)
    ensures Render(Parse(s)) == s
    decreases |s|
  {
    var t := Terminated(s);
    if t.Some? {
      RenderParse(t.value.tail);
    }
  }

  lemma FoundFits(s: string)
    requires Terminated(s).Some?
    ensures PieceFits(Terminated(s).value.lead, Terminated(s).value.specifier, Terminated(s).value.tail)
  {
    CutEndsLead(s, PREFIX);
    NoneBeforeChar(Cut(s, PREFIX).value.after, QUOTE);
  }

  lemma {:induction false} ParseIsWellFormed(s: string)
    ensures WellFormed(Parse(s))
    decreases |s|
  {
    var t := Terminated(s);
    if t.Some? {
      FoundFits(s);
      RenderParse(t.value.tail);
      ParseIsWellFormed(t.value.tail);
    }
  }

  lemma FitsIsFound(lead: string, specifier: string, tail: string)
    requires PieceFits(lead, specifier, tail)
    ensures Terminated(lead + (specifier + tail)) == Some(Found(lead, specifier, tail))
  {
    CutStays(lead, PREFIX, specifier + tail);
    assert "" + (specifier + tail) == specifier + tail;
    CharComesNext(specifier, tail, QUOTE);
  }

  /** A well-formed document is the only reading of its text. */
  lemma {:induction false} ParseRender(d: Document)
    requires WellFormed(d)
    ensures Parse(Render(d)) == d
  {
    if d.Piece? {
      FitsIsFound(d.lead, d.specifier, Render(d.next));
      ParseRender(d.next);
    }
  }

  // ---- The rewriting ----

  predicate Relative(specifier: string) {
    "./" <= specifier || "../" <= specifier
  }

  predicate Suffixed(specifier: string) {
    |specifier| >= |SUFFIX| && specifier[|specifier| - |SUFFIX|..] == SUFFIX
  }

  function Fixed(specifier: string): string {
    if Relative(specifier) && !Suffixed(specifier) then specifier + SUFFIX else specifier
  }

  /** A specifier changes exactly if it begins with `./` or `../` and does not end in `.ts`, and then by those
      three characters at its end. */
  lemma DueExactly(s: string)
    ensures Fixed(s) != s <==>
      && (|| (|s| >= 2 && s[0] == '.' && s[1] == '/')
          || (|s| >= 3 && s[0] == '.' && s[1] == '.' && s[2] == '/'))
      && !(|s| >= 3 && s[|s| - 3] == '.' && s[|s| - 2] == 't' && s[|s| - 1] == 's')
    ensures Fixed(s) != s ==> Fixed(s) == s + ['.', 't', 's']
  {
    if |s| >= 3 {
      var end := s[|s| - 3..];
      assert end[0] == s[|s| - 3] && end[1] == s[|s| - 2] && end[2] == s[|s| - 1];
    }
    assert |s + SUFFIX| != |s|;
  }

  /** Every specifier fixed, everything else as it was. */
  function FixAll(d: Document): Document {
    match d
    case End(_) => d
    case Piece(lead, specifier, next) => Piece(lead, Fixed(specifier), FixAll(next))
  }

  function Rewritten(s: string): string {
    Render(FixAll(Parse(s)))
  }

  lemma RewrittenUnfolds(s: string)
    ensures Terminated(s).None? ==> Rewritten(s) == s
    ensures Terminated(s).Some? ==>
      Rewritten(s) ==
        Terminated(s).value.lead
        + (Fixed(Terminated(s).value.specifier) + Rewritten(Terminated(s).value.tail))
  {
  }

  /** Copies the text up to the end of the specifier, and adds the extension where it is due. */
  method CopySpecifier(rewritten: string, lead: string, specifier: string) returns (r: string)
    ensures r == rewritten + (lead + Fixed(specifier))
  {
    r := rewritten + (lead + specifier);
    if Relative(specifier) && !Suffixed(specifier) {
      r := r + SUFFIX;
      assert r == rewritten + (lead + (specifier + SUFFIX));
    }
  }

  lemma Reassociate(a: string, b: string, c: string, d: string)
    ensures (a + (b + c)) + d == a + (b + (c + d))
  {
  }

  /** Appends the extension to each relative specifier that lacks it, left to right. */
  method AppendExtension(contents: string) returns (rewritten: string)
    ensures rewritten == Rewritten(contents)
  {
    rewritten := "";
    var remainder := contents;
    while true
      invariant rewritten + Rewritten(remainder) == Rewritten(contents)
      decreases |remainder|
    {
      RewrittenUnfolds(remainder);
      var prefix := Cut(remainder, PREFIX);
      if prefix.None? {
        break;
      }
      var end := CutChar(prefix.value.after, QUOTE);
      if end.None? {
        break;
      }
      ghost var before := rewritten;
      rewritten := CopySpecifier(rewritten, prefix.value.before, end.value.before);
      Reassociate(before, prefix.value.before, Fixed(end.value.before), Rewritten(end.value.after));
      remainder := end.value.after;
    }
    rewritten := rewritten + remainder;
  }

  lemma FixedHasNoQuote(specifier: string)
    requires CutChar(specifier, QUOTE).None?
    ensures CutChar(Fixed(specifier), QUOTE).None?
  {
    assert SUFFIX[1..] == "ts" && "ts"[1..] == "s" && "s"[1..] == "";
    NoneInBoth(specifier, SUFFIX, QUOTE);
  }

  lemma {:induction false} FixKeepsWellFormed(d: Document)
    requires WellFormed(d)
    ensures WellFormed(FixAll(d))
    ensures Render(d) != "" ==> Render(FixAll(d)) != "" && Render(FixAll(d))[0] == Render(d)[0]
  {
    if d.Piece? {
      FixKeepsWellFormed(d.next);
      FixedHasNoQuote(d.specifier);
    }
  }

  /** The rewritten text reads as the same document with its relative, unsuffixed, terminated specifiers
      suffixed: nothing else was touched, nothing new became a specifier. */
  lemma RewriteIsConservative(s: string)
    ensures Parse(Rewritten(s)) == FixAll(Parse(s)) && Render(Parse(s)) == s
  {
    ParseIsWellFormed(s);
    FixKeepsWellFormed(Parse(s));
    ParseRender(FixAll(Parse(s)));
    RenderParse(s);
  }

  lemma {:induction false} FixIsIdempotent(d: Document)
    ensures FixAll(FixAll(d)) == FixAll(d)
  {
    if d.Piece? {
      FixIsIdempotent(d.next);
      if Relative(d.specifier) && !Suffixed(d.specifier) {
        assert (d.specifier + SUFFIX)[|d.specifier|..] == SUFFIX;
      }
    }
  }

  /** Rewriting twice is rewriting once, for every text. */
  lemma RewriteIsIdempotent(s: string)
    ensures Rewritten(Rewritten(s)) == Rewritten(s)
  {
    RewriteIsConservative(s);
    FixIsIdempotent(Parse(s));
  }

  lemma ParentImportIsFound()
    ensures Terminated("from \"../a\";") == Some(Found(PREFIX, "../a", "\";"))
  {
    assert "../a"[1..] == "./a" && "./a"[1..] == "/a" && "/a"[1..] == "a" && "a"[1..] == "";
    assert CutChar("", QUOTE).None? && CutChar("a", QUOTE).None? && CutChar("/a", QUOTE).None?;
    assert CutChar("./a", QUOTE).None? && CutChar("../a", QUOTE).None?;
    FitsIsFound(PREFIX, "../a", "\";");
    assert PREFIX + ("../a" + "\";") == "from \"../a\";";
  }

  lemma {:induction false} ShortTextHasNone(s: string)
    requires |s| < |PREFIX|
    ensures Terminated(s).None? && Cut(s, PREFIX).None?
  {
    if s != "" {
      ShortTextHasNone(s[1..]);
    }
  }

  /** One import of a sibling of the parent directory. */
  lemma ParentImportIsSuffixed()
    ensures Rewritten("from \"../a\";") == "from \"../a.ts\";"
  {
    ParentImportIsFound();
    ShortTextHasNone("\";");
    RewrittenUnfolds("from \"../a\";");
    RewrittenUnfolds("\";");
    DueExactly("../a");
  }
}
