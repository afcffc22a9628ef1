/**
 * The pure part of the Word-document export (App.tsx, handleExportDocx):
 * pick the most recent model turn, split its text into lines and turn every
 * line into a heading or a body paragraph, after a fixed title paragraph.
 * Serialising the document and offering it as a download are not modelled.
 */
module DocxExport {
  import opened Types

  /** The two heading levels the exporter uses (docx HEADING_1 and HEADING_2). */
  datatype Level = H1 | H2

  /**
   * A paragraph of the generated document.
   * Title: the fixed first paragraph, a centred HEADING_1 reading TitleText.
   * Heading: a heading line with its `#` markers removed.
   * Body: a single run holding the line verbatim, at BodyFontSize half-points.
   */
  datatype Paragraph = Title | Heading(level: Level, text: string) | Body(text: string)

  const TitleText: string := "Peça Processual - AdvogadoIA"
  const BodyFontSize: nat := 24

  /** The text a paragraph shows. */
  function ParagraphText(p: Paragraph): string {
    match p
    case Title => TitleText
    case Heading(_, text) => text
    case Body(text) => text
  }

  /** The docx heading style of a paragraph, if it has one. */
  function ParagraphHeading(p: Paragraph): Option<Level> {
    match p
    case Title => Some(H1)
    case Heading(level, _) => Some(level)
    case Body(_) => None
  }

  /** The font size of a paragraph's run, for paragraphs built from a TextRun. */
  function RunSize(p: Paragraph): Option<nat> {
    if p.Body? then Some(BodyFontSize) else None
  }

  // ---------------------------------------------------------------------
  // Whitespace and trimming, as JavaScript's String.prototype.trim and the
  // regular-expression class \s define them (both use the same set).
  // ---------------------------------------------------------------------

  /** JavaScript WhiteSpace or LineTerminator; the heading marker is not one. */
  predicate IsSpace(c: char)
    ensures c == ' ' || c == '\t' || c == '\n' || c == '\r' ==> IsSpace(c)
    ensures IsSpace(c) ==> c != '#'
  {
    || c == '\t' || c == '\n' || c == '\U{000B}' || c == '\U{000C}' || c == '\r'
    || c == ' ' || c == '\U{00A0}' || c == '\U{1680}'
    || ('\U{2000}' <= c <= '\U{200A}')
    || c == '\U{2028}' || c == '\U{2029}' || c == '\U{202F}' || c == '\U{205F}'
    || c == '\U{3000}' || c == '\U{FEFF}'
  }

  /** How many whitespace characters `s` starts with. */
  function LeadingSpaces(s: string): (n: nat)
    ensures n <= |s|
    ensures forall k :: 0 <= k < n ==> IsSpace(s[k])
    ensures n < |s| ==> !IsSpace(s[n])
  {
    if s != [] && IsSpace(s[0]) then 1 + LeadingSpaces(s[1..]) else 0
  }

  /** The length of `s` once its trailing whitespace is dropped. */
  function TrimmedEnd(s: string): (n: nat)
    ensures n <= |s|
    ensures forall k :: n <= k < |s| ==> IsSpace(s[k])
    ensures n > 0 ==> !IsSpace(s[n - 1])
  {
    if s != [] && IsSpace(s[|s| - 1]) then TrimmedEnd(s[..|s| - 1]) else |s|
  }

  /** String.prototype.trimStart, and the `\s*` a regular expression skips. */
  function TrimStart(s: string): string {
    s[LeadingSpaces(s)..]
  }

  /** String.prototype.trimEnd. */
  function TrimEnd(s: string): string {
    s[..TrimmedEnd(s)]
  }

  /** trimStart drops exactly the leading whitespace: a suffix that starts with a non-space. */
  lemma {:induction false} TrimStartDrops(s: string)
    ensures |TrimStart(s)| <= |s| && TrimStart(s) == s[|s| - |TrimStart(s)|..]
    ensures forall k :: 0 <= k < |s| - |TrimStart(s)| ==> IsSpace(s[k])
    ensures TrimStart(s) != [] ==> !IsSpace(TrimStart(s)[0])
  {
  }

  /** trimEnd drops exactly the trailing whitespace: a prefix that ends with a non-space. */
  lemma {:induction false} TrimEndDrops(s: string)
    ensures |TrimEnd(s)| <= |s| && TrimEnd(s) == s[..|TrimEnd(s)|]
    ensures forall k :: |TrimEnd(s)| <= k < |s| ==> IsSpace(s[k])
    ensures TrimEnd(s) != [] ==> !IsSpace(TrimEnd(s)[|TrimEnd(s)| - 1])
  {
  }

  /** String.prototype.trim. */
  function Trim(s: string): (r: string)
    ensures |r| <= |s|
    ensures r != [] ==> !IsSpace(r[0]) && !IsSpace(r[|r| - 1])
  {
    TrimEnd(TrimStart(s))
  }

  lemma {:induction false} LeadingSpacesUnique(s: string, i: nat)
    requires i <= |s|
    requires forall k :: 0 <= k < i ==> IsSpace(s[k])
    requires i < |s| ==> !IsSpace(s[i])
    ensures LeadingSpaces(s) == i
  {
  }

  lemma {:induction false} TrimmedEndUnique(s: string, j: nat)
    requires j <= |s|
    requires forall k :: j <= k < |s| ==> IsSpace(s[k])
    requires j > 0 ==> !IsSpace(s[j - 1])
    ensures TrimmedEnd(s) == j
  {
  }

  lemma {:induction false} TrimmedEndOfSuffix(s: string, i: nat, j: nat)
    requires i < j <= |s|
    requires forall k :: j <= k < |s| ==> IsSpace(s[k])
    requires !IsSpace(s[j - 1])
    ensures TrimmedEnd(s[i..]) == j - i
  {
    var a := s[i..];
    assert forall k :: j - i <= k < |a| ==> IsSpace(a[k]) by {
      forall k | j - i <= k < |a| ensures IsSpace(a[k]) {
        assert a[k] == s[i + k];
      }
    }
    assert a[j - i - 1] == s[j - 1];
    TrimmedEndUnique(a, j - i);
  }

  /**
   * Trim is the one slice s[i..j] that has only whitespace outside it and
   * starts and ends with a non-space (or is empty).
   */
  lemma {:induction false} TrimUnique(s: string, i: nat, j: nat)
    requires i <= j <= |s|
    requires forall k :: 0 <= k < i ==> IsSpace(s[k])
    requires forall k :: j <= k < |s| ==> IsSpace(s[k])
    requires i < j ==> !IsSpace(s[i]) && !IsSpace(s[j - 1])
    ensures Trim(s) == s[i..j]
  {
    if i < j {
      LeadingSpacesUnique(s, i);
      TrimmedEndOfSuffix(s, i, j);
      assert s[i..][..j - i] == s[i..j];
    } else {
      assert forall k :: 0 <= k < |s| ==> IsSpace(s[k]) by {
        forall k | 0 <= k < |s| ensures IsSpace(s[k]) {
          if k >= i { assert j <= k; }
        }
      }
      LeadingSpacesUnique(s, |s|);
    }
  }

  /** Trimming twice is trimming once. */
  lemma {:induction false} TrimIdempotent(s: string)
    ensures Trim(Trim(s)) == Trim(s)
  {
    var t := Trim(s);
    TrimUnique(t, 0, |t|);
  }

  /** Trimming the end first and then the start gives the same result. */
  lemma {:induction false} TrimStartOfTrimEnd(s: string)
    ensures TrimStart(TrimEnd(s)) == Trim(s)
  {
    var m := TrimmedEnd(s);
    var e := s[..m];
    var i := LeadingSpaces(e);
    assert forall k :: 0 <= k < i ==> IsSpace(s[k]) by {
      forall k | 0 <= k < i ensures IsSpace(s[k]) {
        assert e[k] == s[k];
      }
    }
    if i < m {
      assert e[i] == s[i];
    }
    TrimUnique(s, i, m);
    assert e[i..] == s[i..m];
  }

  /** Trailing whitespace after a non-space prefix is dropped from the tail alone. */
  lemma {:induction false} TrimEndAfterMarker(a: string, b: string)
    requires a != [] && !IsSpace(a[|a| - 1])
    ensures TrimEnd(a + b) == a + TrimEnd(b)
  {
    var n := TrimmedEnd(b);
    var j := |a| + n;
    var ab := a + b;
    assert forall k :: j <= k < |ab| ==> IsSpace(ab[k]) by {
      forall k | j <= k < |ab| ensures IsSpace(ab[k]) {
        assert ab[k] == b[k - |a|];
      }
    }
    if n > 0 {
      assert ab[j - 1] == b[n - 1];
    } else {
      assert ab[j - 1] == a[|a| - 1];
    }
    TrimmedEndUnique(ab, j);
    assert ab[..j] == a + b[..n];
  }

  // ---------------------------------------------------------------------
  // Splitting on '\n', as String.prototype.split('\n') does: every newline
  // separates two (possibly empty) lines.
  // ---------------------------------------------------------------------

  function NewlineCount(s: string): nat {
    if s == [] then 0 else (if s[0] == '\n' then 1 else 0) + NewlineCount(s[1..])
  }

  /** The lines of `s`: one more than its newlines, none containing one. */
  function Split(s: string): (lines: seq<string>)
    ensures |lines| == NewlineCount(s) + 1
    ensures forall k :: 0 <= k < |lines| ==> '\n' !in lines[k]
  {
    if s == [] then [[]]
    else
      var rest := Split(s[1..]);
      if s[0] == '\n' then [[]] + rest
      else [[s[0]] + rest[0]] + rest[1..]
  }

  /** Array.prototype.join('\n'): the inverse of Split. */
  function Join(lines: seq<string>): string
    requires |lines| >= 1
  {
    if |lines| == 1 then lines[0] else lines[0] + "\n" + Join(lines[1..])
  }

  /** Joining the lines back with newlines gives the original text. */
  lemma {:induction false} JoinSplit(s: string)
    ensures Join(Split(s)) == s
  {
    if s != [] {
      var rest := Split(s[1..]);
      JoinSplit(s[1..]);
      if s[0] == '\n' {
        assert Split(s) == [[]] + rest;
        assert Split(s)[1..] == rest;
      } else {
        var lines := Split(s);
        assert lines == [[s[0]] + rest[0]] + rest[1..];
        if |rest| == 1 {
          assert s == [s[0]] + s[1..];
        } else {
          assert lines[1..] == rest[1..];
          assert Join(rest) == rest[0] + "\n" + Join(rest[1..]);
          assert s == [s[0]] + s[1..];
        }
      }
    }
  }

  lemma {:induction false} SplitNoNewline(l: string)
    requires '\n' !in l
    ensures Split(l) == [l]
  {
    if l != [] {
      SplitNoNewline(l[1..]);
      assert [l[0]] + l[1..] == l;
    }
  }

  lemma {:induction false} SplitAtNewline(l: string, s: string)
    requires '\n' !in l
    ensures Split(l + "\n" + s) == [l] + Split(s)
  {
    if l == [] {
      assert l + "\n" + s == "\n" + s;
      assert ("\n" + s)[1..] == s;
    } else {
      SplitAtNewline(l[1..], s);
      assert (l + "\n" + s)[1..] == l[1..] + "\n" + s;
      assert [l[0]] + l[1..] == l;
    }
  }

  /** Splitting joined newline-free lines gives the lines back. */
  lemma {:induction false} SplitJoin(lines: seq<string>)
    requires |lines| >= 1
    requires forall k :: 0 <= k < |lines| ==> '\n' !in lines[k]
    ensures Split(Join(lines)) == lines
  {
    if |lines| == 1 {
      SplitNoNewline(lines[0]);
    } else {
      var rest := lines[1..];
      SplitJoin(rest);
      SplitAtNewline(lines[0], Join(rest));
      assert [lines[0]] + rest == lines;
    }
  }

  // ---------------------------------------------------------------------
  // Classifying one line.
  // ---------------------------------------------------------------------

  /**
   * Length of the leading run of '#', i.e. of the match of /^#+/. It is only
   * applied to text starting with '#', where the match always exists, so the
   * `|| ['#']` fallback of the source never applies.
   */
  function HashRun(t: string): (n: nat)
    ensures n <= |t|
    ensures forall k :: 0 <= k < n ==> t[k] == '#'
    ensures n < |t| ==> t[n] != '#'
  {
    if t != [] && t[0] == '#' then 1 + HashRun(t[1..]) else 0
  }

  /**
   * A line whose trimmed form starts with '#' is a heading: HEADING_1 for a
   * single '#', HEADING_2 for any longer run; its text is the trimmed line
   * without the run and the whitespace after it. Any other line is a body
   * paragraph holding the line exactly as it was, untrimmed.
   */
  function ClassifyLine(line: string): Paragraph {
    var t := Trim(line);
    if t != [] && t[0] == '#' then
      var n := HashRun(t);
      Heading(if n == 1 then H1 else H2, TrimStart(t[n..]))
    else
      Body(line)
  }

  /**
   * The cases of ClassifyLine: a heading exactly when the trimmed line starts
   * with '#', HEADING_1 exactly when that run is a single '#', and otherwise
   * the untrimmed line as a body paragraph; never the title.
   */
  lemma {:induction false} ClassifyLineCases(line: string)
    ensures ClassifyLine(line).Heading? <==> Trim(line) != [] && Trim(line)[0] == '#'
    ensures ClassifyLine(line).Heading? ==> (ClassifyLine(line).level == H1 <==> HashRun(Trim(line)) == 1)
    ensures !ClassifyLine(line).Heading? ==> ClassifyLine(line) == Body(line)
  {
  }

  function Hashes(n: nat): (h: string)
    ensures |h| == n && forall k :: 0 <= k < n ==> h[k] == '#'
  {
    seq(n, _ => '#')
  }

  /**
   * Any indentation, then a run of n >= 1 '#', then text not starting with
   * '#': a heading whose level depends only on n and whose text is the rest,
   * trimmed. No space after the markers is needed and runs longer than two
   * collapse to HEADING_2.
   */
  lemma {:induction false} HeadingLine(indent: string, n: nat, rest: string)
    requires forall k :: 0 <= k < |indent| ==> IsSpace(indent[k])
    requires n >= 1
    requires rest == [] || rest[0] != '#'
    ensures ClassifyLine(indent + Hashes(n) + rest) == Heading(if n == 1 then H1 else H2, Trim(rest))
  {
    var tr := TrimEnd(rest);
    TrimAfterIndent(indent, Hashes(n), rest);
    assert tr != [] ==> tr[0] == rest[0];
    HashRunOf(n, tr);
    TrimStartOfTrimEnd(rest);
  }

  lemma {:induction false} TrimAfterIndent(indent: string, h: string, rest: string)
    requires forall k :: 0 <= k < |indent| ==> IsSpace(indent[k])
    requires h != [] && !IsSpace(h[0]) && !IsSpace(h[|h| - 1])
    ensures Trim(indent + h + rest) == h + TrimEnd(rest)
  {
    var line := indent + h + rest;
    assert line[|indent|] == h[0];
    LeadingSpacesUnique(line, |indent|);
    assert line[|indent|..] == h + rest;
    TrimEndAfterMarker(h, rest);
  }

  lemma {:induction false} HashRunOf(n: nat, x: string)
    requires x == [] || x[0] != '#'
    ensures HashRun(Hashes(n) + x) == n
    ensures (Hashes(n) + x)[n..] == x
  {
    var t := Hashes(n) + x;
    assert forall k :: 0 <= k < n ==> t[k] == '#';
    if n < |t| {
      assert t[n] == x[0];
    }
    HashRunUnique(t, n);
  }

  lemma {:induction false} HashRunUnique(t: string, n: nat)
    requires n <= |t|
    requires forall k :: 0 <= k < n ==> t[k] == '#'
    requires n < |t| ==> t[n] != '#'
    ensures HashRun(t) == n
  {
  }

  /** Indentation followed by anything but '#' is a body line, kept verbatim. */
  lemma {:induction false} BodyLine(indent: string, rest: string)
    requires forall k :: 0 <= k < |indent| ==> IsSpace(indent[k])
    requires rest == [] || (!IsSpace(rest[0]) && rest[0] != '#')
    ensures ClassifyLine(indent + rest) == Body(indent + rest)
  {
    var line := indent + rest;
    if rest != [] {
      assert line[|indent|] == rest[0];
    }
    LeadingSpacesUnique(line, |indent|);
    assert line[|indent|..] == rest;
    var t := TrimEnd(rest);
    if t != [] {
      assert t[0] == rest[0];
    }
  }

  /** The text of a heading never starts or ends with whitespace. */
  lemma {:induction false} HeadingTextTrimmed(line: string)
    requires ClassifyLine(line).Heading?
    ensures Trim(ClassifyLine(line).text) == ClassifyLine(line).text
  {
    var t := Trim(line);
    TrimStartOfTail(t, HashRun(t));
  }

  lemma {:induction false} TrimStartOfTail(t: string, n: nat)
    requires n <= |t|
    requires t != [] ==> !IsSpace(t[|t| - 1])
    ensures Trim(TrimStart(t[n..])) == TrimStart(t[n..])
  {
    var a := t[n..];
    var x := a[LeadingSpaces(a)..];
    if x != [] {
      assert x[|x| - 1] == t[|t| - 1];
    }
    TrimUnique(x, 0, |x|);
  }

  /** The Markdown heading a writer would emit for a paragraph. */
  function RenderHeading(level: Level, text: string): string {
    (if level == H1 then "#" else "##") + " " + text
  }

  /** A rendered heading with trimmed text not starting with '#' reads back unchanged. */
  lemma {:induction false} HeadingRoundTrip(level: Level, text: string)
    requires Trim(text) == text
    requires text == [] || text[0] != '#'
    ensures ClassifyLine(RenderHeading(level, text)) == Heading(level, text)
  {
    var n := if level == H1 then 1 else 2;
    assert Hashes(n) == (if level == H1 then "#" else "##");
    assert [] + Hashes(n) + (" " + text) == RenderHeading(level, text);
    assert TrimStart(" " + text) == TrimStart(text);
    HeadingLine([], n, " " + text);
  }

  // ---------------------------------------------------------------------
  // The document and the choice of the turn it is made from.
  // ---------------------------------------------------------------------

  /** `lines.map(ClassifyLine)`: one paragraph per line, in line order. */
  function ClassifyLines(lines: seq<string>): (ps: seq<Paragraph>)
    ensures |ps| == |lines|
    ensures forall k :: 0 <= k < |lines| ==> ps[k] == ClassifyLine(lines[k])
  {
    if lines == [] then [] else [ClassifyLine(lines[0])] + ClassifyLines(lines[1..])
  }

  /** The title, then one paragraph per line of `text`. */
  function DocumentParagraphs(text: string): (ps: seq<Paragraph>)
    ensures |ps| == NewlineCount(text) + 2
    ensures ps[0] == Title
  {
    [Title] + ClassifyLines(Split(text))
  }

  /** Paragraph k + 1 of the document is line k of the text, classified. */
  lemma {:induction false} DocumentLines(text: string, k: nat)
    requires k < |Split(text)|
    ensures DocumentParagraphs(text)[k + 1] == ClassifyLine(Split(text)[k])
  {
    assert DocumentParagraphs(text)[k + 1] == ClassifyLines(Split(text))[k];
  }

  /** The first paragraph is the fixed title, styled HEADING_1. */
  lemma {:induction false} DocumentTitle(text: string)
    ensures ParagraphText(DocumentParagraphs(text)[0]) == TitleText
    ensures ParagraphHeading(DocumentParagraphs(text)[0]) == Some(H1)
  {
  }

  /** Every body paragraph is one run at the body font size; headings carry no run. */
  lemma {:induction false} BodyRunSize(line: string)
    ensures RunSize(ClassifyLine(line)) == if ClassifyLine(line).Body? then Some(BodyFontSize) else None
    ensures ClassifyLine(line).Body? ==> ParagraphText(ClassifyLine(line)) == line
  {
  }

  function Reversed(ms: seq<Message>): (r: seq<Message>)
    ensures |r| == |ms|
    ensures forall i :: 0 <= i < |ms| ==> r[i] == ms[|ms| - 1 - i]
  {
    if ms == [] then [] else [ms[|ms| - 1]] + Reversed(ms[..|ms| - 1])
  }

  /** Array.prototype.find with the predicate "written by the model". */
  function FirstModel(ms: seq<Message>): (r: Option<Message>)
    ensures r.None? <==> forall i :: 0 <= i < |ms| ==> ms[i].role != Model
    ensures r.Some? ==> r.value.role == Model && r.value in ms
  {
    if ms == [] then None
    else if ms[0].role == Model then Some(ms[0])
    else FirstModel(ms[1..])
  }

  /** `[...messages].reverse().find(m => m.role === 'model')`. */
  function LastModel(ms: seq<Message>): (r: Option<Message>)
    ensures r.Some? ==> r.value.role == Model
  {
    FirstModel(Reversed(ms))
  }

  /** Reference definition: the index of the last model turn, scanning from the end. */
  function LastModelIndex(ms: seq<Message>): (r: Option<nat>)
    ensures r.None? <==> forall i :: 0 <= i < |ms| ==> ms[i].role != Model
    ensures r.Some? ==> r.value < |ms| && ms[r.value].role == Model
    ensures r.Some? ==> forall j :: r.value < j < |ms| ==> ms[j].role != Model
  {
    if ms == [] then None
    else if ms[|ms| - 1].role == Model then Some(|ms| - 1)
    else LastModelIndex(ms[..|ms| - 1])
  }

  /** Reversing and finding picks exactly the last model turn. */
  lemma {:induction false} LastModelIsLast(ms: seq<Message>)
    ensures LastModel(ms) == if LastModelIndex(ms).Some? then Some(ms[LastModelIndex(ms).value]) else None
  {
    if ms != [] {
      var init := ms[..|ms| - 1];
      assert Reversed(ms)[1..] == Reversed(init);
      if ms[|ms| - 1].role != Model {
        LastModelIsLast(init);
        if LastModelIndex(init).Some? {
          assert ms[LastModelIndex(init).value] == init[LastModelIndex(init).value];
        }
      }
    }
  }

  /**
   * The export of a conversation: nothing when no turn is the model's,
   * otherwise the paragraphs of the last model turn.
   */
  function ExportDocument(ms: seq<Message>): (doc: Option<seq<Paragraph>>)
    ensures doc.None? <==> forall i :: 0 <= i < |ms| ==> ms[i].role != Model
    ensures doc.Some? ==>
      LastModelIndex(ms).Some? && doc.value == DocumentParagraphs(ms[LastModelIndex(ms).value].text)
  {
    LastModelIsLast(ms);
    match LastModel(ms)
    case None => None
    case Some(m) => Some(DocumentParagraphs(m.text))
  }

  /** With a model turn present, the export is the document of the last one. */
  lemma {:induction false} ExportOfLastModel(ms: seq<Message>)
    requires LastModelIndex(ms).Some?
    ensures ExportDocument(ms) == Some(DocumentParagraphs(ms[LastModelIndex(ms).value].text))
  {
    assert ms[LastModelIndex(ms).value].role == Model;
  }

  /**
   * The worked example "# Title\nBody line\n## Sub", for any title, body
   * and subtitle: the fixed title, a HEADING_1, a body paragraph and a
   * HEADING_2, in this order.
   */
  lemma {:induction false} ExportThreeLines(t: string, b: string, u: string)
    requires Trim(t) == t && (t == [] || t[0] != '#') && '\n' !in t
    requires b == [] || (!IsSpace(b[0]) && b[0] != '#')
    requires '\n' !in b
    requires Trim(u) == u && (u == [] || u[0] != '#') && '\n' !in u
    ensures DocumentParagraphs("# " + t + "\n" + b + "\n## " + u)
      == [Title, Heading(H1, t), Body(b), Heading(H2, u)]
  {
    ThreeLinesText(t, b, u);
    ThreeLinesDocument(t, b, u);
  }

  lemma {:induction false} ThreeLinesDocument(t: string, b: string, u: string)
    requires Trim(t) == t && (t == [] || t[0] != '#') && '\n' !in t
    requires b == [] || (!IsSpace(b[0]) && b[0] != '#')
    requires '\n' !in b
    requires Trim(u) == u && (u == [] || u[0] != '#') && '\n' !in u
    ensures DocumentParagraphs(Join([RenderHeading(H1, t), b, RenderHeading(H2, u)]))
      == [Title, Heading(H1, t), Body(b), Heading(H2, u)]
  {
    ThreeLinesSplit(t, b, u);
    ThreeLinesClassified(t, b, u);
    DocumentOfThree(Join([RenderHeading(H1, t), b, RenderHeading(H2, u)]),
      [RenderHeading(H1, t), b, RenderHeading(H2, u)], Heading(H1, t), Body(b), Heading(H2, u));
  }

  lemma {:induction false} DocumentOfThree(text: string, lines: seq<string>, p: Paragraph, q: Paragraph, r: Paragraph)
    requires Split(text) == lines && ClassifyLines(lines) == [p, q, r]
    ensures DocumentParagraphs(text) == [Title, p, q, r]
  {
    assert [Title] + [p, q, r] == [Title, p, q, r];
  }

  lemma {:induction false} ThreeLinesSplit(t: string, b: string, u: string)
    requires '\n' !in t && '\n' !in b && '\n' !in u
    ensures Split(Join([RenderHeading(H1, t), b, RenderHeading(H2, u)]))
      == [RenderHeading(H1, t), b, RenderHeading(H2, u)]
  {
    RenderNoNewline(H1, t);
    RenderNoNewline(H2, u);
    SplitJoin([RenderHeading(H1, t), b, RenderHeading(H2, u)]);
  }

  lemma {:induction false} RenderNoNewline(level: Level, text: string)
    requires '\n' !in text
    ensures '\n' !in RenderHeading(level, text)
  {
  }

  lemma {:induction false} ThreeLinesText(t: string, b: string, u: string)
    ensures Join([RenderHeading(H1, t), b, RenderHeading(H2, u)]) == "# " + t + "\n" + b + "\n## " + u
  {
    var lines := [RenderHeading(H1, t), b, RenderHeading(H2, u)];
    assert lines[0] == ['#', ' '] + t;
    assert lines[2] == ['#', '#', ' '] + u;
    assert lines[1..][1..] == [lines[2]];
    assert Join(lines[1..]) == b + "\n" + lines[2];
  }

  lemma {:induction false} ThreeLinesClassified(t: string, b: string, u: string)
    requires Trim(t) == t && (t == [] || t[0] != '#')
    requires b == [] || (!IsSpace(b[0]) && b[0] != '#')
    requires Trim(u) == u && (u == [] || u[0] != '#')
    ensures ClassifyLines([RenderHeading(H1, t), b, RenderHeading(H2, u)])
      == [Heading(H1, t), Body(b), Heading(H2, u)]
  {
    ClassifyThree(RenderHeading(H1, t), b, RenderHeading(H2, u));
    HeadingRoundTrip(H1, t);
    assert [] + b == b;
    BodyLine([], b);
    HeadingRoundTrip(H2, u);
  }

  lemma {:induction false} ClassifyThree(x: string, y: string, z: string)
    ensures ClassifyLines([x, y, z]) == [ClassifyLine(x), ClassifyLine(y), ClassifyLine(z)]
  {
    assert [x, y, z][1..] == [y, z];
    assert [y, z][1..] == [z];
    assert [z][1..] == [];
  }
}
