/**
 * `Previewer::preview`: one sentinel line for a directory, an unreadable
 * file or binary content; otherwise the file's lines, highlighted and
 * numbered from 1, at most `maxLines` of them. The file's bytes and the
 * highlighter are inputs; text stays as bytes (the UTF-8 lossy decoding is
 * not modelled).
 */
module Previewing {
  import opened Common

  type byte = x: int | 0 <= x < 256

  /** Size of the first read, the only bytes the binary check sees. */
  const HeaderSize: nat := 8000
  /** The byte budget of the line-reading loop (10 MiB). */
  const MaxBytes: nat := 10 * 1024 * 1024
  const Newline: byte := 10

  /** What one `read` into the 8000-byte buffer can return. */
  type Header = h: seq<byte> | |h| <= HeaderSize

  /** A line as `BufRead::lines` yields it: without its line feed. */
  type LineBytes = l: seq<byte> | Newline !in l

  datatype Style = DefaultStyle | Foreground(red: byte, green: byte, blue: byte)
  datatype Segment = Segment(style: Style, text: string)
  datatype PreviewLine = PreviewLine(lineNumber: nat, segments: seq<Segment>)

  /** What the filesystem shows the previewer for one path. */
  datatype FileSource =
      /** `is_file` is false: a directory, or nothing at that path. */
    | NotAFile
      /** `File::open` failed; `error` is the error's message. */
    | Unreadable(error: string)
      /** The first read, then the rest of the file line by line (`None`: a read error). */
    | Readable(header: Header, rest: seq<Option<LineBytes>>)

  /** The syntax highlighter, applied to one line (with its ending). */
  type Highlighter = seq<byte> -> seq<Segment>

  /** How many times `x` occurs in `s`, counted from the end. */
  function Occurrences(s: seq<byte>, x: byte): nat
  {
    if s == [] then 0 else Occurrences(s[..|s| - 1], x) + (if s[|s| - 1] == x then 1 else 0)
  }

  /** The filter-and-count is the multiplicity of the byte. */
  lemma {:induction false} OccurrencesIsMultiplicity(s: seq<byte>, x: byte)
    ensures Occurrences(s, x) == multiset(s)[x]
  {
    if s != [] {
      OccurrencesIsMultiplicity(s[..|s| - 1], x);
      assert s == s[..|s| - 1] + [s[|s| - 1]];
    }
  }

  /** Counting distributes over concatenation. */
  lemma {:induction false} OccurrencesConcat(a: seq<byte>, b: seq<byte>, x: byte)
    ensures Occurrences(a + b, x) == Occurrences(a, x) + Occurrences(b, x)
    decreases |b|
  {
    var c := a + b;
    if b == [] {
      assert c == a;
    } else {
      assert c[..|c| - 1] == a + b[..|b| - 1];
      OccurrencesConcat(a, b[..|b| - 1], x);
    }
  }

  lemma OccurrencesAbsent(s: seq<byte>, x: byte)
    requires x !in s
    ensures Occurrences(s, x) == 0
  {
    OccurrencesIsMultiplicity(s, x);
  }

  /** `is_binary`: more than a tenth of the first 8000 bytes are zero. */
  function IsBinary(content: seq<byte>): (b: bool)
    ensures b <==> multiset(content[..Min(|content|, HeaderSize)])[0] > Min(|content|, HeaderSize) / 10
    ensures content == [] ==> !b
  {
    var checkLen := Min(|content|, HeaderSize);
    OccurrencesIsMultiplicity(content[..checkLen], 0);
    Occurrences(content[..checkLen], 0) > checkLen / 10
  }

  /** Bytes after the first 8000 never change the verdict. */
  lemma BinaryIgnoresTail(a: seq<byte>, b: seq<byte>)
    requires |a| >= HeaderSize
    ensures IsBinary(a + b) == IsBinary(a)
  {
    assert (a + b)[..HeaderSize] == a[..HeaderSize];
  }

  /** Content without a zero byte is never binary. */
  lemma ZeroFreeIsText(content: seq<byte>)
    requires 0 !in content
    ensures !IsBinary(content)
  {
    var n := Min(|content|, HeaderSize);
    assert 0 !in multiset(content[..n]) by {
      assert forall x :: x in content[..n] ==> x in content;
    }
  }

  /** `str::lines().count()`: one per line feed, plus an unterminated last line. */
  function LineCount(t: seq<byte>): nat
  {
    Occurrences(t, Newline) + (if t != [] && t[|t| - 1] != Newline then 1 else 0)
  }

  /** Length of the first line of `t`, its line feed included. */
  function FirstLineLength(t: seq<byte>): (n: nat)
    requires t != []
    ensures 0 < n <= |t|
    ensures Newline !in t[..n - 1]
    ensures n < |t| ==> t[n - 1] == Newline
  {
    if t[0] == Newline || |t| == 1 then 1
    else
      var k := FirstLineLength(t[1..]);
      assert t[1..][..k - 1] == t[1..k];
      k + 1
  }

  /** `LinesWithEndings`: the lines of `t`, each keeping its line feed. */
  function SplitLines(t: seq<byte>): seq<seq<byte>>
    decreases |t|
  {
    if t == [] then []
    else
      var n := FirstLineLength(t);
      [t[..n]] + SplitLines(t[n..])
  }

  function Concat(ls: seq<seq<byte>>): seq<byte>
  {
    if ls == [] then [] else ls[0] + Concat(ls[1..])
  }

  /** Splitting loses nothing: the lines put back together are the text. */
  lemma {:induction false} SplitLinesJoin(t: seq<byte>)
    ensures Concat(SplitLines(t)) == t
    decreases |t|
  {
    if t != [] {
      var n := FirstLineLength(t);
      SplitLinesJoin(t[n..]);
      assert t == t[..n] + t[n..];
    }
  }

  /** Every split line is non-empty and holds a line feed only as its last byte. */
  lemma {:induction false} SplitLinesShape(t: seq<byte>, i: nat)
    requires i < |SplitLines(t)|
    ensures var l := SplitLines(t)[i]; l != [] && Newline !in l[..|l| - 1]
    ensures i < |SplitLines(t)| - 1 ==> SplitLines(t)[i][|SplitLines(t)[i]| - 1] == Newline
    decreases |t|
  {
    var n := FirstLineLength(t);
    if i > 0 {
      SplitLinesShape(t[n..], i - 1);
    } else if |SplitLines(t)| > 1 {
      assert t[n..] != [];
    }
  }

  /** The first line of `t` holds exactly one line feed when it ends with one, else none. */
  lemma FirstLineNewlines(t: seq<byte>)
    requires t != []
    ensures var n := FirstLineLength(t);
      Occurrences(t[..n], Newline) == if t[n - 1] == Newline then 1 else 0
  {
    var n := FirstLineLength(t);
    assert t[..n][..n - 1] == t[..n - 1];
    OccurrencesAbsent(t[..n - 1], Newline);
  }

  /** Cutting off the first line takes exactly one line off the count. */
  lemma LineCountFirstLine(t: seq<byte>)
    requires t != []
    ensures LineCount(t) == 1 + LineCount(t[FirstLineLength(t)..])
  {
    var n := FirstLineLength(t);
    var tail := t[n..];
    assert t == t[..n] + tail;
    OccurrencesConcat(t[..n], tail, Newline);
    FirstLineNewlines(t);
    if n < |t| {
      assert tail[|tail| - 1] == t[|t| - 1];
    } else {
      assert tail == [];
    }
  }

  /** `LinesWithEndings` yields as many lines as `str::lines` counts. */
  lemma {:induction false} SplitLinesCount(t: seq<byte>)
    ensures |SplitLines(t)| == LineCount(t)
    decreases |t|
  {
    if t != [] {
      var tail := t[FirstLineLength(t)..];
      SplitLinesCount(tail);
      LineCountFirstLine(t);
      assert |SplitLines(t)| == 1 + |SplitLines(tail)|;
    }
  }

  /** The text the reading loop ends with, from `text` read so far, `total` bytes and the lines left. */
  function AssembledText(text: seq<byte>, total: nat, rest: seq<Option<LineBytes>>, maxLines: nat): seq<byte>
    decreases |rest|
  {
    if rest == [] || LineCount(text) >= maxLines || total >= MaxBytes then text
    else match rest[0]
      case None => text
      case Some(l) => AssembledText(text + l + [Newline], total + |l| + 1, rest[1..], maxLines)
  }

  /** Appending one read line adds at most one line to the count. */
  lemma AppendLineCount(text: seq<byte>, l: LineBytes)
    ensures LineCount(text + l + [Newline]) <= LineCount(text) + 1
  {
    OccurrencesConcat(text, l, Newline);
    OccurrencesConcat(text + l, [Newline], Newline);
    OccurrencesAbsent(l, Newline);
    assert [Newline][..0] == [];
  }

  /**
   * The reading loop keeps what it started with, and stops adding lines
   * once the line cap is reached.
   */
  lemma {:induction false} AssembledTextBounded(text: seq<byte>, total: nat, rest: seq<Option<LineBytes>>, maxLines: nat)
    ensures text <= AssembledText(text, total, rest, maxLines)
    ensures LineCount(AssembledText(text, total, rest, maxLines)) <= Max(LineCount(text), maxLines)
    decreases |rest|
  {
    var result := AssembledText(text, total, rest, maxLines);
    if rest != [] && LineCount(text) < maxLines && total < MaxBytes && rest[0].Some? {
      var l := rest[0].value;
      var next := text + l + [Newline];
      assert result == AssembledText(next, total + |l| + 1, rest[1..], maxLines);
      AppendLineCount(text, l);
      AssembledTextBounded(next, total + |l| + 1, rest[1..], maxLines);
      assert text <= next;
      assert Max(LineCount(next), maxLines) == maxLines;
    } else {
      assert result == text;
    }
  }

  /** The text a readable, non-binary file is highlighted from. */
  function PreviewText(header: Header, rest: seq<Option<LineBytes>>, maxLines: nat): seq<byte>
  {
    AssembledText(header, |header|, rest, maxLines)
  }

  function SentinelLine(message: string): PreviewLine
  {
    PreviewLine(0, [Segment(DefaultStyle, message)])
  }

  /** The first `maxLines` lines, highlighted and numbered from 1. */
  function NumberLines(chunks: seq<seq<byte>>, maxLines: nat, highlight: Highlighter): (r: seq<PreviewLine>)
    ensures |r| == Min(|chunks|, maxLines)
    ensures forall i :: 0 <= i < |r| ==> r[i].lineNumber == i + 1 && r[i].segments == highlight(chunks[i])
  {
    seq(Min(|chunks|, maxLines), i requires 0 <= i < Min(|chunks|, maxLines) => PreviewLine(i + 1, highlight(chunks[i])))
  }

  /** What `preview` returns for a path whose filesystem view is `source`. */
  function PreviewOf(source: FileSource, maxLines: nat, highlight: Highlighter): (r: seq<PreviewLine>)
    ensures source.NotAFile? ==> r == [SentinelLine("[Directory]")]
    ensures source.Unreadable? ==> r == [SentinelLine("Error reading file: " + source.error)]
    ensures source.Readable? && IsBinary(source.header) ==> r == [SentinelLine("[Binary file]")]
    ensures source.Readable? && !IsBinary(source.header) ==>
      && |r| == Min(maxLines, LineCount(PreviewText(source.header, source.rest, maxLines)))
      && |r| <= maxLines
      && forall i :: 0 <= i < |r| ==> r[i].lineNumber == i + 1
    ensures (|r| > 0 && r[0].lineNumber == 0) <==> !(source.Readable? && !IsBinary(source.header))
  {
    match source
    case NotAFile => [SentinelLine("[Directory]")]
    case Unreadable(e) => [SentinelLine("Error reading file: " + e)]
    case Readable(header, rest) =>
      if IsBinary(header) then [SentinelLine("[Binary file]")]
      else
        var text := PreviewText(header, rest, maxLines);
        SplitLinesCount(text);
        NumberLines(SplitLines(text), maxLines, highlight)
  }

  /** The reading loop of `preview`: appends whole lines until the line cap, the byte budget, a read error or the end. */
  method ReadRest(header: Header, rest: seq<Option<LineBytes>>, maxLines: nat) returns (text: seq<byte>)
    ensures text == PreviewText(header, rest, maxLines)
  {
    var totalBytes: nat := |header|;
    text := header;
    var i := 0;
    while i < |rest|
      invariant 0 <= i <= |rest|
      invariant AssembledText(text, totalBytes, rest[i..], maxLines) == PreviewText(header, rest, maxLines)
    {
      if LineCount(text) >= maxLines || totalBytes >= MaxBytes {
        break;
      }
      match rest[i] {
        case None =>
          break;
        case Some(l) =>
          assert rest[i..][1..] == rest[i + 1..];
          totalBytes := totalBytes + |l| + 1;
          text := text + l + [Newline];
      }
      i := i + 1;
    }
  }

  /** The highlighting loop of `preview`: numbers the lines from 1 and stops at the cap. */
  method HighlightLines(chunks: seq<seq<byte>>, maxLines: nat, highlight: Highlighter) returns (lines: seq<PreviewLine>)
    ensures lines == NumberLines(chunks, maxLines, highlight)
  {
    lines := [];
    var n := 0;
    while n < |chunks|
      invariant 0 <= n <= Min(|chunks|, maxLines)
      invariant |lines| == n
      invariant forall k :: 0 <= k < n ==> lines[k] == PreviewLine(k + 1, highlight(chunks[k]))
    {
      if n >= maxLines {
        break;
      }
      lines := lines + [PreviewLine(n + 1, highlight(chunks[n]))];
      n := n + 1;
    }
    assert n == Min(|chunks|, maxLines);
  }

  /** `Previewer::preview`. */
  method Preview(source: FileSource, maxLines: nat, highlight: Highlighter) returns (lines: seq<PreviewLine>)
    ensures lines == PreviewOf(source, maxLines, highlight)
  {
    match source {
      case NotAFile =>
        return [SentinelLine("[Directory]")];
      case Unreadable(e) =>
        return [SentinelLine("Error reading file: " + e)];
      case Readable(header, rest) =>
        if IsBinary(header) {
          return [SentinelLine("[Binary file]")];
        }
        var text := ReadRest(header, rest, maxLines);
        lines := HighlightLines(SplitLines(text), maxLines, highlight);
    }
  }
}
