/**
 * The part of a JFace IDocument that DocLineComparator uses: a document is a non-empty sequence of
 * lines, each with its text and its line delimiter; only the last line has no delimiter. Offsets
 * count characters from the start of the document, delimiters included.
 */
module TextDocument {
  import opened Wrappers

  datatype Line = Line(text: string, delimiter: string)

  datatype Document = Document(lines: seq<Line>)

  /** An IRegion: an offset and a length. */
  datatype Region = Region(offset: int, length: int)

  /** A document has at least one line, and only its last line lacks a delimiter. */
  predicate Valid(d: Document) {
    && |d.lines| >= 1
    && d.lines[|d.lines| - 1].delimiter == []
    && forall i :: 0 <= i < |d.lines| - 1 ==> d.lines[i].delimiter != []
  }

  /** The number of characters a line takes up, its delimiter included. */
  function Size(l: Line): nat {
    |l.text| + |l.delimiter|
  }

  /** The characters of a run of lines. */
  function Text(ls: seq<Line>): string {
    if ls == [] then [] else Text(ls[..|ls| - 1]) + ls[|ls| - 1].text + ls[|ls| - 1].delimiter
  }

  /** IDocument.getLength. */
  function GetLength(d: Document): nat {
    |Text(d.lines)|
  }

  /** IDocument.getNumberOfLines. */
  function GetNumberOfLines(d: Document): nat {
    |d.lines|
  }

  /** The offset at which line `i` starts; `LineStart(d, |d.lines|)` is the document length. */
  function LineStart(d: Document, i: nat): nat
    requires i <= |d.lines|
  {
    |Text(d.lines[..i])|
  }

  lemma {:induction false} TextAppend(a: seq<Line>, b: seq<Line>)
    ensures Text(a + b) == Text(a) + Text(b)
    decreases |b|
  {
    if b != [] {
      var b' := b[..|b| - 1];
      assert (a + b)[..|a + b| - 1] == a + b';
      TextAppend(a, b');
    } else {
      assert a + b == a;
    }
  }

  lemma LineStartNext(d: Document, i: nat)
    requires i < |d.lines|
    ensures LineStart(d, i + 1) == LineStart(d, i) + Size(d.lines[i])
  {
    assert d.lines[..i + 1][..i] == d.lines[..i];
  }

  lemma {:induction false} LineStartMonotone(d: Document, i: nat, j: nat)
    requires i <= j <= |d.lines|
    ensures LineStart(d, i) <= LineStart(d, j)
    decreases j - i
  {
    if i < j {
      LineStartNext(d, i);
      LineStartMonotone(d, i + 1, j);
    }
  }

  lemma LineStartEnd(d: Document)
    ensures LineStart(d, |d.lines|) == GetLength(d)
  {
    assert d.lines[..|d.lines|] == d.lines;
  }

  /** The text of line `i` sits in the document at LineStart(d, i). */
  lemma LineTextAt(d: Document, i: nat)
    requires i < |d.lines|
    ensures LineStart(d, i) + |d.lines[i].text| <= GetLength(d)
    ensures Text(d.lines)[LineStart(d, i)..LineStart(d, i) + |d.lines[i].text|] == d.lines[i].text
  {
    var ls := d.lines;
    assert ls == ls[..i + 1] + ls[i + 1..];
    TextAppend(ls[..i + 1], ls[i + 1..]);
    assert ls[..i + 1][..i] == ls[..i];
  }

  /** IDocument.getLineInformation: `None` where JFace throws BadLocationException. */
  function GetLineInformation(d: Document, line: int): (r: Option<Region>)
    ensures r.Some? <==> 0 <= line < |d.lines|
    ensures r.Some? ==> 0 <= r.value.offset && r.value.offset + r.value.length <= GetLength(d)
  {
    if 0 <= line < |d.lines| then
      LineTextAt(d, line);
      Some(Region(LineStart(d, line), |d.lines[line].text|))
    else None
  }

  /** The last line at or after `i` that starts at or before `offset`. */
  function LineFrom(d: Document, offset: int, i: nat): (r: nat)
    requires i < |d.lines|
    ensures i <= r < |d.lines|
    ensures r + 1 < |d.lines| ==> offset < LineStart(d, r + 1)
    ensures LineStart(d, i) <= offset ==> LineStart(d, r) <= offset
    decreases |d.lines| - i
  {
    if i + 1 < |d.lines| && LineStart(d, i + 1) <= offset then LineFrom(d, offset, i + 1) else i
  }

  /** IDocument.getLineOfOffset: the line containing `offset`; the document length is on the last line. */
  function GetLineOfOffset(d: Document, offset: int): (r: Option<nat>)
    requires Valid(d)
    ensures r.Some? <==> 0 <= offset <= GetLength(d)
    ensures r.Some? ==>
      && r.value < |d.lines|
      && LineStart(d, r.value) <= offset
      && (r.value + 1 < |d.lines| ==> offset < LineStart(d, r.value + 1))
  {
    if 0 <= offset <= GetLength(d) then Some(LineFrom(d, offset, 0)) else None
  }

  /** Offsets further on are never on an earlier line. */
  lemma LineOfOffsetMonotone(d: Document, a: int, b: int)
    requires Valid(d) && 0 <= a <= b <= GetLength(d)
    ensures GetLineOfOffset(d, a).value <= GetLineOfOffset(d, b).value
  {
    var la, lb := GetLineOfOffset(d, a).value, GetLineOfOffset(d, b).value;
    if lb < la {
      LineStartMonotone(d, lb + 1, la);
    }
  }

  /** IDocument.get(offset, length): `None` where JFace throws BadLocationException. */
  function GetRange(d: Document, offset: int, length: int): (r: Option<string>)
    ensures r.Some? <==> 0 <= offset && 0 <= length && offset + length <= GetLength(d)
    ensures r.Some? ==> |r.value| == length
  {
    if 0 <= offset && 0 <= length && offset + length <= GetLength(d) then
      Some(Text(d.lines)[offset..offset + length])
    else None
  }
}
