/**
 * org.eclipse.compare.internal.DocLineComparator: the lines of a document, or of a region of it,
 * as the ranges a range differencer compares.
 *
 * The Java fields are only assigned by the constructor, so a comparator is a value here and the
 * constructor is the method `Create`. The LRU cache of strategy results is not modelled (it is
 * taken to be transparent); only whether the comparator has one is. Character.isWhitespace and
 * Utilities.applyCompareStrategies are function parameters.
 */
module DocLineComparator {
  import opened Wrappers
  import opened TextDocument
  import opened CompareStrategy

  /** What the code throws on the paths modelled here. */
  datatype Exception = NullPointerException

  datatype DocLineComparator = DocLineComparator(
    document: Document,
    lineOffset: int,
    lineCount: int,
    length: int,
    ignoreWhiteSpace: bool,
    strategies: Option<seq<Strategy>>,   // None for a null array
    contributor: char,
    cachesIgnoredRegions: bool)          // fCompareStrategyCache != null

  /** The other side of rangesEqual: null, another DocLineComparator, or a comparator of another class. */
  datatype RangeComparator = NoComparator | DocLines(c: DocLineComparator) | OtherComparator

  /** Utilities.applyCompareStrategies(line, contributor, otherLine, otherContributor, strategies). */
  type ApplyStrategies = (string, char, string, char, seq<Strategy>) -> string

  /** A cache is kept when there are strategies and each says its ignored regions can be reused. */
  predicate CachesIgnoredRegions(strategies: Option<seq<Strategy>>) {
    match strategies
    case None => false
    case Some(ss) => |ss| > 0 && forall i :: 0 <= i < |ss| ==> ss[i].ignoredRegionsReusable
  }

  /** The region lies inside the document (no region means the whole document). */
  predicate Covers(d: Document, region: Option<Region>) {
    match region
    case None => true
    case Some(r) => 0 <= r.offset && 0 <= r.length && r.offset + r.length <= GetLength(d)
  }

  /** The loop of the constructor that decides whether strategy results are cached. */
  method ScanStrategies(strategies: Option<seq<Strategy>>) returns (cacheIgnoredRegions: bool)
    ensures cacheIgnoredRegions == CachesIgnoredRegions(strategies)
  {
    cacheIgnoredRegions := false;
    if strategies.Some? && |strategies.value| > 0 {
      var ss := strategies.value;
      cacheIgnoredRegions := true;
      var i := 0;
      while i < |ss|
        invariant 0 <= i <= |ss|
        invariant cacheIgnoredRegions
        invariant forall k :: 0 <= k < i ==> ss[k].ignoredRegionsReusable
      {
        if !ss[i].ignoredRegionsReusable {
          cacheIgnoredRegions := false;
          break;
        }
        i := i + 1;
      }
    }
  }

  /** The lines of a region inside the document: its start line is not after its end line. */
  lemma RegionLines(d: Document, start: int, length: int)
    requires Valid(d) && 0 <= start && 0 <= length && start + length <= GetLength(d)
    ensures GetLineOfOffset(d, start).value <= GetLineOfOffset(d, start + length).value < GetNumberOfLines(d)
  {
    var first, last := GetLineOfOffset(d, start), GetLineOfOffset(d, start + length);
    assert first.Some? && last.Some?;
    LineOfOffsetMonotone(d, start, start + length);
    assert last.value < |d.lines|;
  }

  /** The constructor. */
  method Create(document: Document, region: Option<Region>, ignoreWhiteSpace: bool,
                strategies: Option<seq<Strategy>>, contributor: char)
    returns (c: DocLineComparator)
    requires Valid(document)
    ensures c.document == document && c.ignoreWhiteSpace == ignoreWhiteSpace
    ensures c.strategies == strategies && c.contributor == contributor
    ensures c.cachesIgnoredRegions == CachesIgnoredRegions(strategies)
    ensures region.None? ==>
      c.lineOffset == 0 && c.lineCount == GetNumberOfLines(document) && c.length == GetLength(document)
    ensures region.Some? ==>
      && c.length == region.value.length
      && c.lineOffset == GetLineOfOffset(document, region.value.offset).GetOr(0)
    ensures region.Some? && region.value.length == 0 ==> c.lineCount == 1
    ensures region.Some? && region.value.length != 0 ==>
      var endLine := GetLineOfOffset(document, region.value.offset + region.value.length);
      c.lineCount == endLine.GetOr(GetNumberOfLines(document)) - c.lineOffset + 1
    ensures Covers(document, region) ==>
      0 <= c.lineOffset && 1 <= c.lineCount && c.lineOffset + c.lineCount <= GetNumberOfLines(document)
  {
    var cacheIgnoredRegions := ScanStrategies(strategies);

    var lineOffset: int := 0;
    var lineCount: int, length: int;
    if region.Some? {
      length := region.value.length;
      var start := region.value.offset;
      var startLine := GetLineOfOffset(document, start);
      if startLine.Some? {
        lineOffset := startLine.value;
      }
      if length == 0 {
        lineCount := 1;
      } else {
        var endLine: int := GetNumberOfLines(document);
        var endOfRegion := GetLineOfOffset(document, start + length);
        if endOfRegion.Some? {
          endLine := endOfRegion.value;
        }
        if Covers(document, region) {
          RegionLines(document, start, length);
        }
        lineCount := endLine - lineOffset + 1;
      }
    } else {
      length := GetLength(document);
      lineCount := GetNumberOfLines(document);
    }
    c := DocLineComparator(document, lineOffset, lineCount, length, ignoreWhiteSpace, strategies,
                           contributor, cacheIgnoredRegions);
  }

  /** getRangeCount. */
  function GetRangeCount(c: DocLineComparator): (n: int)
    ensures n == c.lineCount
  {
    c.lineCount
  }

  /** getTokenStart: the offset of a line, or the document length for a line outside the document. */
  function GetTokenStart(c: DocLineComparator, line: int): (start: int)
    ensures var i := c.lineOffset + line;
      start == if 0 <= i < |c.document.lines| then LineStart(c.document, i) as int else GetLength(c.document) as int
    ensures 0 <= start <= GetLength(c.document)
  {
    match GetLineInformation(c.document, c.lineOffset + line)
    case Some(r) => r.offset
    case None => GetLength(c.document)
  }

  /**
   * getTokenLength: the characters a line takes up, its delimiter included; 0 past the document,
   * and minus the document length for the line just before it.
   */
  function GetTokenLength(c: DocLineComparator, line: int): (n: int)
    ensures var i := c.lineOffset + line;
      n == if 0 <= i < |c.document.lines| then Size(c.document.lines[i]) as int
           else if i == -1 then -(GetLength(c.document) as int)
           else 0
  {
    var i := c.lineOffset + line;
    if 0 <= i < |c.document.lines| then
      LineStartNext(c.document, i);
      LineStartEnd(c.document);
      GetTokenStart(c, line + 1) - GetTokenStart(c, line)
    else
      GetTokenStart(c, line + 1) - GetTokenStart(c, line)
  }

  /** extract(int): the text of a line without its delimiter, or "" for a line the comparator does not have. */
  function Extract(c: DocLineComparator, line: int): (s: string)
    ensures var i := c.lineOffset + line;
      s == if line < c.lineCount && 0 <= i < |c.document.lines| then c.document.lines[i].text else ""
  {
    if line < c.lineCount then
      match GetLineInformation(c.document, c.lineOffset + line)
      case Some(r) =>
        LineTextAt(c.document, c.lineOffset + line);
        GetRange(c.document, r.offset, r.length).GetOr("")
      case None => ""
    else ""
  }

  /** skipRangeComparison: never skips. */
  function SkipRangeComparison(length: int, maxLength: int, other: RangeComparator): (skip: bool)
    ensures !skip
  {
    false
  }

  /**
   * extract(int, int, DocLineComparator) as written: its guard `strategies != null || strategies.length > 0`
   * dereferences a null array, and with a cache on this side it reads the other side's cache.
   */
  function ExtractPairAsWritten(c: DocLineComparator, thisIndex: int, other: DocLineComparator, otherIndex: int,
                                apply: ApplyStrategies): (r: Result<(string, string), Exception>)
    ensures r.Err? <==> c.strategies.None? || (c.cachesIgnoredRegions && !other.cachesIgnoredRegions)
  {
    if c.strategies.None? then Err(NullPointerException)
    else StrategyPair(c, thisIndex, other, otherIndex, apply)
  }

  /** The strategy branch of extract(int, int, DocLineComparator), with the cache taken as transparent. */
  function StrategyPair(c: DocLineComparator, thisIndex: int, other: DocLineComparator, otherIndex: int,
                        apply: ApplyStrategies): Result<(string, string), Exception>
    requires c.strategies.Some?
  {
    var ss := c.strategies.value;
    var thisLine, otherLine := Extract(c, thisIndex), Extract(other, otherIndex);
    if c.cachesIgnoredRegions && !other.cachesIgnoredRegions then Err(NullPointerException)
    else Ok((apply(thisLine, c.contributor, otherLine, other.contributor, ss),
             apply(otherLine, other.contributor, thisLine, c.contributor, ss)))
  }

  /** extract(int, int, DocLineComparator) with the guard read as `strategies != null && strategies.length > 0`. */
  function ExtractPair(c: DocLineComparator, thisIndex: int, other: DocLineComparator, otherIndex: int,
                       apply: ApplyStrategies): (r: Result<(string, string), Exception>)
    ensures r.Err? <==>
      c.strategies.Some? && |c.strategies.value| > 0 && c.cachesIgnoredRegions && !other.cachesIgnoredRegions
    ensures (c.cachesIgnoredRegions == CachesIgnoredRegions(c.strategies) &&
             c.cachesIgnoredRegions && !other.cachesIgnoredRegions) ==> r.Err?
    ensures r.Ok? && c.strategies.Some? && |c.strategies.value| > 0 ==>
      var thisLine, otherLine := Extract(c, thisIndex), Extract(other, otherIndex);
      r.value == (apply(thisLine, c.contributor, otherLine, other.contributor, c.strategies.value),
                  apply(otherLine, other.contributor, thisLine, c.contributor, c.strategies.value))
    ensures r.Ok? && (c.strategies.None? || |c.strategies.value| == 0) ==>
      r.value == (Extract(c, thisIndex), Extract(other, otherIndex))
  {
    if c.strategies.Some? && |c.strategies.value| > 0 then StrategyPair(c, thisIndex, other, otherIndex, apply)
    else Ok((Extract(c, thisIndex), Extract(other, otherIndex)))
  }

  /** With a non-empty strategy array the written guard and the intended one take the same branch. */
  lemma ExtractPairAgreesWithWritten(c: DocLineComparator, thisIndex: int, other: DocLineComparator, otherIndex: int,
                                     apply: ApplyStrategies)
    requires c.strategies.Some? && |c.strategies.value| > 0
    ensures ExtractPair(c, thisIndex, other, otherIndex, apply) == ExtractPairAsWritten(c, thisIndex, other, otherIndex, apply)
  {
  }

  /** Without strategies the written guard throws; the intended one hands back the two lines. */
  lemma ExtractPairWithoutStrategies(c: DocLineComparator, thisIndex: int, other: DocLineComparator, otherIndex: int,
                                     apply: ApplyStrategies)
    requires c.strategies.None?
    ensures ExtractPairAsWritten(c, thisIndex, other, otherIndex, apply) == Err(NullPointerException)
    ensures ExtractPair(c, thisIndex, other, otherIndex, apply) == Ok((Extract(c, thisIndex), Extract(other, otherIndex)))
  {
  }

  /*==================================================================
   * Comparing lines while ignoring whitespace.
   *==================================================================*/

  /** The string with every whitespace character removed. */
  function Strip(s: string, isWhitespace: char -> bool): string {
    if s == [] then []
    else Strip(s[..|s| - 1], isWhitespace) + (if isWhitespace(s[|s| - 1]) then [] else [s[|s| - 1]])
  }

  predicate EqualIgnoringWhitespace(s1: string, s2: string, isWhitespace: char -> bool) {
    Strip(s1, isWhitespace) == Strip(s2, isWhitespace)
  }

  lemma {:induction false} StripAppend(a: string, b: string, isWhitespace: char -> bool)
    ensures Strip(a + b, isWhitespace) == Strip(a, isWhitespace) + Strip(b, isWhitespace)
    decreases |b|
  {
    if b == [] {
      assert a + b == a;
    } else {
      var b' := b[..|b| - 1];
      assert (a + b)[..|a + b| - 1] == a + b';
      StripAppend(a, b', isWhitespace);
    }
  }

  lemma {:induction false} StripWhitespace(w: string, isWhitespace: char -> bool)
    requires forall k :: 0 <= k < |w| ==> isWhitespace(w[k])
    ensures Strip(w, isWhitespace) == []
  {
    if w != [] {
      StripWhitespace(w[..|w| - 1], isWhitespace);
    }
  }

  /** Whitespace inserted anywhere in a line does not change how it compares. */
  lemma InsertedWhitespaceIsIgnored(a: string, w: string, b: string, isWhitespace: char -> bool)
    requires forall k :: 0 <= k < |w| ==> isWhitespace(w[k])
    ensures EqualIgnoringWhitespace(a + b, a + w + b, isWhitespace)
  {
    StripWhitespace(w, isWhitespace);
    StripAppend(a, b, isWhitespace);
    StripAppend(a, w, isWhitespace);
    StripAppend(a + w, b, isWhitespace);
  }

  /** Stripping one more character of `s` adds it unless it is whitespace. */
  lemma StripStep(s: string, i: nat, isWhitespace: char -> bool)
    requires i < |s|
    ensures Strip(s[..i + 1], isWhitespace) ==
      Strip(s[..i], isWhitespace) + (if isWhitespace(s[i]) then [] else [s[i]])
  {
    assert s[..i + 1][..i] == s[..i];
  }

  /** What is stripped from a prefix of `s` is a prefix of what is stripped from `s`. */
  lemma {:induction false} StripPrefix(s: string, i: nat, isWhitespace: char -> bool)
    requires i <= |s|
    ensures Strip(s[..i], isWhitespace) <= Strip(s, isWhitespace)
    decreases |s| - i
  {
    if i == |s| {
      assert s[..i] == s;
    } else {
      StripPrefix(s, i + 1, isWhitespace);
      StripStep(s, i, isWhitespace);
    }
  }

  /**
   * Where one inner scan of compare stops: at the end of `s` with -1 when only whitespace was
   * left, or just past the non-whitespace character `c`; `p` is what was stripped before the scan.
   */
  ghost predicate ScannedTo(s: string, i: int, c: int, p: string, isWhitespace: char -> bool) {
    if c == -1 then i == |s| && Strip(s, isWhitespace) == p
    else
      && 0 < i <= |s|
      && s[i - 1] as int == c
      && !isWhitespace(s[i - 1])
      && Strip(s[..i], isWhitespace) == p + [s[i - 1]]
  }

  /** Scans that agree on what came before but stop at different characters prove the lines differ. */
  lemma ScanMismatch(s1: string, i1: int, c1: int, s2: string, i2: int, c2: int, p: string,
                     isWhitespace: char -> bool)
    requires ScannedTo(s1, i1, c1, p, isWhitespace) && ScannedTo(s2, i2, c2, p, isWhitespace)
    requires c1 != c2
    ensures !EqualIgnoringWhitespace(s1, s2, isWhitespace)
  {
    if c1 != -1 {
      StripPrefix(s1, i1, isWhitespace);
      assert Strip(s1, isWhitespace)[|p|] == s1[i1 - 1];
    }
    if c2 != -1 {
      StripPrefix(s2, i2, isWhitespace);
      assert Strip(s2, isWhitespace)[|p|] == s2[i2 - 1];
    }
  }

  /** compare(String, String): the two-pointer scan over non-whitespace characters. */
  method Compare(s1: string, s2: string, isWhitespace: char -> bool) returns (equal: bool)
    ensures equal <==> EqualIgnoringWhitespace(s1, s2, isWhitespace)
  {
    var l1, l2 := |s1|, |s2|;
    var c1, c2 := 0, 0;
    var i1, i2 := 0, 0;

    while c1 != -1
      invariant 0 <= i1 <= l1 && 0 <= i2 <= l2
      invariant Strip(s1[..i1], isWhitespace) == Strip(s2[..i2], isWhitespace)
      invariant c1 == -1 ==> i1 == l1 && i2 == l2
      decreases l1 - i1 + (if c1 == -1 then 0 else 1)
    {
      ghost var p := Strip(s1[..i1], isWhitespace);
      ghost var start1 := i1;

      c1 := -1;
      while i1 < l1
        invariant start1 <= i1 <= l1
        invariant c1 == -1 && Strip(s1[..i1], isWhitespace) == p
      {
        var c := s1[i1];
        StripStep(s1, i1, isWhitespace);
        i1 := i1 + 1;
        if !isWhitespace(c) {
          c1 := c as int;
          break;
        }
      }
      assert ScannedTo(s1, i1, c1, p, isWhitespace) by {
        if c1 == -1 {
          assert s1[..i1] == s1;
        }
      }

      c2 := -1;
      while i2 < l2
        invariant 0 <= i2 <= l2
        invariant c2 == -1 && Strip(s2[..i2], isWhitespace) == p
      {
        var c := s2[i2];
        StripStep(s2, i2, isWhitespace);
        i2 := i2 + 1;
        if !isWhitespace(c) {
          c2 := c as int;
          break;
        }
      }
      assert ScannedTo(s2, i2, c2, p, isWhitespace) by {
        if c2 == -1 {
          assert s2[..i2] == s2;
        }
      }

      if c1 != c2 {
        ScanMismatch(s1, i1, c1, s2, i2, c2, p, isWhitespace);
        return false;
      }
      if c1 != -1 {
        assert s1[i1 - 1] == s2[i2 - 1];
      }
    }
    assert s1[..l1] == s1 && s2[..l2] == s2;
    return true;
  }

  /*==================================================================
   * rangesEqual.
   *==================================================================*/

  /** What rangesEqual answers, or the exception it throws. */
  function LinesMatch(c: DocLineComparator, thisIndex: int, other: RangeComparator, otherIndex: int,
                      apply: ApplyStrategies, isWhitespace: char -> bool): Result<bool, Exception>
  {
    match other
    case DocLines(o) =>
      if c.ignoreWhiteSpace then
        match ExtractPair(c, thisIndex, o, otherIndex, apply)
        case Ok(p) => Ok(EqualIgnoringWhitespace(p.0, p.1, isWhitespace))
        case Err(e) => Err(e)
      else if GetTokenLength(c, thisIndex) == GetTokenLength(o, otherIndex) || c.strategies.Some? then
        match ExtractPair(c, thisIndex, o, otherIndex, apply)
        case Ok(p) => Ok(p.0 == p.1)
        case Err(e) => Err(e)
      else Ok(false)
    case _ => Ok(false)
  }

  /** What rangesEqual answers with the guard of extract(int, int, DocLineComparator) as written. */
  function LinesMatchAsWritten(c: DocLineComparator, thisIndex: int, other: RangeComparator, otherIndex: int,
                               apply: ApplyStrategies, isWhitespace: char -> bool): (r: Result<bool, Exception>)
    ensures !other.DocLines? ==> r == Ok(false)
    ensures r.Err? ==> other.DocLines? && (c.strategies.None? || (c.cachesIgnoredRegions && !other.c.cachesIgnoredRegions))
  {
    match other
    case DocLines(o) =>
      if c.ignoreWhiteSpace then
        match ExtractPairAsWritten(c, thisIndex, o, otherIndex, apply)
        case Ok(p) => Ok(EqualIgnoringWhitespace(p.0, p.1, isWhitespace))
        case Err(e) => Err(e)
      else if GetTokenLength(c, thisIndex) == GetTokenLength(o, otherIndex) || c.strategies.Some? then
        match ExtractPairAsWritten(c, thisIndex, o, otherIndex, apply)
        case Ok(p) => Ok(p.0 == p.1)
        case Err(e) => Err(e)
      else Ok(false)
    case _ => Ok(false)
  }

  /**
   * As written, a comparator without a strategy array throws whenever rangesEqual extracts lines;
   * with the intended guard it answers.
   */
  lemma LinesMatchWithoutStrategies(c: DocLineComparator, thisIndex: int, o: DocLineComparator, otherIndex: int,
                                    apply: ApplyStrategies, isWhitespace: char -> bool)
    requires c.strategies.None?
    requires c.ignoreWhiteSpace || GetTokenLength(c, thisIndex) == GetTokenLength(o, otherIndex)
    ensures LinesMatchAsWritten(c, thisIndex, DocLines(o), otherIndex, apply, isWhitespace) == Err(NullPointerException)
    ensures LinesMatch(c, thisIndex, DocLines(o), otherIndex, apply, isWhitespace).Ok?
  {
  }

  /** With a non-empty strategy array rangesEqual answers the same under both guards. */
  lemma LinesMatchAgreesWithWritten(c: DocLineComparator, thisIndex: int, other: RangeComparator, otherIndex: int,
                                    apply: ApplyStrategies, isWhitespace: char -> bool)
    requires c.strategies.Some? && |c.strategies.value| > 0
    ensures LinesMatch(c, thisIndex, other, otherIndex, apply, isWhitespace) ==
            LinesMatchAsWritten(c, thisIndex, other, otherIndex, apply, isWhitespace)
  {
    if other.DocLines? {
      ExtractPairAgreesWithWritten(c, thisIndex, other.c, otherIndex, apply);
    }
  }

  /** rangesEqual, with the guard of extract(int, int, DocLineComparator) read as intended. */
  method RangesEqual(c: DocLineComparator, thisIndex: int, other: RangeComparator, otherIndex: int,
                     apply: ApplyStrategies, isWhitespace: char -> bool)
    returns (r: Result<bool, Exception>)
    ensures r == LinesMatch(c, thisIndex, other, otherIndex, apply, isWhitespace)
  {
    if other.DocLines? {
      var o := other.c;
      if c.ignoreWhiteSpace {
        var linesToCompare := ExtractPair(c, thisIndex, o, otherIndex, apply);
        if linesToCompare.Err? {
          return Err(linesToCompare.error);
        }
        var equal := Compare(linesToCompare.value.0, linesToCompare.value.1, isWhitespace);
        return Ok(equal);
      }
      var tlen := GetTokenLength(c, thisIndex);
      var olen := GetTokenLength(o, otherIndex);
      if tlen == olen || c.strategies.Some? {
        var linesToCompare := ExtractPair(c, thisIndex, o, otherIndex, apply);
        if linesToCompare.Err? {
          return Err(linesToCompare.error);
        }
        return Ok(linesToCompare.value.0 == linesToCompare.value.1);
      }
    }
    return Ok(false);
  }

  /** Only another DocLineComparator can hold an equal line. */
  lemma ForeignComparatorNeverMatches(c: DocLineComparator, thisIndex: int, other: RangeComparator, otherIndex: int,
                                      apply: ApplyStrategies, isWhitespace: char -> bool)
    requires !other.DocLines?
    ensures LinesMatch(c, thisIndex, other, otherIndex, apply, isWhitespace) == Ok(false)
  {
  }

  /**
   * Without strategies and without ignoring whitespace, two lines match exactly when their texts are
   * equal and they take up the same number of characters with their delimiters.
   */
  lemma PlainLinesMatch(c: DocLineComparator, thisIndex: int, o: DocLineComparator, otherIndex: int,
                        apply: ApplyStrategies, isWhitespace: char -> bool)
    requires !c.ignoreWhiteSpace && c.strategies.None?
    requires 0 <= thisIndex < c.lineCount && 0 <= c.lineOffset + thisIndex < |c.document.lines|
    requires 0 <= otherIndex < o.lineCount && 0 <= o.lineOffset + otherIndex < |o.document.lines|
    ensures
      var a := c.document.lines[c.lineOffset + thisIndex];
      var b := o.document.lines[o.lineOffset + otherIndex];
      LinesMatch(c, thisIndex, DocLines(o), otherIndex, apply, isWhitespace) == Ok(a.text == b.text && Size(a) == Size(b))
  {
    var a := c.document.lines[c.lineOffset + thisIndex];
    var b := o.document.lines[o.lineOffset + otherIndex];
    assert GetTokenLength(c, thisIndex) == Size(a);
    assert GetTokenLength(o, otherIndex) == Size(b);
    assert ExtractPair(c, thisIndex, o, otherIndex, apply) == Ok((a.text, b.text));
  }

  /** Without strategies and without ignoring whitespace, lines of different token length never match. */
  lemma DifferentTokenLengthsNeverMatch(c: DocLineComparator, thisIndex: int, o: DocLineComparator, otherIndex: int,
                                        apply: ApplyStrategies, isWhitespace: char -> bool)
    requires !c.ignoreWhiteSpace && c.strategies.None?
    requires GetTokenLength(c, thisIndex) != GetTokenLength(o, otherIndex)
    ensures LinesMatch(c, thisIndex, DocLines(o), otherIndex, apply, isWhitespace) == Ok(false)
  {
  }

  /** Ignoring whitespace and without strategies, two lines match when their texts do up to whitespace. */
  lemma WhitespaceLinesMatch(c: DocLineComparator, thisIndex: int, o: DocLineComparator, otherIndex: int,
                             apply: ApplyStrategies, isWhitespace: char -> bool)
    requires c.ignoreWhiteSpace && c.strategies.None?
    ensures LinesMatch(c, thisIndex, DocLines(o), otherIndex, apply, isWhitespace) ==
            Ok(EqualIgnoringWhitespace(Extract(c, thisIndex), Extract(o, otherIndex), isWhitespace))
  {
  }

  /** Without strategies, line matching between comparators of the same setting is reflexive and symmetric. */
  lemma LinesMatchReflexiveSymmetric(c: DocLineComparator, i: int, o: DocLineComparator, j: int,
                                     apply: ApplyStrategies, isWhitespace: char -> bool)
    requires c.strategies.None? && o.strategies.None? && c.ignoreWhiteSpace == o.ignoreWhiteSpace
    ensures LinesMatch(c, i, DocLines(c), i, apply, isWhitespace) == Ok(true)
    ensures LinesMatch(c, i, DocLines(o), j, apply, isWhitespace) == LinesMatch(o, j, DocLines(c), i, apply, isWhitespace)
  {
  }
}
