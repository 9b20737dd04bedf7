/** The two loops of `internal/report/section.go`, proved against the description
    of the scan.

    (A predicate compared with true in a contract is used as one fact, so that the verifier
    does not prove its clauses again.) */
module SectionEdit {
  import opened MarkdownSection
  import opened SectionLaws

  /** What the scan keeps of a segment: the half-open range of its bytes, line feed included,
      and the text that is looked at. */
  datatype Line = Line(text: Bytes, start: nat, next: nat, frontMatter: bool)

  ghost predicate LineAt(line: Line, segments: seq<Bytes>, i: nat)
    requires i < |segments|
  {
    && line.text == Text(segments[i])
    && line.start == Offset(segments, i) && line.next == Offset(segments, i + 1)
  }

  /** Where segment i starts. */
  ghost function Offset(segments: seq<Bytes>, i: nat): nat
    requires i <= |segments|
  {
    if i == 0 then 0 else Offset(segments, i - 1) + |segments[i - 1]|
  }

  lemma {:induction false} OffsetIsLength(segments: seq<Bytes>, i: nat)
    requires i <= |segments|
    ensures Offset(segments, i) == |Join(segments[..i])|
  {
    if i > 0 {
      OffsetIsLength(segments, i - 1);
      assert segments[..i] == segments[..i - 1] + [segments[i - 1]];
      JoinAppend(segments[..i - 1], [segments[i - 1]]);
      assert Join([segments[i - 1]]) == segments[i - 1] + Join([]);
    }
  }

  /** The first k lines of the document end at byte start. */
  ghost predicate CutTo(doc: Bytes, segments: seq<Bytes>, k: nat, start: nat) {
    && k <= |segments| && start <= |doc|
    && segments[k..] == Segments(doc[start..])
    && start == Offset(segments, k)
  }

  /** The text of the first line of rest. */
  function FirstText(rest: Bytes): Bytes
    requires rest != []
  {
    var n := LineLength(rest);
    if rest[n - 1] == LF then rest[..n - 1] else rest[..n]
  }

  /** Cutting off one more line. */
  lemma CutOne(doc: Bytes, segments: seq<Bytes>, k: nat, start: nat)
    requires start < |doc| && CutTo(doc, segments, k, start)
    ensures CutTo(doc, segments, k + 1, start + LineLength(doc[start..])) == true
    ensures LineAt(Line(FirstText(doc[start..]), start, start + LineLength(doc[start..]), false), segments, k)
  {
    var rest := doc[start..];
    var n := LineLength(rest);
    assert segments[k] == segments[k..][0] == rest[..n];
    assert doc[start + n..] == rest[n..];
    assert segments[k + 1..] == segments[k..][1..];
  }

  /** A line is left exactly when a byte is. */
  lemma MoreToCut(doc: Bytes, segments: seq<Bytes>, k: nat, start: nat)
    requires CutTo(doc, segments, k, start)
    ensures k < |segments| <==> start < |doc|
  {
    var rest := doc[start..];
    assert |segments[k..]| == |segments| - k && |rest| == |doc| - start;
  }

  lemma SegmentStep(doc: Bytes, segments: seq<Bytes>, k: nat)
    requires k < |segments| && CutTo(doc, segments, k, Offset(segments, k))
    ensures CutTo(doc, segments, k + 1, Offset(segments, k + 1)) == true
  {
    MoreToCut(doc, segments, k, Offset(segments, k));
    CutOne(doc, segments, k, Offset(segments, k));
  }

  /** Segment k is the line that starts after the segments before it. */
  lemma {:induction false} SegmentAt(doc: Bytes, segments: seq<Bytes>, k: nat)
    requires CutTo(doc, segments, 0, Offset(segments, 0)) == true && k <= |segments|
    ensures CutTo(doc, segments, k, Offset(segments, k)) == true
  {
    if k > 0 {
      SegmentAt(doc, segments, k - 1);
      SegmentStep(doc, segments, k - 1);
    }
  }

  lemma NothingCut(doc: Bytes)
    ensures CutTo(doc, Segments(doc), 0, Offset(Segments(doc), 0)) == true
  {
    assert doc[0..] == doc;
  }

  lemma NextSegment(doc: Bytes, segments: seq<Bytes>, k: nat, start: nat)
    requires segments == Segments(doc) && k <= |segments| && start == Offset(segments, k)
    ensures k < |segments| <==> start < |doc|
    ensures start <= |doc|
    ensures k < |segments| ==>
      var n := LineLength(doc[start..]);
      start + n == Offset(segments, k + 1) && LineAt(Line(FirstText(doc[start..]), start, start + n, false), segments, k)
  {
    NothingCut(doc);
    SegmentAt(doc, segments, k);
    MoreToCut(doc, segments, k, start);
    if k < |segments| {
      CutOne(doc, segments, k, start);
    }
  }

  ghost predicate LinesOf(lines: seq<Line>, segments: seq<Bytes>) {
    && |lines| <= |segments|
    && forall i | 0 <= i < |lines| :: LineAt(lines[i], segments, i) && !lines[i].frontMatter
  }

  lemma OneMoreLine(lines: seq<Line>, line: Line, segments: seq<Bytes>)
    requires LinesOf(lines, segments) && |lines| < |segments|
    requires LineAt(line, segments, |lines|) && !line.frontMatter
    ensures LinesOf(lines + [line], segments) == true
  {
  }

  /** The first loop of splitLines. */
  method CutLines(doc: Bytes) returns (lines: seq<Line>)
    ensures LinesOf(lines, Segments(doc)) && |lines| == |Segments(doc)|
  {
    ghost var segments := Segments(doc);
    lines := [];
    var start := 0;
    NextSegment(doc, segments, 0, 0);
    while start < |doc|
      invariant LinesOf(lines, segments) == true
      invariant |lines| <= |segments| && start == Offset(segments, |lines|)
      invariant |lines| < |segments| <==> start < |doc|
      decreases |doc| - start
    {
      NextSegment(doc, segments, |lines|, start);
      var rest := doc[start..];
      var next := start + LineLength(rest);
      var line := Line(FirstText(rest), start, next, false);
      OneMoreLine(lines, line, segments);
      NextSegment(doc, segments, |lines| + 1, next);
      lines, start := lines + [line], next;
    }
  }

  /** The lines of the document, the first skip of them front matter. */
  ghost predicate Split(lines: seq<Line>, segments: seq<Bytes>, skip: nat) {
    && |lines| == |segments|
    && (forall i | 0 <= i < |lines| :: LineAt(lines[i], segments, i))
    && (forall i | 0 <= i < |lines| :: lines[i].frontMatter == (i < skip))
  }

  lemma TextsOf(lines: seq<Line>, segments: seq<Bytes>, skip: nat, texts: seq<Bytes>, g: Grammar)
    requires Split(lines, segments, skip) && g.plain == Plain && texts == Plains(segments, g) && skip <= |texts|
    ensures Given(lines, texts, skip) == true
  {
  }

  /** splitLines: the lines of the document, with its front matter block marked. */
  method SplitLines(doc: Bytes, ghost segments: seq<Bytes>, ghost texts: seq<Bytes>, ghost g: Grammar)
    returns (lines: seq<Line>)
    requires segments == Segments(doc) && texts == Plains(segments, g)
    requires g.plain == Plain && g.delimiter == IsDelimiter
    ensures Split(lines, segments, FrontMatter(texts, g)) == true
  {
    lines := CutLines(doc);
    lines := MarkFrontMatterOf(lines, segments, texts, g);
  }

  method MarkFrontMatterOf(lines: seq<Line>, ghost segments: seq<Bytes>, ghost texts: seq<Bytes>, ghost g: Grammar)
    returns (r: seq<Line>)
    requires LinesOf(lines, segments) && |lines| == |segments|
    requires texts == Plains(segments, g) && g.plain == Plain && g.delimiter == IsDelimiter
    ensures Split(r, segments, FrontMatter(texts, g)) == true
  {
    TextsOf(lines, segments, 0, texts, g);
    var close := ClosingLine(lines, texts, g);
    r := lines;
    if close < |lines| {
      r := MarkFrontMatter(lines, close);
    }
  }

  /** The line that closes the front matter block, or the number of lines. */
  method ClosingLine(lines: seq<Line>, ghost texts: seq<Bytes>, ghost g: Grammar) returns (close: nat)
    requires g.delimiter == IsDelimiter && Given(lines, texts, 0)
    ensures close <= |lines|
    ensures FrontMatter(texts, g) == if close < |lines| then close + 1 else 0
  {
    FrontMatterMeaning(texts, 0, g);
    if |lines| == 0 {
      return 0;
    }
    var delim := TrimRight(lines[0].text, {CR});
    if !IsDelimiter(delim) {
      return |lines|;
    }
    close := 1;
    while close < |lines|
      invariant 1 <= close <= |lines|
      invariant forall k | 1 <= k < close :: texts[k] != texts[0]
    {
      if TrimRight(lines[close].text, {CR}) == delim {
        FrontMatterMeaning(texts, close + 1, g);
        return;
      }
      close := close + 1;
    }
  }

  method MarkFrontMatter(lines: seq<Line>, last: nat) returns (r: seq<Line>)
    requires last < |lines| && forall i | 0 <= i < |lines| :: !lines[i].frontMatter
    ensures |r| == |lines|
    ensures forall i | 0 <= i < |lines| :: r[i] == lines[i].(frontMatter := i <= last)
  {
    r := lines;
    for j := 0 to last + 1
      invariant |r| == |lines|
      invariant forall i | 0 <= i < |lines| :: r[i] == lines[i].(frontMatter := i < j)
    {
      r := r[j := r[j].(frontMatter := true)];
    }
  }

  // The scan, one line at a time.

  /** The state of the loop of ReplaceSection before line i. */
  ghost predicate ScannedTo(texts: seq<Bytes>, i: nat, skip: nat, g: Grammar,
                            fence: Fence, beginAt: int, endAt: int, parent: nat)
    requires skip <= |texts| && i <= |texts|
  {
    && fence == (if i <= skip then Closed else FenceAfter(texts[skip..i], Closed, g))
    && -1 <= beginAt < i && -1 <= endAt < i
    && CollectAll(KindsFrom(texts, skip, g)[..i], 0, Unmarked) == Scan(At(beginAt), At(endAt), parent)
  }

  function At(i: int): Maybe<nat>
    requires i >= -1
  {
    if i < 0 then Nothing else Just(i)
  }

  /** Scanning one more line. */
  lemma ScanStep(texts: seq<Bytes>, i: nat, skip: nat, g: Grammar,
                 fence: Fence, beginAt: int, endAt: int, parent: nat)
    requires skip <= |texts| && i < |texts| && ScannedTo(texts, i, skip, g, fence, beginAt, endAt, parent)
    ensures var kind := if i < skip then Skipped else g.kind(fence, texts[i]);
      && KindsFrom(texts, skip, g)[i] == kind
      && CollectAll(KindsFrom(texts, skip, g)[..i + 1], 0, Unmarked)
         == Collect(Scan(At(beginAt), At(endAt), parent), kind, i)
    ensures i >= skip ==> FenceAfter(texts[skip..i + 1], Closed, g) == g.next(fence, texts[i])
  {
    var kinds := KindsFrom(texts, skip, g);
    KindAt(texts, i, skip, g);
    assert kinds[..i + 1] == kinds[..i] + [kinds[i]];
    CollectSnoc(kinds[..i], kinds[i], 0, Unmarked);
    if i >= skip {
      assert texts[skip..i + 1] == texts[skip..i] + [texts[i]];
      FenceAppend(texts[skip..i], [texts[i]], Closed, g);
      assert FenceAfter([texts[i]], fence, g) == FenceAfter([], g.next(fence, texts[i]), g);
      assert i == skip ==> texts[skip..i] == [];
    }
  }

  /** The state after one more line, unless a marker was repeated. */
  lemma Advance(texts: seq<Bytes>, i: nat, skip: nat, g: Grammar,
                fence: Fence, beginAt: int, endAt: int, parent: nat,
                fence': Fence, beginAt': int, endAt': int, parent': nat)
    requires skip <= |texts| && i < |texts| && ScannedTo(texts, i, skip, g, fence, beginAt, endAt, parent)
    requires -1 <= beginAt' <= i && -1 <= endAt' <= i
    requires fence' == if i < skip then Closed else g.next(fence, texts[i])
    requires Collect(Scan(At(beginAt), At(endAt), parent), if i < skip then Skipped else g.kind(fence, texts[i]), i)
          == Scan(At(beginAt'), At(endAt'), parent')
    ensures ScannedTo(texts, i + 1, skip, g, fence', beginAt', endAt', parent')
  {
    ScanStep(texts, i, skip, g, fence, beginAt, endAt, parent);
  }

  lemma CollectSticks(kinds: seq<Kind>, i: nat)
    requires i <= |kinds| && CollectAll(kinds[..i], 0, Unmarked).Duplicate?
    ensures CollectAll(kinds, 0, Unmarked) == CollectAll(kinds[..i], 0, Unmarked)
    decreases |kinds| - i
  {
    if i < |kinds| {
      CollectSnoc(kinds[..i], kinds[i], 0, Unmarked);
      assert kinds[..i + 1] == kinds[..i] + [kinds[i]];
      CollectSticks(kinds, i + 1);
    } else {
      assert kinds[..i] == kinds;
    }
  }

  /** A repeated marker settles the whole scan. */
  lemma Repeated(texts: seq<Bytes>, i: nat, skip: nat, g: Grammar,
                 fence: Fence, beginAt: int, endAt: int, parent: nat, r: Scan)
    requires skip <= i < |texts| && ScannedTo(texts, i, skip, g, fence, beginAt, endAt, parent)
    requires r.Duplicate? && Collect(Scan(At(beginAt), At(endAt), parent), g.kind(fence, texts[i]), i) == r
    ensures Outcomes(texts, skip, g) == r
  {
    ScanStep(texts, i, skip, g, fence, beginAt, endAt, parent);
    CollectSticks(KindsFrom(texts, skip, g), i + 1);
  }

  lemma Scanned(texts: seq<Bytes>, skip: nat, g: Grammar, fence: Fence, beginAt: int, endAt: int, parent: nat)
    requires skip <= |texts| && ScannedTo(texts, |texts|, skip, g, fence, beginAt, endAt, parent)
    ensures Outcomes(texts, skip, g) == Scan(At(beginAt), At(endAt), parent)
  {
    var kinds := KindsFrom(texts, skip, g);
    assert kinds[..|texts|] == kinds;
  }

  /** What scanning all the lines gives. */
  function Outcomes(texts: seq<Bytes>, skip: nat, g: Grammar): Scan
    requires skip <= |texts|
  {
    CollectAll(KindsFrom(texts, skip, g), 0, Unmarked)
  }

  /** g reads lines as ReplaceSection does for these two marker lines. */
  ghost predicate Reads(g: Grammar, begin: Bytes, end: Bytes) {
    && g.next == NextFence
    && forall f, text :: g.kind(f, text) == KindOf(f, text, begin, end)
  }

  /** The lines have these texts, and the first skip are front matter. */
  ghost predicate Given(lines: seq<Line>, texts: seq<Bytes>, skip: nat) {
    && |lines| == |texts| && skip <= |texts|
    && (forall i | 0 <= i < |lines| :: TrimRight(lines[i].text, {CR}) == texts[i])
    && (forall i | 0 <= i < |lines| :: lines[i].frontMatter == (i < skip))
  }

  /** The branches of the loop: fences, markers, headings. */
  method Classify(text: Bytes, inFence: Fence, begin: Bytes, end: Bytes, ghost g: Grammar)
    returns (kind: Kind, fence: Fence)
    requires Reads(g, begin, end)
    ensures kind == g.kind(inFence, text) && fence == g.next(inFence, text)
  {
    if Closes(inFence, text) {
      return Skipped, Closed;
    }
    if inFence.Fenced? {
      return Skipped, inFence;
    }
    fence := OpensFence(text);
    if fence.Fenced? {
      return Skipped, fence;
    }
    var marker := MarkerText(text);
    if marker == begin {
      return Begin, Closed;
    } else if marker == end {
      return End, Closed;
    }
    return Other(AtxLevel(text)), Closed;
  }

  /** The loop of ReplaceSection: what its variables hold at the end, or the
      marker it found twice. */
  method ScanLines(lines: seq<Line>, begin: Bytes, end: Bytes, ghost texts: seq<Bytes>, ghost skip: nat, ghost g: Grammar)
    returns (beginAt: int, endAt: int, parent: nat, twice: Maybe<Scan>)
    requires Reads(g, begin, end) && Given(lines, texts, skip)
    ensures twice.Just? ==> Outcomes(texts, skip, g) == twice.value && twice.value.Duplicate?
    ensures beginAt >= -1 && endAt >= -1
    ensures twice.Nothing? ==> Outcomes(texts, skip, g) == Scan(At(beginAt), At(endAt), parent)
  {
    beginAt, endAt, parent, twice := -1, -1, 0, Nothing;
    var inFence, i := Closed, 0;
    assert KindsFrom(texts, skip, g)[..0] == [];
    while i < |lines|
      invariant 0 <= i <= |lines| && beginAt >= -1 && endAt >= -1 && twice.Nothing?
      invariant ScannedTo(texts, i, skip, g, inFence, beginAt, endAt, parent) == true
    {
      var fence, b, e, p := inFence, beginAt, endAt, parent;
      if !lines[i].frontMatter {
        var kind;
        kind, fence := Classify(TrimRight(lines[i].text, {CR}), inFence, begin, end, g);
        if (kind.Begin? && beginAt >= 0) || (kind.End? && endAt >= 0) {
          var both := if kind.Begin? then Duplicate(false, beginAt, i) else Duplicate(true, endAt, i);
          Repeated(texts, i, skip, g, inFence, beginAt, endAt, parent, both);
          twice := Just(both);
          return;
        }
        match kind {
          case Skipped =>
          case Begin => b := i;
          case End => e := i;
          case Other(level) =>
            if beginAt < 0 && level > 0 {
              p := level;
            }
        }
      }
      Advance(texts, i, skip, g, inFence, beginAt, endAt, parent, fence, b, e, p);
      inFence, beginAt, endAt, parent, i := fence, b, e, p, i + 1;
    }
    Scanned(texts, skip, g, inFence, beginAt, endAt, parent);
  }

  /** The loop of ReplaceSection and the switch after it. */
  method LocateSection(lines: seq<Line>, begin: Bytes, end: Bytes, ghost texts: seq<Bytes>, ghost skip: nat, ghost g: Grammar)
    returns (r: Located)
    requires Reads(g, begin, end) && Given(lines, texts, skip)
    ensures r == MarkdownSection.Judge(Outcomes(texts, skip, g))
  {
    var beginAt, endAt, parent, twice := ScanLines(lines, begin, end, texts, skip, g);
    if twice.Just? {
      return DuplicateMarker(twice.value.isEnd, twice.value.first, twice.value.second);
    } else if beginAt < 0 {
      return NoBegin;
    } else if endAt < 0 {
      return NoEnd(beginAt);
    } else if endAt < beginAt {
      return EndBeforeBegin(endAt, beginAt);
    }
    return Found(beginAt, endAt, if parent > 0 then (if parent + 1 < 6 then parent + 1 else 6) else 2);
  }

  /** The document with new text between its marker lines. */
  method SpliceLines(doc: Bytes, begin: Line, end: Line, text: Bytes, ghost b: nat, ghost e: nat) returns (out: Bytes)
    requires b < e < |Segments(doc)| && LineAt(begin, Segments(doc), b) && LineAt(end, Segments(doc), e)
    ensures out == Splice(Segments(doc), b, e, text)
  {
    JoinOfSegments(doc);
    OffsetIsLength(Segments(doc), b + 1);
    OffsetIsLength(Segments(doc), e);
    Kept(Segments(doc), b, e);
    out := doc[..begin.next] + text + doc[end.start..];
  }

  /** The line ending of the begin marker line. */
  method LineEnding(begin: Line, ghost segment: Bytes) returns (eol: Bytes)
    requires begin.text == Text(segment)
    ensures eol == Eol(segment)
  {
    eol := [LF];
    if begin.text != [] && begin.text[|begin.text| - 1] == CR {
      eol := [CR, LF];
    }
  }

  lemma ReadsMarkdown(name: Bytes)
    ensures Reads(Markdown(name), BeginMarker(name), EndMarker(name)) && Markdown(name).delimiter == IsDelimiter
  {
  }

  lemma ReplacementOf(doc: Bytes, name: Bytes, render: Renderer, located: Located)
    requires located == LocateIn(Segments(doc), Markdown(name))
    ensures Replacement(doc, name, render) ==
      if located.Found? then
        Replaced(Splice(Segments(doc), located.begin, located.end,
                        Inserted(render(located.level), Eol(Segments(doc)[located.begin]))))
      else Refused(located)
  {
  }

  /** ReplaceSection computes the replacement, byte for byte, or its refusal. */
  method ReplaceSection(doc: Bytes, name: Bytes, render: Renderer) returns (out: Outcome)
    ensures out == Replacement(doc, name, render)
  {
    ReadsMarkdown(name);
    ghost var segments, g := Segments(doc), Markdown(name);
    ghost var texts := Plains(segments, g);
    var lines := SplitLines(doc, segments, texts, g);
    TextsOf(lines, segments, FrontMatter(texts, g), texts, g);
    var located := LocateSection(lines, BeginMarker(name), EndMarker(name), texts, FrontMatter(texts, g), g);
    ReplacementOf(doc, name, render, located);
    if !located.Found? {
      return Refused(located);
    }
    var eol := LineEnding(lines[located.begin], segments[located.begin]);
    var spliced := SpliceLines(doc, lines[located.begin], lines[located.end],
                               Inserted(render(located.level), eol), located.begin, located.end);
    return Replaced(spliced);
  }
}
