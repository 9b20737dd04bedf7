/** Replacing a section of a Markdown document, `internal/report/section.go`.

    A document is a sequence of bytes. Its lines are described by segments, each
    the bytes of one line with its line feed, so that joining the segments gives
    the document back. */
module MarkdownSection {
  import opened Runes

  type Byte = b: int | 0 <= b < 256
  type Bytes = seq<Byte>
  datatype Maybe<+T> = Nothing | Just(value: T)

  const LF: Byte := 10
  const CR: Byte := 13
  const SPACE: Byte := 32
  const TAB: Byte := 9
  const HASH: Byte := 35
  const BACKTICK: Byte := 96
  const TILDE: Byte := 126

  /** The bytes of an ASCII literal. */
  function Ascii(s: string): (b: Bytes)
    ensures |b| == |s|
  {
    seq(|s|, i requires 0 <= i < |s| => if s[i] < 128 as char then s[i] as int else 63)
  }

  function BeginMarker(name: Bytes): Bytes {
    Ascii("<!-- himorime:begin ") + name + Ascii(" -->")
  }

  function EndMarker(name: Bytes): Bytes {
    Ascii("<!-- himorime:end ") + name + Ascii(" -->")
  }

  /** strings.TrimLeft with one character. */
  function TrimLeft(b: Bytes, c: Byte): (r: Bytes)
    ensures |r| <= |b|
  {
    if b != [] && b[0] == c then TrimLeft(b[1..], c) else b
  }

  /** strings.TrimRight. */
  function TrimRight(b: Bytes, cutset: set<Byte>): (r: Bytes)
    ensures r <= b
  {
    if b != [] && b[|b| - 1] in cutset then TrimRight(b[..|b| - 1], cutset) else b
  }

  function TrimSpaceLeft(b: Bytes): Bytes {
    if |b| >= 1 && IsSpaceRune(b[..1]) then TrimSpaceLeft(b[1..])
    else if |b| >= 2 && IsSpaceRune(b[..2]) then TrimSpaceLeft(b[2..])
    else if |b| >= 3 && IsSpaceRune(b[..3]) then TrimSpaceLeft(b[3..])
    else b
  }

  function TrimSpaceRight(b: Bytes): Bytes {
    if |b| >= 1 && IsSpaceRune(b[|b| - 1..]) then TrimSpaceRight(b[..|b| - 1])
    else if |b| >= 2 && IsSpaceRune(b[|b| - 2..]) then TrimSpaceRight(b[..|b| - 2])
    else if |b| >= 3 && IsSpaceRune(b[|b| - 3..]) then TrimSpaceRight(b[..|b| - 3])
    else b
  }

  function TrimSpace(b: Bytes): Bytes {
    TrimSpaceRight(TrimSpaceLeft(b))
  }

  /** strings.ReplaceAll of line feeds. */
  function WithLineEnding(b: Bytes, eol: Bytes): Bytes {
    if b == [] then [] else (if b[0] == LF then eol else [b[0]]) + WithLineEnding(b[1..], eol)
  }

  // Lines.

  /** How many bytes the first line takes, its line feed included. */
  function LineLength(doc: Bytes): (n: nat)
    requires doc != []
    ensures 1 <= n <= |doc|
    ensures n < |doc| ==> doc[n - 1] == LF
    ensures forall i | 0 <= i < n - 1 :: doc[i] != LF
  {
    if doc[0] == LF || |doc| == 1 then 1 else 1 + LineLength(doc[1..])
  }

  function Segments(doc: Bytes): seq<Bytes> {
    if doc == [] then [] else [doc[..LineLength(doc)]] + Segments(doc[LineLength(doc)..])
  }

  function Join(segments: seq<Bytes>): Bytes {
    if segments == [] then [] else segments[0] + Join(segments[1..])
  }

  predicate Ended(segment: Bytes) {
    segment != [] && segment[|segment| - 1] == LF
  }

  function Text(segment: Bytes): Bytes {
    if Ended(segment) then segment[..|segment| - 1] else segment
  }

  /** What a line is compared by: its text without trailing carriage returns. */
  function Plain(segment: Bytes): Bytes {
    TrimRight(Text(segment), {CR})
  }

  function Plains(segments: seq<Bytes>, g: Grammar): (texts: seq<Bytes>)
    ensures |texts| == |segments|
    ensures forall i | 0 <= i < |texts| :: texts[i] == g.plain(segments[i])
  {
    if segments == [] then [] else [g.plain(segments[0])] + Plains(segments[1..], g)
  }

  /** Segments as a document has them: only the last may lack its line feed. */
  predicate AreLines(segments: seq<Bytes>) {
    && (forall i | 0 <= i < |segments| :: segments[i] != [] && OneLine(segments[i]))
    && (forall i | 0 <= i < |segments| - 1 :: Ended(segments[i]))
  }

  predicate OneLine(segment: Bytes) {
    forall i | 0 <= i < |segment| - 1 :: segment[i] != LF
  }

  // Front matter, fences, markers and headings.

  predicate IsDelimiter(text: Bytes) {
    text == Ascii("---") || text == Ascii("+++")
  }

  function IndexOf(texts: seq<Bytes>, text: Bytes, from: nat): (i: nat)
    requires from <= |texts|
    ensures from <= i <= |texts|
    ensures i < |texts| ==> texts[i] == text
    ensures forall k | from <= k < i :: texts[k] != text
    decreases |texts| - from
  {
    if from == |texts| || texts[from] == text then from else IndexOf(texts, text, from + 1)
  }

  /** The number of lines of the front matter block, 0 without a closed one. */
  function FrontMatter(texts: seq<Bytes>, g: Grammar): (n: nat)
    ensures n <= |texts|
  {
    if texts == [] || !g.delimiter(texts[0]) then 0
    else
      var close := IndexOf(texts, texts[0], 1);
      if close < |texts| then close + 1 else 0
  }

  /** A fenced code block: its character and length, or none. */
  datatype Fence = Closed | Fenced(mark: Byte, n: nat)

  function OpensFence(text: Bytes): (f: Fence) {
    var trimmed := TrimLeft(text, SPACE);
    if |text| - |trimmed| > 3 || |trimmed| < 3 || (trimmed[0] != BACKTICK && trimmed[0] != TILDE) then Closed
    else
      var n := |trimmed| - |TrimLeft(trimmed, trimmed[0])|;
      if n < 3 then Closed else Fenced(trimmed[0], n)
  }

  predicate Closes(f: Fence, text: Bytes) {
    f.Fenced?
    && var g := OpensFence(text);
       g.Fenced? && g.mark == f.mark && g.n >= f.n
       && TrimSpace(TrimLeft(TrimSpace(text), f.mark)) == []
  }

  function NextFence(f: Fence, text: Bytes): Fence {
    if Closes(f, text) then Closed
    else if f.Fenced? then f
    else OpensFence(text)
  }

  function MarkerText(text: Bytes): Bytes {
    var trimmed := TrimLeft(text, SPACE);
    if |text| - |trimmed| > 3 then [] else TrimRight(trimmed, {SPACE, TAB})
  }

  function AtxLevel(text: Bytes): nat {
    var n := |text| - |TrimLeft(text, HASH)|;
    if n < 1 || n > 6 then 0
    else if |text| > n && text[n] != SPACE && text[n] != TAB then 0
    else n
  }

  // The scan: what kind of line each one is, and what the kinds amount to.

  datatype Kind = Skipped | Begin | End | Other(level: nat)

  function KindOf(f: Fence, text: Bytes, begin: Bytes, end: Bytes): Kind {
    if f.Fenced? || OpensFence(text).Fenced? then Skipped
    else if MarkerText(text) == begin then Begin
    else if MarkerText(text) == end then End
    else Other(AtxLevel(text))
  }

  /** How the lines of a document are read. The scan itself does not depend on it. */
  datatype Grammar = Grammar(
    plain: Bytes -> Bytes,             // what a line is compared by
    delimiter: Bytes -> bool,          // opens and closes front matter
    kind: (Fence, Bytes) -> Kind,
    next: (Fence, Bytes) -> Fence)

  function Markdown(name: Bytes): Grammar {
    Grammar(Plain, IsDelimiter, (f, text) => KindOf(f, text, BeginMarker(name), EndMarker(name)), NextFence)
  }

  function FenceAfter(texts: seq<Bytes>, f: Fence, g: Grammar): Fence {
    if texts == [] then f else FenceAfter(texts[1..], g.next(f, texts[0]), g)
  }

  function Kinds(texts: seq<Bytes>, f: Fence, g: Grammar): (kinds: seq<Kind>)
    ensures |kinds| == |texts|
  {
    if texts == [] then [] else [g.kind(f, texts[0])] + Kinds(texts[1..], g.next(f, texts[0]), g)
  }

  datatype Scan =
    | Scan(begin: Maybe<nat>, end: Maybe<nat>, parent: nat)
    | Duplicate(isEnd: bool, first: nat, second: nat)

  const Unmarked := Scan(Nothing, Nothing, 0)

  /** What the loop does with line i, given its kind. */
  function Collect(st: Scan, kind: Kind, i: nat): Scan
    requires st.Scan?
  {
    match kind
    case Skipped => st
    case Begin => if st.begin.Just? then Duplicate(false, st.begin.value, i) else st.(begin := Just(i))
    case End => if st.end.Just? then Duplicate(true, st.end.value, i) else st.(end := Just(i))
    case Other(level) => if st.begin.Nothing? && level > 0 then st.(parent := level) else st
  }

  /** Scanning lines at, at + 1, ... of these kinds. */
  function CollectAll(kinds: seq<Kind>, at: nat, st: Scan): Scan
    decreases |kinds|
  {
    if kinds == [] || st.Duplicate? then st
    else CollectAll(kinds[1..], at + 1, Collect(st, kinds[0], at))
  }

  function Skips(n: nat): (kinds: seq<Kind>)
    ensures |kinds| == n && forall i | 0 <= i < n :: kinds[i] == Skipped
  {
    if n == 0 then [] else Skips(n - 1) + [Skipped]
  }

  /** The kinds of all lines when the first skip are front matter. */
  function KindsFrom(texts: seq<Bytes>, skip: nat, g: Grammar): (kinds: seq<Kind>)
    requires skip <= |texts|
    ensures |kinds| == |texts|
  {
    Skips(skip) + Kinds(texts[skip..], Closed, g)
  }

  function ScanTexts(texts: seq<Bytes>, g: Grammar): Scan {
    CollectAll(KindsFrom(texts, FrontMatter(texts, g), g), 0, Unmarked)
  }

  datatype Located =
    | Found(begin: nat, end: nat, level: nat)
    | DuplicateMarker(isEnd: bool, first: nat, second: nat)
    | NoBegin
    | NoEnd(begin: nat)
    | EndBeforeBegin(end: nat, begin: nat)

  function Level(parent: nat): nat {
    if parent == 0 then 2 else if parent + 1 < 6 then parent + 1 else 6
  }

  function Judge(st: Scan): Located {
    match st
    case Duplicate(isEnd, first, second) => DuplicateMarker(isEnd, first, second)
    case Scan(begin, end, parent) =>
      if begin.Nothing? then NoBegin
      else if end.Nothing? then NoEnd(begin.value)
      else if end.value < begin.value then EndBeforeBegin(end.value, begin.value)
      else Found(begin.value, end.value, Level(parent))
  }

  /** Where the section is in a document of these lines. */
  function LocateIn(segments: seq<Bytes>, g: Grammar): (r: Located)
    ensures r.Found? ==> r.begin < r.end < |segments|
  {
    var texts := Plains(segments, g);
    CollectInRange(KindsFrom(texts, FrontMatter(texts, g), g), 0, Unmarked);
    Judge(ScanTexts(texts, g))
  }

  // The replacement.

  function Eol(beginSegment: Bytes): Bytes {
    var text := Text(beginSegment);
    if text != [] && text[|text| - 1] == CR then [CR, LF] else [LF]
  }

  /** The new lines between the markers. */
  function Inserted(rendered: Bytes, eol: Bytes): Bytes {
    var body := TrimRight(rendered, {LF});
    eol + (if eol == [LF] then body else WithLineEnding(body, eol)) + eol + eol
  }

  datatype Outcome = Replaced(doc: Bytes) | Refused(reason: Located)

  type Renderer = nat -> Bytes

  /** The text to insert, given the begin marker's line and the heading level. */
  type Inserter = (Bytes, nat) -> Bytes

  function InserterOf(render: Renderer): Inserter {
    (beginSegment, level) => Inserted(render(level), Eol(beginSegment))
  }

  /** The document with text between two of its lines. */
  function Splice(segments: seq<Bytes>, begin: nat, end: nat, text: Bytes): Bytes
    requires begin < end < |segments|
  {
    Join(segments[..begin + 1]) + text + Join(segments[end..])
  }

  function ReplaceIn(segments: seq<Bytes>, g: Grammar, insert: Inserter): Outcome {
    match LocateIn(segments, g)
    case Found(begin, end, level) =>
      Replaced(Splice(segments, begin, end, insert(segments[begin], level)))
    case reason => Refused(reason)
  }

  function Replacement(doc: Bytes, name: Bytes, render: Renderer): Outcome {
    ReplaceIn(Segments(doc), Markdown(name), InserterOf(render))
  }

  /** The markers found are two different lines among those scanned. */
  lemma {:induction false} CollectInRange(kinds: seq<Kind>, at: nat, st: Scan)
    requires st.Scan? ==>
      && (st.begin.Just? ==> st.begin.value < at) && (st.end.Just? ==> st.end.value < at)
      && (st.begin.Just? && st.end.Just? ==> st.begin.value != st.end.value)
    ensures var r := CollectAll(kinds, at, st);
      r.Scan? ==>
        && (r.begin.Just? ==> r.begin.value < at + |kinds|) && (r.end.Just? ==> r.end.value < at + |kinds|)
        && (r.begin.Just? && r.end.Just? ==> r.begin.value != r.end.value)
    decreases |kinds|
  {
    if kinds != [] && st.Scan? {
      CollectInRange(kinds[1..], at + 1, Collect(st, kinds[0], at));
    }
  }
}
