/** Replacing a section keeps the rest of the document, and doing it twice changes
    nothing exactly when the inserted text is quiet. */
module SectionLaws {
  import opened MarkdownSection

  // Segments and documents.

  lemma {:induction false} JoinOfSegments(doc: Bytes)
    ensures Join(Segments(doc)) == doc
  {
    if doc != [] {
      JoinOfSegments(doc[LineLength(doc)..]);
    }
  }

  lemma {:induction false} SegmentsAreLines(doc: Bytes)
    ensures AreLines(Segments(doc))
  {
    if doc != [] {
      var n := LineLength(doc);
      SegmentsAreLines(doc[n..]);
      var first, rest := doc[..n], Segments(doc[n..]);
      assert Segments(doc) == [first] + rest;
      assert n < |doc| ==> Ended(first);
      assert n == |doc| ==> rest == [];
    }
  }

  lemma FirstLine(segment: Bytes, rest: Bytes)
    requires segment != [] && OneLine(segment) && (Ended(segment) || rest == [])
    ensures LineLength(segment + rest) == |segment|
  {
    var doc := segment + rest;
    assert forall i | 0 <= i < |segment| :: doc[i] == segment[i];
  }

  lemma SegmentsStep(segment: Bytes, rest: Bytes)
    requires segment != [] && OneLine(segment) && (Ended(segment) || rest == [])
    ensures Segments(segment + rest) == [segment] + Segments(rest)
  {
    FirstLine(segment, rest);
    assert (segment + rest)[|segment|..] == rest && (segment + rest)[..|segment|] == segment;
  }

  lemma {:induction false} SegmentsOfJoin(segments: seq<Bytes>)
    requires AreLines(segments)
    ensures Segments(Join(segments)) == segments
  {
    if segments != [] {
      SegmentsOfJoin(segments[1..]);
      SegmentsStep(segments[0], Join(segments[1..]));
    }
  }

  lemma HeadOfAppend<T>(a: seq<T>, b: seq<T>)
    ensures a == [] ==> a + b == b
    ensures a != [] ==> (a + b)[0] == a[0] && (a + b)[1..] == a[1..] + b
  {
  }

  lemma Associative<T>(a: seq<T>, b: seq<T>, c: seq<T>)
    ensures a + (b + c) == (a + b) + c
  {
  }

  lemma {:induction false} JoinAppend(a: seq<Bytes>, b: seq<Bytes>)
    ensures Join(a + b) == Join(a) + Join(b)
  {
    HeadOfAppend(a, b);
    if a == [] {
      HeadOfAppend(Join(a), Join(b));
    } else {
      JoinAppend(a[1..], b);
      Associative(a[0], Join(a[1..]), Join(b));
    }
  }

  /** A join is at least as long as it has non-empty segments. */
  lemma {:induction false} JoinLength(segments: seq<Bytes>)
    requires forall i | 0 <= i < |segments| :: segments[i] != []
    ensures |Join(segments)| >= |segments|
  {
    if segments != [] {
      JoinLength(segments[1..]);
    }
  }

  lemma {:induction false} LastByteOfJoin(segments: seq<Bytes>)
    requires segments != [] && forall i | 0 <= i < |segments| :: segments[i] != []
    ensures Join(segments) != []
    ensures var last := segments[|segments| - 1];
      Join(segments)[|Join(segments)| - 1] == last[|last| - 1]
  {
    if |segments| > 1 {
      LastByteOfJoin(segments[1..]);
    }
  }

  /** Text made of whole lines. */
  predicate Whole(text: Bytes) {
    text == [] || text[|text| - 1] == LF
  }

  lemma WholeSegments(text: Bytes)
    requires Whole(text)
    ensures AreLines(Segments(text)) && forall i | 0 <= i < |Segments(text)| :: Ended(Segments(text)[i])
  {
    SegmentsAreLines(text);
    JoinOfSegments(text);
    if Segments(text) != [] {
      LastByteOfJoin(Segments(text));
    }
  }

  // Kinds of lines.

  /** A marker is only ever a line outside every fence, and it opens none. */
  ghost predicate Sound(g: Grammar) {
    forall f, text :: g.kind(f, text).Begin? || g.kind(f, text).End? ==> f.Closed? && g.next(f, text).Closed?
  }

  lemma MarkdownIsSound(name: Bytes)
    ensures Sound(Markdown(name))
  {
  }

  lemma {:induction false} FenceAppend(a: seq<Bytes>, b: seq<Bytes>, f: Fence, g: Grammar)
    ensures FenceAfter(a + b, f, g) == FenceAfter(b, FenceAfter(a, f, g), g)
  {
    HeadOfAppend(a, b);
    if a != [] {
      FenceAppend(a[1..], b, g.next(f, a[0]), g);
    }
  }

  lemma {:induction false} KindsAppend(a: seq<Bytes>, b: seq<Bytes>, f: Fence, g: Grammar)
    ensures Kinds(a + b, f, g) == Kinds(a, f, g) + Kinds(b, FenceAfter(a, f, g), g)
  {
    HeadOfAppend(a, b);
    if a == [] {
      HeadOfAppend(Kinds(a, f, g), Kinds(b, f, g));
    } else {
      var f' := g.next(f, a[0]);
      KindsAppend(a[1..], b, f', g);
      Associative([g.kind(f, a[0])], Kinds(a[1..], f', g), Kinds(b, FenceAfter(a, f, g), g));
    }
  }

  predicate Only(kinds: seq<Kind>, kind: Kind, at: nat) {
    forall i | 0 <= i < |kinds| :: kinds[i] == kind <==> i == at
  }

  predicate None(kinds: seq<Kind>, kind: Kind) {
    forall i | 0 <= i < |kinds| :: kinds[i] != kind
  }

  /** The level of the last heading, 0 without one. */
  function LastLevel(kinds: seq<Kind>): nat {
    if kinds == [] then 0
    else
      var last := kinds[|kinds| - 1];
      if last.Other? && last.level > 0 then last.level else LastLevel(kinds[..|kinds| - 1])
  }

  predicate Finds(kinds: seq<Kind>, b: nat, e: nat) {
    b < e < |kinds| && Only(kinds, Begin, b) && Only(kinds, End, e)
  }

  /** The scan succeeds exactly with one begin and one later end marker, and it
      finds those, and the last heading above the begin marker. */
  lemma ScanFinds(kinds: seq<Kind>, b: nat, e: nat, level: nat)
    ensures Judge(CollectAll(kinds, 0, Unmarked)) == Found(b, e, level)
       <==> Finds(kinds, b, e) && level == Level(LastLevel(kinds[..b]))
  {
    CollectMeaning(kinds, |kinds|);
    assert kinds[..|kinds|] == kinds;
    var r := CollectAll(kinds, 0, Unmarked);
    if r.Duplicate? {
      var i, j :| 0 <= i < j < |kinds| && kinds[i] == kinds[j] && (kinds[i].Begin? || kinds[i].End?);
      assert !Finds(kinds, b, e);
    } else if Finds(kinds, b, e) {
      assert kinds[b] == Begin && kinds[e] == End;
    } else if r.begin.Just? && r.end.Just? {
      assert kinds[r.begin.value] == Begin && kinds[r.end.value] == End;
    }
  }

  /** The state of the scan after the first n lines. */
  lemma {:induction false} CollectMeaning(kinds: seq<Kind>, n: nat)
    requires n <= |kinds|
    ensures var r := CollectAll(kinds[..n], 0, Unmarked);
      r.Scan? ==>
        && (r.begin.Nothing? ==> None(kinds[..n], Begin) && r.parent == LastLevel(kinds[..n]))
        && (r.begin.Just? ==> r.begin.value < n && Only(kinds[..n], Begin, r.begin.value))
        && (r.begin.Just? ==> r.parent == LastLevel(kinds[..r.begin.value]))
        && (r.end.Nothing? ==> None(kinds[..n], End))
        && (r.end.Just? ==> r.end.value < n && Only(kinds[..n], End, r.end.value))
    ensures var r := CollectAll(kinds[..n], 0, Unmarked);
      r.Duplicate? ==> exists i, j | 0 <= i < j < n :: kinds[i] == kinds[j] && (kinds[i].Begin? || kinds[i].End?)
  {
    if n > 0 {
      CollectMeaning(kinds, n - 1);
      CollectSnoc(kinds[..n - 1], kinds[n - 1], 0, Unmarked);
      assert kinds[..n] == kinds[..n - 1] + [kinds[n - 1]];
      var before := CollectAll(kinds[..n - 1], 0, Unmarked);
      if before.Scan? {
        if kinds[n - 1].Begin? && before.begin.Just? {
          assert kinds[..n - 1][before.begin.value].Begin?;
        }
        if kinds[n - 1].End? && before.end.Just? {
          assert kinds[..n - 1][before.end.value].End?;
        }
      }
    }
  }

  lemma {:induction false} CollectSnoc(kinds: seq<Kind>, kind: Kind, at: nat, st: Scan)
    ensures var before := CollectAll(kinds, at, st);
      CollectAll(kinds + [kind], at, st) == if before.Scan? then Collect(before, kind, at + |kinds|) else before
    decreases |kinds|
  {
    if kinds == [] {
      assert (kinds + [kind])[1..] == [];
    } else if st.Scan? {
      CollectSnoc(kinds[1..], kind, at + 1, Collect(st, kinds[0], at));
      assert (kinds + [kind])[1..] == kinds[1..] + [kind];
    }
  }

  // Front matter.

  lemma FrontMatterMeaning(texts: seq<Bytes>, n: nat, g: Grammar)
    ensures 0 < n ==> (FrontMatter(texts, g) == n <==>
              2 <= n <= |texts| && g.delimiter(texts[0]) && texts[n - 1] == texts[0]
              && forall k | 1 <= k < n - 1 :: texts[k] != texts[0])
    ensures FrontMatter(texts, g) == 0 <==>
              texts == [] || !g.delimiter(texts[0]) || forall k | 1 <= k < |texts| :: texts[k] != texts[0]
  {
  }

  /** The document starts with a front matter delimiter that is never closed, and
      the inserted text would close it. */
  predicate Trap(texts: seq<Bytes>, added: seq<Bytes>, g: Grammar) {
    texts != [] && g.delimiter(texts[0]) && FrontMatter(texts, g) == 0 && texts[0] in added
  }

  /** The lines after those between lines b and e were replaced. */
  function Spliced<T>(lines: seq<T>, b: nat, e: nat, added: seq<T>): seq<T>
    requires b < e < |lines|
  {
    lines[..b + 1] + added + lines[e..]
  }

  lemma FrontMatterAfter(texts: seq<Bytes>, b: nat, e: nat, added: seq<Bytes>, g: Grammar)
    requires b < e < |texts| && FrontMatter(texts, g) <= b
    ensures if Trap(texts, added, g) then FrontMatter(Spliced(texts, b, e, added), g) > b
            else FrontMatter(Spliced(texts, b, e, added), g) == FrontMatter(texts, g)
  {
    var after, n := Spliced(texts, b, e, added), FrontMatter(texts, g);
    assert after[..b + 1] == texts[..b + 1];
    assert forall k | 0 <= k <= b :: after[k] == texts[k];
    FrontMatterMeaning(texts, n, g);
    FrontMatterMeaning(after, n, g);
    if Trap(texts, added, g) {
      var i :| 0 <= i < |added| && added[i] == texts[0];
      assert after[b + 1 + i] == after[0];
      FrontMatterMeaning(after, FrontMatter(after, g), g);
      assert forall k | 1 <= k <= b :: after[k] != after[0];
    } else if n == 0 && g.delimiter(texts[0]) {
      forall k | 1 <= k < |after|
        ensures after[k] != after[0]
      {
        if k > b + |added| {
          assert after[k] == texts[k - b - 1 - |added| + e];
        } else if k > b {
          assert after[k] == added[k - b - 1];
        }
      }
    }
  }

  // The second replacement.

  /** Inserted text that is no marker itself and leaves no fence open. */
  predicate Quiet(added: seq<Bytes>, g: Grammar) {
    var kinds := Kinds(added, Closed, g);
    FenceAfter(added, Closed, g).Closed? && None(kinds, Begin) && None(kinds, End)
  }

  /** The kinds of the lines before, between and after two lines of a document. */
  lemma KindsOfParts(head: seq<Bytes>, middle: seq<Bytes>, tail: seq<Bytes>, skip: nat, g: Grammar)
    requires skip < |head|
    requires FenceAfter(head[skip..], Closed, g).Closed?
    ensures KindsFrom(head + middle + tail, skip, g)
         == KindsFrom(head, skip, g) + Kinds(middle, Closed, g) + Kinds(tail, FenceAfter(middle, Closed, g), g)
  {
    var a, b, c := Kinds(head[skip..], Closed, g), Kinds(middle, Closed, g),
      Kinds(tail, FenceAfter(middle, Closed, g), g);
    KindsAppend(head[skip..], middle + tail, Closed, g);
    KindsAppend(middle, tail, Closed, g);
    Regroup(Skips(skip), a, b, c);
    DropOfAppend(head, middle, tail, skip);
  }

  lemma DropOfAppend<T>(a: seq<T>, b: seq<T>, c: seq<T>, n: nat)
    requires n <= |a|
    ensures (a + b + c)[n..] == a[n..] + (b + c)
  {
  }

  lemma Regroup<T>(s: seq<T>, a: seq<T>, b: seq<T>, c: seq<T>)
    ensures s + (a + (b + c)) == (s + a) + b + c
  {
  }

  /** A line of a kind other than Skipped is after the front matter, and the fence
      before it decides its kind. */
  lemma KindAt(texts: seq<Bytes>, k: nat, skip: nat, g: Grammar)
    requires k < |texts| && skip <= |texts|
    ensures k < skip ==> KindsFrom(texts, skip, g)[k].Skipped?
    ensures skip <= k ==> KindsFrom(texts, skip, g)[k] == g.kind(FenceAfter(texts[skip..k], Closed, g), texts[k])
  {
    if skip <= k {
      var a, b := texts[skip..k], texts[k..];
      assert texts[skip..] == a + b;
      KindsAppend(a, b, Closed, g);
      assert Kinds(a + b, Closed, g)[k - skip] == Kinds(b, FenceAfter(a, Closed, g), g)[0];
    }
  }

  /** The begin marker leaves every fence closed. */
  lemma ClosedAfterMarker(texts: seq<Bytes>, b: nat, skip: nat, g: Grammar)
    requires Sound(g) && skip <= b < |texts| && KindsFrom(texts, skip, g)[b] == Begin
    ensures FenceAfter(texts[..b + 1][skip..], Closed, g).Closed?
  {
    var init, last := texts[skip..b], texts[b];
    KindAt(texts, b, skip, g);
    assert texts[..b + 1][skip..] == init + [last];
    FenceAppend(init, [last], Closed, g);
    assert FenceAfter([last], FenceAfter(init, Closed, g), g) == g.next(FenceAfter(init, Closed, g), last);
  }

  /** The second run finds the same section exactly when the inserted text is
      quiet and does not close a front matter block that was open. */
  lemma SameSectionAgain(texts: seq<Bytes>, b: nat, e: nat, level: nat, added: seq<Bytes>, g: Grammar)
    requires Sound(g) && Judge(ScanTexts(texts, g)) == Found(b, e, level)
    ensures b < e < |texts|
    ensures Judge(ScanTexts(Spliced(texts, b, e, added), g)) == Found(b, b + 1 + |added|, level)
       <==> Quiet(added, g) && !Trap(texts, added, g)
  {
    var skip := FrontMatter(texts, g);
    var kinds := KindsFrom(texts, skip, g);
    ScanFinds(kinds, b, e, level);
    KindAt(texts, b, skip, g);
    assert kinds[b] == Begin;
    FrontMatterAfter(texts, b, e, added, g);
    var after := Spliced(texts, b, e, added);
    var skip' := FrontMatter(after, g);
    var kinds' := KindsFrom(after, skip', g);
    ScanFinds(kinds', b, b + 1 + |added|, level);
    if Trap(texts, added, g) {
      KindAt(after, b, skip', g);
      assert kinds'[b] != Begin;
    } else {
      SameKinds(texts, b, e, added, skip, g);
    }
  }

  /** Unless a front matter block gets closed, the second run can find no other
      begin marker and no other heading level. */
  lemma SameBeginAgain(texts: seq<Bytes>, b: nat, e: nat, level: nat, added: seq<Bytes>, g: Grammar,
                       b2: nat, e2: nat, level2: nat)
    requires Sound(g) && Judge(ScanTexts(texts, g)) == Found(b, e, level)
    ensures b < e < |texts|
    ensures !Trap(texts, added, g) && Judge(ScanTexts(Spliced(texts, b, e, added), g)) == Found(b2, e2, level2) ==>
              b2 == b && level2 == level && b < e2 < |Spliced(texts, b, e, added)|
  {
    var skip := FrontMatter(texts, g);
    var kinds := KindsFrom(texts, skip, g);
    ScanFinds(kinds, b, e, level);
    KindAt(texts, b, skip, g);
    assert kinds[b] == Begin;
    var after := Spliced(texts, b, e, added);
    if !Trap(texts, added, g) && Judge(ScanTexts(after, g)) == Found(b2, e2, level2) {
      FrontMatterAfter(texts, b, e, added, g);
      var kinds' := KindsFrom(after, skip, g);
      ScanFinds(kinds', b2, e2, level2);
      SameKinds(texts, b, e, added, skip, g);
      assert kinds'[b] == Begin;
    }
  }

  lemma SameKinds(texts: seq<Bytes>, b: nat, e: nat, added: seq<Bytes>, skip: nat, g: Grammar)
    requires Sound(g) && skip <= b < e < |texts| && Finds(KindsFrom(texts, skip, g), b, e)
    ensures var kinds := KindsFrom(Spliced(texts, b, e, added), skip, g);
      && Quiet(added, g) == Finds(kinds, b, b + 1 + |added|)
      && kinds[..b] == KindsFrom(texts, skip, g)[..b]
      && kinds[b] == Begin
  {
    var head, middle, tail := texts[..b + 1], texts[b + 1..e], texts[e..];
    var front := KindsFrom(head, skip, g);
    var before, after := Kinds(middle, Closed, g), Kinds(added, Closed, g);
    var old', new' := Kinds(tail, FenceAfter(middle, Closed, g), g), Kinds(tail, FenceAfter(added, Closed, g), g);
    assert texts == head + middle + tail;
    assert KindsFrom(texts, skip, g)[b] == Begin;
    ClosedAfterMarker(texts, b, skip, g);
    KindsOfParts(head, middle, tail, skip, g);
    KindsOfParts(head, added, tail, skip, g);
    SplicedMarkers(front, before, after, old', new', b);
    assert (front + before + old')[..b] == front[..b] == (front + after + new')[..b];
    assert (front + before + old')[b] == front[b] == (front + after + new')[b];
    assert (front + before + old')[e] == old'[0];
  }

  /** Where the markers are when the kinds between them change. */
  lemma SplicedMarkers(front: seq<Kind>, old': seq<Kind>, new': seq<Kind>, tail: seq<Kind>, tail': seq<Kind>, b: nat)
    requires |front| == b + 1 && tail != [] && |tail| == |tail'|
    requires Only(front + old' + tail, Begin, b) && Only(front + old' + tail, End, |front| + |old'|)
    ensures tail == tail' && None(new', Begin) && None(new', End) ==>
              Only(front + new' + tail', Begin, b) && Only(front + new' + tail', End, |front| + |new'|)
    ensures Only(front + new' + tail', Begin, b) && Only(front + new' + tail', End, |front| + |new'|) ==>
              None(new', Begin) && None(new', End) && tail'[0] == End
  {
    var x, y := front + old' + tail, front + new' + tail';
    assert forall i | 0 <= i < |front| :: x[i] == front[i] == y[i];
    assert forall i | 0 <= i < |new'| :: y[|front| + i] == new'[i];
    assert forall i | 0 <= i < |tail| :: x[|front| + |old'| + i] == tail[i] && y[|front| + |new'| + i] == tail'[i];
  }

  // Documents.

  /** The lines of a document in which lines b + 1 to e - 1 were replaced by text. */
  lemma SegmentsOfReplaced(segments: seq<Bytes>, b: nat, e: nat, text: Bytes)
    requires AreLines(segments) && b < e < |segments| && Whole(text)
    ensures Segments(Splice(segments, b, e, text)) == Spliced(segments, b, e, Segments(text))
  {
    var added := Segments(text);
    WholeSegments(text);
    var all := Spliced(segments, b, e, added);
    forall i | 0 <= i < |all|
      ensures all[i] != [] && OneLine(all[i]) && (i < |all| - 1 ==> Ended(all[i]))
    {
      if b < i <= b + |added| {
        assert all[i] == added[i - b - 1];
      } else if i > b {
        assert all[i] == segments[i - b - 1 - |added| + e];
      }
    }
    JoinAppend(segments[..b + 1] + added, segments[e..]);
    JoinAppend(segments[..b + 1], added);
    JoinOfSegments(text);
    SegmentsOfJoin(all);
  }

  lemma PlainsOfSpliced(segments: seq<Bytes>, b: nat, e: nat, added: seq<Bytes>, g: Grammar)
    requires b < e < |segments|
    ensures Plains(Spliced(segments, b, e, added), g) == Spliced(Plains(segments, g), b, e, Plains(added, g))
  {
  }

  lemma LongerJoin(segments: seq<Bytes>, i: nat, j: nat)
    requires i < j <= |segments| && forall k | 0 <= k < |segments| :: segments[k] != []
    ensures |Join(segments[i..])| > |Join(segments[j..])|
  {
    assert segments[i..] == segments[i..j] + segments[j..];
    JoinAppend(segments[i..j], segments[j..]);
    JoinLength(segments[i..j]);
  }

  lemma SplicedEnds<T>(lines: seq<T>, b: nat, e: nat, added: seq<T>)
    requires b < e < |lines|
    ensures var all := Spliced(lines, b, e, added);
      && all[..b + 1] == lines[..b + 1] && all[b + 1 + |added|..] == lines[e..] && all[b] == lines[b]
  {
  }

  /** The text inserted into this document closes no front matter and is quiet. */
  predicate Harmless(segments: seq<Bytes>, text: Bytes, g: Grammar) {
    Quiet(Plains(Segments(text), g), g) && !Traps(segments, text, g)
  }

  predicate Traps(segments: seq<Bytes>, text: Bytes, g: Grammar) {
    Trap(Plains(segments, g), Plains(Segments(text), g), g)
  }

  /** Where the section of a replaced document is found: again where it was exactly
      when the text is harmless, and, short of a trap, never under another begin
      marker or at another heading level. */
  lemma FoundAgainIn(segments: seq<Bytes>, g: Grammar, b: nat, e: nat, level: nat, text: Bytes)
    requires Sound(g) && LocateIn(segments, g) == Found(b, e, level)
    ensures b < e < |segments|
    ensures var all := Spliced(segments, b, e, Segments(text));
      && (LocateIn(all, g) == Found(b, b + 1 + |Segments(text)|, level) <==> Harmless(segments, text, g))
      && (!Traps(segments, text, g) && LocateIn(all, g).Found? ==>
            LocateIn(all, g).begin == b && LocateIn(all, g).level == level)
  {
    var added := Segments(text);
    var again := LocateIn(Spliced(segments, b, e, added), g);
    PlainsOfSpliced(segments, b, e, added, g);
    SameSectionAgain(Plains(segments, g), b, e, level, Plains(added, g), g);
    if again.Found? {
      SameBeginAgain(Plains(segments, g), b, e, level, Plains(added, g), g, again.begin, again.end, again.level);
    }
  }

  /** The section is found again where it was if and only if the inserted text is
      quiet and closes no front matter; a front matter trap always loses it. */
  lemma SectionIsFoundAgain(segments: seq<Bytes>, g: Grammar, b: nat, e: nat, level: nat, text: Bytes)
    requires Sound(g) && AreLines(segments) && Whole(text) && LocateIn(segments, g) == Found(b, e, level)
    ensures b < e < |segments|
    ensures LocateIn(Segments(Splice(segments, b, e, text)), g) == Found(b, b + 1 + |Segments(text)|, level)
       <==> Harmless(segments, text, g)
  {
    SegmentsOfReplaced(segments, b, e, text);
    FoundAgainIn(segments, g, b, e, level, text);
  }

  /** Splicing the same text again gives the same bytes only up to the same line. */
  lemma SplicingAgain(segments: seq<Bytes>, b: nat, e: nat, text: Bytes, end: nat)
    requires AreLines(segments) && b < e < |segments| && Whole(text)
    requires b < end < |Spliced(segments, b, e, Segments(text))|
    ensures Splice(Spliced(segments, b, e, Segments(text)), b, end, text) == Splice(segments, b, e, text)
       <==> end == b + 1 + |Segments(text)|
  {
    var all, e' := Spliced(segments, b, e, Segments(text)), b + 1 + |Segments(text)|;
    SplicedEnds(segments, b, e, Segments(text));
    SegmentsOfReplaced(segments, b, e, text);
    SegmentsAreLines(Splice(segments, b, e, text));
    if end < e' {
      LongerJoin(all, end, e');
    } else if end > e' {
      LongerJoin(all, e', end);
    }
  }

  lemma ReplacingAgainIn(segments: seq<Bytes>, g: Grammar, insert: Inserter, b: nat, e: nat, level: nat, text: Bytes)
    requires Sound(g) && AreLines(segments) && LocateIn(segments, g) == Found(b, e, level)
    requires b < e < |segments| && insert(segments[b], level) == text && Whole(text)
    requires !Traps(segments, text, g)
    ensures ReplaceIn(Spliced(segments, b, e, Segments(text)), g, insert) == Replaced(Splice(segments, b, e, text))
       <==> Harmless(segments, text, g)
  {
    var all := Spliced(segments, b, e, Segments(text));
    var again := LocateIn(all, g);
    FoundAgainIn(segments, g, b, e, level, text);
    SplicedEnds(segments, b, e, Segments(text));
    if again.Found? {
      SplicingAgain(segments, b, e, text, again.end);
    }
  }

  lemma InsertedIsWhole(render: Renderer, beginSegment: Bytes, level: nat)
    ensures Whole(InserterOf(render)(beginSegment, level))
  {
    var text, eol := Inserted(render(level), Eol(beginSegment)), Eol(beginSegment);
    assert text[|text| - 1] == eol[|eol| - 1];
  }

  lemma JoinSplit(segments: seq<Bytes>, i: nat)
    requires i <= |segments|
    ensures var doc, n := Join(segments), |Join(segments[..i])|;
      n <= |doc| && Join(segments[..i]) == doc[..n] && Join(segments[i..]) == doc[n..]
  {
    assert segments == segments[..i] + segments[i..];
    JoinAppend(segments[..i], segments[i..]);
  }

  /** Where the kept bytes end and start again. */
  lemma Kept(segments: seq<Bytes>, b: nat, e: nat)
    requires b < e < |segments|
    ensures var doc, kept, tail := Join(segments), |Join(segments[..b + 1])|, |Join(segments[..e])|;
      && kept <= tail <= |doc| && Join(segments[..b + 1]) == doc[..kept] && Join(segments[e..]) == doc[tail..]
  {
    JoinSplit(segments, b + 1);
    JoinSplit(segments, e);
    assert segments[..e] == segments[..b + 1] + segments[b + 1..e];
    JoinAppend(segments[..b + 1], segments[b + 1..e]);
  }

  /** What ReplaceSection inserts into a document. */
  function NewText(doc: Bytes, name: Bytes, render: Renderer): Bytes
    requires LocateIn(Segments(doc), Markdown(name)).Found?
  {
    var located := LocateIn(Segments(doc), Markdown(name));
    InserterOf(render)(Segments(doc)[located.begin], located.level)
  }

  lemma ReplacementIs(doc: Bytes, name: Bytes, render: Renderer)
    requires LocateIn(Segments(doc), Markdown(name)).Found?
    ensures var located := LocateIn(Segments(doc), Markdown(name));
      Replacement(doc, name, render) == Replaced(Splice(Segments(doc), located.begin, located.end, NewText(doc, name, render)))
  {
  }

  lemma SpliceKeeps(segments: seq<Bytes>, b: nat, e: nat, text: Bytes)
    requires b < e < |segments|
    ensures var doc, kept, tail := Join(segments), |Join(segments[..b + 1])|, |Join(segments[..e])|;
      kept <= tail <= |doc| && Splice(segments, b, e, text) == doc[..kept] + text + doc[tail..]
  {
    Kept(segments, b, e);
  }

  /** Every byte up to the end of the begin line, and from the start of the end
      line on, is kept, for documents with either line ending. */
  lemma EverythingElseIsKept(doc: Bytes, name: Bytes, render: Renderer)
    requires LocateIn(Segments(doc), Markdown(name)).Found?
    ensures var segments, located := Segments(doc), LocateIn(Segments(doc), Markdown(name));
      var kept, tail := |Join(segments[..located.begin + 1])|, |Join(segments[..located.end])|;
      && kept <= tail <= |doc|
      && Replacement(doc, name, render) == Replaced(doc[..kept] + NewText(doc, name, render) + doc[tail..])
  {
    var located := LocateIn(Segments(doc), Markdown(name));
    JoinOfSegments(doc);
    ReplacementIs(doc, name, render);
    SpliceKeeps(Segments(doc), located.begin, located.end, NewText(doc, name, render));
  }

  /** Idempotence, with its exact condition: unless the text closes a front matter
      block, a second replacement with the same renderer succeeds and returns the
      same bytes if and only if the inserted text is quiet. */
  lemma ReplacingTwice(doc: Bytes, name: Bytes, render: Renderer)
    requires LocateIn(Segments(doc), Markdown(name)).Found?
    requires !Traps(Segments(doc), NewText(doc, name, render), Markdown(name))
    ensures Replacement(doc, name, render).Replaced?
    ensures Replacement(Replacement(doc, name, render).doc, name, render) == Replacement(doc, name, render)
       <==> Quiet(Plains(Segments(NewText(doc, name, render)), Markdown(name)), Markdown(name))
  {
    var segments, g := Segments(doc), Markdown(name);
    var text, located := NewText(doc, name, render), LocateIn(segments, g);
    MarkdownIsSound(name);
    SegmentsAreLines(doc);
    InsertedIsWhole(render, segments[located.begin], located.level);
    ReplacementIs(doc, name, render);
    SegmentsOfReplaced(segments, located.begin, located.end, text);
    ReplacingAgainIn(segments, g, InserterOf(render), located.begin, located.end, located.level, text);
  }

  // The trap.

  /** No line reads as a begin marker, whatever fence is open before it. */
  predicate NoBeginLine(texts: seq<Bytes>, g: Grammar) {
    forall i | 0 <= i < |texts| :: !g.kind(Closed, texts[i]).Begin?
  }

  lemma NoBeginAfter(texts: seq<Bytes>, skip: nat, g: Grammar)
    requires Sound(g) && skip <= |texts| && NoBeginLine(texts[skip..], g)
    ensures None(KindsFrom(texts, skip, g), Begin)
  {
    forall k | 0 <= k < |texts|
      ensures KindsFrom(texts, skip, g)[k] != Begin
    {
      KindAt(texts, k, skip, g);
      assert k >= skip ==> texts[skip..][k - skip] == texts[k];
    }
  }

  lemma FoundHasBegin(texts: seq<Bytes>, g: Grammar)
    requires Judge(ScanTexts(texts, g)).Found?
    ensures exists k :: 0 <= k < |texts| && KindsFrom(texts, FrontMatter(texts, g), g)[k] == Begin
  {
    var kinds, r := KindsFrom(texts, FrontMatter(texts, g), g), Judge(ScanTexts(texts, g));
    ScanFinds(kinds, r.begin, r.end, r.level);
    assert kinds[r.begin] == Begin;
  }

  lemma NotFoundWithoutBegin(texts: seq<Bytes>, g: Grammar)
    requires None(KindsFrom(texts, FrontMatter(texts, g), g), Begin)
    ensures !Judge(ScanTexts(texts, g)).Found?
  {
    if Judge(ScanTexts(texts, g)).Found? {
      FoundHasBegin(texts, g);
    }
  }

  lemma TrappedIn(texts: seq<Bytes>, b: nat, e: nat, level: nat, added: seq<Bytes>, g: Grammar)
    requires Sound(g) && Judge(ScanTexts(texts, g)) == Found(b, e, level) && Trap(texts, added, g)
    ensures b < e < |texts|
    ensures NoBeginLine(added, g) && NoBeginLine(texts[e..], g) ==> !Judge(ScanTexts(Spliced(texts, b, e, added), g)).Found?
  {
    var skip := FrontMatter(texts, g);
    ScanFinds(KindsFrom(texts, skip, g), b, e, level);
    KindAt(texts, b, skip, g);
    assert KindsFrom(texts, skip, g)[b] == Begin;
    if NoBeginLine(added, g) && NoBeginLine(texts[e..], g) {
      FrontMatterAfter(texts, b, e, added, g);
      var after := Spliced(texts, b, e, added);
      TailHasNoBegin(texts, b, e, added, FrontMatter(after, g), g);
      NoBeginAfter(after, FrontMatter(after, g), g);
      NotFoundWithoutBegin(after, g);
    }
  }

  lemma TailHasNoBegin(texts: seq<Bytes>, b: nat, e: nat, added: seq<Bytes>, skip: nat, g: Grammar)
    requires b < e < |texts| && b < skip <= |Spliced(texts, b, e, added)|
    requires NoBeginLine(added, g) && NoBeginLine(texts[e..], g)
    ensures NoBeginLine(Spliced(texts, b, e, added)[skip..], g)
  {
    var after, tail := Spliced(texts, b, e, added), texts[e..];
    forall i | skip <= i < |after|
      ensures !g.kind(Closed, after[i]).Begin?
    {
      if i <= b + |added| {
        assert after[i] == added[i - b - 1];
      } else {
        assert after[i] == tail[i - b - 1 - |added|];
      }
    }
  }

  lemma TrappedAgainIn(segments: seq<Bytes>, g: Grammar, b: nat, e: nat, level: nat, text: Bytes)
    requires Sound(g) && LocateIn(segments, g) == Found(b, e, level) && Traps(segments, text, g)
    ensures b < e < |segments|
    ensures NoBeginLine(Plains(Segments(text), g), g) && NoBeginLine(Plains(segments, g)[e..], g) ==>
      !LocateIn(Spliced(segments, b, e, Segments(text)), g).Found?
  {
    PlainsOfSpliced(segments, b, e, Segments(text), g);
    TrappedIn(Plains(segments, g), b, e, level, Plains(Segments(text), g), g);
  }

  /** Text that closes a front matter block hides the begin marker above it: unless there is
      another below, the second replacement is refused. */
  lemma TrappedSectionIsLost(doc: Bytes, name: Bytes, render: Renderer)
    requires LocateIn(Segments(doc), Markdown(name)).Found?
    requires Traps(Segments(doc), NewText(doc, name, render), Markdown(name))
    requires NoBeginLine(Plains(Segments(NewText(doc, name, render)), Markdown(name)), Markdown(name))
    requires NoBeginLine(Plains(Segments(doc), Markdown(name))[LocateIn(Segments(doc), Markdown(name)).end..], Markdown(name))
    ensures Replacement(doc, name, render).Replaced?
    ensures Replacement(Replacement(doc, name, render).doc, name, render).Refused?
  {
    var segments, g := Segments(doc), Markdown(name);
    var text, located := NewText(doc, name, render), LocateIn(segments, g);
    MarkdownIsSound(name);
    SegmentsAreLines(doc);
    InsertedIsWhole(render, segments[located.begin], located.level);
    ReplacementIs(doc, name, render);
    SegmentsOfReplaced(segments, located.begin, located.end, text);
    TrappedAgainIn(segments, g, located.begin, located.end, located.level, text);
  }
}
