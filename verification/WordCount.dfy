/** The wordcount example tool, `examples/tools/wordcount/main.go`: the sequential scanner
    and the chunked parallel counter compute the same counts, and so does the counter that
    splits text into fields, as long as only ASCII separates words.

    The meaning they are proved against is independent of the loops: lines are
    the newline positions, and words are the positions where a word starts. */
module WordCount {
  import opened Runes

  type Byte = b: int | 0 <= b < 256

  datatype Counts = Counts(lines: nat, words: nat, bytes: nat)

  /** unicode.IsSpace on a rune below 256. */
  predicate IsSpace(b: Byte) {
    9 <= b <= 13 || b == 32 || b == 0x85 || b == 0xA0
  }

  predicate StartsWord(data: seq<Byte>, i: nat)
    requires i < |data|
  {
    !IsSpace(data[i]) && (i == 0 || IsSpace(data[i - 1]))
  }

  function WordStarts(data: seq<Byte>, lo: nat, hi: nat): set<nat>
    requires lo <= hi <= |data|
  {
    set i: nat | lo <= i < hi && StartsWord(data, i)
  }

  function Newlines(data: seq<Byte>, lo: nat, hi: nat): set<nat>
    requires lo <= hi <= |data|
  {
    set i: nat | lo <= i < hi && data[i] == 10
  }

  /** What the bytes from lo to hi contribute to the counts of the whole input. */
  function Tally(data: seq<Byte>, lo: nat, hi: nat): Counts
    requires lo <= hi <= |data|
  {
    Counts(|Newlines(data, lo, hi)|, |WordStarts(data, lo, hi)|, hi - lo)
  }

  function Plus(a: Counts, b: Counts): Counts {
    Counts(a.lines + b.lines, a.words + b.words, a.bytes + b.bytes)
  }

  /** Counting a stretch in two parts and adding gives the count of the stretch. */
  lemma TallySplits(data: seq<Byte>, lo: nat, mid: nat, hi: nat)
    requires lo <= mid <= hi <= |data|
    ensures Tally(data, lo, hi) == Plus(Tally(data, lo, mid), Tally(data, mid, hi))
  {
    assert Newlines(data, lo, hi) == Newlines(data, lo, mid) + Newlines(data, mid, hi);
    assert Newlines(data, lo, mid) !! Newlines(data, mid, hi);
    assert WordStarts(data, lo, hi) == WordStarts(data, lo, mid) + WordStarts(data, mid, hi);
    assert WordStarts(data, lo, mid) !! WordStarts(data, mid, hi);
  }

  lemma TallyOne(data: seq<Byte>, i: nat)
    requires i < |data|
    ensures Tally(data, i, i + 1)
         == Counts(if data[i] == 10 then 1 else 0, if StartsWord(data, i) then 1 else 0, 1)
  {
    assert Newlines(data, i, i + 1) == if data[i] == 10 then {i} else {};
    assert WordStarts(data, i, i + 1) == if StartsWord(data, i) then {i} else {};
  }

  lemma TallyEmpty(data: seq<Byte>, i: nat)
    requires i <= |data|
    ensures Tally(data, i, i) == Counts(0, 0, 0)
  {
    assert Newlines(data, i, i) == {};
    assert WordStarts(data, i, i) == {};
  }

  /** countScanner: one pass, one flag. */
  method CountScanner(data: seq<Byte>) returns (c: Counts)
    ensures c == Tally(data, 0, |data|)
  {
    TallyEmpty(data, 0);
    c := Counts(0, 0, 0);
    var inWord, i := false, 0;
    while i < |data|
      invariant i <= |data| && c == Tally(data, 0, i)
      invariant inWord == (i > 0 && !IsSpace(data[i - 1]))
    {
      var b := data[i];
      TallySplits(data, 0, i, i + 1);
      TallyOne(data, i);
      c := c.(bytes := c.bytes + 1);
      if b == 10 {
        c := c.(lines := c.lines + 1);
      }
      var space := IsSpace(b);
      if !space && !inWord {
        c := c.(words := c.words + 1);
      }
      inWord, i := !space, i + 1;
    }
  }

  /** The loop of one worker, which starts inside a word when the byte before its chunk is
      part of one. */
  method CountChunk(data: seq<Byte>, lo: nat, hi: nat) returns (c: Counts)
    requires lo <= hi <= |data|
    ensures c == Tally(data, lo, hi)
  {
    var inWord := lo > 0 && !IsSpace(data[lo - 1]);
    c := Counts(0, 0, 0);
    TallyEmpty(data, lo);
    for i := lo to hi
      invariant c == Tally(data, lo, i)
      invariant inWord == (i > 0 && !IsSpace(data[i - 1]))
    {
      TallySplits(data, lo, i, i + 1);
      TallyOne(data, i);
      c := c.(bytes := c.bytes + 1);
      if data[i] == 10 {
        c := c.(lines := c.lines + 1);
      }
      var space := IsSpace(data[i]);
      if !space && !inWord {
        c := c.(words := c.words + 1);
      }
      inWord := !space;
    }
  }

  function Min(a: nat, b: nat): nat {
    if a <= b then a else b
  }

  /** Where chunk k starts: at the end of the input for workers that get nothing. */
  function ChunkStart(k: nat, size: nat, length: nat): nat {
    Min(k * size, length)
  }

  lemma ChunkStartMonotone(k: nat, size: nat, length: nat)
    ensures ChunkStart(k, size, length) <= ChunkStart(k + 1, size, length)
    ensures ChunkStart(k + 1, size, length) == Min(k * size + size, length)
  {
    assert (k + 1) * size == k * size + size;
  }

  function ChunkSize(length: nat, workers: nat): (size: nat)
    requires workers >= 1
    ensures ChunkStart(workers, size, length) == length
    ensures size == 0 ==> length == 0
  {
    var size := (length + workers - 1) / workers;
    assert workers * size > length - 1;
    size
  }

  /** What worker k has to find. */
  function Share(data: seq<Byte>, size: nat, k: nat): Counts {
    ChunkStartMonotone(k, size, |data|);
    Tally(data, ChunkStart(k, size, |data|), ChunkStart(k + 1, size, |data|))
  }

  /** A worker whose chunk would start past the end has an empty share, and so
      has every worker after it: their untouched zero slots are right. */
  lemma NoShareLeft(data: seq<Byte>, size: nat, k: nat)
    requires k * size >= |data|
    ensures Share(data, size, k) == Counts(0, 0, 0)
    ensures (k + 1) * size >= |data|
  {
    ChunkStartMonotone(k, size, |data|);
    assert (k + 1) * size == k * size + size;
    TallyEmpty(data, |data|);
  }

  /** Runs one worker per chunk. Each writes only its own slot, so the order in
      which they finish is modelled by picking an arbitrary unfinished one. */
  method RunWorkers(data: seq<Byte>, size: nat, workers: nat) returns (results: array<Counts>)
    ensures results.Length == workers
    ensures forall k | 0 <= k < workers :: results[k] == Share(data, size, k)
  {
    results := new Counts[workers](_ => Counts(0, 0, 0));
    var launched, pending: set<nat> := 0, {};
    while launched < workers && launched * size < |data|
      invariant 0 <= launched <= workers
      invariant forall k :: k in pending <==> 0 <= k < launched
      invariant forall k | k in pending :: ChunkStart(k, size, |data|) < |data|
    {
      pending := pending + {launched};
      launched := launched + 1;
    }
    IdleWorkers(data, size, launched, workers);
    while pending != {}
      invariant forall k | k in pending :: k < launched && ChunkStart(k, size, |data|) < |data|
      invariant forall k | 0 <= k < workers && k !in pending :: results[k] == Share(data, size, k)
      decreases pending
    {
      var w :| w in pending;
      ChunkStartMonotone(w, size, |data|);
      results[w] := CountChunk(data, w * size, Min(w * size + size, |data|));
      pending := pending - {w};
    }
  }

  lemma IdleWorkers(data: seq<Byte>, size: nat, launched: nat, workers: nat)
    requires launched <= workers
    requires launched < workers ==> launched * size >= |data|
    ensures forall k | launched <= k < workers :: Share(data, size, k) == Counts(0, 0, 0)
    decreases workers - launched
  {
    if launched < workers {
      NoShareLeft(data, size, launched);
      IdleWorkers(data, size, launched + 1, workers);
    }
  }

  /** The parallel implementation, for every requested worker count: zero and
      negative counts mean one worker, and there may be more workers than bytes. */
  method CountParallel(data: seq<Byte>, requested: int) returns (total: Counts)
    ensures total == Tally(data, 0, |data|)
  {
    var workers := if requested < 1 then 1 else requested;
    var size := ChunkSize(|data|, workers);
    if size == 0 {
      TallyEmpty(data, 0);
      return Counts(0, 0, 0);
    }
    var results := RunWorkers(data, size, workers);
    total := SumShares(data, size, results);
  }

  method SumShares(data: seq<Byte>, size: nat, results: array<Counts>) returns (total: Counts)
    requires forall k | 0 <= k < results.Length :: results[k] == Share(data, size, k)
    ensures total == Tally(data, 0, ChunkStart(results.Length, size, |data|))
  {
    TallyEmpty(data, 0);
    total := Counts(0, 0, 0);
    for j := 0 to results.Length
      invariant total == Tally(data, 0, ChunkStart(j, size, |data|))
    {
      ChunkStartMonotone(j, size, |data|);
      TallySplits(data, 0, ChunkStart(j, size, |data|), ChunkStart(j + 1, size, |data|));
      total := Plus(total, results[j]);
    }
  }

  // Splitting into fields: strings.Fields reads runes.

  predicate Continues(data: seq<Byte>, i: nat, lo: Byte, hi: Byte) {
    i < |data| && lo <= data[i] <= hi
  }

  /** The number of bytes of the rune at i; bytes that are no UTF-8 are read one by one. */
  function Width(data: seq<Byte>, i: nat): (n: nat)
    requires i < |data|
    ensures 1 <= n <= 4 && i + n <= |data|
    ensures n > 1 ==> forall k | i <= k < i + n :: data[k] >= 0x80
    ensures data[i] < 0x80 ==> n == 1
  {
    var b := data[i];
    if 0xC2 <= b <= 0xDF then
      if Continues(data, i + 1, 0x80, 0xBF) then 2 else 1
    else if 0xE0 <= b <= 0xEF then
      var lo: Byte, hi: Byte := if b == 0xE0 then 0xA0 else 0x80, if b == 0xED then 0x9F else 0xBF;
      if Continues(data, i + 1, lo, hi) && Continues(data, i + 2, 0x80, 0xBF) then 3 else 1
    else if 0xF0 <= b <= 0xF4 then
      var lo: Byte, hi: Byte := if b == 0xF0 then 0x90 else 0x80, if b == 0xF4 then 0x8F else 0xBF;
      if Continues(data, i + 1, lo, hi) && Continues(data, i + 2, 0x80, 0xBF) && Continues(data, i + 3, 0x80, 0xBF) then 4 else 1
    else 1
  }

  predicate SpaceAt(data: seq<Byte>, i: nat)
    requires i < |data|
  {
    IsSpaceRune(data[i..i + Width(data, i)])
  }

  /** How many fields start at i or after it, reading runes from i on. */
  function Fields(data: seq<Byte>, i: nat, inField: bool): nat
    requires i <= |data|
    decreases |data| - i
  {
    if i == |data| then 0
    else if SpaceAt(data, i) then Fields(data, i + Width(data, i), false)
    else (if inField then 0 else 1) + Fields(data, i + Width(data, i), true)
  }

  /** countBytes. */
  method CountBytes(data: seq<Byte>) returns (c: Counts)
    ensures c == Counts(|Newlines(data, 0, |data|)|, Fields(data, 0, false), |data|)
  {
    var lines := CountNewlines(data);
    var fields := CountFields(data);
    c := Counts(lines, fields, |data|);
  }

  /** bytes.Count of the newline. */
  method CountNewlines(data: seq<Byte>) returns (n: nat)
    ensures n == |Newlines(data, 0, |data|)|
  {
    TallyEmpty(data, 0);
    n := 0;
    for i := 0 to |data|
      invariant n == Tally(data, 0, i).lines
    {
      TallySplits(data, 0, i, i + 1);
      TallyOne(data, i);
      if data[i] == 10 {
        n := n + 1;
      }
    }
  }

  /** The number of strings.Fields. */
  method CountFields(data: seq<Byte>) returns (n: nat)
    ensures n == Fields(data, 0, false)
  {
    n := 0;
    var inField, i := false, 0;
    while i < |data|
      invariant i <= |data| && n + Fields(data, i, inField) == Fields(data, 0, false)
      decreases |data| - i
    {
      if SpaceAt(data, i) {
        inField := false;
      } else {
        if !inField {
          n := n + 1;
        }
        inField := true;
      }
      i := i + Width(data, i);
    }
  }

  /** No space beyond ASCII: neither as a byte, nor as a rune. */
  predicate AsciiSpaces(data: seq<Byte>) {
    && (forall i | 0 <= i < |data| :: data[i] != 0x85 && data[i] != 0xA0)
    && (forall i | 0 <= i < |data| && SpaceAt(data, i) :: Width(data, i) == 1)
  }

  /** A rune is a space exactly when its first byte is one, and otherwise holds none. */
  lemma RuneIsWord(data: seq<Byte>, i: nat)
    requires i < |data| && AsciiSpaces(data)
    ensures SpaceAt(data, i) <==> IsSpace(data[i])
    ensures SpaceAt(data, i) ==> Width(data, i) == 1
    ensures forall k | i <= k < i + Width(data, i) :: IsSpace(data[k]) == SpaceAt(data, i)
  {
  }

  /** The word starts within one rune. */
  lemma StartsInRune(data: seq<Byte>, i: nat, n: nat)
    requires i + n <= |data| && n > 0
    requires forall k | i <= k < i + n :: !IsSpace(data[k])
    ensures |WordStarts(data, i, i + n)| == if i > 0 && !IsSpace(data[i - 1]) then 0 else 1
  {
    assert WordStarts(data, i, i + n) == if i > 0 && !IsSpace(data[i - 1]) then {} else {i};
  }

  lemma {:induction false} FieldsAreWords(data: seq<Byte>, i: nat)
    requires i <= |data| && AsciiSpaces(data)
    ensures Fields(data, i, i > 0 && !IsSpace(data[i - 1])) == |WordStarts(data, i, |data|)|
    decreases |data| - i
  {
    if i == |data| {
      TallyEmpty(data, i);
    } else {
      var n := Width(data, i);
      RuneIsWord(data, i);
      FieldsAreWords(data, i + n);
      TallySplits(data, i, i + n, |data|);
      if SpaceAt(data, i) {
        TallyOne(data, i);
      } else {
        StartsInRune(data, i, n);
      }
    }
  }

  /** Splitting into fields gives the same counts on ASCII text, and on every input whose words
      are separated by ASCII spaces alone. */
  lemma FieldsAgree(data: seq<Byte>)
    requires AsciiSpaces(data) || forall i | 0 <= i < |data| :: data[i] < 0x80
    ensures Counts(|Newlines(data, 0, |data|)|, Fields(data, 0, false), |data|) == Tally(data, 0, |data|)
  {
    FieldsAreWords(data, 0);
  }

  /** Beyond ASCII it can count fewer words, or more: a letter whose encoding ends like a
      space, and a space that only exists as a rune. */
  lemma FieldsCanDiffer()
    ensures Fields([0x78, 0xC3, 0xA0, 0x78], 0, false) == 1 && Tally([0x78, 0xC3, 0xA0, 0x78], 0, 4).words == 2
    ensures Fields([0x78, 0xE3, 0x80, 0x80, 0x78], 0, false) == 2 && Tally([0x78, 0xE3, 0x80, 0x80, 0x78], 0, 5).words == 1
  {
    WordsOfLetter([0x78, 0xC3, 0xA0, 0x78]);
    WordsOfSpace([0x78, 0xE3, 0x80, 0x80, 0x78]);
  }

  lemma WordsOfLetter(data: seq<Byte>)
    requires |data| == 4 && data[0] == 0x78 && data[1] == 0xC3 && data[2] == 0xA0 && data[3] == 0x78
    ensures Fields(data, 0, false) == 1 && |WordStarts(data, 0, 4)| == 2
  {
    assert WordStarts(data, 0, 4) == {0, 3};
    assert Width(data, 0) == 1 && Width(data, 1) == 2 && Width(data, 3) == 1;
    assert Fields(data, 4, true) == 0;
    assert Fields(data, 3, true) == 0;
    assert Fields(data, 1, true) == 0;
  }

  lemma WordsOfSpace(data: seq<Byte>)
    requires |data| == 5 && data[0] == 0x78 && data[1] == 0xE3 && data[2] == 0x80 && data[3] == 0x80 && data[4] == 0x78
    ensures Fields(data, 0, false) == 2 && |WordStarts(data, 0, 5)| == 1
  {
    assert WordStarts(data, 0, 5) == {0};
    assert Width(data, 0) == 1 && Width(data, 1) == 3 && Width(data, 4) == 1;
    assert data[1..4] == [0xE3, 0x80, 0x80];
    assert Fields(data, 5, true) == 0;
    assert Fields(data, 4, false) == 1;
    assert Fields(data, 1, true) == 1;
  }

  datatype Implementation = Scanner | ReadAll | Parallel

  /** count: the answer does not depend on the implementation or the worker count, but for
      fields separated by other spaces than those of ASCII. */
  method Count(data: seq<Byte>, impl: Implementation, workers: int) returns (c: Counts)
    ensures !impl.ReadAll? || AsciiSpaces(data) ==> c == Tally(data, 0, |data|)
    ensures impl.ReadAll? ==> c == Tally(data, 0, |data|).(words := Fields(data, 0, false))
  {
    match impl
    case Scanner => c := CountScanner(data);
    case ReadAll =>
      c := CountBytes(data);
      if AsciiSpaces(data) {
        FieldsAgree(data);
      }
    case Parallel => c := CountParallel(data, workers);
  }
}
