/** Splitting oversized text for embedding: knowledge_build/scripts/build_pcf_policy_kb.py. */
module Chunking {
  import opened Strings
  import opened Documents
  import opened Lists

  // ---- What chunking must not lose ----

  predicate Blank(s: string) {
    Strip(s) == ""
  }

  /** The text without its whitespace. */
  function Erase(s: string): string {
    if s == "" then "" else (if IsSpace(s[0]) then "" else [s[0]]) + Erase(s[1..])
  }

  function EraseAll(parts: seq<string>): string {
    if parts == [] then "" else EraseAll(parts[..|parts| - 1]) + Erase(parts[|parts| - 1])
  }

  lemma {:induction false} EraseAppend(a: string, b: string)
    ensures Erase(a + b) == Erase(a) + Erase(b)
  {
    if a == "" {
      assert a + b == b;
    } else {
      assert (a + b)[1..] == a[1..] + b;
      EraseAppend(a[1..], b);
    }
  }

  predicate AllSpace(s: string) {
    forall i | 0 <= i < |s| :: IsSpace(s[i])
  }

  lemma {:induction false} EraseSpace(s: string)
    ensures Erase(s) == "" <==> AllSpace(s)
  {
    if s != "" {
      EraseSpace(s[1..]);
      assert forall i | 0 < i < |s| :: s[i] == s[1..][i - 1];
    }
  }

  lemma {:induction false} EraseRStrip(s: string)
    ensures Erase(RStrip(s)) == Erase(s)
  {
    if s != "" && IsSpace(s[|s| - 1]) {
      EraseRStrip(s[..|s| - 1]);
      EraseAppend(s[..|s| - 1], [s[|s| - 1]]);
      assert s == s[..|s| - 1] + [s[|s| - 1]];
    }
  }

  lemma {:induction false} EraseLStrip(s: string)
    ensures Erase(LStrip(s)) == Erase(s)
  {
    if s != "" && IsSpace(s[0]) {
      EraseLStrip(s[1..]);
    }
  }

  lemma StripShortens(s: string)
    ensures |Strip(s)| <= |s|
  {
    RStripEnd(s);
    LStripStart(RStrip(s));
  }

  lemma TrimmedBlank(s: string)
    requires Trimmed(s)
    ensures s == "" <==> Erase(s) == ""
  {
    EraseSpace(s);
  }

  /** Stripping removes nothing but whitespace, and makes nothing longer. */
  lemma EraseStrip(s: string)
    ensures Erase(Strip(s)) == Erase(s) && |Strip(s)| <= |s|
    ensures Blank(s) <==> Erase(s) == ""
  {
    EraseRStrip(s);
    EraseLStrip(RStrip(s));
    StripShortens(s);
    StripTrims(s);
    TrimmedBlank(Strip(s));
  }

  lemma {:induction false} EraseAllAppend(a: seq<string>, b: seq<string>)
    ensures EraseAll(a + b) == EraseAll(a) + EraseAll(b)
  {
    if b == [] {
      AppendNothing(a, b);
      assert EraseAll(a) + "" == EraseAll(a);
    } else {
      AppendInit(a, b);
      EraseAllAppend(a, b[..|b| - 1]);
      Assoc(EraseAll(a), EraseAll(b[..|b| - 1]), Erase(b[|b| - 1]));
    }
  }

  // ---- Splitting at whitespace runs ----

  datatype Separator = BlankLine | LineEnd | SentenceEnd

  /** The line boundaries of `str.splitlines`. */
  predicate IsLineBreak(c: char) {
    || '\n' <= c <= '\r'
    || '\U{1C}' <= c <= '\U{1E}'
    || c == '\U{85}' || c == '\U{2028}' || c == '\U{2029}'
  }

  function RunEnd(s: string, i: nat): (j: nat)
    requires i <= |s|
    ensures i <= j <= |s| && AllSpace(s[i..j])
    ensures i < |s| && IsSpace(s[i]) ==> i < j
    decreases |s| - i
  {
    if i < |s| && IsSpace(s[i]) then RunEnd(s, i + 1) else i
  }

  function NewLines(s: string): nat {
    if s == "" then 0 else (if s[0] == '\n' then 1 else 0) + NewLines(s[1..])
  }

  /** Whether the whitespace run `s[i..j]` separates: it holds two line feeds, or a line boundary, or it
      follows the end of a sentence. */
  predicate Cuts(separator: Separator, s: string, i: nat, j: nat)
    requires i <= j <= |s|
  {
    match separator
    case BlankLine => NewLines(s[i..j]) >= 2
    case LineEnd => exists k :: i <= k < j && IsLineBreak(s[k])
    case SentenceEnd => i > 0 && s[i - 1] in ".;:"
  }

  /** The stretches between separating runs, `s[start..i]` being read and not cut. */
  function Stretches(separator: Separator, s: string, start: nat, i: nat): seq<string>
    requires start <= i <= |s|
    decreases |s| - i
  {
    if i == |s| then [s[start..]]
    else if !IsSpace(s[i]) then Stretches(separator, s, start, i + 1)
    else
      var j := RunEnd(s, i);
      if Cuts(separator, s, i, j) then [s[start..i]] + Stretches(separator, s, j, j)
      else Stretches(separator, s, start, j)
  }

  /** `[part.strip() for part in ... if part.strip()]` */
  function Stripped(parts: seq<string>): (out: seq<string>)
    ensures forall k | 0 <= k < |out| :: out[k] != "" && Trimmed(out[k])
  {
    if parts == [] then []
    else
      var last := Strip(parts[|parts| - 1]);
      StripTrims(parts[|parts| - 1]);
      Stripped(parts[..|parts| - 1]) + if last != "" then [last] else []
  }

  /** `text[k : k + size]` for every multiple `k` of `size`. */
  function Slices(s: string, size: nat): (out: seq<string>)
    requires size > 0
    ensures forall k | 0 <= k < |out| :: 0 < |out[k]| <= size
  {
    if s == "" then []
    else if |s| <= size then [s]
    else [s[..size]] + Slices(s[size..], size)
  }

  /** The parts that are packed: the first separator that yields more than one, or plain slices. */
  function Parts(s: string, size: nat): seq<string>
    requires size > 0
  {
    var blocks := Stripped(Stretches(BlankLine, s, 0, 0));
    var lines := Stripped(Stretches(LineEnd, s, 0, 0));
    var sentences := Stripped(Stretches(SentenceEnd, s, 0, 0));
    if |blocks| > 1 then blocks else if |lines| > 1 then lines else if |sentences| > 1 then sentences else Slices(s, size)
  }

  lemma {:induction false} StretchesErase(separator: Separator, s: string, start: nat, i: nat)
    requires start <= i <= |s|
    ensures EraseAll(Stretches(separator, s, start, i)) == Erase(s[start..])
    decreases |s| - i
  {
    if i == |s| {
      EraseOne(s[start..]);
    } else if !IsSpace(s[i]) {
      StretchesErase(separator, s, start, i + 1);
    } else {
      var j := RunEnd(s, i);
      if Cuts(separator, s, i, j) {
        StretchesErase(separator, s, j, j);
        EraseOne(s[start..i]);
        EraseAllAppend([s[start..i]], Stretches(separator, s, j, j));
        CutErase(s, start, i, j);
      } else {
        StretchesErase(separator, s, start, j);
      }
    }
  }

  lemma CutErase(s: string, start: nat, i: nat, j: nat)
    requires start <= i <= j <= |s| && AllSpace(s[i..j])
    ensures Erase(s[start..]) == Erase(s[start..i]) + Erase(s[j..])
  {
    EraseSpace(s[i..j]);
    EraseCut(s, i, j);
    EraseCut(s, start, i);
  }

  lemma EraseCut(s: string, i: nat, j: nat)
    requires i <= j <= |s|
    ensures Erase(s[i..]) == Erase(s[i..j]) + Erase(s[j..])
  {
    EraseAppend(s[i..j], s[j..]);
    assert s[i..] == s[i..j] + s[j..];
  }

  lemma EraseOne(s: string)
    ensures EraseAll([s]) == Erase(s)
  {
    assert [s][..0] == [];
    assert EraseAll([]) == "";
  }

  lemma {:induction false} StrippedErase(parts: seq<string>)
    ensures EraseAll(Stripped(parts)) == EraseAll(parts)
  {
    if parts != [] {
      var init, last := parts[..|parts| - 1], parts[|parts| - 1];
      StrippedErase(init);
      EraseStrip(last);
      if Strip(last) != "" {
        EraseOne(Strip(last));
        EraseAllAppend(Stripped(init), [Strip(last)]);
      } else {
        assert Stripped(init) + [] == Stripped(init);
      }
    }
  }

  lemma {:induction false} SlicesErase(s: string, size: nat)
    requires size > 0
    ensures EraseAll(Slices(s, size)) == Erase(s)
  {
    if s == "" {
    } else if |s| <= size {
      EraseOne(s);
    } else {
      SlicesErase(s[size..], size);
      EraseOne(s[..size]);
      EraseAllAppend([s[..size]], Slices(s[size..], size));
      EraseAppend(s[..size], s[size..]);
      assert s == s[..size] + s[size..];
    }
  }

  lemma SplitErase(separator: Separator, s: string)
    ensures EraseAll(Stripped(Stretches(separator, s, 0, 0))) == Erase(s)
  {
    StretchesErase(separator, s, 0, 0);
    StrippedErase(Stretches(separator, s, 0, 0));
    assert s[0..] == s;
  }

  /** Whichever separator is used, the parts hold the text, in order, but for whitespace. */
  lemma PartsErase(s: string, size: nat)
    requires size > 0
    ensures EraseAll(Parts(s, size)) == Erase(s)
  {
    SplitErase(BlankLine, s);
    SplitErase(LineEnd, s);
    SplitErase(SentenceEnd, s);
    SlicesErase(s, size);
  }

  // ---- Packing the parts ----

  datatype Packing = Packing(chunks: seq<string>, current: string)

  function Joined(current: string, part: string): string {
    if current != "" then Strip(current + "\n\n" + part) else part
  }

  function Flushed(p: Packing): seq<string> {
    p.chunks + if p.current != "" then [p.current] else []
  }

  function Pack(p: Packing, part: string, size: nat): Packing
    requires size > 0
  {
    if |Joined(p.current, part)| <= size then Packing(p.chunks, Joined(p.current, part))
    else if |part| <= size then Packing(Flushed(p), part)
    else Packing(Flushed(p) + Stripped(Slices(part, size)), "")
  }

  function PackAll(parts: seq<string>, size: nat): Packing
    requires size > 0
  {
    if parts == [] then Packing([], "") else Pack(PackAll(parts[..|parts| - 1], size), parts[|parts| - 1], size)
  }

  /** `_split_oversized_text` */
  function Chunks(text: string, size: nat): seq<string>
    requires size > 0
  {
    var normalized := Strip(text);
    if normalized == "" then []
    else if |normalized| <= size then [normalized]
    else Flushed(PackAll(Parts(normalized, size), size))
  }

  ghost predicate GoodChunk(chunk: string, size: nat) {
    !Blank(chunk) && |chunk| <= size
  }

  /** Parts begin with text, and either none is blank or none is oversized. */
  ghost predicate GoodParts(parts: seq<string>, size: nat) {
    && (parts != [] ==> !Blank(parts[0]))
    && ((forall k | 0 <= k < |parts| :: !Blank(parts[k])) || (forall k | 0 <= k < |parts| :: |parts[k]| <= size))
  }

  ghost predicate GoodPacking(p: Packing, parts: seq<string>, size: nat) {
    && (forall k | 0 <= k < |p.chunks| :: GoodChunk(p.chunks[k], size))
    && (p.current != "" ==> GoodChunk(p.current, size))
    && (p.current == "" ==> parts == [] || |parts[|parts| - 1]| > size)
    && EraseAll(p.chunks) + Erase(p.current) == EraseAll(parts)
  }

  lemma {:induction false} RStripSpaces(a: string, b: string)
    requires AllSpace(b)
    ensures RStrip(a + b) == RStrip(a)
  {
    if b == "" {
      assert a + b == a;
    } else {
      assert (a + b)[..|a + b| - 1] == a + b[..|b| - 1];
      RStripSpaces(a, b[..|b| - 1]);
    }
  }

  /** A blank part is absorbed by what is being packed. */
  lemma BlankAbsorbed(current: string, part: string)
    requires Blank(part) && current != ""
    ensures |Joined(current, part)| <= |current|
  {
    EraseStrip(part);
    EraseSpace(part);
    var tail := "\n\n" + part;
    assert AllSpace(tail);
    assert current + "\n\n" + part == current + tail;
    RStripSpaces(current, tail);
    RStripEnd(current);
    LStripStart(RStrip(current));
  }

  lemma JoinedErase(current: string, part: string)
    ensures Erase(Joined(current, part)) == Erase(current) + Erase(part)
  {
    if current != "" {
      EraseStrip(current + "\n\n" + part);
      EraseAppend(current + "\n\n", part);
      EraseAppend(current, "\n\n");
      EraseSpace("\n\n");
    }
  }

  lemma FlushedErase(p: Packing)
    ensures EraseAll(Flushed(p)) == EraseAll(p.chunks) + Erase(p.current)
  {
    if p.current != "" {
      EraseOne(p.current);
      EraseAllAppend(p.chunks, [p.current]);
    } else {
      assert p.chunks + [] == p.chunks;
      assert EraseAll(p.chunks) + "" == EraseAll(p.chunks);
    }
  }

  lemma BlankErase(s: string)
    ensures Blank(s) <==> Erase(s) == ""
  {
    EraseStrip(s);
  }

  lemma SlicesGood(part: string, size: nat, k: nat)
    requires size > 0 && k < |Stripped(Slices(part, size))|
    ensures GoodChunk(Stripped(Slices(part, size))[k], size)
  {
    StrippedShort(Slices(part, size), size);
    StripFixes(Stripped(Slices(part, size))[k]);
  }

  lemma {:induction false} StrippedShort(parts: seq<string>, size: nat)
    requires forall k | 0 <= k < |parts| :: |parts[k]| <= size
    ensures forall k | 0 <= k < |Stripped(parts)| :: |Stripped(parts)[k]| <= size
  {
    if parts != [] {
      StrippedShort(parts[..|parts| - 1], size);
      EraseStrip(parts[|parts| - 1]);
    }
  }

  lemma PackErase(p: Packing, part: string, size: nat)
    requires size > 0
    ensures var q := Pack(p, part, size);
            EraseAll(q.chunks) + Erase(q.current) == (EraseAll(p.chunks) + Erase(p.current)) + Erase(part)
  {
    Assoc(EraseAll(p.chunks), Erase(p.current), Erase(part));
    JoinedErase(p.current, part);
    FlushedErase(p);
    SlicesPacked(p, part, size);
  }

  lemma SlicesPacked(p: Packing, part: string, size: nat)
    requires size > 0
    ensures EraseAll(Flushed(p) + Stripped(Slices(part, size))) + Erase("") == EraseAll(Flushed(p)) + Erase(part)
  {
    SlicesErase(part, size);
    StrippedErase(Slices(part, size));
    EraseAllAppend(Flushed(p), Stripped(Slices(part, size)));
    assert Erase("") == "";
  }

  /** A chunk that is begun or extended is no longer than allowed, and not blank. */
  lemma PackGood(p: Packing, part: string, size: nat)
    requires size > 0
    requires forall k | 0 <= k < |p.chunks| :: GoodChunk(p.chunks[k], size)
    requires p.current != "" ==> GoodChunk(p.current, size)
    requires p.current == "" ==> !Blank(part)
    ensures var q := Pack(p, part, size);
            && (forall k | 0 <= k < |q.chunks| :: GoodChunk(q.chunks[k], size))
            && (q.current != "" ==> GoodChunk(q.current, size))
            && (q.current == "" ==> |part| > size)
  {
    BlankErase(part);
    BlankErase(p.current);
    if |Joined(p.current, part)| <= size {
      JoinedErase(p.current, part);
      BlankErase(Joined(p.current, part));
    } else if |part| <= size {
      if Blank(part) {
        BlankAbsorbed(p.current, part);
      }
    } else {
      forall k | 0 <= k < |Stripped(Slices(part, size))| {
        SlicesGood(part, size, k);
      }
    }
  }

  lemma {:induction false} PackAllGood(parts: seq<string>, size: nat)
    requires size > 0 && GoodParts(parts, size)
    ensures GoodPacking(PackAll(parts, size), parts, size)
  {
    if parts != [] {
      var init, last := parts[..|parts| - 1], parts[|parts| - 1];
      PackAllGood(init, size);
      PackGood(PackAll(init, size), last, size);
      PackErase(PackAll(init, size), last, size);
    }
  }

  lemma PartsGood(s: string, size: nat)
    requires size > 0 && s != "" && Trimmed(s)
    ensures GoodParts(Parts(s, size), size)
  {
    var parts := Parts(s, size);
    forall k | 0 <= k < |parts| && parts[k] != "" && Trimmed(parts[k])
      ensures !Blank(parts[k])
    {
      StripFixes(parts[k]);
    }
    if parts == Slices(s, size) {
      assert parts[0][0] == s[0];
      EraseSpace(parts[0]);
      BlankErase(parts[0]);
    }
  }

  lemma PackedGood(normalized: string, size: nat)
    requires size > 0 && normalized != "" && Trimmed(normalized)
    ensures var chunks := Flushed(PackAll(Parts(normalized, size), size));
            && (forall k | 0 <= k < |chunks| :: GoodChunk(chunks[k], size))
            && EraseAll(chunks) == Erase(normalized)
  {
    PartsGood(normalized, size);
    PartsErase(normalized, size);
    PackAllGood(Parts(normalized, size), size);
    FlushedErase(PackAll(Parts(normalized, size), size));
  }

  lemma WholeGood(normalized: string, size: nat)
    requires normalized != "" && Trimmed(normalized) && |normalized| <= size
    ensures GoodChunk(normalized, size) && EraseAll([normalized]) == Erase(normalized)
  {
    StripFixes(normalized);
    EraseOne(normalized);
  }

  /** Every chunk fits and has text, and the chunks hold the whole text in order, but for whitespace. */
  lemma ChunksGood(text: string, size: nat)
    requires size > 0
    ensures forall k | 0 <= k < |Chunks(text, size)| :: GoodChunk(Chunks(text, size)[k], size)
    ensures EraseAll(Chunks(text, size)) == Erase(text)
    ensures Chunks(text, size) == [] <==> Blank(text)
  {
    var normalized := Strip(text);
    EraseStrip(text);
    StripTrims(text);
    NoneErased();
    if normalized == "" {
    } else if |normalized| <= size {
      WholeGood(normalized, size);
    } else {
      PackedGood(normalized, size);
    }
  }

  lemma NoneErased()
    ensures EraseAll([]) == "" && Erase("") == ""
  {
  }

  /** A text that fits is one chunk, stripped; so a chunk is not split again. */
  lemma ChunkStays(text: string, size: nat)
    requires size > 0 && GoodChunk(text, size)
    ensures Chunks(text, size) == [Strip(text)]
  {
    EraseStrip(text);
  }

  // ---- The chunker as it runs ----

  method PackOne(p: Packing, part: string, size: nat) returns (q: Packing)
    requires size > 0
    ensures q == Pack(p, part, size)
  {
    var chunks, current := p.chunks, p.current;
    var candidate := Joined(current, part);
    if |candidate| <= size {
      return Packing(chunks, candidate);
    }
    if current != "" {
      chunks := chunks + [current];
      current := "";
    }
    if |part| <= size {
      return Packing(chunks, part);
    }
    return Packing(chunks + Stripped(Slices(part, size)), current);
  }

  method PackParts(parts: seq<string>, size: nat) returns (chunks: seq<string>)
    requires size > 0
    ensures chunks == Flushed(PackAll(parts, size))
  {
    var packing := Packing([], "");
    for i := 0 to |parts|
      invariant packing == PackAll(parts[..i], size)
    {
      assert parts[..i + 1][..i] == parts[..i];
      packing := PackOne(packing, parts[i], size);
    }
    assert parts[..|parts|] == parts;
    chunks := packing.chunks;
    if packing.current != "" {
      chunks := chunks + [packing.current];
    }
  }

  /** Chunks of a text: each fits and has text, and together they are the text but for whitespace. */
  method SplitOversizedText(text: string, size: nat) returns (chunks: seq<string>)
    requires size > 0
    ensures chunks == Chunks(text, size)
    ensures forall k | 0 <= k < |chunks| :: 0 < |chunks[k]| <= size && !Blank(chunks[k])
    ensures EraseAll(chunks) == Erase(text)
  {
    ChunksGood(text, size);
    forall k | 0 <= k < |Chunks(text, size)|
      ensures Chunks(text, size)[k] != ""
    {
      StripFixes("");
    }
    var normalized := Strip(text);
    if normalized == "" {
      return [];
    }
    if |normalized| <= size {
      return [normalized];
    }
    chunks := PackParts(Parts(normalized, size), size);
  }

  // ---- Records ----

  const TARGET_EMBED_CHUNK_LENGTH := 1800
  const STRATEGY := "chunk_strategy"
  const OVERLAP := "chunk_overlap_from"

  datatype Record = Record(id: string, content: string, metadata: map<string, Option<string>>)

  function PartId(id: string, k: nat): string {
    id + "-part-" + Decimal(k, 1)
  }

  function SetDefault(metadata: map<string, Option<string>>, key: string, value: Option<string>): map<string, Option<string>> {
    if key in metadata then metadata else metadata[key := value]
  }

  /** The record of the `k`-th chunk, counted from zero. */
  function ChunkRecord(r: Record, chunks: seq<string>, k: nat): Record
    requires k < |chunks|
  {
    if |chunks| > 1 then
      Record(PartId(r.id, k + 1), chunks[k],
             r.metadata[STRATEGY := Some("hard_split")][OVERLAP := if k > 0 then Some(PartId(r.id, k)) else None])
    else
      Record(r.id, chunks[k], SetDefault(SetDefault(r.metadata, STRATEGY, Some("single_section")), OVERLAP, None))
  }

  function RecordsOf(r: Record): (records: seq<Record>)
    ensures |records| == |Chunks(r.content, TARGET_EMBED_CHUNK_LENGTH)|
  {
    var chunks := Chunks(r.content, TARGET_EMBED_CHUNK_LENGTH);
    seq(|chunks|, k requires 0 <= k < |chunks| => ChunkRecord(r, chunks, k))
  }

  function Normalized(records: seq<Record>): seq<Record> {
    if records == [] then [] else Normalized(records[..|records| - 1]) + RecordsOf(records[|records| - 1])
  }

  method BuildRecord(r: Record, chunks: seq<string>, k: nat) returns (record: Record)
    requires k < |chunks|
    ensures record == ChunkRecord(r, chunks, k)
  {
    var suffix := if |chunks| > 1 then "-part-" + Decimal(k + 1, 1) else "";
    var metadata := r.metadata;
    if |chunks| > 1 {
      metadata := metadata[STRATEGY := Some("hard_split")];
      metadata := metadata[OVERLAP := if k > 0 then Some(PartId(r.id, k)) else None];
    } else {
      metadata := SetDefault(metadata, STRATEGY, Some("single_section"));
      metadata := SetDefault(metadata, OVERLAP, None);
    }
    assert r.id + "" == r.id && r.id + ("-part-" + Decimal(k + 1, 1)) == PartId(r.id, k + 1);
    record := Record(r.id + suffix, chunks[k], metadata);
  }

  method BuildRecords(r: Record, chunks: seq<string>) returns (records: seq<Record>)
    ensures records == seq(|chunks|, k requires 0 <= k < |chunks| => ChunkRecord(r, chunks, k))
  {
    records := [];
    for k := 0 to |chunks|
      invariant |records| == k && forall j | 0 <= j < k :: records[j] == ChunkRecord(r, chunks, j)
    {
      var record := BuildRecord(r, chunks, k);
      records := records + [record];
    }
  }

  method RecordWithSafeChunks(r: Record) returns (records: seq<Record>)
    ensures records == RecordsOf(r)
  {
    var chunks := SplitOversizedText(r.content, TARGET_EMBED_CHUNK_LENGTH);
    records := BuildRecords(r, chunks);
  }

  method NormalizeRecordsForEmbedding(records: seq<Record>) returns (normalized: seq<Record>)
    ensures normalized == Normalized(records)
  {
    normalized := [];
    for i := 0 to |records|
      invariant normalized == Normalized(records[..i])
    {
      assert records[..i + 1][..i] == records[..i];
      var more := RecordWithSafeChunks(records[i]);
      normalized := normalized + more;
    }
    assert records[..|records|] == records;
  }

  /** A record that came out of normalization: its content fits and has text, its chunk fields are set. */
  ghost predicate Settled(r: Record) {
    GoodChunk(r.content, TARGET_EMBED_CHUNK_LENGTH) && STRATEGY in r.metadata && OVERLAP in r.metadata
  }

  lemma RecordSettles(r: Record, k: nat)
    requires k < |RecordsOf(r)|
    ensures Settled(RecordsOf(r)[k])
  {
    ChunksGood(r.content, TARGET_EMBED_CHUNK_LENGTH);
    assert STRATEGY != OVERLAP;
  }

  lemma {:induction false} NormalizedSettles(records: seq<Record>)
    ensures forall k | 0 <= k < |Normalized(records)| :: Settled(Normalized(records)[k])
  {
    if records != [] {
      var init, last := records[..|records| - 1], records[|records| - 1];
      NormalizedSettles(init);
      forall k | 0 <= k < |RecordsOf(last)| {
        RecordSettles(last, k);
      }
    }
  }

  function Trim(r: Record): Record {
    r.(content := Strip(r.content))
  }

  lemma SettledOnce(r: Record)
    requires Settled(r)
    ensures RecordsOf(r) == [Trim(r)]
  {
    ChunkStays(r.content, TARGET_EMBED_CHUNK_LENGTH);
    assert r == Record(r.id, r.content, r.metadata);
  }

  lemma {:induction false} SettledAll(records: seq<Record>)
    requires forall k | 0 <= k < |records| :: Settled(records[k])
    ensures Normalized(records) == seq(|records|, i requires 0 <= i < |records| => Trim(records[i]))
  {
    if records != [] {
      var init, last := records[..|records| - 1], records[|records| - 1];
      SettledAll(init);
      SettledOnce(last);
      TrimStep(records);
    }
  }

  lemma TrimStep(records: seq<Record>)
    requires records != []
    ensures var n := |records| - 1;
            seq(|records|, i requires 0 <= i < |records| => Trim(records[i])) ==
            seq(n, i requires 0 <= i < n => Trim(records[..n][i])) + [Trim(records[n])]
  {
  }

  /** Normalizing again keeps the number of records, their identifiers and their metadata, and strips their
      contents. */
  lemma NormalizeAgain(records: seq<Record>)
    ensures var once := Normalized(records);
            Normalized(once) == seq(|once|, i requires 0 <= i < |once| => Trim(once[i]))
  {
    NormalizedSettles(records);
    SettledAll(Normalized(records));
  }

  /** From the second time on, normalizing changes nothing. */
  lemma NormalizeSettles(records: seq<Record>)
    ensures var twice := Normalized(Normalized(records)); Normalized(twice) == twice
  {
    var once, twice := Normalized(records), Normalized(Normalized(records));
    NormalizeAgain(records);
    NormalizeAgain(once);
    forall i | 0 <= i < |twice|
      ensures Trim(twice[i]) == twice[i]
    {
      StripTrims(once[i].content);
      StripFixes(Strip(once[i].content));
    }
  }

  function Contents(records: seq<Record>): seq<string> {
    seq(|records|, i requires 0 <= i < |records| => records[i].content)
  }

  /** The records of one text carry that text, in order, but for whitespace. */
  lemma RecordsKeepText(r: Record)
    ensures EraseAll(Contents(RecordsOf(r))) == Erase(r.content)
  {
    ChunksGood(r.content, TARGET_EMBED_CHUNK_LENGTH);
    assert Contents(RecordsOf(r)) == Chunks(r.content, TARGET_EMBED_CHUNK_LENGTH);
  }
}
