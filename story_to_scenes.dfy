/**
 * Story to scenes: the text-model call with its JSON answer normaliser, and the offline splitter
 * that cuts a story into four to eight segments when no model is configured.
 */
module StoryToScenes {
  import opened Common
  import opened Order
  import opened Text
  import opened Database
  import opened Arith

  function Min(a: int, b: int): int { if a < b then a else b }

  function Max(a: int, b: int): int { if a < b then b else a }

  // ---------- separators ----------

  /** The strong sentence boundaries `[。！？\n；;]`. */
  predicate IsStrongBreak(c: char) {
    c == '。' || c == '！' || c == '？' || c == '\n' || c == '；' || c == ';'
  }

  function StrongSepLen(t: string): nat {
    if t != [] && IsStrongBreak(t[0]) then 1 else 0
  }

  /** The soft clause boundaries `[，,、]`. */
  predicate IsSoftComma(c: char) {
    c == '，' || c == ',' || c == '、'
  }

  /** The connective words of the soft split, in the order the alternation tries them. */
  const SoftWords: seq<string> :=
    ["然后", "接着", "于是", "之后", "一会儿", "突然", "这时", "最后", "首先", "随后", "于是", "便", "就", "再", "又", "才"]

  /** Length of the first of `words` that starts `t`, or 0. */
  function FirstWordLen(t: string, words: seq<string>): (n: nat)
    ensures n > 0 ==> exists k :: 0 <= k < |words| && StartsWith(t, words[k]) && n == |words[k]|
  {
    if words == [] then 0
    else if words[0] != [] && StartsWith(t, words[0]) then |words[0]|
    else FirstWordLen(t, words[1..])
  }

  /** The soft split pattern: a comma-like mark, else one of the connective words. */
  function SoftSepLen(t: string): nat {
    if t != [] && IsSoftComma(t[0]) then 1 else FirstWordLen(t, SoftWords)
  }

  // ---------- the splitter, as a specification ----------

  /** A segment that starts with a non-blank character, so it is not blank. */
  predicate Solid(s: string) {
    s != [] && !IsSpace(s[0])
  }

  /** `.map((s) => s.trim()).filter((s) => s.length > 1)`. */
  function TrimmedPieces(pieces: seq<string>): (r: seq<string>)
    ensures forall i :: 0 <= i < |r| ==> |r[i]| > 1 && IsTrimmed(r[i])
  {
    if pieces == [] then []
    else
      var t := Trim(pieces[0]);
      var rest := TrimmedPieces(pieces[1..]);
      if |t| > 1 then [t] + rest
      else rest
  }

  /** `Math.min(8, Math.max(4, Math.ceil(length / 25)))`. */
  function TargetCount(length: nat): int {
    Min(8, Max(4, (length + 24) / 25))
  }

  /** `Math.ceil(length / targetCount)`. */
  function ChunkSize(length: nat): (r: nat)
    ensures length >= 1 ==> r >= 1
  {
    var t := TargetCount(length);
    (length + t - 1) / t
  }

  /** Where the chunk starting at `i` ends: `size` on, pushed past a comma-like mark found within 12 more. */
  function ChunkEnd(block: string, i: nat, size: nat): (e: nat)
    requires i < |block| && size >= 1
    ensures i < e <= |block|
  {
    var end := Min(i + size, |block|);
    if end < |block| then
      var k := FirstIndex(block[end..], IsSoftComma);
      if 0 <= k <= 12 then end + k + 1 else end
    else end
  }

  /** The trimmed non-empty chunks from position `i` on. */
  function Chunks(block: string, i: nat, size: nat): seq<string>
    requires i <= |block| && size >= 1
    decreases |block| - i
  {
    if i == |block| then []
    else
      var e := ChunkEnd(block, i, size);
      var c := Trim(block[i..e]);
      (if c != [] then [c] else []) + Chunks(block, e, size)
  }

  /** No chunk is blank: blank slices are dropped and the rest are trimmed. */
  lemma {:induction false} ChunksAreSolid(block: string, i: nat, size: nat)
    requires i <= |block| && size >= 1
    ensures forall k :: 0 <= k < |Chunks(block, i, size)| ==> Solid(Chunks(block, i, size)[k])
    decreases |block| - i
  {
    if i < |block| {
      var e := ChunkEnd(block, i, size);
      var c := Trim(block[i..e]);
      var rest := Chunks(block, e, size);
      ChunksAreSolid(block, e, size);
      if c != [] {
        assert !IsSpace(c[0]);
        assert Chunks(block, i, size) == [c] + rest;
      }
    }
  }

  /** The segments before normalisation: sentences, else soft pieces, else length chunks. */
  function RawSegments(trimmed: string): (r: seq<string>)
    requires trimmed != []
    ensures forall k :: 0 <= k < |r| ==> Solid(r[k])
  {
    var sentences := TrimmedPieces(SplitBy(trimmed, StrongSepLen));
    if |sentences| >= 4 then sentences
    else if |sentences| >= 1 then
      var joined := Join(sentences, "。");
      var oneBlock := if joined != [] then joined else trimmed;
      var bySoft := TrimmedPieces(SplitBy(oneBlock, SoftSepLen));
      if |bySoft| >= 4 then bySoft
      else
        ChunksAreSolid(oneBlock, 0, ChunkSize(|oneBlock|));
        Chunks(oneBlock, 0, ChunkSize(|oneBlock|))
    else []
  }

  /** `Math.floor(i * (n / want))`; `n / want` is exact in floating point because `want` is 8 whenever it is used. */
  function GroupStart(i: nat, n: nat, want: nat): nat
    requires want >= 1
  {
    i * n / want
  }

  function GroupEnd(i: nat, n: nat, want: nat): nat
    requires want >= 1
  {
    if i == want - 1 then n else (i + 1) * n / want
  }

  lemma GroupBounds(i: nat, n: nat, want: nat)
    requires want >= 1 && i < want
    ensures GroupStart(i, n, want) <= GroupEnd(i, n, want) <= n
  {
    MulMonotone(n, i, i + 1);
    MulMonotone(n, i + 1, want);
    DivMonotone(i * n, (i + 1) * n, want);
    DivMonotone((i + 1) * n, want * n, want);
    MulDivCancel(want, n);
  }

  /** With more segments than groups, every group holds at least one segment. */
  lemma GroupNonEmpty(i: nat, n: nat, want: nat)
    requires want >= 1 && i < want && n > want
    ensures GroupStart(i, n, want) < GroupEnd(i, n, want)
  {
    if i == want - 1 {
      assert i * n <= want * (n - 1) by {
        assert i * n == want * n - n;
        assert want * (n - 1) == want * n - want;
      }
      DivMonotone(i * n, want * (n - 1), want);
      MulDivCancel(want, n - 1);
    } else {
      MulMonotone(n, i + 1, want);
      assert (i + 1) * n == i * n + n;
      DivMonotone(i * n + want, (i + 1) * n, want);
      DivAddDivisor(i * n, want);
    }
  }

  /** The i-th merged group: its segments joined with "，" and trimmed, else the group's first segment, else "". */
  function Group(segs: seq<string>, want: nat, i: nat): string
    requires want >= 1 && i < want
  {
    var start := GroupStart(i, |segs|, want);
    var end := GroupEnd(i, |segs|, want);
    GroupBounds(i, |segs|, want);
    var part := Trim(Join(segs[start..end], "，"));
    var fallback := if start < |segs| then segs[start] else "";
    if part != [] then part else if fallback != [] then fallback else ""
  }

  function Merged(segs: seq<string>, want: nat): (r: seq<string>)
    requires want >= 1
    ensures |r| == want
  {
    seq(want, i requires 0 <= i < want => Group(segs, want, i))
  }

  const Suffixes: seq<string> := ["开场与环境", "角色与动作", "发展与转折", "收尾"]

  function Framed(combined: string, suffix: string): string {
    "画面：" + combined + "（" + suffix + "）"
  }

  /** The four template scenes built from the combined text, in the fixed suffix order. */
  function Template(combined: string): (r: seq<string>)
    ensures |r| == 4 && forall k :: 0 <= k < 4 ==> r[k] == Framed(combined, Suffixes[k])
  {
    seq(4, k requires 0 <= k < 4 => Framed(combined, Suffixes[k]))
  }

  function Want(n: nat): int {
    Min(8, Max(4, n))
  }

  function NonEmpty(s: seq<string>): seq<string> {
    Filter(s, (x: string) => x != [])
  }

  function FirstEight(s: seq<string>): (r: seq<string>)
    ensures |r| == Min(8, |s|) && r == s[..|r|]
  {
    if |s| <= 8 then s else s[..8]
  }

  /** Too many segments are merged into `want` groups; too few become the four-scene template. */
  function Normalize(segs: seq<string>, trimmed: string): seq<string> {
    var want := Want(|segs|);
    if |segs| > want then NonEmpty(Merged(segs, want))
    else if |segs| < 4 then
      var joined := Join(segs, "，");
      Template(if joined != [] then joined else Take(trimmed, 80))
    else segs
  }

  /** What the splitter returns for a story. */
  function Segments(text: string): seq<string> {
    var trimmed := Take(Trim(text), 1200);
    if trimmed == [] then ["故事内容"]
    else
      Finish(trimmed, RawSegments(trimmed))
  }

  /** Steps 3 and 4 on the raw segments: the 80-character fallback, normalisation, at most eight. */
  function Finish(trimmed: string, raw: seq<string>): seq<string> {
    var segs := if raw == [] then [Take(trimmed, 80)] else raw;
    FirstEight(Normalize(segs, trimmed))
  }

  // ---------- the splitter, as the source runs it ----------

  /** One turn of the chunking loop keeps "chunks so far, then the chunks still to come" equal to all chunks. */
  lemma ChunkStep(block: string, size: nat, done: seq<string>, i: nat, all: seq<string>)
    requires i < |block| && size >= 1
    requires done + Chunks(block, i, size) == all
    ensures var e := ChunkEnd(block, i, size); var c := Trim(block[i..e]);
      (if c != [] then done + [c] else done) + Chunks(block, e, size) == all
  {
    var e := ChunkEnd(block, i, size);
    var c := Trim(block[i..e]);
    var rest := Chunks(block, e, size);
    if c != [] {
      assert Chunks(block, i, size) == [c] + rest;
      assert done + ([c] + rest) == (done + [c]) + rest;
    } else {
      assert Chunks(block, i, size) == rest;
    }
  }

  /** Where the chunk at `i` ends, as the loop computes it. */
  method ChunkEndAt(oneBlock: string, i: nat, chunkSize: nat) returns (end: nat)
    requires i < |oneBlock| && chunkSize >= 1
    ensures end == ChunkEnd(oneBlock, i, chunkSize)
  {
    end := Min(i + chunkSize, |oneBlock|);
    if end < |oneBlock| {
      var rest := oneBlock[end..];
      var nextComma := FirstIndex(rest, IsSoftComma);
      if nextComma >= 0 && nextComma <= 12 {
        end := end + nextComma + 1;
      }
    }
  }

  /** Step 3 of the splitter: cut the block into chunks of about `ChunkSize`, preferring to end just after a comma. */
  method ChunkByLength(oneBlock: string, chunkSize: nat) returns (segments: seq<string>)
    requires chunkSize >= 1
    ensures segments == Chunks(oneBlock, 0, chunkSize)
  {
    segments := [];
    var i := 0;
    while i < |oneBlock|
      invariant 0 <= i <= |oneBlock|
      invariant segments + Chunks(oneBlock, i, chunkSize) == Chunks(oneBlock, 0, chunkSize)
      decreases |oneBlock| - i
    {
      var end := ChunkEndAt(oneBlock, i, chunkSize);
      var chunk := Trim(oneBlock[i..end]);
      ChunkStep(oneBlock, chunkSize, segments, i, Chunks(oneBlock, 0, chunkSize));
      if chunk != [] {
        segments := segments + [chunk];
      }
      i := end;
    }
  }

  /** Step 4, too many segments: merge them into `want` groups joined with "，". */
  method MergeGroups(segments: seq<string>, want: nat) returns (merged: seq<string>)
    requires want >= 1
    ensures merged == Merged(segments, want)
  {
    merged := [];
    for i := 0 to want
      invariant |merged| == i
      invariant forall k :: 0 <= k < i ==> merged[k] == Group(segments, want, k)
    {
      var start := GroupStart(i, |segments|, want);
      var end := GroupEnd(i, |segments|, want);
      GroupBounds(i, |segments|, want);
      var part := Trim(Join(segments[start..end], "，"));
      var fallback := if start < |segments| then segments[start] else "";
      var group := if part != [] then part else if fallback != [] then fallback else "";
      assert group == Group(segments, want, i);
      merged := merged + [group];
    }
  }

  /** Steps 1 and 2: sentences, else soft pieces of the sentences joined back, else length chunks. */
  method SplitRaw(trimmed: string) returns (segments: seq<string>)
    requires trimmed != []
    ensures segments == RawSegments(trimmed)
  {
    var sentences := TrimmedPieces(SplitBy(trimmed, StrongSepLen));
    segments := [];
    if |sentences| >= 4 {
      segments := sentences;
    } else if |sentences| >= 1 {
      var oneBlock := Join(sentences, "。");
      if oneBlock == [] {
        oneBlock := trimmed;
      }
      var bySoft := TrimmedPieces(SplitBy(oneBlock, SoftSepLen));
      if |bySoft| >= 4 {
        segments := bySoft;
      } else {
        segments := ChunkByLength(oneBlock, ChunkSize(|oneBlock|));
      }
    }
  }

  method SplitParagraphToSegments(text: string) returns (segments: seq<string>)
    ensures segments == Segments(text)
    ensures AllSpace(text) ==> segments == ["故事内容"]
    ensures !AllSpace(text) ==> 4 <= |segments| <= 8
  {
    SegmentCount(text);
    var trimmed := Take(Trim(text), 1200);
    if trimmed == [] {
      return ["故事内容"];
    }
    segments := SplitRaw(trimmed);
    if |segments| == 0 {
      segments := [Take(trimmed, 80)];
    }
    var want := Want(|segments|);
    if |segments| > want {
      var merged := MergeGroups(segments, want);
      segments := NonEmpty(merged);
    } else if |segments| < 4 {
      var combined := Join(segments, "，");
      if combined == [] {
        combined := Take(trimmed, 80);
      }
      segments := Template(combined);
    }
    segments := FirstEight(segments);
  }

  // ---------- what the splitter promises ----------

  /** With more than `want` segments every group is non-empty, so merging yields exactly `want` groups. */
  lemma GroupsAreNonEmpty(segs: seq<string>, want: nat, i: nat)
    requires want >= 1 && i < want && |segs| > want
    requires forall k :: 0 <= k < |segs| ==> Solid(segs[k])
    ensures GroupStart(i, |segs|, want) < GroupEnd(i, |segs|, want) <= |segs|
    ensures Group(segs, want, i) == Trim(Join(segs[GroupStart(i, |segs|, want)..GroupEnd(i, |segs|, want)], "，"))
    ensures Group(segs, want, i) != []
  {
    var start := GroupStart(i, |segs|, want);
    var end := GroupEnd(i, |segs|, want);
    GroupBounds(i, |segs|, want);
    GroupNonEmpty(i, |segs|, want);
    var part := segs[start..end];
    assert !IsSpace(part[0][0]);
    JoinNotAllSpace(part, "，", 0);
    assert Trim(Join(part, "，")) != [];
  }

  lemma MergedSize(segs: seq<string>, want: nat)
    requires want >= 1 && |segs| > want
    requires forall k :: 0 <= k < |segs| ==> Solid(segs[k])
    ensures NonEmpty(Merged(segs, want)) == Merged(segs, want)
  {
    var m := Merged(segs, want);
    forall i | 0 <= i < want ensures m[i] != [] {
      GroupsAreNonEmpty(segs, want, i);
    }
    FilterAll(m, (x: string) => x != []);
  }

  /** A blank story gives the single placeholder; any other story gives between four and eight segments. */
  lemma SegmentCount(text: string)
    ensures AllSpace(text) ==> Segments(text) == ["故事内容"]
    ensures !AllSpace(text) ==> 4 <= |Segments(text)| <= 8
  {
    if AllSpace(text) {
      assert Take(Trim(text), 1200) == [];
    } else {
      SolidStoryCount(text);
    }
  }

  lemma SolidStoryCount(text: string)
    requires !AllSpace(text)
    ensures 4 <= |Segments(text)| <= 8
  {
    var trimmed := Take(Trim(text), 1200);
    assert trimmed != [] && !IsSpace(trimmed[0]);
    FinishSize(trimmed, RawSegments(trimmed));
  }

  lemma FinishSize(trimmed: string, raw: seq<string>)
    requires trimmed != [] && !IsSpace(trimmed[0])
    requires forall k :: 0 <= k < |raw| ==> Solid(raw[k])
    ensures 4 <= |Finish(trimmed, raw)| <= 8
  {
    assert Solid(Take(trimmed, 80));
    var segs := if raw == [] then [Take(trimmed, 80)] else raw;
    NormalizeSize(segs, trimmed);
  }

  /** Normalising solid segments leaves at least four. */
  lemma NormalizeSize(segs: seq<string>, trimmed: string)
    requires segs != [] && forall k :: 0 <= k < |segs| ==> Solid(segs[k])
    ensures 4 <= |Normalize(segs, trimmed)|
  {
    var want := Want(|segs|);
    if |segs| > want {
      MergedSize(segs, want);
    }
  }

  /** With fewer than four raw segments the result is the four template scenes, suffixes in order. */
  lemma FewSegmentsUseTemplate(trimmed: string, raw: seq<string>)
    requires trimmed != [] && !IsSpace(trimmed[0])
    requires |raw| < 4 && forall k :: 0 <= k < |raw| ==> Solid(raw[k])
    ensures var segs := if raw == [] then [Take(trimmed, 80)] else raw;
      var r := Finish(trimmed, raw);
      |r| == 4 && forall k :: 0 <= k < 4 ==> r[k] == Framed(Join(segs, "，"), Suffixes[k])
  {
    var segs := if raw == [] then [Take(trimmed, 80)] else raw;
    assert !IsSpace(segs[0][0]);
    JoinNotAllSpace(segs, "，", 0);
    assert Normalize(segs, trimmed) == Template(Join(segs, "，"));
  }

  /**
   * With more than eight raw segments the result is eight groups that tile them in order: the
   * first starts at segment 0, each starts where the previous ended, the last ends at the end.
   */
  lemma ManySegmentsMerge(trimmed: string, raw: seq<string>)
    requires |raw| > 8 && forall k :: 0 <= k < |raw| ==> Solid(raw[k])
    ensures var n := |raw|;
      var r := Finish(trimmed, raw);
      && |r| == 8
      && GroupStart(0, n, 8) == 0 && GroupEnd(7, n, 8) == n
      && (forall i :: 0 <= i < 7 ==> GroupEnd(i, n, 8) == GroupStart(i + 1, n, 8))
      && (forall i :: 0 <= i < 8 ==>
            (GroupStart(i, n, 8) < GroupEnd(i, n, 8) <= n
             && r[i] == Trim(Join(raw[GroupStart(i, n, 8)..GroupEnd(i, n, 8)], "，"))))
  {
    assert Want(|raw|) == 8;
    MergedSize(raw, 8);
    assert Finish(trimmed, raw) == Merged(raw, 8);
    forall i | 0 <= i < 8
      ensures GroupStart(i, |raw|, 8) < GroupEnd(i, |raw|, 8) <= |raw|
      ensures Merged(raw, 8)[i] == Trim(Join(raw[GroupStart(i, |raw|, 8)..GroupEnd(i, |raw|, 8)], "，"))
    {
      GroupsAreNonEmpty(raw, 8, i);
    }
  }

  // ---------- mock scenes ----------

  /** Every description is framed as a shot; short ones also get the "，镜头表现" tail. */
  function MockDescription(desc: string): (r: string)
    ensures StartsWith(r, "画面：") && |r| >= 3 + |desc| && r[3..3 + |desc|] == desc
    ensures |desc| <= 8 <==> r == "画面：" + desc + "，镜头表现"
  {
    if |desc| > 8 then "画面：" + desc else "画面：" + desc + "，镜头表现"
  }

  /** One scene per segment, numbered consecutively from 1. */
  function MockScenes(segs: seq<string>): (r: seq<SceneInput>)
    ensures |r| == |segs|
    ensures forall i :: 0 <= i < |r| ==> r[i].orderIndex == i + 1 && r[i].description == MockDescription(segs[i])
  {
    seq(|segs|, i requires 0 <= i < |segs| => SceneInput(i + 1, MockDescription(segs[i])))
  }

  function MockStoryToScenes(story: string): (r: seq<SceneInput>)
    ensures r == MockScenes(Segments(story))
    ensures !AllSpace(story) ==> 4 <= |r| <= 8
  {
    SegmentCount(story);
    MockScenes(Segments(story))
  }

  // ---------- the model's JSON answer ----------

  /** A parsed JSON value; numbers are integers. */
  datatype Json =
    | JNull
    | JBool(b: bool)
    | JNum(n: int)
    | JStr(s: string)
    | JArr(items: seq<Json>)
    | JObj(fields: seq<Field>)

  datatype Field = Field(key: string, value: Json)

  /** The value of a key; with duplicate keys `JSON.parse` keeps the last. */
  function Lookup(fields: seq<Field>, key: string): Option<Json> {
    if fields == [] then None
    else if fields[|fields| - 1].key == key then Some(fields[|fields| - 1].value)
    else Lookup(fields[..|fields| - 1], key)
  }

  /**
   * `v.key`: reading a property of `null` throws a `TypeError`, whose `message` (the engine's
   * wording, without the `TypeError: ` name) is what the routes report; a non-object has none of
   * the keys used here.
   */
  function Property(v: Json, key: string): Result<Option<Json>, string> {
    match v
    case JNull => Err("Cannot read properties of null (reading '" + key + "')")
    case JObj(fields) => Ok(Lookup(fields, key))
    case _ => Ok(None)
  }

  /** JavaScript truthiness. */
  predicate Truthy(v: Option<Json>) {
    match v
    case None => false
    case Some(JNull) => false
    case Some(JBool(b)) => b
    case Some(JNum(n)) => n != 0
    case Some(JStr(s)) => s != []
    case Some(_) => true
  }

  /** `String(v)`. */
  function StringOf(v: Json): string
    decreases v, 1
  {
    match v
    case JNull => "null"
    case JBool(b) => if b then "true" else "false"
    case JNum(n) => IntToString(n)
    case JStr(s) => s
    case JArr(items) => JoinItems(v, items)
    case JObj(_) => "[object Object]"
  }

  /** `Array.prototype.join(",")`: `null` elements become empty strings. */
  function JoinItems(whole: Json, items: seq<Json>): string
    requires forall i :: 0 <= i < |items| ==> items[i] < whole
    decreases whole, 0, |items|
  {
    if items == [] then ""
    else
      var head := if items[0].JNull? then "" else StringOf(items[0]);
      if |items| == 1 then head else head + "," + JoinItems(whole, items[1..])
  }

  predicate IsDigit(c: char) { '0' <= c <= '9' }

  function DigitsValue(s: string): nat
    requires forall i :: 0 <= i < |s| ==> IsDigit(s[i])
  {
    if s == [] then 0
    else
      assert IsDigit(s[|s| - 1]);
      10 * DigitsValue(s[..|s| - 1]) + (s[|s| - 1] as int - '0' as int)
  }

  predicate AllDigits(s: string) {
    s != [] && forall i :: 0 <= i < |s| ==> IsDigit(s[i])
  }

  /**
   * `Number(s)` for a string, on the forms modelled: blank is 0 and an optionally signed decimal
   * integer is its value. Every other string reads as NaN here, including the hexadecimal, exponent,
   * fractional and `Infinity` forms that `Number` accepts.
   */
  function NumberOfString(s: string): Option<int> {
    var t := Trim(s);
    if t == [] then Some(0)
    else if AllDigits(t) then Some(DigitsValue(t))
    else if t[0] == '+' && AllDigits(t[1..]) then Some(DigitsValue(t[1..]))
    else if t[0] == '-' && AllDigits(t[1..]) then Some(0 - DigitsValue(t[1..]) as int)
    else None
  }

  /** `Number(v) || 0`: NaN and 0 both give 0. */
  function NumberOr0(v: Option<Json>): int {
    match v
    case None => 0
    case Some(JNull) => 0
    case Some(JBool(b)) => if b then 1 else 0
    case Some(JNum(n)) => n
    case Some(j) => NumberOfString(StringOf(j)).GetOr(0)
  }

  /** `String(v || "").trim() || "场景描述"`. */
  function DescriptionOf(v: Option<Json>): (r: string)
    ensures r != [] && IsTrimmed(r)
  {
    var t := if Truthy(v) then Trim(StringOf(v.value)) else "";
    if t != [] then t else "场景描述"
  }

  function SceneItemOf(v: Json): Result<SceneInput, string> {
    match Property(v, "order_index")
    case Err(e) => Err(e)
    case Ok(order) =>
      match Property(v, "description")
      case Err(e) => Err(e)
      case Ok(desc) => Ok(SceneInput(NumberOr0(order), DescriptionOf(desc)))
  }

  /** `scenes.map(...)`: the first element that throws ends the mapping. */
  function SceneItems(items: seq<Json>): (r: Result<seq<SceneInput>, string>)
    ensures r.Ok? ==> |r.value| == |items|
    ensures r.Ok? ==> forall i :: 0 <= i < |items| ==> Ok(r.value[i]) == SceneItemOf(items[i])
    ensures r.Err? <==> exists i :: 0 <= i < |items| && items[i].JNull?
  {
    if items == [] then Ok([])
    else
      match SceneItemOf(items[0])
      case Err(e) => Err(e)
      case Ok(head) =>
        match SceneItems(items[1..])
        case Err(e) => Err(e)
        case Ok(tail) =>
          assert forall i :: 1 <= i < |items| ==> items[i] == items[1..][i - 1];
          Ok([head] + tail)
  }

  function LastIndexOf(s: string, c: char): (k: int)
    ensures -1 <= k < |s|
    ensures k >= 0 ==> s[k] == c && forall i :: k < i < |s| ==> s[i] != c
    ensures k == -1 ==> forall i :: 0 <= i < |s| ==> s[i] != c
  {
    if s == [] then -1
    else if s[|s| - 1] == c then |s| - 1
    else LastIndexOf(s[..|s| - 1], c)
  }

  predicate IsOpenBrace(c: char) { c == '{' }

  /** The match of `/\{[\s\S]*\}/`: from the first `{` to the last `}` after it. */
  function BraceBlock(text: string): (r: Option<string>)
    ensures r.None? <==> !exists i, j :: 0 <= i < j < |text| && text[i] == '{' && text[j] == '}'
    ensures r.Some? ==> |r.value| >= 2 && r.value[0] == '{' && r.value[|r.value| - 1] == '}'
  {
    var p := FirstIndex(text, IsOpenBrace);
    var q := LastIndexOf(text, '}');
    if p >= 0 && q > p then Some(text[p..q + 1]) else None
  }

  /**
   * The normaliser: no `{...}` block or a `scenes` that is not an array fails with its message;
   * otherwise each element gives an order index (0 when missing, non-numeric or zero) and a
   * trimmed, never empty description.
   */
  function ParseScenesJson(text: string, parse: string -> Result<Json, string>): (r: Result<seq<SceneInput>, string>)
    ensures BraceBlock(text).None? ==> r == Err("未找到 JSON")
    ensures r.Ok? ==> forall i :: 0 <= i < |r.value| ==> r.value[i].description != [] && IsTrimmed(r.value[i].description)
  {
    match BraceBlock(text)
    case None => Err("未找到 JSON")
    case Some(block) =>
      match parse(block)
      case Err(e) => Err(e)
      case Ok(obj) =>
        match Property(obj, "scenes")
        case Err(e) => Err(e)
        case Ok(scenes) =>
          if scenes.None? || !scenes.value.JArr? then Err("scenes 必须是数组")
          else SceneItems(scenes.value.items)
  }

  predicate AllObjects(items: seq<Json>) {
    forall i :: 0 <= i < |items| ==> items[i].JObj?
  }

  /** A parsed object whose `scenes` is not an array is rejected; one whose `scenes` is an array of objects is accepted element for element. */
  lemma ParseScenesJsonOutcome(text: string, parse: string -> Result<Json, string>, fields: seq<Field>)
    requires BraceBlock(text).Some? && parse(BraceBlock(text).value) == Ok(JObj(fields))
    ensures Lookup(fields, "scenes").None? || !Lookup(fields, "scenes").value.JArr? ==>
      ParseScenesJson(text, parse) == Err("scenes 必须是数组")
    ensures Lookup(fields, "scenes").Some? && Lookup(fields, "scenes").value.JArr? ==>
      var items := Lookup(fields, "scenes").value.items;
      AllObjects(items) ==>
        && ParseScenesJson(text, parse).Ok?
        && |ParseScenesJson(text, parse).value| == |items|
        && forall i :: 0 <= i < |items| ==>
             ParseScenesJson(text, parse).value[i]
               == SceneInput(NumberOr0(Lookup(items[i].fields, "order_index")),
                             DescriptionOf(Lookup(items[i].fields, "description")))
  {
    var scenes := Lookup(fields, "scenes");
    if scenes.Some? && scenes.value.JArr? {
      var items := scenes.value.items;
      if AllObjects(items) {
        assert Property(JObj(fields), "scenes") == Ok(scenes);
        assert ParseScenesJson(text, parse) == SceneItems(items);
        assert !exists i :: 0 <= i < |items| && items[i].JNull?;
        assert SceneItems(items).Ok?;
        forall i | 0 <= i < |items|
          ensures SceneItemOf(items[i])
            == Ok(SceneInput(NumberOr0(Lookup(items[i].fields, "order_index")), DescriptionOf(Lookup(items[i].fields, "description"))))
        {
          assert Property(items[i], "order_index") == Ok(Lookup(items[i].fields, "order_index"));
        }
      }
    }
  }

  // ---------- the dispatch ----------

  /** The text model's reply to one chat-completions request. */
  datatype ChatReply =
    | Threw(message: string)
    | Failed(status: int, body: string)
    | Answered(content: Option<string>)

  /** The user message: the fixed instruction, the story, and the style line when a style is given. */
  function UserContent(story: string, style: Option<string>): string {
    "请根据下面这段故事，**先按情节/动作/场景变化合理拆成 4～8 个镜头**，再为每个镜头写一句具体的、可画面化的场景描述（若故事是一整段话，务必拆成多镜，不要只出一镜）："
    + "\n\n故事：\n" + story + "\n"
    + (if style.Some? && style.value != [] then "\n整体风格：" + style.value else "")
  }

  /**
   * Without an API key the mock split; otherwise one request whose reply `ask` gives: a thrown
   * error or a failed status is an error, an empty answer is an error, and an answer is normalised.
   */
  function StoryToScenes(story: string, style: Option<string>, hasKey: bool,
                         ask: string -> ChatReply, parse: string -> Result<Json, string>)
    : (r: Result<seq<SceneInput>, string>)
    ensures !hasKey ==> r == Ok(MockStoryToScenes(story))
    ensures hasKey ==>
      var reply := ask(UserContent(story, style));
      && (reply.Threw? ==> r == Err(reply.message))
      && (reply.Failed? ==> r == Err("AI 调用失败: " + IntToString(reply.status) + " " + reply.body))
      && (reply.Answered? && (reply.content.None? || reply.content.value == []) ==> r == Err("AI 未返回内容"))
      && (reply.Answered? && reply.content.Some? && reply.content.value != [] ==>
            r == ParseScenesJson(reply.content.value, parse))
  {
    if !hasKey then Ok(MockStoryToScenes(story))
    else
      match ask(UserContent(story, style))
      case Threw(message) => Err(message)
      case Failed(status, body) => Err("AI 调用失败: " + IntToString(status) + " " + body)
      case Answered(content) =>
        if content.None? || content.value == [] then Err("AI 未返回内容")
        else ParseScenesJson(content.value, parse)
  }

  /** With a key, scenes come only from the model's answer, and every description is non-empty and trimmed. */
  lemma AnsweredScenesAreDescribed(story: string, style: Option<string>, ask: string -> ChatReply,
                                   parse: string -> Result<Json, string>)
    ensures var r := StoryToScenes(story, style, true, ask, parse);
      r.Ok? ==>
        && ask(UserContent(story, style)).Answered?
        && forall i :: 0 <= i < |r.value| ==> r.value[i].description != [] && IsTrimmed(r.value[i].description)
  {
  }

  /** Without a key the model is never consulted: any two oracles give the same scenes. */
  lemma NoKeyNoCall(story: string, style: Option<string>, ask1: string -> ChatReply, ask2: string -> ChatReply,
                    parse: string -> Result<Json, string>)
    ensures StoryToScenes(story, style, false, ask1, parse) == StoryToScenes(story, style, false, ask2, parse)
  {
  }
}
