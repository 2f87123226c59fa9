/** The document chunker: paragraphs packed up to a byte limit, each chunk with the byte range it came from. */
module Chunker {

  newtype Byte = x: int | 0 <= x < 256

  type Text = seq<Byte>

  const MAX_CHUNK_BYTES := 1200

  const NEWLINE: Byte := 10

  // ----- strings.TrimSpace

  predicate IsWideSpace(x: Byte, y: Byte, z: Byte) {
    (x == 0xE1 && y == 0x9A && z == 0x80)                                              // U+1680
    || (x == 0xE2 && y == 0x80 && (0x80 <= z <= 0x8A || z == 0xA8 || z == 0xA9 || z == 0xAF)) // U+2000-200A, 2028, 2029, 202F
    || (x == 0xE2 && y == 0x81 && z == 0x9F)                                           // U+205F
    || (x == 0xE3 && y == 0x80 && z == 0x80)                                           // U+3000
  }

  /** How many bytes at i encode one white-space character in UTF-8; 0 when none does. */
  function SpaceAt(s: Text, i: nat): (n: nat)
    ensures n <= 3 && (n > 0 ==> i + n <= |s|)
  {
    if i < |s| && (s[i] == 32 || 9 <= s[i] <= 13) then 1
    else if i + 2 <= |s| && s[i] == 0xC2 && (s[i + 1] == 0x85 || s[i + 1] == 0xA0) then 2
    else if i + 3 <= |s| && IsWideSpace(s[i], s[i + 1], s[i + 2]) then 3
    else 0
  }

  /** The same for the character that ends s. */
  function SpaceAtEnd(s: Text): (n: nat)
    ensures n <= 3 && n <= |s| && (n > 0 ==> SpaceAt(s, |s| - n) == n)
  {
    if |s| >= 1 && SpaceAt(s, |s| - 1) == 1 then 1
    else if |s| >= 2 && SpaceAt(s, |s| - 2) == 2 then 2
    else if |s| >= 3 && SpaceAt(s, |s| - 3) == 3 then 3
    else 0
  }

  /** Some white-space character ends where s does. */
  predicate EndsInSpace(s: Text) {
    exists k :: 0 <= k < |s| && k + SpaceAt(s, k) == |s|
  }

  lemma SpaceAtEndIff(s: Text)
    ensures SpaceAtEnd(s) > 0 <==> EndsInSpace(s)
  {
    if EndsInSpace(s) {
      var k :| 0 <= k < |s| && k + SpaceAt(s, k) == |s|;
    }
    if SpaceAtEnd(s) > 0 {
      var k := |s| - SpaceAtEnd(s);
      assert k + SpaceAt(s, k) == |s|;
    }
  }

  /** White-space characters and nothing else. */
  predicate Blank(s: Text) {
    s == [] || (SpaceAt(s, 0) > 0 && Blank(s[SpaceAt(s, 0)..]))
  }

  function TrimLeft(s: Text): Text {
    if SpaceAt(s, 0) > 0 then TrimLeft(s[SpaceAt(s, 0)..]) else s
  }

  function TrimRight(s: Text): Text {
    if SpaceAtEnd(s) > 0 then TrimRight(s[..|s| - SpaceAtEnd(s)]) else s
  }

  function Trim(s: Text): Text {
    TrimRight(TrimLeft(s))
  }

  /** Byte i belongs to an encoded white-space character. */
  predicate InSpace(s: Text, i: nat) {
    exists p :: 0 <= p <= i && i < p + SpaceAt(s, p)
  }

  // ----- strings.SplitAfter(content, "\n\n")

  predicate BreakAt(s: Text, i: nat) {
    i + 2 <= |s| && s[i] == NEWLINE && s[i + 1] == NEWLINE
  }

  /** Where the first blank-line separator at or after i ends, or the end of the text. */
  function BreakEnd(s: Text, i: nat): (e: nat)
    requires i <= |s|
    ensures i <= e <= |s|
    ensures e < |s| ==> i + 2 <= e && BreakAt(s, e - 2)
    ensures forall j | i <= j < e - 2 :: !BreakAt(s, j)
    ensures (exists j :: i <= j && BreakAt(s, j)) <==> i + 2 <= e && BreakAt(s, e - 2)
    decreases |s| - i
  {
    if i + 2 > |s| then |s|
    else if BreakAt(s, i) then i + 2
    else BreakEnd(s, i + 1)
  }

  /** The positions that separate the pieces of s from `at` on: text that ends with a separator leaves an empty
      last piece. */
  function Cuts(s: Text, at: nat): (cuts: seq<nat>)
    requires at <= |s|
    ensures |cuts| >= 2 && cuts[0] == at && cuts[|cuts| - 1] == |s|
    decreases |s| - at
  {
    var e := BreakEnd(s, at);
    if at + 2 <= e && BreakAt(s, e - 2) then [at] + Cuts(s, e) else [at, |s|]
  }

  /** Pieces tile the text; all but the last end with their separator, and none has one inside. */
  lemma {:induction false} CutsTile(s: Text, at: nat, k: nat)
    requires at <= |s| && k + 1 < |Cuts(s, at)|
    ensures var cuts := Cuts(s, at);
            && at <= cuts[k] <= cuts[k + 1] <= |s|
            && (k + 2 < |cuts| ==> cuts[k] + 2 <= cuts[k + 1] && BreakAt(s, cuts[k + 1] - 2))
            && forall j: nat | cuts[k] <= j && j + 2 < cuts[k + 1] :: !BreakAt(s, j)
    decreases |s| - at
  {
    var e := BreakEnd(s, at);
    if at + 2 <= e && BreakAt(s, e - 2) && k > 0 {
      CutsTile(s, e, k - 1);
    }
  }

  function SplitAfter(s: Text): seq<Text> {
    var cuts := Cuts(s, 0);
    seq(|cuts| - 1, k requires 0 <= k < |cuts| - 1 =>
      CutsTile(s, 0, k);
      s[cuts[k]..cuts[k + 1]])
  }

  // ----- chunks

  datatype Chunk = Chunk(sourcePath: string, index: nat, start: nat, end: nat, content: Text)

  /** start..end is one whole piece. */
  predicate IsPiece(cuts: seq<nat>, start: nat, end: nat) {
    exists k :: 0 <= k < |cuts| - 1 && cuts[k] == start && cuts[k + 1] == end
  }

  /** The piece that starts at `end` would have taken start..end over the limit. */
  predicate NextDoesNotFit(cuts: seq<nat>, start: nat, end: nat) {
    exists k :: 0 <= k < |cuts| - 1 && cuts[k] == end && cuts[k + 1] - start > MAX_CHUNK_BYTES
  }

  predicate Covered(chunks: seq<Chunk>, i: nat) {
    exists c :: c in chunks && c.start <= i < c.end
  }

  /** What one chunk records: a non-blank run of whole pieces, trimmed, either within the limit or a single
      piece, and as long as the next piece allowed. */
  predicate GoodChunk(content: Text, cuts: seq<nat>, path: string, c: Chunk) {
    && c.start < c.end <= |content|
    && c.sourcePath == path && c.content == Trim(content[c.start..c.end]) && c.content != []
    && c.start in cuts && c.end in cuts
    && (c.end - c.start > MAX_CHUNK_BYTES ==> IsPiece(cuts, c.start, c.end))
    && (c.end == |content| || NextDoesNotFit(cuts, c.start, c.end))
  }

  /** The chunks of the first `upto` bytes: good, numbered, in order, disjoint, and missing only white space. */
  ghost predicate GoodChunks(content: Text, cuts: seq<nat>, path: string, chunks: seq<Chunk>, upto: nat)
    requires upto <= |content|
  {
    && (forall i | 0 <= i < |chunks| :: GoodChunk(content, cuts, path, chunks[i]) && chunks[i].index == i)
    && (forall i, j | 0 <= i < j < |chunks| :: chunks[i].end <= chunks[j].start)
    && (forall i | 0 <= i < |chunks| :: chunks[i].end <= upto)
    && (forall i | 0 <= i < upto && !Covered(chunks, i) :: InSpace(content, i))
  }

  /** What is encoded at a place depends on the bytes there alone. */
  lemma SpaceInside(s: Text, a: nat, b: nat, i: nat)
    requires a <= b <= |s| && SpaceAt(s[a..b], i) > 0
    ensures SpaceAt(s, a + i) == SpaceAt(s[a..b], i)
  {
  }

  lemma {:induction false} BlankThenSpace(x: Text, r: Text)
    requires Blank(x) && r != [] && SpaceAt(r, 0) == |r|
    ensures Blank(x + r)
    decreases |x|
  {
    if x == [] {
      assert x + r == r && r[|r|..] == [];
    } else {
      var n := SpaceAt(x, 0);
      assert SpaceAt(x + r, 0) == n;
      assert (x + r)[n..] == x[n..] + r;
      BlankThenSpace(x[n..], r);
    }
  }

  lemma {:induction false} TrimLeftKeepsRest(s: Text)
    ensures |TrimLeft(s)| <= |s| && TrimLeft(s) == s[|s| - |TrimLeft(s)|..]
    ensures Blank(s[..|s| - |TrimLeft(s)|])
    ensures SpaceAt(TrimLeft(s), 0) == 0
    ensures TrimLeft(s) == [] <==> Blank(s)
    decreases |s|
  {
    var n := SpaceAt(s, 0);
    if n > 0 {
      TrimLeftKeepsRest(s[n..]);
      var cut := |s| - |TrimLeft(s)|;
      assert SpaceAt(s[..cut], 0) == n;
      assert s[..cut][n..] == s[n..][..cut - n];
    }
  }

  lemma {:induction false} TrimRightKeepsRest(s: Text)
    ensures |TrimRight(s)| <= |s| && TrimRight(s) == s[..|TrimRight(s)|]
    ensures Blank(s[|TrimRight(s)|..])
    ensures SpaceAtEnd(TrimRight(s)) == 0
    decreases |s|
  {
    var n := SpaceAtEnd(s);
    if n > 0 {
      TrimRightKeepsRest(s[..|s| - n]);
      BlankAndLast(s, n, |TrimRight(s)|);
    }
  }

  lemma BlankAndLast(s: Text, n: nat, cut: nat)
    requires n > 0 && n == SpaceAtEnd(s) && cut <= |s| - n && Blank(s[..|s| - n][cut..])
    ensures Blank(s[cut..])
  {
    var shorter, last := s[..|s| - n], s[|s| - n..];
    assert SpaceAt(last, 0) == n;
    BlankThenSpace(shorter[cut..], last);
    assert s[cut..] == shorter[cut..] + last;
  }

  /** Trimming cuts white space off both ends and nothing else. */
  lemma TrimCutsSpace(s: Text) returns (a: nat, b: nat)
    ensures a <= b <= |s| && Trim(s) == s[a..b] && Blank(s[..a]) && Blank(s[b..])
    ensures !EndsInSpace(Trim(s)) && (Trim(s) != [] ==> SpaceAt(s, a) == 0)
    ensures Trim(s) == [] <==> Blank(s)
  {
    var left := TrimLeft(s);
    TrimLeftKeepsRest(s);
    TrimRightKeepsRest(left);
    SpaceAtEndIff(Trim(s));
    a := |s| - |left|;
    b := a + |Trim(s)|;
    assert s[b..] == left[|Trim(s)|..];
    assert SpaceAt(s, a) == SpaceAt(left, 0);
    if Trim(s) == [] {
      assert left[0..] == left;
    }
  }

  lemma {:induction false} BlankIsSpace(s: Text, i: nat) returns (p: nat)
    requires Blank(s) && i < |s|
    ensures p <= i < p + SpaceAt(s, p)
    decreases |s|
  {
    var n := SpaceAt(s, 0);
    if i < n {
      p := 0;
    } else {
      var q := BlankIsSpace(s[n..], i - n);
      assert s[n..|s|] == s[n..];
      SpaceInside(s, n, |s|, q);
      p := n + q;
    }
  }

  /** The flush closure: a blank buffer is dropped. */
  method Flush(path: string, chunks: seq<Chunk>, buf: Text, start: nat, end: nat) returns (r: seq<Chunk>)
    ensures r == if Blank(buf) then chunks else chunks + [Chunk(path, |chunks|, start, end, Trim(buf))]
  {
    var text := Trim(buf);
    var _, _ := TrimCutsSpace(buf);
    if text == [] {
      return chunks;
    }
    r := chunks + [Chunk(path, |chunks|, start, end, text)];
  }

  lemma CoveredGrows(chunks: seq<Chunk>, c: Chunk, i: nat)
    ensures Covered(chunks, i) || c.start <= i < c.end ==> Covered(chunks + [c], i)
  {
    if Covered(chunks, i) {
      var d :| d in chunks && d.start <= i < d.end;
      assert d in chunks + [c];
    } else if c.start <= i < c.end {
      assert c in chunks + [c];
    }
  }

  /** Flushing start..end keeps the chunks good. */
  lemma FlushKeepsGood(content: Text, cuts: seq<nat>, path: string, chunks: seq<Chunk>, start: nat, end: nat)
    requires start <= end <= |content| && GoodChunks(content, cuts, path, chunks, start)
    requires start in cuts && end in cuts
    requires end - start > MAX_CHUNK_BYTES ==> IsPiece(cuts, start, end)
    requires end == |content| || NextDoesNotFit(cuts, start, end)
    ensures var buf := content[start..end];
            var r := if Blank(buf) then chunks else chunks + [Chunk(path, |chunks|, start, end, Trim(buf))];
            GoodChunks(content, cuts, path, r, end)
  {
    if Blank(content[start..end]) {
      forall i | 0 <= i < end && !Covered(chunks, i) ensures InSpace(content, i) {
        if i >= start { DroppedIsSpace(content, start, end, i); }
      }
    } else {
      ChunkKeepsGood(content, cuts, path, chunks, start, end);
    }
  }

  lemma DroppedIsSpace(content: Text, start: nat, end: nat, i: nat)
    requires start <= i < end <= |content| && Blank(content[start..end])
    ensures InSpace(content, i)
  {
    var p := BlankIsSpace(content[start..end], i - start);
    SpaceInside(content, start, end, p);
    assert i < start + p + SpaceAt(content, start + p);
  }

  lemma ChunkKeepsGood(content: Text, cuts: seq<nat>, path: string, chunks: seq<Chunk>, start: nat, end: nat)
    requires start <= end <= |content| && GoodChunks(content, cuts, path, chunks, start)
    requires start in cuts && end in cuts
    requires end - start > MAX_CHUNK_BYTES ==> IsPiece(cuts, start, end)
    requires end == |content| || NextDoesNotFit(cuts, start, end)
    requires !Blank(content[start..end])
    ensures GoodChunks(content, cuts, path, chunks + [Chunk(path, |chunks|, start, end, Trim(content[start..end]))], end)
  {
    var _, _ := TrimCutsSpace(content[start..end]);
    var c := Chunk(path, |chunks|, start, end, Trim(content[start..end]));
    var r := chunks + [c];
    assert start < end;
    assert GoodChunk(content, cuts, path, c);
    forall i | 0 <= i < |r| ensures GoodChunk(content, cuts, path, r[i]) && r[i].index == i && r[i].end <= end {
      if i < |chunks| { assert r[i] == chunks[i]; }
    }
    forall i, j | 0 <= i < j < |r| ensures r[i].end <= r[j].start {
      if j == |chunks| { assert r[i] == chunks[i]; }
    }
    forall i | 0 <= i < end && !Covered(r, i) ensures InSpace(content, i) {
      CoveredGrows(chunks, c, i);
    }
  }

  /** Every byte outside all chunks is part of a white-space character; chunks are in order, disjoint and in bounds; each holds the
      trimmed text of exactly its range; only a single paragraph exceeds the limit; and no chunk stops early. */
  method ChunkDocument(path: string, content: Text) returns (chunks: seq<Chunk>)
    ensures GoodChunks(content, Cuts(content, 0), path, chunks, |content|)
  {
    chunks := [];
    var start: nat, offset: nat := 0, 0;
    var buf: Text := [];
    var pieces := SplitAfter(content);
    ghost var cuts := Cuts(content, 0);
    for i := 0 to |pieces|
      invariant offset == cuts[i] && start <= offset <= |content|
      invariant buf == content[start..offset]
      invariant GoodChunks(content, cuts, path, chunks, start)
      invariant start in cuts
      invariant |buf| > MAX_CHUNK_BYTES ==> IsPiece(cuts, start, offset)
    {
      var paragraph := pieces[i];
      CutsTile(content, 0, i);
      assert paragraph == content[offset..cuts[i + 1]];
      if |buf| > 0 && |buf| + |paragraph| > MAX_CHUNK_BYTES {
        assert NextDoesNotFit(cuts, start, offset);
        FlushKeepsGood(content, cuts, path, chunks, start, offset);
        chunks := Flush(path, chunks, buf, start, offset);
        buf := [];
        start := offset;
      }
      if |buf| == 0 {
        start := offset;
        assert IsPiece(cuts, start, cuts[i + 1]);
      }
      assert content[start..offset] + paragraph == content[start..cuts[i + 1]];
      buf := buf + paragraph;
      offset := offset + |paragraph|;
    }
    FlushKeepsGood(content, cuts, path, chunks, start, offset);
    chunks := Flush(path, chunks, buf, start, offset);
  }

  // ----- the bytes themselves

  /** The code points of white space. */
  predicate IsSpaceCode(c: int) {
    9 <= c <= 13 || c in [0x20, 0x85, 0xA0, 0x1680, 0x2028, 0x2029, 0x202F, 0x205F, 0x3000] || 0x2000 <= c <= 0x200A
  }

  /** UTF-8 for the code points below 65536. */
  function Utf8(c: int): (bytes: Text)
    requires 0 <= c < 0x1_0000
    ensures 1 <= |bytes| <= 3
  {
    if c < 0x80 then [c as Byte]
    else if c < 0x800 then [(0xC0 + c / 64) as Byte, (0x80 + c % 64) as Byte]
    else [(0xE0 + c / 4096) as Byte, (0x80 + c / 64 % 64) as Byte, (0x80 + c % 64) as Byte]
  }

  predicate EncodedAt(s: Text, i: nat, c: int) {
    IsSpaceCode(c) && i + |Utf8(c)| <= |s| && s[i..i + |Utf8(c)|] == Utf8(c)
  }

  /** A white-space character is found exactly where the encoding of one stands, and with its length. */
  lemma SpaceIsEncoded(s: Text, i: nat)
    ensures SpaceAt(s, i) > 0 <==> exists c :: EncodedAt(s, i, c)
    ensures forall c | EncodedAt(s, i, c) :: SpaceAt(s, i) == |Utf8(c)|
  {
    forall c | EncodedAt(s, i, c) ensures SpaceAt(s, i) == |Utf8(c)| { EncodedIsSpace(s, i, c); }
    if SpaceAt(s, i) > 0 { var c := SpaceIsSome(s, i); }
  }

  lemma EncodedIsSpace(s: Text, i: nat, c: int)
    requires EncodedAt(s, i, c)
    ensures SpaceAt(s, i) == |Utf8(c)|
  {
    var u := Utf8(c);
    assert s[i] == s[i..i + |u|][0] == u[0];
    if |u| > 1 { assert s[i + 1] == s[i..i + |u|][1] == u[1]; }
    if |u| > 2 {
      assert s[i + 2] == s[i..i + |u|][2] == u[2];
      WideSpaceBytes(c);
    }
  }

  lemma WideSpaceBytes(c: int)
    requires IsSpaceCode(c) && c >= 0x800
    ensures |Utf8(c)| == 3 && IsWideSpace(Utf8(c)[0], Utf8(c)[1], Utf8(c)[2])
  {
    if 0x2000 <= c < 0x2040 {
      assert c / 4096 == 2 && c / 64 % 64 == 0 && c % 64 == c - 0x2000;
    } else if c == 0x1680 {
      assert c / 4096 == 1 && c / 64 % 64 == 0x1A && c % 64 == 0;
    } else if c == 0x205F {
      assert c / 4096 == 2 && c / 64 % 64 == 1 && c % 64 == 0x1F;
    } else {
      assert c == 0x3000 && c / 4096 == 3 && c / 64 % 64 == 0 && c % 64 == 0;
    }
  }

  lemma WideSpaceCode(x: Byte, y: Byte, z: Byte) returns (c: int)
    requires IsWideSpace(x, y, z)
    ensures IsSpaceCode(c) && Utf8(c) == [x, y, z]
  {
    c := if x == 0xE1 then 0x1680 else if x == 0xE3 then 0x3000 else if y == 0x81 then 0x205F
         else 0x2000 + (z as int - 0x80);
    assert c / 4096 == x as int - 0xE0 && c / 64 % 64 == y as int - 0x80 && c % 64 == z as int - 0x80;
  }

  lemma SpaceIsSome(s: Text, i: nat) returns (c: int)
    requires SpaceAt(s, i) > 0
    ensures EncodedAt(s, i, c)
  {
    var n := SpaceAt(s, i);
    if n == 3 {
      c := WideSpaceCode(s[i], s[i + 1], s[i + 2]);
      assert s[i..i + 3] == [s[i], s[i + 1], s[i + 2]];
    } else if n == 2 {
      c := if s[i + 1] == 0x85 then 0x85 else 0xA0;
      assert s[i..i + 2] == [s[i], s[i + 1]];
    } else {
      c := s[i] as int;
      assert s[i..i + 1] == [s[i]];
    }
  }

  lemma {:induction false} CutFollowsABreak(s: Text, at: nat, k: nat)
    requires at <= |s| && k < |Cuts(s, at)|
    ensures var p := Cuts(s, at)[k]; p == at || p == |s| || (2 <= p <= |s| && s[p - 2] == 10 && s[p - 1] == 10)
  {
    if k > 0 && k + 1 < |Cuts(s, at)| { CutsTile(s, at, k - 1); }
  }

  /** No two line feeds in a row before the last two bytes: one paragraph, with or without the separator it ends in. */
  predicate OneParagraph(s: Text, lo: nat, hi: nat) {
    lo <= hi <= |s| && forall j: nat | lo <= j && j + 2 < hi :: s[j] != 10 || s[j + 1] != 10
  }

  predicate AfterLineFeeds(s: Text, i: nat) {
    2 <= i <= |s| && s[i - 2] == 10 && s[i - 1] == 10
  }

  /** The paragraph from `at` to `e` would not have fitted a chunk that starts at `start`. */
  predicate TooLong(s: Text, start: nat, at: nat, e: nat) {
    at < e && e - start > 1200 && OneParagraph(s, at, e)
  }

  predicate ChunkTells(content: Text, c: Chunk, next: nat) {
    c.start < c.end <= |content|
    && (c.start == 0 || AfterLineFeeds(content, c.start))
    && (c.end == |content| || AfterLineFeeds(content, c.end))
    && (c.end - c.start <= 1200 || OneParagraph(content, c.start, c.end))
    && (c.end == |content| || TooLong(content, c.start, c.end, next))
  }

  lemma GoodChunkTells(path: string, content: Text, c: Chunk) returns (next: nat)
    requires GoodChunk(content, Cuts(content, 0), path, c)
    ensures ChunkTells(content, c, next)
  {
    var cuts := Cuts(content, 0);
    CutIsABreak(content, c.start);
    CutIsABreak(content, c.end);
    if c.end - c.start > 1200 {
      var k :| 0 <= k < |cuts| - 1 && cuts[k] == c.start && cuts[k + 1] == c.end;
      PieceIsAParagraph(content, k);
    }
    next := 0;
    if c.end < |content| {
      var k :| 0 <= k < |cuts| - 1 && cuts[k] == c.end && cuts[k + 1] - c.start > MAX_CHUNK_BYTES;
      PieceIsAParagraph(content, k);
      next := cuts[k + 1];
    }
  }

  /** What a reader may rely on of every chunk: it starts at the start of a paragraph, a paragraph beginning the document
      or following two line feeds, it holds at most 1200 bytes unless it is one paragraph, and it ends where the document
      ends or where one more paragraph, up to `next`, would have taken it past them. */
  lemma ChunksTell(path: string, content: Text, chunks: seq<Chunk>, i: nat) returns (next: nat)
    requires i < |chunks| && GoodChunks(content, Cuts(content, 0), path, chunks, |content|)
    ensures ChunkTells(content, chunks[i], next) && chunks[i].index == i
  {
    next := GoodChunkTells(path, content, chunks[i]);
  }

  lemma CutIsABreak(s: Text, p: nat)
    requires p in Cuts(s, 0)
    ensures p == 0 || p == |s| || AfterLineFeeds(s, p)
  {
    var k :| 0 <= k < |Cuts(s, 0)| && Cuts(s, 0)[k] == p;
    CutFollowsABreak(s, 0, k);
  }

  lemma PieceIsAParagraph(s: Text, k: nat)
    requires k + 1 < |Cuts(s, 0)|
    ensures var cuts := Cuts(s, 0);
            OneParagraph(s, cuts[k], cuts[k + 1]) && (cuts[k] < |s| ==> cuts[k] < cuts[k + 1])
  {
    CutsTile(s, 0, k);
    var lo, hi := Cuts(s, 0)[k], Cuts(s, 0)[k + 1];
    forall j: nat | lo <= j && j + 2 < hi ensures s[j] != 10 || s[j + 1] != 10 { assert !BreakAt(s, j); }
  }
}
