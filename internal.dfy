/**
 * Internal helpers of the Win32 back end: interning strings into a byte
 * arena, parsing Direct3D target profiles, building GPUCC_RESULT values and
 * the per-thread last-result slot.
 */
module Internal {
  import opened Wrappers
  import opened Gpucc

  // ---------------------------------------------------------------------
  // Narrow (UTF-8) strings in memory
  // ---------------------------------------------------------------------

  /** The characters a possibly-null `char const *` designates; null reads as "". */
  function Str(s: Option<CStr>): CStr
  {
    if s.Some? then s.value else ""
  }

  /** The bytes of a string, without its terminator. */
  function Utf8Bytes(s: CStr): (bytes: seq<Byte>)
    ensures |bytes| == |s|
  {
    if |s| == 0 then [] else [s[0] as int] + Utf8Bytes(s[1..])
  }

  /** What gpuccPutStringUtf8 writes for `src`: its bytes and one nul. */
  function Utf8Image(src: Option<CStr>): (image: seq<Byte>)
    ensures |image| == |Str(src)| + 1 && image[|Str(src)|] == 0
  {
    Utf8Bytes(Str(src)) + [0]
  }

  /** strlen(src) + 1 for a non-null src, 1 for a null one. */
  function Utf8Size(src: Option<CStr>): nat
  {
    if src.Some? then |src.value| + 1 else 1
  }

  /** The nul-terminated string that starts at offset `p` of `mem` (up to the end of `mem`). */
  function CStrAt(mem: seq<Byte>, p: nat): string
    decreases |mem| - p
  {
    if p >= |mem| || mem[p] == 0 then "" else [mem[p] as char] + CStrAt(mem, p + 1)
  }

  /** Reading back a string that was written with its terminator gives the string. */
  lemma {:induction false} CStrAtImage(mem: seq<Byte>, p: nat, q: nat, s: CStr)
    requires q == p + |s| + 1 && q <= |mem|
    requires mem[p..q] == Utf8Bytes(s) + [0]
    ensures CStrAt(mem, p) == s
    decreases |s|
  {
    if |s| == 0 {
      assert mem[p] == mem[p..q][0] == 0;
    } else {
      var tail := s[1..];
      assert Utf8Bytes(s) + [0] == [s[0] as int] + (Utf8Bytes(tail) + [0]);
      assert mem[p] == mem[p..q][0] == s[0] as int;
      assert mem[p + 1..q] == mem[p..q][1..];
      CStrAtImage(mem, p + 1, q, tail);
      assert s == [s[0]] + tail;
    }
  }

  /** `mem` with the bytes at [at, at + |bytes|) replaced by `bytes`. */
  function Splice(mem: seq<Byte>, at: nat, bytes: seq<Byte>): (r: seq<Byte>)
    requires at + |bytes| <= |mem|
    ensures |r| == |mem|
  {
    mem[..at] + bytes + mem[at + |bytes|..]
  }

  /** Two writes at adjacent positions are one write of both. */
  lemma {:induction false} SpliceAdjacent(mem: seq<Byte>, at: nat, a: seq<Byte>, b: seq<Byte>)
    requires at + |a| + |b| <= |mem|
    ensures Splice(Splice(mem, at, a), at + |a|, b) == Splice(mem, at, a + b)
  {
    var m1 := Splice(mem, at, a);
    assert m1[..at + |a|] == mem[..at] + a;
    assert m1[at + |a| + |b|..] == mem[at + |a| + |b|..];
  }

  /** A write that covers the whole of `mem` replaces it. */
  lemma {:induction false} SpliceWhole(mem: seq<Byte>, bytes: seq<Byte>)
    requires |bytes| == |mem|
    ensures Splice(mem, 0, bytes) == bytes
  {
    assert mem[..0] == [] && mem[|bytes|..] == [];
  }

  /** memcpy(block + dst, bytes, |bytes|) */
  method CopyBytes(block: array<Byte>, dst: nat, bytes: seq<Byte>)
    requires dst + |bytes| <= block.Length
    modifies block
    ensures block[..] == Splice(old(block[..]), dst, bytes)
  {
    forall i | dst <= i < dst + |bytes| {
      block[i] := bytes[i - dst];
    }
  }

  /** `*dst = b`: a one-byte write. */
  method PutByte(block: array<Byte>, dst: nat, b: Byte)
    requires dst < block.Length
    modifies block
    ensures block[..] == Splice(old(block[..]), dst, [b])
  {
    block[dst] := b;
  }

  /**
   * gpuccPutStringUtf8: copy `src` (nothing for null) and a nul to the
   * cursor, return where it was written and the advanced cursor. Nothing
   * outside the written window changes.
   */
  method PutStringUtf8(block: array<Byte>, dst: nat, src: Option<CStr>) returns (p: nat, next: nat)
    requires dst + Utf8Size(src) <= block.Length
    modifies block
    ensures p == dst && next == dst + Utf8Size(src)
    ensures block[..] == Splice(old(block[..]), dst, Utf8Image(src))
  {
    p := dst;
    next := dst;
    var bytes: seq<Byte> := [];
    if src.Some? {
      bytes := Utf8Bytes(src.value);
      CopyBytes(block, dst, bytes);
      next := next + |bytes|;
    } else {
      assert block[..] == Splice(old(block[..]), dst, bytes);
    }
    PutByte(block, next, 0);
    next := next + 1;
    SpliceAdjacent(old(block[..]), dst, bytes, [0]);
  }

  // ---------------------------------------------------------------------
  // Wide (UTF-16) strings in memory
  // ---------------------------------------------------------------------

  /** One UTF-16 code unit. */
  type WChar = w: int | 0 <= w < 0x1_0000

  /** The code units of a nul-terminated wide string (the terminator not included). */
  type WStr = s: seq<WChar> | forall i | 0 <= i < |s| :: s[i] != 0

  /** The little-endian bytes of a wide string, without its terminator. */
  function Utf16Bytes(s: WStr): (bytes: seq<Byte>)
    ensures |bytes| == 2 * |s|
  {
    if |s| == 0 then [] else [s[0] % 256, s[0] / 256] + Utf16Bytes(s[1..])
  }

  /** What gpuccPutStringUtf16 writes for `src`: its bytes and a two-byte nul. */
  function Utf16Image(src: Option<WStr>): (image: seq<Byte>)
    ensures src.Some? ==> |image| == 2 * |src.value| + 2
    ensures src.None? ==> |image| == 2
    ensures |image| >= 2 && image[|image| - 2] == 0 && image[|image| - 1] == 0
  {
    (if src.Some? then Utf16Bytes(src.value) else []) + [0, 0]
  }

  /** Reading the bytes of a wide string back as code units gives the string. */
  lemma {:induction false} Utf16BytesDecode(s: WStr, k: nat)
    requires k < |s|
    ensures Utf16Bytes(s)[2 * k] as int + 256 * (Utf16Bytes(s)[2 * k + 1] as int) == s[k]
    decreases k
  {
    if k > 0 {
      Utf16BytesDecode(s[1..], k - 1);
    }
  }

  /**
   * gpuccPutStringUtf16: copy 2·wcslen(src) bytes and two nul bytes to the
   * cursor, return where they were written and the advanced cursor.
   */
  method PutStringUtf16(block: array<Byte>, dst: nat, src: Option<WStr>) returns (p: nat, next: nat)
    requires dst + |Utf16Image(src)| <= block.Length
    modifies block
    ensures p == dst && next == dst + |Utf16Image(src)|
    ensures src.Some? ==> next == dst + 2 * |src.value| + 2
    ensures src.None? ==> next == dst + 2
    ensures block[..] == Splice(old(block[..]), dst, Utf16Image(src))
  {
    p := dst;
    next := dst;
    ghost var before := block[..];
    var bytes: seq<Byte> := [];
    if src.Some? {
      bytes := Utf16Bytes(src.value);
      CopyBytes(block, dst, bytes);
      next := next + |bytes|;
    } else {
      assert block[..] == Splice(before, dst, bytes);
    }
    assert bytes + [0, 0] == Utf16Image(src);
    next := PutWideNul(block, next);
    SpliceAdjacent(before, dst, bytes, [0, 0]);
  }

  /** `*dst++ = 0; *dst++ = 0;`: the two-byte wide terminator, and the advanced cursor. */
  method PutWideNul(block: array<Byte>, dst: nat) returns (next: nat)
    requires dst + 2 <= block.Length
    modifies block
    ensures next == dst + 2
    ensures block[..] == Splice(old(block[..]), dst, [0, 0])
  {
    PutByte(block, dst, 0);
    PutByte(block, dst + 1, 0);
    SpliceAdjacent(old(block[..]), dst, [0], [0]);
    assert [0] + [0] == [0, 0];
    next := dst + 2;
  }

  // ---------------------------------------------------------------------
  // Strings laid out one after another in an arena
  // ---------------------------------------------------------------------

  /** The first j parts written back to back. */
  function Carve(parts: seq<seq<Byte>>, j: nat): seq<Byte>
    requires j <= |parts|
  {
    if j == 0 then [] else Carve(parts, j - 1) + parts[j - 1]
  }

  /** All the parts written back to back. */
  function Concat(parts: seq<seq<Byte>>): seq<Byte>
  {
    Carve(parts, |parts|)
  }

  /** Where part k starts when the parts are written back to back. */
  function Offset(parts: seq<seq<Byte>>, k: nat): nat
    requires k <= |parts|
  {
    if k == 0 then 0 else Offset(parts, k - 1) + |parts[k - 1]|
  }

  /** The first k parts take Offset(k) bytes. */
  lemma {:induction false} OffsetIsLength(parts: seq<seq<Byte>>, k: nat)
    requires k <= |parts|
    ensures |Carve(parts, k)| == Offset(parts, k)
  {
    if k > 0 {
      OffsetIsLength(parts, k - 1);
    }
  }

  /** Writing the parts one at a time only ever extends what was written before. */
  lemma {:induction false} CarvePrefix(parts: seq<seq<Byte>>, j: nat, k: nat)
    requires j <= k <= |parts|
    ensures |Carve(parts, j)| <= |Carve(parts, k)|
    ensures Carve(parts, k)[..|Carve(parts, j)|] == Carve(parts, j)
    decreases k
  {
    if j < k {
      CarvePrefix(parts, j, k - 1);
      assert Carve(parts, k)[..|Carve(parts, k - 1)|] == Carve(parts, k - 1);
    }
  }

  /** Part k occupies exactly [Offset(k), Offset(k+1)) of the arena. */
  lemma {:induction false} PartAtOffset(parts: seq<seq<Byte>>, k: nat)
    requires k < |parts|
    ensures Offset(parts, k + 1) == Offset(parts, k) + |parts[k]|
    ensures Offset(parts, k + 1) <= |Concat(parts)|
    ensures Concat(parts)[Offset(parts, k)..Offset(parts, k + 1)] == parts[k]
  {
    OffsetIsLength(parts, k);
    OffsetIsLength(parts, k + 1);
    CarvePrefix(parts, k + 1, |parts|);
    var c := Concat(parts);
    assert c[..Offset(parts, k + 1)] == Carve(parts, k) + parts[k];
    assert c[Offset(parts, k)..Offset(parts, k + 1)] == c[..Offset(parts, k + 1)][Offset(parts, k)..];
  }

  /** A write just past a window of known bytes extends that window. */
  lemma {:induction false} SpliceExtends(mem: seq<Byte>, start: nat, at: nat, bytes: seq<Byte>)
    requires start <= at && at + |bytes| <= |mem|
    ensures Splice(mem, at, bytes)[start..at + |bytes|] == mem[start..at] + bytes
  {
    var m := Splice(mem, at, bytes);
    assert m[start..at] == mem[start..at];
    assert m[at..at + |bytes|] == bytes;
    assert m[start..at + |bytes|] == m[start..at] + m[at..at + |bytes|];
  }

  /** [start, ptr) of `mem` holds the first j parts back to back, and all the parts fit from `start`. */
  predicate Carved(mem: seq<Byte>, start: nat, ptr: nat, parts: seq<seq<Byte>>, j: nat)
  {
    && j <= |parts| && start + |Concat(parts)| <= |mem|
    && ptr == start + Offset(parts, j) && ptr <= start + |Concat(parts)|
    && mem[start..ptr] == Carve(parts, j)
  }

  /** One step of carving an arena: writing part j at the cursor carves j+1 parts. */
  lemma {:induction false} ArenaStep(mem: seq<Byte>, start: nat, at: nat, parts: seq<seq<Byte>>, j: nat)
    requires j < |parts| && Carved(mem, start, at, parts, j)
    ensures Offset(parts, j + 1) <= |Concat(parts)|
    ensures Carved(Splice(mem, at, parts[j]), start, at + |parts[j]|, parts, j + 1)
  {
    PartAtOffset(parts, j);
    SpliceExtends(mem, start, at, parts[j]);
  }

  /** One image per narrow string. */
  function Utf8Images(xs: seq<Option<CStr>>): (parts: seq<seq<Byte>>)
    ensures |parts| == |xs|
  {
    if |xs| == 0 then [] else [Utf8Image(xs[0])] + Utf8Images(xs[1..])
  }

  /** Image k of the list is the image of string k. */
  lemma {:induction false} Utf8ImagesAt(xs: seq<Option<CStr>>, k: nat)
    requires k < |xs|
    ensures Utf8Images(xs)[k] == Utf8Image(xs[k])
    decreases k
  {
    if k > 0 {
      Utf8ImagesAt(xs[1..], k - 1);
    }
  }

  /** Σ (strlen(x)+1), the byte count reserved for a list of narrow strings. */
  function Utf8Sizes(xs: seq<Option<CStr>>): nat
  {
    if xs == [] then 0 else Utf8Sizes(xs[..|xs| - 1]) + Utf8Size(xs[|xs| - 1])
  }

  /** Reserving one more string adds its size. */
  lemma {:induction false} Utf8SizesStep(xs: seq<Option<CStr>>, j: nat)
    requires j < |xs|
    ensures Utf8Sizes(xs[..j + 1]) == Utf8Sizes(xs[..j]) + Utf8Size(xs[j])
  {
    assert xs[..j + 1][..j] == xs[..j];
  }

  /** The space reserved for the first j strings is the space their images occupy. */
  lemma {:induction false} Utf8SizesCarve(xs: seq<Option<CStr>>, j: nat)
    requires j <= |xs|
    ensures |Carve(Utf8Images(xs), j)| == Utf8Sizes(xs[..j])
  {
    if j == 0 {
      assert xs[..0] == [];
    } else {
      var parts := Utf8Images(xs);
      Utf8SizesCarve(xs, j - 1);
      Utf8SizesStep(xs, j - 1);
      Utf8ImagesAt(xs, j - 1);
      assert |Carve(parts, j)| == |Carve(parts, j - 1)| + |parts[j - 1]|;
      assert |parts[j - 1]| == Utf8Size(xs[j - 1]);
    }
  }

  /** The space reserved for a list of strings is exactly the space their images occupy. */
  lemma {:induction false} Utf8SizesAreImages(xs: seq<Option<CStr>>)
    ensures |Concat(Utf8Images(xs))| == Utf8Sizes(xs)
  {
    Utf8SizesCarve(xs, |xs|);
    assert xs[..|xs|] == xs;
  }

  /**
   * gpuccPutStringUtf8 used to intern string j of `xs` at the arena cursor,
   * where `parts` are the images of `xs`: the carved prefix grows by one.
   */
  method InternNext(block: array<Byte>, start: nat, ptr: nat, xs: seq<Option<CStr>>, j: nat, ghost j1: nat, ghost parts: seq<seq<Byte>>)
    returns (p: nat, next: nat)
    requires j < |xs| == |parts| && parts[j] == Utf8Image(xs[j]) && j1 == j + 1
    requires Carved(block[..], start, ptr, parts, j)
    modifies block
    ensures p == ptr && Carved(block[..], start, next, parts, j1)
  {
    ArenaStep(block[..], start, ptr, parts, j);
    p, next := PutStringUtf8(block, ptr, xs[j]);
  }

  /** The images of `xs` sit back to back at offset `start` of `mem`. */
  predicate Interned(mem: seq<Byte>, start: nat, xs: seq<Option<CStr>>)
  {
    start + |Concat(Utf8Images(xs))| <= |mem|
    && mem[start..start + |Concat(Utf8Images(xs))|] == Concat(Utf8Images(xs))
  }

  /** Once every image is carved, the whole list is interned. */
  lemma {:induction false} InternedAll(mem: seq<Byte>, start: nat, ptr: nat, xs: seq<Option<CStr>>)
    requires Carved(mem, start, ptr, Utf8Images(xs), |xs|)
    ensures Interned(mem, start, xs)
  {
    LaidOutAll(mem, start, ptr, Utf8Images(xs));
  }

  /** Part k of an arena laid out from `start` sits between its offset and the next. */
  lemma {:induction false} PartWindow(mem: seq<Byte>, start: nat, parts: seq<seq<Byte>>, k: nat)
    requires k < |parts|
    requires start + |Concat(parts)| <= |mem| && mem[start..start + |Concat(parts)|] == Concat(parts)
    ensures start + Offset(parts, k + 1) == start + Offset(parts, k) + |parts[k]|
    ensures start + Offset(parts, k + 1) <= |mem|
    ensures mem[start + Offset(parts, k)..start + Offset(parts, k + 1)] == parts[k]
  {
    PartAtOffset(parts, k);
    WindowOfWindow(mem, start, Concat(parts), Offset(parts, k), Offset(parts, k + 1));
  }

  /** The image of string k of an interned list sits between its offset and the next. */
  lemma {:induction false} InternedWindow(mem: seq<Byte>, start: nat, xs: seq<Option<CStr>>, k: nat)
    requires k < |xs| && Interned(mem, start, xs)
    ensures start + Offset(Utf8Images(xs), k + 1) == start + Offset(Utf8Images(xs), k) + |Utf8Image(xs[k])|
    ensures start + Offset(Utf8Images(xs), k + 1) <= |mem|
    ensures mem[start + Offset(Utf8Images(xs), k)..start + Offset(Utf8Images(xs), k + 1)] == Utf8Image(xs[k])
  {
    var parts := Utf8Images(xs);
    PartWindow(mem, start, parts, k);
    Utf8ImagesAt(xs, k);
  }

  /** An image written at [p, q) reads back as its string. */
  lemma {:induction false} ImageReadsBack(mem: seq<Byte>, p: nat, q: nat, src: Option<CStr>)
    requires q == p + |Utf8Image(src)| && q <= |mem| && mem[p..q] == Utf8Image(src)
    ensures CStrAt(mem, p) == Str(src)
  {
    CStrAtImage(mem, p, q, Str(src));
  }

  /** The string interned as entry k of an arena decodes back to that string. */
  lemma {:induction false} InternedStringAt(mem: seq<Byte>, start: nat, xs: seq<Option<CStr>>, k: nat, p: nat)
    requires k < |xs| && Interned(mem, start, xs) && p == start + Offset(Utf8Images(xs), k)
    ensures CStrAt(mem, p) == Str(xs[k])
  {
    InternedWindow(mem, start, xs, k);
    var q := start + Offset(Utf8Images(xs), k + 1);
    assert mem[p..q] == Utf8Image(xs[k]);
    ImageReadsBack(mem, p, q, xs[k]);
  }

  /** A window of bytes known to be `c` has every sub-window of `c` at the matching place. */
  lemma {:induction false} WindowOfWindow(mem: seq<Byte>, start: nat, c: seq<Byte>, lo: nat, hi: nat)
    requires start + |c| <= |mem| && mem[start..start + |c|] == c
    requires lo <= hi <= |c|
    ensures mem[start + lo..start + hi] == c[lo..hi]
  {
    forall i | 0 <= i < hi - lo
      ensures mem[start + lo..start + hi][i] == c[lo..hi][i]
    {
      assert mem[start + lo + i] == mem[start..start + |c|][lo + i];
    }
  }

  /** One image per wide string. */
  function Utf16Images(ws: seq<Option<WStr>>): (parts: seq<seq<Byte>>)
    ensures |parts| == |ws|
  {
    if |ws| == 0 then [] else [Utf16Image(ws[0])] + Utf16Images(ws[1..])
  }

  /** Image k of the list is the image of wide string k. */
  lemma {:induction false} Utf16ImagesAt(ws: seq<Option<WStr>>, k: nat)
    requires k < |ws|
    ensures Utf16Images(ws)[k] == Utf16Image(ws[k])
    decreases k
  {
    if k > 0 {
      Utf16ImagesAt(ws[1..], k - 1);
    }
  }

  /** The parts sit back to back at offset `start` of `mem`. */
  predicate LaidOut(mem: seq<Byte>, start: nat, parts: seq<seq<Byte>>)
  {
    start + |Concat(parts)| <= |mem| && mem[start..start + |Concat(parts)|] == Concat(parts)
  }

  /** Once every part is carved, the whole list is laid out. */
  lemma {:induction false} LaidOutAll(mem: seq<Byte>, start: nat, ptr: nat, parts: seq<seq<Byte>>)
    requires Carved(mem, start, ptr, parts, |parts|)
    ensures LaidOut(mem, start, parts) && ptr == start + |Concat(parts)|
  {
    OffsetIsLength(parts, |parts|);
  }

  /** The space two more parts take. */
  lemma {:induction false} OffsetStep2(parts: seq<seq<Byte>>, j: nat, j2: nat)
    requires j2 == j + 2 <= |parts|
    ensures Offset(parts, j2) == Offset(parts, j) + |parts[j]| + |parts[j + 1]|
  {
  }

  /**
   * The interning of wide string j of `ws` at the arena cursor (a
   * gpuccPutStringUtf16 of its converted form), where `parts` are the images
   * of `ws`: the carved prefix grows by one.
   */
  method InternNextWide(block: array<Byte>, start: nat, ptr: nat, ws: seq<Option<WStr>>, j: nat, ghost j1: nat, ghost parts: seq<seq<Byte>>)
    returns (p: nat, next: nat)
    requires j < |ws| == |parts| && parts[j] == Utf16Image(ws[j]) && j1 == j + 1
    requires Carved(block[..], start, ptr, parts, j)
    modifies block
    ensures p == ptr && Carved(block[..], start, next, parts, j1)
  {
    ArenaStep(block[..], start, ptr, parts, j);
    p, next := PutStringUtf16(block, ptr, ws[j]);
  }

  // ---------------------------------------------------------------------
  // Direct3D target profiles, "<stage>_<major>_<minor>"
  // ---------------------------------------------------------------------

  predicate IsDigit(c: char)
  {
    '0' <= c <= '9'
  }

  predicate AllDigits(s: string)
  {
    forall i | 0 <= i < |s| :: IsDigit(s[i])
  }

  /** The value of a run of decimal digits. */
  function DigitsValue(d: string): nat
    requires AllDigits(d)
  {
    if d == [] then 0 else DigitsValue(d[..|d| - 1]) * 10 + (d[|d| - 1] as int - '0' as int)
  }

  /** The length of the run of digits starting at position i. */
  function DigitRun(s: string, i: nat): (n: nat)
    requires i <= |s|
    ensures i + n <= |s| && AllDigits(s[i..i + n])
    ensures i + n == |s| || !IsDigit(s[i + n])
    decreases |s| - i
  {
    if i < |s| && IsDigit(s[i]) then
      var n := 1 + DigitRun(s, i + 1);
      assert s[i..i + n] == [s[i]] + s[i + 1..i + n];
      n
    else 0
  }

  /** The result of gpuccExtractDirect3DShaderModel: its return value and its three outputs. */
  datatype ShaderModel = ShaderModel(Status: int, Stage: string, Major: int, Minor: int)

  const NUL: char := 0 as char

  /** What a profile that does not match leaves in the outputs. */
  const NoShaderModel: ShaderModel := ShaderModel(-1, [NUL, NUL, NUL], 0, 0)

  /**
   * gpuccExtractDirect3DShaderModel: sscanf "%c%c_%u_%u". Two characters of
   * any kind, '_', one or more digits, '_', one or more digits; whatever
   * follows is ignored. On a match the stage is the two characters and a
   * nul; otherwise every output is zero and the status is -1.
   */
  function ExtractDirect3DShaderModel(target: CStr): (r: ShaderModel)
    ensures r.Status == 0 || r == NoShaderModel
    ensures r.Status == 0 ==> |target| >= 6 && r.Stage == [target[0], target[1], NUL]
    ensures r.Status == 0 ==> r.Major >= 0 && r.Minor >= 0
  {
    if |target| >= 3 && target[2] == '_' then
      var n1 := DigitRun(target, 3);
      var u := 3 + n1;
      if n1 > 0 && u < |target| && target[u] == '_' then
        var n2 := DigitRun(target, u + 1);
        if n2 > 0 then
          ShaderModel(0, [target[0], target[1], NUL], DigitsValue(target[3..u]), DigitsValue(target[u + 1..u + 1 + n2]))
        else NoShaderModel
      else NoShaderModel
    else NoShaderModel
  }

  /** The decimal digit character for d. */
  function DigitChar(d: nat): char
    requires d < 10
  {
    ('0' as int + d) as char
  }

  /** The shortest decimal spelling of n, as "%u" prints it. */
  function NatToDigits(n: nat): (d: string)
    ensures |d| >= 1 && AllDigits(d)
  {
    if n < 10 then [DigitChar(n)] else NatToDigits(n / 10) + [DigitChar(n % 10)]
  }

  /** Reading the printed digits of n gives back n. */
  lemma {:induction false} DigitsRoundTrip(n: nat)
    ensures DigitsValue(NatToDigits(n)) == n
  {
    if n >= 10 {
      var d := NatToDigits(n);
      assert d[..|d| - 1] == NatToDigits(n / 10);
      DigitsRoundTrip(n / 10);
    }
  }

  /** A run of digits followed by a non-digit (or the end) is exactly what DigitRun measures. */
  lemma {:induction false} DigitRunOf(s: string, i: nat, n: nat)
    requires i + n <= |s| && AllDigits(s[i..i + n])
    requires i + n == |s| || !IsDigit(s[i + n])
    ensures DigitRun(s, i) == n
    decreases n
  {
    if n > 0 {
      assert IsDigit(s[i..i + n][0]);
      assert s[i + 1..i + n] == s[i..i + n][1..];
      DigitRunOf(s, i + 1, n - 1);
    }
  }

  /** "%c%c_%u_%u" printed: the profile spelled from a stage and a shader model. */
  function FormatProfile(st0: char, st1: char, major: nat, minor: nat): string
  {
    [st0, st1, '_'] + NatToDigits(major) + "_" + NatToDigits(minor)
  }

  /** A printed profile followed by a C string is itself a C string. */
  lemma {:induction false} FormattedProfileIsCStr(st0: char, st1: char, major: nat, minor: nat, trailing: CStr)
    requires IsCChar(st0) && IsCChar(st1)
    ensures var t := FormatProfile(st0, st1, major, minor) + trailing;
            forall i | 0 <= i < |t| :: IsCChar(t[i])
  {
    var dj, dn := NatToDigits(major), NatToDigits(minor);
    var t := FormatProfile(st0, st1, major, minor) + trailing;
    var u, e := 3 + |dj|, 4 + |dj| + |dn|;
    assert t == [st0, st1, '_'] + dj + "_" + dn + trailing;
    forall i | 0 <= i < |t|
      ensures IsCChar(t[i])
    {
      if 3 <= i < u {
        assert t[i] == dj[i - 3];
      } else if u < i < e {
        assert t[i] == dn[i - u - 1];
      } else if i >= e {
        assert t[i] == trailing[i - e];
      }
    }
  }

  /** The pieces of a printed profile sit where the parser looks for them. */
  lemma {:induction false} FormattedProfilePieces(st0: char, st1: char, dj: string, dn: string, trailing: string, t: string)
    requires t == [st0, st1, '_'] + dj + "_" + dn + trailing
    ensures |t| == 4 + |dj| + |dn| + |trailing|
    ensures t[0] == st0 && t[1] == st1 && t[2] == '_' && t[3 + |dj|] == '_'
    ensures t[3..3 + |dj|] == dj
    ensures t[4 + |dj|..4 + |dj| + |dn|] == dn
    ensures trailing != [] ==> t[4 + |dj| + |dn|] == trailing[0]
  {
  }

  /**
   * Parsing a printed profile recovers its stage and shader model, whatever
   * text follows, as long as that text does not continue the minor version.
   */
  lemma {:induction false} ExtractFormatRoundTrip(st0: char, st1: char, major: nat, minor: nat, trailing: CStr)
    requires IsCChar(st0) && IsCChar(st1)
    requires trailing == [] || !IsDigit(trailing[0])
    ensures var t := FormatProfile(st0, st1, major, minor) + trailing;
            forall i | 0 <= i < |t| :: IsCChar(t[i])
    ensures var r := ExtractDirect3DShaderModel(FormatProfile(st0, st1, major, minor) + trailing);
            r == ShaderModel(0, [st0, st1, NUL], major, minor)
  {
    FormattedProfileIsCStr(st0, st1, major, minor, trailing);
    var dj, dn := NatToDigits(major), NatToDigits(minor);
    var t := FormatProfile(st0, st1, major, minor) + trailing;
    FormattedProfilePieces(st0, st1, dj, dn, trailing, t);
    var u := 3 + |dj|;
    DigitRunOf(t, 3, |dj|);
    DigitRunOf(t, u + 1, |dn|);
    DigitsRoundTrip(major);
    DigitsRoundTrip(minor);
  }

  /**
   * A profile the parser accepts has the shape it looks for: two stage
   * characters, '_', the major digits, '_', the minor digits, and a rest that
   * does not start with a digit.
   */
  lemma {:induction false} ExtractAcceptsOnlyPattern(target: CStr) returns (majorDigits: string, minorDigits: string, rest: string)
    requires ExtractDirect3DShaderModel(target).Status == 0
    ensures target == [target[0], target[1], '_'] + majorDigits + "_" + minorDigits + rest
    ensures |majorDigits| > 0 && AllDigits(majorDigits)
    ensures |minorDigits| > 0 && AllDigits(minorDigits)
    ensures DigitsValue(majorDigits) == ExtractDirect3DShaderModel(target).Major
    ensures DigitsValue(minorDigits) == ExtractDirect3DShaderModel(target).Minor
    ensures rest == [] || !IsDigit(rest[0])
  {
    var n1 := DigitRun(target, 3);
    var u := 3 + n1;
    var n2 := DigitRun(target, u + 1);
    var e := u + 1 + n2;
    majorDigits, minorDigits, rest := target[3..u], target[u + 1..e], target[e..];
    assert target[..3] == [target[0], target[1], '_'];
    assert target[..u] == target[..3] + majorDigits;
    assert target[..u + 1] == target[..u] + "_";
    assert target[..e] == target[..u + 1] + minorDigits;
    assert target == target[..e] + rest;
  }

  /** ASCII lower-casing, as _stricmp applies it to both operands. */
  function AsciiLower(c: char): char
  {
    if 'A' <= c <= 'Z' then (c as int + 32) as char else c
  }

  /** _stricmp(stage, name) == 0 for a two-character stage name. */
  predicate StageIs(stage: string, name: string)
    requires |stage| == 3 && stage[2] == NUL && |name| == 2
  {
    AsciiLower(stage[0]) == name[0] && AsciiLower(stage[1]) == name[1]
  }

  // ---------------------------------------------------------------------
  // GPUCC_RESULT constructors
  // ---------------------------------------------------------------------

  /** HRESULT and nvrtc codes are 32-bit signed values. */
  type Int32 = x: int | -0x8000_0000 <= x < 0x8000_0000

  /** A Win32 DWORD such as GetLastError returns. */
  type Dword = x: int | 0 <= x < 0x1_0000_0000

  /** The `(int32_t)` conversion of a DWORD: values at or above 2^31 wrap to negative. */
  function Int32OfDword(d: Dword): (r: Int32)
    ensures r % 0x1_0000_0000 == d
    ensures d < 0x8000_0000 ==> r == d
  {
    if d < 0x8000_0000 then d else d - 0x1_0000_0000
  }

  /** gpuccMakeResult: the platform part is always zero (ERROR_SUCCESS). */
  function MakeResult(libraryResult: int): (r: GpuccResult)
    ensures r.LibraryResult == libraryResult && r.PlatformResult == 0
    ensures Failure(r) <==> libraryResult < 0
  {
    GpuccResult(libraryResult, 0)
  }

  /** gpuccMakeResult_errno: the platform part is the current errno. */
  function MakeResultErrno(libraryResult: int, errno: int): (r: GpuccResult)
    ensures r.LibraryResult == libraryResult && r.PlatformResult == errno
  {
    GpuccResult(libraryResult, errno)
  }

  /** gpuccMakeResult_Win32: the platform part is the DWORD error read as a signed value. */
  function MakeResultWin32(libraryResult: int, platformResult: Dword): (r: GpuccResult)
    ensures r.LibraryResult == libraryResult
    ensures r.PlatformResult % 0x1_0000_0000 == platformResult && -0x8000_0000 <= r.PlatformResult < 0x8000_0000
  {
    GpuccResult(libraryResult, Int32OfDword(platformResult))
  }

  /**
   * gpuccMakeResult_HRESULT: PLATFORM_ERROR for a failed HRESULT, SUCCESS
   * otherwise; the HRESULT itself is kept as the platform part either way.
   */
  function MakeResultHResult(hr: int): (r: GpuccResult)
    ensures r.PlatformResult == hr
    ensures hr < 0 ==> r.LibraryResult == RESULT_CODE_PLATFORM_ERROR
    ensures hr >= 0 ==> r.LibraryResult == RESULT_CODE_SUCCESS
    ensures Failure(r) <==> hr < 0
  {
    if hr < 0 then GpuccResult(RESULT_CODE_PLATFORM_ERROR, hr) else GpuccResult(RESULT_CODE_SUCCESS, hr)
  }

  /** The HRESULT form of a result can be undone: the HRESULT is recovered from it. */
  lemma {:induction false} MakeResultHResultInjective(a: int, b: int)
    ensures MakeResultHResult(a) == MakeResultHResult(b) <==> a == b
  {
  }

  // ---------------------------------------------------------------------
  // The per-thread context
  // ---------------------------------------------------------------------

  /** GPUCC_THREAD_CONTEXT_WIN32: the calling thread's last-result slot. */
  class ThreadContext {
    var LastResult: GpuccResult

    /** A context is zero-filled when a thread first needs one. */
    constructor ()
      ensures LastResult == GpuccResult(0, 0)
    {
      LastResult := GpuccResult(0, 0);
    }

    /** gpuccSetLastResult: store the new result and hand back the one it replaces. */
    method SetLastResult(result: GpuccResult) returns (prev: GpuccResult)
      modifies this
      ensures prev == old(LastResult)
      ensures LastResult == result
    {
      prev := LastResult;
      LastResult := result;
    }
  }
}
