/**
 * The stateless image helpers (`ImageUtils.kt`): removal of `data:image/...;base64,` headers,
 * the resize rule and the validity check. The decoders themselves are library calls and enter
 * the model as functions.
 */
module ImageUtils {
  import opened Wrappers
  import opened Text

  newtype byte = x: int | 0 <= x < 256

  /** A decoded image as the serving layer sees it: its dimensions and an opaque identity. */
  datatype Bitmap = Bitmap(width: nat, height: nat, id: nat)

  /**
   * The library calls behind the helpers. `None` stands for a null result or a thrown exception;
   * `bounds` gives `(outWidth, outHeight)` of a bounds-only decode, which stay -1 when nothing decodes;
   * `scale` is `createScaledBitmap` for a target with two positive sides, a `Failure` carrying the
   * message of the exception it throws.
   */
  datatype Decoders = Decoders(
    base64: string -> Option<seq<byte>>,
    bitmap: seq<byte> -> Option<Bitmap>,
    bounds: seq<byte> -> (int, int),
    scale: (Bitmap, nat, nat) -> Result<Bitmap>)

  const MaxImageDimension: nat := 2048
  const CompressionQuality: nat := 85

  const DataUriHead: string := "data:image/"
  const DataUriTail: string := ";base64,"

  predicate NoSemicolon(m: string) {
    forall q :: 0 <= q < |m| ==> m[q] != ';'
  }

  /** `p` is in the language of the regular expression `data:image/[^;]+;base64,`. */
  predicate IsDataUriHeader(p: string) {
    && |p| > |DataUriHead| + |DataUriTail|
    && p[..|DataUriHead|] == DataUriHead
    && p[|p| - |DataUriTail|..] == DataUriTail
    && NoSemicolon(p[|DataUriHead|..|p| - |DataUriTail|])
  }

  /** The index of the first `';'` of `s` at or after `k`, or `|s|` when there is none. */
  function SemicolonFrom(s: string, k: nat): (r: nat)
    requires k <= |s|
    ensures k <= r <= |s|
    ensures r < |s| ==> s[r] == ';'
    ensures forall q :: k <= q < r ==> s[q] != ';'
    decreases |s| - k
  {
    if k == |s| || s[k] == ';' then k else SemicolonFrom(s, k + 1)
  }

  /** The length of the match of the header expression that begins at the start of `s`, if any. */
  function MatchLength(s: string): (r: Option<nat>)
    ensures r.Some? ==> r.value <= |s| && IsDataUriHeader(s[..r.value])
  {
    if !StartsWith(s, DataUriHead) then None
    else
      var k := SemicolonFrom(s, |DataUriHead|);
      if k > |DataUriHead| && StartsWith(s[k..], DataUriTail) then
        assert s[..k + |DataUriTail|][|DataUriHead|..k] == s[|DataUriHead|..k];
        Some(k + |DataUriTail|)
      else None
  }

  /** A header of length `n` starts `s` exactly when the match found at the start has length `n`. */
  lemma MatchLengthExact(s: string, n: nat)
    requires n <= |s|
    ensures IsDataUriHeader(s[..n]) <==> MatchLength(s) == Some(n)
  {
    if IsDataUriHeader(s[..n]) {
      var h, t := |DataUriHead|, |DataUriTail|;
      var p := s[..n];
      assert s[..h] == p[..h];
      var k := SemicolonFrom(s, h);
      assert p[n - t..][0] == ';';
      assert s[n - t] == ';';
      forall q | h <= q < n - t
        ensures s[q] != ';'
      {
        var mid := p[h..n - t];
        assert NoSemicolon(mid);
        assert mid[q - h] != ';';
        assert mid[q - h] == s[q];
      }
      assert k == n - t;
      assert s[k..][..t] == p[n - t..];
    }
  }

  /**
   * `String.replace(Regex("data:image/[^;]+;base64,"), "")`: scanning from the left, every match
   * is removed and the scan resumes after it; all other characters are kept in order.
   */
  function StripDataUris(s: string): (r: string)
    ensures |r| <= |s|
    decreases |s|
  {
    if s == [] then []
    else
      match MatchLength(s)
      case Some(n) => StripDataUris(s[n..])
      case None => [s[0]] + StripDataUris(s[1..])
  }

  /** A string in which `"data:image/"` does not occur is left as it is. */
  lemma {:induction false} StripWithoutHeader(s: string)
    requires !Contains(s, DataUriHead)
    ensures StripDataUris(s) == s
    decreases |s|
  {
    if s != [] {
      assert !OccursAt(s, DataUriHead, 0);
      assert MatchLength(s).None?;
      OccursShift(s, DataUriHead);
      assert !Contains(s[1..], DataUriHead);
      StripWithoutHeader(s[1..]);
      assert [s[0]] + s[1..] == s;
    }
  }

  /** The header the expression matches for media type `mime`. */
  function DataUriHeader(mime: string): (r: string)
    ensures |r| == |DataUriHead| + |mime| + |DataUriTail|
  {
    DataUriHead + mime + DataUriTail
  }

  /** A header at the start is removed whatever its media type, and the scan resumes right after it. */
  lemma StripLeadingHeader(mime: string, rest: string)
    requires mime != [] && NoSemicolon(mime)
    ensures StripDataUris(DataUriHeader(mime) + rest) == StripDataUris(rest)
  {
    var p := DataUriHeader(mime);
    var s := p + rest;
    assert s[..|p|] == p;
    assert p[|DataUriHead|..|p| - |DataUriTail|] == mime;
    MatchLengthExact(s, |p|);
    assert s[|p|..] == rest;
  }

  /** Two consecutive headers are both removed, not just a fixed-length prefix. */
  lemma StripEveryHeader(m1: string, m2: string, payload: string)
    requires m1 != [] && NoSemicolon(m1) && m2 != [] && NoSemicolon(m2)
    requires !Contains(payload, DataUriHead)
    ensures StripDataUris(DataUriHeader(m1) + (DataUriHeader(m2) + payload)) == payload
  {
    StripLeadingHeader(m1, DataUriHeader(m2) + payload);
    StripLeadingHeader(m2, payload);
    StripWithoutHeader(payload);
  }

  /** `base64ToBitmap`: strip the headers, Base64-decode, then decode the bytes; any failure is `None`. */
  function Base64ToBitmap(s: string, dec: Decoders): (r: Option<Bitmap>)
    ensures r.Some? ==> dec.base64(StripDataUris(s)).Some?
    ensures dec.base64(StripDataUris(s)).None? ==> r.None?
  {
    match dec.base64(StripDataUris(s))
    case None => None
    case Some(bytes) => dec.bitmap(bytes)
  }

  /** A data URI decodes to the same bitmap as its bare Base64 payload. */
  lemma DataUriDecodesLikePayload(mime: string, payload: string, dec: Decoders)
    requires mime != [] && NoSemicolon(mime) && !Contains(payload, DataUriHead)
    ensures Base64ToBitmap(DataUriHeader(mime) + payload, dec) == Base64ToBitmap(payload, dec)
  {
    StripLeadingHeader(mime, payload);
    StripWithoutHeader(payload);
  }

  /** `byteArrayToBitmap`: the bytes decoded as an image, `None` when that fails. */
  function ByteArrayToBitmap(bytes: seq<byte>, dec: Decoders): (r: Option<Bitmap>)
    ensures r == dec.bitmap(bytes)
  {
    dec.bitmap(bytes)
  }

  predicate FitsWithinMax(w: nat, h: nat) {
    w <= MaxImageDimension && h <= MaxImageDimension
  }

  lemma DivisionBounds(a: nat, d: nat)
    requires d > 0
    ensures (a / d) * d <= a < (a / d + 1) * d
  {
  }

  lemma {:induction false} ProductPositive(x: int, d: int)
    requires x > 0 && d > 0
    ensures x * d > 0
    decreases x
  {
    if x > 1 {
      ProductPositive(x - 1, d);
      assert x * d == (x - 1) * d + d;
    }
  }

  lemma ProductSign(x: int, d: int)
    requires d > 0 && x * d <= 0
    ensures x <= 0
  {
    if x > 0 {
      ProductPositive(x, d);
    }
  }

  /** Scaling a side no longer than `d` by `2048 / d` gives at most 2048, and exactly 2048 for `d` itself. */
  lemma ScaledSide(a: nat, d: nat)
    requires 0 < d && a <= d
    ensures a * MaxImageDimension / d <= MaxImageDimension
    ensures a == d ==> a * MaxImageDimension / d == MaxImageDimension
  {
    var q := a * 2048 / d;
    DivisionBounds(a * 2048, d);
    assert (q - 2048) * d == q * d - 2048 * d;
    assert (a - d) * 2048 <= 0;
    ProductSign(q - 2048, d);
    if a == d {
      assert (2048 - q - 1) * d == 2048 * d - (q + 1) * d;
      ProductSign(2048 - q - 1, d);
    }
  }

  /**
   * The dimensions `resizeBitmapIfNeeded` asks for, in exact arithmetic: unchanged when both fit,
   * otherwise each side times 2048 / (the larger side), truncated.
   */
  function TargetSize(w: nat, h: nat): (r: (nat, nat))
    ensures FitsWithinMax(w, h) ==> r == (w, h)
    ensures r.0 <= MaxImageDimension && r.1 <= MaxImageDimension
    ensures !FitsWithinMax(w, h) && w > h ==> r.0 == MaxImageDimension
    ensures !FitsWithinMax(w, h) && w <= h ==> r.1 == MaxImageDimension
  {
    if FitsWithinMax(w, h) then (w, h)
    else
      var d := if w > h then w else h;
      ScaledSide(w, d);
      ScaledSide(h, d);
      (w * MaxImageDimension / d, h * MaxImageDimension / d)
  }

  /** Each resized side is the exact scaled side rounded down: `r * big <= side * 2048 < (r + 1) * big`. */
  lemma TargetSizeTruncates(w: nat, h: nat)
    requires !FitsWithinMax(w, h)
    ensures var d := if w > h then w else h;
            var r := TargetSize(w, h);
            && r.0 * d <= w * MaxImageDimension < (r.0 + 1) * d
            && r.1 * d <= h * MaxImageDimension < (r.1 + 1) * d
  {
    var d := if w > h then w else h;
    DivisionBounds(w * MaxImageDimension, d);
    DivisionBounds(h * MaxImageDimension, d);
  }

  lemma TargetSizeExamples()
    ensures TargetSize(4000, 2000) == (2048, 1024)
    ensures TargetSize(800, 600) == (800, 600)
    ensures TargetSize(3000, 3000) == (2048, 2048)
    ensures TargetSize(1000, 5000) == (409, 2048)
  {
  }

  /**
   * The message of the `IllegalArgumentException` Android's `Bitmap.createBitmap` throws when a
   * side of the requested bitmap is zero.
   */
  const EmptySideMessage: string := "width and height must be > 0"

  /**
   * `resizeBitmapIfNeeded`: the same bitmap when it fits, else a scaled copy of the target size.
   * A target side truncated to zero makes `createScaledBitmap` throw.
   */
  function ResizeBitmapIfNeeded(b: Bitmap, dec: Decoders): (r: Result<Bitmap>)
    ensures FitsWithinMax(b.width, b.height) ==> r == Success(b)
    ensures !FitsWithinMax(b.width, b.height) && (TargetSize(b.width, b.height).0 == 0 || TargetSize(b.width, b.height).1 == 0) ==>
              r == Failure(EmptySideMessage)
    ensures !FitsWithinMax(b.width, b.height) && TargetSize(b.width, b.height).0 > 0 && TargetSize(b.width, b.height).1 > 0 ==>
              r == dec.scale(b, TargetSize(b.width, b.height).0, TargetSize(b.width, b.height).1)
  {
    if FitsWithinMax(b.width, b.height) then Success(b)
    else
      var size := TargetSize(b.width, b.height);
      if size.0 == 0 || size.1 == 0 then Failure(EmptySideMessage)
      else dec.scale(b, size.0, size.1)
  }

  /** `createScaledBitmap` gives a bitmap of exactly the requested size whenever it returns. */
  ghost predicate ScalesToRequestedSize(dec: Decoders) {
    forall b: Bitmap, w: nat, h: nat ::
      0 < w && 0 < h && dec.scale(b, w, h).Success? ==> dec.scale(b, w, h).value.width == w && dec.scale(b, w, h).value.height == h
  }

  /**
   * Whatever the input, a bitmap that comes out of the resize is at most 2048 on each side, and a
   * bitmap that had to shrink keeps a side of exactly 2048.
   */
  lemma ResizedFitsWithinMax(b: Bitmap, dec: Decoders)
    requires ScalesToRequestedSize(dec)
    ensures var r := ResizeBitmapIfNeeded(b, dec);
            r.Success? ==>
              && r.value.width <= MaxImageDimension && r.value.height <= MaxImageDimension
              && (!FitsWithinMax(b.width, b.height) ==>
                    r.value.width == MaxImageDimension || r.value.height == MaxImageDimension)
  {
    var size := TargetSize(b.width, b.height);
    if !FitsWithinMax(b.width, b.height) && size.0 > 0 && size.1 > 0 && dec.scale(b, size.0, size.1).Success? {
      assert dec.scale(b, size.0, size.1).value.width == size.0;
    }
  }

  /** A 5000x1 bitmap asks for a 2048x0 copy, so the resize fails however the library behaves. */
  lemma ThinBitmapFailsToResize(id: nat, dec: Decoders)
    ensures TargetSize(5000, 1) == (2048, 0)
    ensures ResizeBitmapIfNeeded(Bitmap(5000, 1, id), dec) == Failure(EmptySideMessage)
  {
  }

  /** `validateImageData`: non-empty bytes whose bounds-only decode reports positive dimensions. */
  function ValidateImageData(data: seq<byte>, dec: Decoders): (r: bool)
    ensures data == [] ==> !r
    ensures r ==> dec.bounds(data).0 > 0 && dec.bounds(data).1 > 0
    ensures data != [] && dec.bounds(data).0 > 0 && dec.bounds(data).1 > 0 ==> r
  {
    if data == [] then false
    else
      var (w, h) := dec.bounds(data);
      !(w <= 0 || h <= 0)
  }
}
