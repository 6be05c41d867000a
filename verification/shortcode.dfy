/**
 `hexToAscii`: currency keys arrive from the index as `0x`-prefixed hex of a
 right-zero-padded byte string. The decoder walks the text in two-character
 chunks from index 2 (the first two characters are skipped unchecked), drops
 every chunk that is exactly `00`, and turns every other chunk into the
 character whose code is the chunk's hexadecimal value. An odd-length tail is
 decoded as a one-digit chunk.
 */
module ShortCode {

  predicate IsHexDigit(c: char) {
    '0' <= c <= '9' || 'a' <= c <= 'f' || 'A' <= c <= 'F'
  }

  /** Every character from index `n` on is a hex digit. */
  predicate HexFrom(s: string, n: nat) {
    forall i | n <= i < |s| :: IsHexDigit(s[i])
  }

  function DigitValue(c: char): (v: nat)
    requires IsHexDigit(c)
    ensures v < 16
  {
    if '0' <= c <= '9' then c as int - '0' as int
    else if 'a' <= c <= 'f' then c as int - 'a' as int + 10
    else c as int - 'A' as int + 10
  }

  /** `parseInt(chunk, 16)` for a chunk of one or two hex digits. */
  function ChunkValue(chunk: string): (v: nat)
    requires 1 <= |chunk| <= 2
    requires HexFrom(chunk, 0)
    ensures v < 256
  {
    if |chunk| == 1 then DigitValue(chunk[0])
    else 16 * DigitValue(chunk[0]) + DigitValue(chunk[1])
  }

  /**
   `s.substr(start, length)` for non-negative arguments: the characters from
   `start` on, at most `length` of them, and none when `start` is past the end.
   */
  function Substr(s: string, start: nat, length: nat): (r: string)
    ensures |r| == if start >= |s| then 0 else if start + length >= |s| then |s| - start else length
    ensures forall i | 0 <= i < |r| :: r[i] == s[start + i]
  {
    if start >= |s| then ""
    else if start + length >= |s| then s[start..]
    else s[start..start + length]
  }

  /** The loop of `hexToAscii` from position `n` on. */
  function DecodeFrom(s: string, n: nat): (r: string)
    requires HexFrom(s, n)
    ensures n >= |s| ==> r == ""
    ensures n < |s| ==> 2 * |r| <= |s| - n + 1
    decreases |s| - n
  {
    if n >= |s| then ""
    else Emit(Substr(s, n, 2)) + DecodeFrom(s, n + 2)
  }

  /** The chunk is exactly `00`. */
  predicate IsZeroPair(chunk: string) {
    |chunk| == 2 && chunk[0] == '0' && chunk[1] == '0'
  }

  /** What one chunk contributes: nothing for `00`, else its character. */
  function Emit(chunk: string): (r: string)
    requires 1 <= |chunk| <= 2 && HexFrom(chunk, 0)
    ensures |r| <= 1
  {
    if IsZeroPair(chunk) then "" else [ChunkValue(chunk) as char]
  }

  /** One step of the loop at position `n`. */
  lemma DecodeStep(s: string, n: nat)
    requires n < |s| && HexFrom(s, n)
    ensures 1 <= |Substr(s, n, 2)| <= 2 && HexFrom(Substr(s, n, 2), 0)
    ensures DecodeFrom(s, n) == Emit(Substr(s, n, 2)) + DecodeFrom(s, n + 2)
  {
  }

  /** Every character the loop emits has a code below 256. */
  lemma {:induction false} DecodeFromBytes(s: string, n: nat)
    requires HexFrom(s, n)
    ensures forall i | 0 <= i < |DecodeFrom(s, n)| :: DecodeFrom(s, n)[i] as int < 256
    decreases |s| - n
  {
    if n < |s| {
      DecodeStep(s, n);
      DecodeFromBytes(s, n + 2);
    }
  }

  /** The number of chunks the loop visits: ⌈(|s| − 2) / 2⌉, or none. */
  function NumChunks(s: string): nat {
    if |s| <= 2 then 0 else (|s| - 1) / 2
  }

  /**
   JavaScript indexes strings in UTF-16 code units. Hex digits are one unit
   each, so positions agree with Dafny's as long as the two characters the
   decoder skips are one unit each too.
   */
  predicate OneUnitPrefix(s: string) {
    forall i | 0 <= i < 2 && i < |s| :: s[i] as int < 0x1_0000
  }

  /** `hexToAscii(s)`. */
  function HexToAscii(s: string): (r: string)
    requires HexFrom(s, 2) && OneUnitPrefix(s)
    ensures |r| <= NumChunks(s)
    ensures |s| <= 2 ==> r == ""
    ensures forall i | 0 <= i < |r| :: r[i] as int < 256
  {
    DecodeFromBytes(s, 2);
    DecodeFrom(s, 2)
  }

  /** Chunk `k`: the two characters at index 2 + 2k, or one at the odd tail. */
  function Chunk(s: string, k: nat): (c: string)
    requires k < NumChunks(s)
    ensures 1 <= |c| <= 2
    ensures |c| == 1 <==> 2 * k + 3 == |s|
    ensures HexFrom(s, 2) ==> HexFrom(c, 0)
  {
    Substr(s, 2 + 2 * k, 2)
  }

  /** The indices of the chunks from `k` on that are not `00`, ascending. */
  function KeptFrom(s: string, k: nat): (r: seq<nat>)
    ensures forall a | 0 <= a < |r| :: k <= r[a] < NumChunks(s) && !IsZeroPair(Chunk(s, r[a]))
    decreases NumChunks(s) - k
  {
    if k >= NumChunks(s) then []
    else
      var rest := KeptFrom(s, k + 1);
      if !IsZeroPair(Chunk(s, k)) then [k] + rest else rest
  }

  /** KeptFrom lists every chunk index from `k` on that is not `00`. */
  lemma {:induction false} KeptFromComplete(s: string, k: nat)
    ensures forall j: nat | k <= j < NumChunks(s) && !IsZeroPair(Chunk(s, j)) :: j in KeptFrom(s, k)
    decreases NumChunks(s) - k
  {
    if k < NumChunks(s) {
      KeptFromComplete(s, k + 1);
    }
  }

  /** KeptFrom lists its indices in strictly ascending order. */
  lemma {:induction false} KeptFromAscending(s: string, k: nat)
    ensures forall a, b | 0 <= a < b < |KeptFrom(s, k)| :: KeptFrom(s, k)[a] < KeptFrom(s, k)[b]
    decreases NumChunks(s) - k
  {
    if k < NumChunks(s) {
      KeptFromAscending(s, k + 1);
      var rest := KeptFrom(s, k + 1);
      if !IsZeroPair(Chunk(s, k)) {
        var r := KeptFrom(s, k);
        assert r == [k] + rest;
        forall a, b | 0 <= a < b < |r| ensures r[a] < r[b] {
          if a == 0 {
            assert r[b] == rest[b - 1];
          } else {
            assert r[a] == rest[a - 1] && r[b] == rest[b - 1];
          }
        }
      }
    }
  }

  /** The indices of all chunks that are not `00`, ascending. */
  function KeptChunks(s: string): (r: seq<nat>)
    ensures forall a | 0 <= a < |r| :: r[a] < NumChunks(s) && !IsZeroPair(Chunk(s, r[a]))
    ensures forall j: nat | j < NumChunks(s) && !IsZeroPair(Chunk(s, j)) :: j in r
    ensures forall a, b | 0 <= a < b < |r| :: r[a] < r[b]
  {
    KeptFromComplete(s, 0);
    KeptFromAscending(s, 0);
    KeptFrom(s, 0)
  }

  /** The character a chunk stands for. */
  function ChunkChar(s: string, k: nat): char
    requires HexFrom(s, 2) && k < NumChunks(s)
  {
    ChunkValue(Chunk(s, k)) as char
  }

  /** The characters of the listed chunks, in list order. */
  function CharsOf(s: string, ks: seq<nat>): (r: string)
    requires HexFrom(s, 2)
    requires forall a | 0 <= a < |ks| :: ks[a] < NumChunks(s)
    ensures |r| == |ks|
    ensures forall j | 0 <= j < |ks| :: r[j] == ChunkChar(s, ks[j])
    decreases |ks|
  {
    if ks == [] then "" else [ChunkChar(s, ks[0])] + CharsOf(s, ks[1..])
  }

  lemma {:induction false} DecodeFromChunks(s: string, k: nat)
    requires HexFrom(s, 2)
    requires k <= NumChunks(s)
    ensures DecodeFrom(s, 2 + 2 * k) == CharsOf(s, KeptFrom(s, k))
    decreases NumChunks(s) - k
  {
    if k < NumChunks(s) {
      var n := 2 + 2 * k;
      DecodeFromChunks(s, k + 1);
      DecodeStep(s, n);
      var ks := KeptFrom(s, k + 1);
      assert n + 2 == 2 + 2 * (k + 1);
      var c := Chunk(s, k);
      assert Substr(s, n, 2) == c;
      if !IsZeroPair(c) {
        assert KeptFrom(s, k) == [k] + ks;
        assert ([k] + ks)[1..] == ks;
      }
    }
  }

  /**
   One character per chunk that is not `00`, in chunk order: the j-th output
   character is the value of the j-th kept chunk.
   */
  lemma DecodeIsChunkwise(s: string)
    requires HexFrom(s, 2) && OneUnitPrefix(s)
    ensures HexToAscii(s) == CharsOf(s, KeptChunks(s))
    ensures |HexToAscii(s)| == |KeptChunks(s)|
    ensures forall j | 0 <= j < |KeptChunks(s)| ::
              HexToAscii(s)[j] as int == ChunkValue(Chunk(s, KeptChunks(s)[j]))
  {
    DecodeFromChunks(s, 0);
  }

  /** The decoder reads only the text from `n` on. */
  lemma {:induction false} DecodeFromSuffix(s: string, n: nat, t: string, m: nat)
    requires n <= |s| && m <= |t|
    requires s[n..] == t[m..]
    requires HexFrom(s, n)
    ensures HexFrom(t, m)
    ensures DecodeFrom(s, n) == DecodeFrom(t, m)
    decreases |s| - n
  {
    assert forall i | m <= i < |t| :: t[i] == s[n + i - m] by {
      forall i | m <= i < |t| ensures t[i] == s[n + i - m] {
        assert t[i] == t[m..][i - m];
      }
    }
    if n < |s| {
      assert Substr(s, n, 2) == Substr(t, m, 2) by {
        if n + 2 >= |s| {
          assert Substr(s, n, 2) == s[n..];
        } else {
          assert s[n..n + 2] == s[n..][..2] == t[m..][..2] == t[m..m + 2];
        }
      }
      if n + 2 <= |s| {
        assert s[n + 2..] == s[n..][2..] == t[m..][2..] == t[m + 2..];
        DecodeFromSuffix(s, n + 2, t, m + 2);
      }
    }
  }

  /** A run of `00` pairs decodes to nothing. */
  lemma {:induction false} ZeroPairsDecodeEmpty(s: string, n: nat)
    requires forall i | n <= i < |s| :: s[i] == '0'
    requires (|s| - n) % 2 == 0 || n >= |s|
    ensures HexFrom(s, n)
    ensures DecodeFrom(s, n) == ""
    decreases |s| - n
  {
    if n < |s| {
      assert IsZeroPair(Substr(s, n, 2));
      ZeroPairsDecodeEmpty(s, n + 2);
    }
  }

  lemma HexAroundZeroPair(p: string, q: string)
    requires |p| >= 2
    requires HexFrom(p + q, 2)
    ensures HexFrom(p + "00" + q, 2)
  {
    var s := p + "00" + q;
    var t := p + q;
    forall i | 2 <= i < |s| ensures IsHexDigit(s[i]) {
      if i >= |p| + 2 {
        assert s[i] == q[i - |p| - 2] == t[i - 2];
      } else if i < |p| {
        assert s[i] == p[i] == t[i];
      }
    }
  }

  /** A `00` chunk at position `n` emits nothing. */
  lemma ZeroPairEmitsNothing(s: string, n: nat)
    requires n + 2 <= |s|
    requires s[n] == '0' && s[n + 1] == '0'
    requires HexFrom(s, n)
    ensures DecodeFrom(s, n) == DecodeFrom(s, n + 2)
  {
    assert IsZeroPair(Substr(s, n, 2));
  }

  /**
   Decoding `p + "00" + q` and `p + q` from the same even position up to the
   end of `p` visits the same chunks, and then the `00` pair emits nothing.
   */
  lemma {:induction false} SkipFrom(p: string, q: string, n: nat)
    requires n <= |p| && (|p| - n) % 2 == 0
    requires HexFrom(p + "00" + q, n) && HexFrom(p + q, n)
    ensures DecodeFrom(p + "00" + q, n) == DecodeFrom(p + q, n)
    decreases |p| - n
  {
    var s := p + "00" + q;
    var t := p + q;
    if n == |p| {
      assert s[n] == '0' && s[n + 1] == '0';
      ZeroPairEmitsNothing(s, n);
      assert s[n + 2..] == q == t[n..];
      DecodeFromSuffix(s, n + 2, t, n);
    } else {
      DecodeStep(s, n);
      DecodeStep(t, n);
      assert Substr(s, n, 2) == p[n..n + 2] == Substr(t, n, 2);
      SkipFrom(p, q, n + 2);
    }
  }

  /**
   A `00` pair at any chunk boundary is skipped and decoding carries on
   after it: inserting one changes nothing.
   */
  lemma SkipsZeroPair(p: string, q: string)
    requires |p| >= 2 && |p| % 2 == 0
    requires HexFrom(p + q, 2) && OneUnitPrefix(p)
    ensures HexFrom(p + "00" + q, 2)
    ensures OneUnitPrefix(p + "00" + q) && OneUnitPrefix(p + q)
    ensures HexToAscii(p + "00" + q) == HexToAscii(p + q)
  {
    HexAroundZeroPair(p, q);
    assert (p + "00" + q)[..2] == p[..2] == (p + q)[..2];
    SkipFrom(p, q, 2);
  }

  /** All-zero input of even length decodes to the empty string. */
  lemma AllZeroDecodesEmpty(s: string)
    requires |s| % 2 == 0 && OneUnitPrefix(s)
    requires forall i | 2 <= i < |s| :: s[i] == '0'
    ensures HexFrom(s, 2)
    ensures HexToAscii(s) == ""
  {
    ZeroPairsDecodeEmpty(s, 2);
  }

  /** From an even distance before an odd all-zero tail, only the last `0` emits. */
  lemma {:induction false} ZeroTailFrom(s: string, n: nat)
    requires n < |s| && (|s| - n) % 2 == 1
    requires forall i | n <= i < |s| :: s[i] == '0'
    ensures HexFrom(s, n)
    ensures DecodeFrom(s, n) == [0 as char]
    decreases |s| - n
  {
    DecodeStep(s, n);
    if n + 1 == |s| {
      assert |Substr(s, n, 2)| == 1;
    } else {
      assert IsZeroPair(Substr(s, n, 2));
      ZeroTailFrom(s, n + 2);
    }
  }

  /** An odd-length tail `0` is not a `00` pair: it decodes to code 0. */
  lemma OddZeroTail(s: string)
    requires |s| > 2 && |s| % 2 == 1 && OneUnitPrefix(s)
    requires forall i | 2 <= i < |s| :: s[i] == '0'
    ensures HexFrom(s, 2)
    ensures HexToAscii(s) == [0 as char]
  {
    ZeroTailFrom(s, 2);
  }

  // The encoding side: how a ticker becomes the index's padded hex text.

  /** The lower-case hex digit for a value below 16. */
  function HexDigit(v: nat): (c: char)
    requires v < 16
    ensures IsHexDigit(c)
    ensures DigitValue(c) == v
  {
    "0123456789abcdef"[v]
  }

  /** Two hex digits for one byte. */
  function EncodeByte(b: nat): (r: string)
    requires b < 256
    ensures |r| == 2 && HexFrom(r, 0)
    ensures ChunkValue(r) == b
  {
    [HexDigit(b / 16), HexDigit(b % 16)]
  }

  /** Characters that a key can carry: non-zero single-byte codes. */
  predicate IsKeyText(t: string) {
    forall i | 0 <= i < |t| :: 0 < t[i] as int < 256
  }

  function EncodeBody(t: string): (r: string)
    requires IsKeyText(t)
    ensures |r| == 2 * |t|
    ensures HexFrom(r, 0)
  {
    if t == [] then ""
    else
      var head := EncodeByte(t[0] as int);
      var rest := EncodeBody(t[1..]);
      assert forall i | 2 <= i < |head + rest| :: (head + rest)[i] == rest[i - 2];
      head + rest
  }

  /** `0x` followed by `padPairs` zero bytes after the encoded text. */
  function EncodePadded(t: string, padPairs: nat): (r: string)
    requires IsKeyText(t)
    ensures |r| == 2 + 2 * |t| + 2 * padPairs
    ensures r[0] == '0' && r[1] == 'x'
    ensures HexFrom(r, 2) && OneUnitPrefix(r)
  {
    var body := EncodeBody(t);
    var pad := seq(2 * padPairs, _ => '0');
    var r := "0x" + body + pad;
    assert forall i | 2 <= i < 2 + |body| :: r[i] == body[i - 2];
    r
  }

  /** A chunk that is a whole pair other than `00` emits its character. */
  lemma DecodePair(s: string, n: nat)
    requires n + 2 <= |s|
    requires HexFrom(s, n)
    requires !IsZeroPair(s[n..n + 2])
    ensures DecodeFrom(s, n) == [ChunkValue(s[n..n + 2]) as char] + DecodeFrom(s, n + 2)
  {
    assert Substr(s, n, 2) == s[n..n + 2];
  }

  /** Encoding a non-empty text puts its first byte right after `0x`. */
  lemma EncodePaddedCons(t: string, padPairs: nat)
    requires IsKeyText(t) && t != []
    ensures IsKeyText(t[1..])
    ensures EncodePadded(t, padPairs)[2..4] == EncodeByte(t[0] as int)
    ensures !IsZeroPair(EncodePadded(t, padPairs)[2..4])
    ensures ChunkValue(EncodePadded(t, padPairs)[2..4]) as char == t[0]
    ensures EncodePadded(t, padPairs)[4..] == EncodePadded(t[1..], padPairs)[2..]
  {
    var pad := seq(2 * padPairs, _ => '0');
    var head := EncodeByte(t[0] as int);
    assert IsKeyText(t[1..]);
    assert EncodeBody(t) == head + EncodeBody(t[1..]);
    assert EncodePadded(t, padPairs) == "0x" + head + (EncodeBody(t[1..]) + pad);
    assert EncodePadded(t[1..], padPairs) == "0x" + (EncodeBody(t[1..]) + pad);
  }

  /**
   Decoding undoes encoding, whatever zero padding follows: the round trip
   that recovers a ticker from its right-padded byte form.
   */
  lemma {:induction false} DecodeEncodePadded(t: string, padPairs: nat)
    requires IsKeyText(t)
    ensures HexToAscii(EncodePadded(t, padPairs)) == t
    decreases |t|
  {
    var s := EncodePadded(t, padPairs);
    if t == [] {
      assert forall i | 2 <= i < |s| :: s[i] == '0';
      ZeroPairsDecodeEmpty(s, 2);
    } else {
      EncodePaddedCons(t, padPairs);
      var s' := EncodePadded(t[1..], padPairs);
      DecodePair(s, 2);
      DecodeFromSuffix(s, 4, s', 2);
      DecodeEncodePadded(t[1..], padPairs);
      assert t == [t[0]] + t[1..];
    }
  }

  /** Example: `0x4f4b5300` decodes to `OKS`, the zero pair skipped. */
  lemma DecodeExample()
    ensures HexFrom("0x4f4b5300", 2) && OneUnitPrefix("0x4f4b5300")
    ensures HexToAscii("0x4f4b5300") == "OKS"
  {
    assert IsKeyText("OKS");
    assert EncodePadded("OKS", 1) == "0x4f4b5300";
    DecodeEncodePadded("OKS", 1);
  }
}
