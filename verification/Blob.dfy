/** Blobs on the Hrana wire: base64 after section 4 of RFC 4648, padded as in
    its section 3.2 by `arg` and unpadded by sqld. */
module Blob {
  import opened Api

  type Byte = x: int | 0 <= x < 256

  /** The alphabet of 64 letters. */
  function Letter(v: int): char
    requires 0 <= v < 64
  {
    if v < 26 then 'A' + v as char
    else if v < 52 then 'a' + (v - 26) as char
    else if v < 62 then '0' + (v - 52) as char
    else if v == 62 then '+' else '/'
  }

  /** The value of a letter of the alphabet, -1 for any other character. */
  function Code(c: char): (v: int)
    ensures -1 <= v < 64
    ensures v >= 0 ==> Letter(v) == c
  {
    if 'A' <= c <= 'Z' then c as int - 'A' as int
    else if 'a' <= c <= 'z' then c as int - 'a' as int + 26
    else if '0' <= c <= '9' then c as int - '0' as int + 52
    else if c == '+' then 62 else if c == '/' then 63 else -1
  }

  lemma {:induction false} CodeOfLetter(v: int)
    requires 0 <= v < 64
    ensures Code(Letter(v)) == v
  {
  }

  // ---- Encoding ----

  function Sextets(x: int, y: int, z: int): (r: seq<int>)
    requires 0 <= x < 256 && 0 <= y < 256 && 0 <= z < 256
    ensures |r| == 4 && forall i :: 0 <= i < 4 ==> 0 <= r[i] < 64
  {
    [x / 4, x % 4 * 16 + y / 16, y % 16 * 4 + z / 64, z % 64]
  }

  /** The letters of one, two or three bytes. */
  function Quantum(b: seq<Byte>): (s: string)
    requires 1 <= |b| <= 3
    ensures |s| == |b| + 1
  {
    var v := Sextets(b[0], if |b| > 1 then b[1] else 0, if |b| > 2 then b[2] else 0);
    [Letter(v[0]), Letter(v[1])] + (if |b| > 1 then [Letter(v[2])] else []) + (if |b| > 2 then [Letter(v[3])] else [])
  }

  /** Unpadded: what sqld sends. */
  function RawEncoding(b: seq<Byte>): string {
    if |b| == 0 then "" else if |b| <= 3 then Quantum(b) else Quantum(b[..3]) + RawEncoding(b[3..])
  }

  function Padding(n: nat): string {
    if n % 3 == 1 then "==" else if n % 3 == 2 then "=" else ""
  }

  /** Padded to whole groups of four: what arg sends. */
  function StdEncoding(b: seq<Byte>): string { RawEncoding(b) + Padding(|b|) }

  // ---- Decoding ----

  function TrimPadding(s: string): string {
    if |s| > 0 && s[|s| - 1] == '=' then TrimPadding(s[..|s| - 1]) else s
  }

  /** Line breaks are skipped. */
  function WithoutBreaks(s: string): string {
    if |s| == 0 then "" else if s[0] == '\r' || s[0] == '\n' then WithoutBreaks(s[1..])
      else [s[0]] + WithoutBreaks(s[1..])
  }

  /** The bytes of two, three or four letters; left-over bits are dropped. */
  function Octets(s: string): (r: seq<Byte>)
    requires 2 <= |s| <= 4 && forall i :: 0 <= i < |s| ==> Code(s[i]) >= 0
    ensures |r| == |s| - 1
  {
    var a, b := Code(s[0]), Code(s[1]);
    var c, d := if |s| > 2 then Code(s[2]) else 0, if |s| > 3 then Code(s[3]) else 0;
    [(a * 4 + b / 16)] + (if |s| > 2 then [(b % 16 * 16 + c / 4)] else [])
      + (if |s| > 3 then [(c % 4 * 64 + d)] else [])
  }

  predicate InAlphabet(s: string) { forall i :: 0 <= i < |s| ==> Code(s[i]) >= 0 }

  /** base64.RawStdEncoding.DecodeString on text without line breaks. */
  function RawDecoding(s: string): Option<seq<Byte>>
    decreases |s|
  {
    if |s| == 0 then Some([])
    else if |s| == 1 || !InAlphabet(s[..if |s| < 4 then |s| else 4]) then None
    else if |s| <= 4 then Some(Octets(s))
    else
      var rest := RawDecoding(s[4..]);
      if rest.None? then None else Some(Octets(s[..4]) + rest.value)
  }

  /** blob: nil on any error. */
  function BlobOf(base64: string): seq<Byte> {
    var r := RawDecoding(WithoutBreaks(TrimPadding(base64)));
    if r.None? then [] else r.value
  }

  // ---- Round trips ----

  /** Four sextets hold exactly three octets. */
  lemma {:induction false} SextetsHold(x: Byte, y: Byte, z: Byte)
    ensures var v := Sextets(x, y, z);
            v[0] * 4 + v[1] / 16 == x && v[1] % 16 * 16 + v[2] / 4 == y && v[2] % 4 * 64 + v[3] == z
  {
  }

  lemma {:induction false} QuantumCodes(b: seq<Byte>, v: seq<int>)
    requires 1 <= |b| <= 3 && v == Sextets(b[0], if |b| > 1 then b[1] else 0, if |b| > 2 then b[2] else 0)
    requires forall i :: 0 <= i < 4 ==> Code(Letter(v[i])) == v[i]
    requires v[0] * 4 + v[1] / 16 == b[0]
    requires |b| > 1 ==> v[1] % 16 * 16 + v[2] / 4 == b[1]
    requires |b| > 2 ==> v[2] % 4 * 64 + v[3] == b[2]
    ensures InAlphabet(Quantum(b)) && Octets(Quantum(b)) == b
  {
    var q := Quantum(b);
    assert Code(q[0]) == v[0] && Code(q[1]) == v[1];
    assert |b| > 1 ==> Code(q[2]) == v[2];
    assert |b| > 2 ==> Code(q[3]) == v[3];
  }

  lemma {:induction false} OctetsOfQuantum(b: seq<Byte>)
    requires 1 <= |b| <= 3
    ensures InAlphabet(Quantum(b)) && Octets(Quantum(b)) == b
  {
    var x, y, z := b[0], if |b| > 1 then b[1] else 0, if |b| > 2 then b[2] else 0;
    var v := Sextets(x, y, z);
    SextetsHold(x, y, z);
    forall i | 0 <= i < 4 ensures Code(Letter(v[i])) == v[i] {
      CodeOfLetter(v[i]);
    }
    QuantumCodes(b, v);
  }

  lemma {:induction false} AlphabetAppend(s: string, t: string)
    ensures InAlphabet(s + t) <==> InAlphabet(s) && InAlphabet(t)
  {
    assert forall i :: 0 <= i < |s| ==> (s + t)[i] == s[i];
    assert forall i :: 0 <= i < |t| ==> (s + t)[|s| + i] == t[i];
  }

  /** Decoding goes group by group. */
  lemma {:induction false} DecodeGroup(g: string, s: string)
    requires |g| == 4 && InAlphabet(g)
    ensures RawDecoding(g + s) == if RawDecoding(s).None? then None else Some(Octets(g) + RawDecoding(s).value)
  {
    assert (g + s)[..4] == g && (g + s)[4..] == s;
    if s == "" {
      assert g + s == g;
      assert Octets(g) + [] == Octets(g);
    }
  }

  lemma {:induction false} RawRoundTrip(b: seq<Byte>)
    ensures RawDecoding(RawEncoding(b)) == Some(b)
    ensures InAlphabet(RawEncoding(b))
  {
    if |b| == 0 {
    } else if |b| <= 3 {
      OctetsOfQuantum(b);
      assert Quantum(b)[..|b| + 1] == Quantum(b);
    } else {
      OctetsOfQuantum(b[..3]);
      RawRoundTrip(b[3..]);
      DecodeGroup(Quantum(b[..3]), RawEncoding(b[3..]));
      AlphabetAppend(Quantum(b[..3]), RawEncoding(b[3..]));
      assert b[..3] + b[3..] == b;
    }
  }

  lemma {:induction false} NoBreaks(s: string)
    requires InAlphabet(s)
    ensures WithoutBreaks(s) == s
  {
    if |s| > 0 {
      assert forall i :: 0 <= i < |s[1..]| ==> s[1..][i] == s[i + 1];
      NoBreaks(s[1..]);
      assert Code(s[0]) >= 0 && s == [s[0]] + s[1..];
    }
  }

  lemma {:induction false} NothingToTrim(s: string)
    requires InAlphabet(s)
    ensures WithoutBreaks(s) == s && TrimPadding(s) == s
  {
    NoBreaks(s);
    assert |s| > 0 ==> Code(s[|s| - 1]) >= 0;
  }

  lemma {:induction false} OneTrimmed(s: string)
    ensures TrimPadding(s + "=") == TrimPadding(s)
  {
    assert (s + "=")[..|s|] == s;
  }

  lemma {:induction false} PaddingIsTrimmed(s: string, n: nat)
    requires InAlphabet(s)
    ensures TrimPadding(s + Padding(n)) == s
  {
    NothingToTrim(s);
    OneTrimmed(s);
    OneTrimmed(s + "=");
    assert s + "=" + "=" == s + "==" && s + "" == s;
  }

  /** For every byte sequence blob recovers it from the padded form arg emits
      and from the unpadded form sqld emits. */
  lemma {:induction false} BlobRoundTrip(b: seq<Byte>)
    ensures BlobOf(StdEncoding(b)) == b
    ensures BlobOf(RawEncoding(b)) == b
    ensures TrimPadding(StdEncoding(b)) == RawEncoding(b)
  {
    RawRoundTrip(b);
    NothingToTrim(RawEncoding(b));
    PaddingIsTrimmed(RawEncoding(b), |b|);
  }

  function RawLength(n: nat): nat { n / 3 * 4 + if n % 3 == 0 then 0 else n % 3 + 1 }

  lemma {:induction false} RawLengthStep(n: nat)
    requires n > 3
    ensures RawLength(n) == RawLength(n - 3) + 4
  {
    assert n == (n - 3) + 3;
    assert n / 3 == (n - 3) / 3 + 1;
  }

  lemma {:induction false} PaddedLength(n: nat)
    ensures (RawLength(n) + |Padding(n)|) % 4 == 0
  {
    var q := n / 3;
    assert RawLength(n) + |Padding(n)| == (if n % 3 == 0 then q else q + 1) * 4;
  }

  /** Three bytes become four letters, and padding fills the last group. */
  lemma {:induction false} EncodedLength(b: seq<Byte>)
    ensures |RawEncoding(b)| == RawLength(|b|)
    ensures |StdEncoding(b)| % 4 == 0
  {
    if |b| > 3 {
      EncodedLength(b[3..]);
      RawLengthStep(|b|);
    }
    PaddedLength(|b|);
  }

  lemma {:induction false} FirstFour(s: string)
    requires |s| > 4
    ensures RawDecoding(s).Some? <==> InAlphabet(s[..4]) && RawDecoding(s[4..]).Some?
  {
  }

  /** Text is refused exactly for a foreign character or a lone last letter. */
  lemma {:induction false} DecodesIff(s: string)
    ensures RawDecoding(s).Some? <==> InAlphabet(s) && |s| % 4 != 1
    decreases |s|
  {
    if |s| <= 4 {
      assert s[..|s|] == s;
    } else {
      var head, tail := s[..4], s[4..];
      assert s == head + tail && |tail| % 4 == |s| % 4;
      DecodesIff(tail);
      AlphabetAppend(head, tail);
      FirstFour(s);
    }
  }

  // ---- Which texts blob reads ----

  predicate IsBreak(c: char) { c == '\r' || c == '\n' }

  /** Apart from trailing padding there are only letters and line breaks, and no lone last letter. */
  predicate Readable(text: string) {
    var t := TrimPadding(text);
    && (forall i :: 0 <= i < |t| ==> IsBreak(t[i]) || Code(t[i]) >= 0)
    && |WithoutBreaks(t)| % 4 != 1
  }

  function OctetCount(letters: nat): nat { letters / 4 * 3 + if letters % 4 < 2 then 0 else letters % 4 - 1 }

  lemma {:induction false} BreaksAside(s: string)
    ensures InAlphabet(WithoutBreaks(s)) <==> forall i :: 0 <= i < |s| ==> IsBreak(s[i]) || Code(s[i]) >= 0
  {
    if |s| > 0 {
      BreaksAside(s[1..]);
      assert s == [s[0]] + s[1..];
      if !IsBreak(s[0]) { AlphabetAppend([s[0]], WithoutBreaks(s[1..])); }
    }
  }

  lemma {:induction false} OctetCountStep(n: nat)
    requires n > 4
    ensures OctetCount(n) == OctetCount(n - 4) + 3
  {
    assert n == (n - 4) + 4;
    assert n / 4 == (n - 4) / 4 + 1;
  }

  lemma {:induction false} DecodedLength(s: string)
    requires RawDecoding(s).Some?
    ensures |RawDecoding(s).value| == OctetCount(|s|)
    decreases |s|
  {
    if |s| > 4 {
      DecodedLength(s[4..]);
      OctetCountStep(|s|);
    }
  }

  /** blob decodes a text exactly if it is readable, to the bytes its letters
      hold; on any other text it gives nothing. */
  lemma {:induction false} BlobReadsIff(text: string)
    ensures RawDecoding(WithoutBreaks(TrimPadding(text))).Some? <==> Readable(text)
    ensures |BlobOf(text)| == if Readable(text) then OctetCount(|WithoutBreaks(TrimPadding(text))|) else 0
  {
    var t := TrimPadding(text);
    BreaksAside(t);
    DecodesIff(WithoutBreaks(t));
    if Readable(text) { DecodedLength(WithoutBreaks(t)); }
  }
}
