/** The unpadded URL-safe base64 of plan tokens: section 5 of RFC 4648, with the padding removed. */
module Base64 {
  import opened Basics

  type Byte = x: int | 0 <= x < 256
  type Sextet = x: int | 0 <= x < 64

  function CharOf(v: Sextet): char {
    if v < 26 then ('A' as int + v) as char
    else if v < 52 then ('a' as int + v - 26) as char
    else if v < 62 then ('0' as int + v - 52) as char
    else if v == 62 then '-' else '_'
  }

  /** The decoder maps `-` and `_` to the standard alphabet first, so it reads `+` and `/` as well. */
  function ValueOf(c: char): Option<Sextet> {
    if 'A' <= c <= 'Z' then Some(c as int - 'A' as int)
    else if 'a' <= c <= 'z' then Some(c as int - 'a' as int + 26)
    else if '0' <= c <= '9' then Some(c as int - '0' as int + 52)
    else if c == '-' || c == '+' then Some(62)
    else if c == '_' || c == '/' then Some(63)
    else None
  }

  lemma CharIsReadBack(v: Sextet)
    ensures ValueOf(CharOf(v)) == Some(v) && CharOf(v) != '=' && CharOf(v) != '.'
  {
  }

  function Sextet0(a: Byte): Sextet { a / 4 }
  function Sextet1(a: Byte, b: Byte): Sextet { (a % 4) * 16 + b / 16 }
  function Sextet2(b: Byte, c: Byte): Sextet { (b % 16) * 4 + c / 64 }
  function Sextet3(c: Byte): Sextet { c % 64 }

  function Byte0(p: Sextet, q: Sextet): Byte { (p as int) * 4 + q / 16 }
  function Byte1(q: Sextet, r: Sextet): Byte { (q as int % 16) * 16 + r / 4 }
  function Byte2(r: Sextet, s: Sextet): Byte { (r as int % 4) * 64 + s }

  lemma GroupIsReadBack(a: Byte, b: Byte, c: Byte)
    ensures Byte0(Sextet0(a), Sextet1(a, b)) == a
    ensures Byte1(Sextet1(a, b), Sextet2(b, c)) == b
    ensures Byte2(Sextet2(b, c), Sextet3(c)) == c
  {
  }

  lemma SextetGroupIsReadBack(p: Sextet, q: Sextet, r: Sextet, s: Sextet)
    ensures Sextet0(Byte0(p, q)) == p
    ensures Sextet1(Byte0(p, q), Byte1(q, r)) == q
    ensures Sextet2(Byte1(q, r), Byte2(r, s)) == r
    ensures Sextet3(Byte2(r, s)) == s
  {
  }

  /** Three bytes make four sextets; a missing byte counts as zero. */
  function Sextets(x: seq<Byte>): (v: seq<Sextet>)
    ensures |v| == |x| / 3 * 4 + (if |x| % 3 == 0 then 0 else |x| % 3 + 1)
  {
    if |x| == 0 then []
    else if |x| == 1 then [Sextet0(x[0]), Sextet1(x[0], 0)]
    else if |x| == 2 then [Sextet0(x[0]), Sextet1(x[0], x[1]), Sextet2(x[1], 0)]
    else [Sextet0(x[0]), Sextet1(x[0], x[1]), Sextet2(x[1], x[2]), Sextet3(x[2])] + Sextets(x[3..])
  }

  /** A single sextet left over stands for no byte at all. */
  function BytesOf(v: seq<Sextet>): Option<seq<Byte>> {
    if |v| == 0 then Some([])
    else if |v| == 1 then None
    else if |v| == 2 then Some([Byte0(v[0], v[1])])
    else if |v| == 3 then Some([Byte0(v[0], v[1]), Byte1(v[1], v[2])])
    else
      var rest := BytesOf(v[4..]);
      if rest.None? then None else Some([Byte0(v[0], v[1]), Byte1(v[1], v[2]), Byte2(v[2], v[3])] + rest.value)
  }

  /** The sextets of the left-over group carry no further bits. */
  predicate CleanTail(v: seq<Sextet>) {
    && (|v| % 4 == 2 ==> v[|v| - 1] % 16 == 0)
    && (|v| % 4 == 3 ==> v[|v| - 1] % 4 == 0)
  }

  lemma ConsGroup(head: seq<Sextet>, tail: seq<Sextet>)
    requires |head| == 4
    ensures (head + tail)[4..] == tail && CleanTail(head + tail) == CleanTail(tail)
    ensures BytesOf(head + tail) == if BytesOf(tail).None? then None
              else Some([Byte0(head[0], head[1]), Byte1(head[1], head[2]), Byte2(head[2], head[3])]
                        + BytesOf(tail).value)
  {
    assert (head + tail)[4..] == tail;
  }

  lemma {:induction false} SextetsReadBack(x: seq<Byte>)
    ensures BytesOf(Sextets(x)) == Some(x) && CleanTail(Sextets(x))
    decreases |x|
  {
    if |x| >= 3 {
      SextetsReadBack(x[3..]);
      ConsGroup([Sextet0(x[0]), Sextet1(x[0], x[1]), Sextet2(x[1], x[2]), Sextet3(x[2])], Sextets(x[3..]));
      GroupIsReadBack(x[0], x[1], x[2]);
      assert x == [x[0], x[1], x[2]] + x[3..];
    } else if |x| == 2 {
      TwoBytesReadBack(x);
    } else if |x| == 1 {
      OneByteReadBack(x);
    }
  }

  lemma Shifted(q: nat, r: nat)
    ensures r < 4 ==> (q * 4 + r) / 4 == q && (q * 4 + r) % 4 == r
    ensures r < 16 ==> (q * 16 + r) / 16 == q && (q * 16 + r) % 16 == r
  {
  }

  lemma TailIsReadBack(a: Byte, b: Byte)
    ensures Byte0(Sextet0(a), Sextet1(a, 0)) == a && Sextet1(a, 0) % 16 == 0
    ensures Byte1(Sextet1(a, b), Sextet2(b, 0)) == b && Sextet2(b, 0) % 4 == 0
  {
    Shifted(a % 4, 0);
    Shifted(a % 4, b / 16);
    Shifted(b % 16, 0);
  }

  lemma OneReadBack(a: Byte)
    ensures BytesOf(Sextets([a])) == Some([a]) && CleanTail(Sextets([a]))
  {
    TailIsReadBack(a, 0);
    ShortBytes2(Sextet0(a), Sextet1(a, 0));
    ShortSextets(a, 0);
  }

  lemma TwoReadBack(a: Byte, b: Byte)
    ensures BytesOf(Sextets([a, b])) == Some([a, b]) && CleanTail(Sextets([a, b]))
  {
    GroupIsReadBack(a, b, 0);
    TailIsReadBack(a, b);
    ShortBytes3(Sextet0(a), Sextet1(a, b), Sextet2(b, 0));
    ShortSextets(a, b);
  }

  lemma TwoBytesReadBack(x: seq<Byte>)
    requires |x| == 2
    ensures BytesOf(Sextets(x)) == Some(x) && CleanTail(Sextets(x))
  {
    TwoReadBack(x[0], x[1]);
    assert x == [x[0], x[1]];
  }

  lemma OneByteReadBack(x: seq<Byte>)
    requires |x| == 1
    ensures BytesOf(Sextets(x)) == Some(x) && CleanTail(Sextets(x))
  {
    OneReadBack(x[0]);
    assert x == [x[0]];
  }

  lemma ShortBytes2(p: Sextet, q: Sextet)
    ensures BytesOf([p, q]) == Some([Byte0(p, q)]) && (CleanTail([p, q]) <==> q % 16 == 0)
  {
  }

  lemma ShortBytes3(p: Sextet, q: Sextet, r: Sextet)
    ensures BytesOf([p, q, r]) == Some([Byte0(p, q), Byte1(q, r)]) && (CleanTail([p, q, r]) <==> r % 4 == 0)
  {
  }

  /** Encoding what was decoded gives the sextets back exactly when no bits are left over. */
  lemma {:induction false} BytesReadBack(v: seq<Sextet>)
    requires BytesOf(v).Some?
    ensures Sextets(BytesOf(v).value) == v <==> CleanTail(v)
    decreases |v|
  {
    if |v| >= 4 {
      BytesReadBack(v[4..]);
      assert v == v[..4] + v[4..];
      ConsGroup(v[..4], v[4..]);
      SextetGroupIsReadBack(v[0], v[1], v[2], v[3]);
      ConsBytes([Byte0(v[0], v[1]), Byte1(v[1], v[2]), Byte2(v[2], v[3])], BytesOf(v[4..]).value);
      assert v[..4] == [v[0], v[1], v[2], v[3]];
    } else if |v| == 3 {
      ThreeSextetsReadBack(v);
    } else if |v| == 2 {
      TwoSextetsReadBack(v);
    }
  }

  lemma ConsBytes(head: seq<Byte>, tail: seq<Byte>)
    requires |head| == 3
    ensures Sextets(head + tail)
            == [Sextet0(head[0]), Sextet1(head[0], head[1]), Sextet2(head[1], head[2]), Sextet3(head[2])]
                + Sextets(tail)
  {
    assert (head + tail)[3..] == tail;
  }

  lemma TailSextets(p: Sextet, q: Sextet, r: Sextet)
    ensures Sextet0(Byte0(p, q)) == p && (Sextet1(Byte0(p, q), 0) == q <==> q % 16 == 0)
    ensures Sextet1(Byte0(p, q), Byte1(q, r)) == q && (Sextet2(Byte1(q, r), 0) == r <==> r % 4 == 0)
  {
  }

  lemma ShortSextets(a: Byte, b: Byte)
    ensures Sextets([a]) == [Sextet0(a), Sextet1(a, 0)]
    ensures Sextets([a, b]) == [Sextet0(a), Sextet1(a, b), Sextet2(b, 0)]
  {
  }

  lemma PairReadBack(p: Sextet, q: Sextet)
    ensures BytesOf([p, q]).Some? && (Sextets(BytesOf([p, q]).value) == [p, q] <==> CleanTail([p, q]))
  {
    TailSextets(p, q, 0);
    ShortBytes2(p, q);
    ShortSextets(Byte0(p, q), 0);
  }

  lemma TripleReadBack(p: Sextet, q: Sextet, r: Sextet)
    ensures BytesOf([p, q, r]).Some? && (Sextets(BytesOf([p, q, r]).value) == [p, q, r] <==> CleanTail([p, q, r]))
  {
    TailSextets(p, q, r);
    ShortBytes3(p, q, r);
    ShortSextets(Byte0(p, q), Byte1(q, r));
  }

  lemma TwoSextetsReadBack(v: seq<Sextet>)
    requires |v| == 2
    ensures BytesOf(v).Some? && (Sextets(BytesOf(v).value) == v <==> CleanTail(v))
  {
    PairReadBack(v[0], v[1]);
    assert v == [v[0], v[1]];
  }

  lemma ThreeSextetsReadBack(v: seq<Sextet>)
    requires |v| == 3
    ensures BytesOf(v).Some? && (Sextets(BytesOf(v).value) == v <==> CleanTail(v))
  {
    TripleReadBack(v[0], v[1], v[2]);
    assert v == [v[0], v[1], v[2]];
  }

  function CharsOf(v: seq<Sextet>): string {
    seq(|v|, i requires 0 <= i < |v| => CharOf(v[i]))
  }

  /** None if a character belongs to neither alphabet. */
  function ValuesOf(text: string): Option<seq<Sextet>> {
    if text == "" then Some([])
    else
      var first, rest := ValueOf(text[0]), ValuesOf(text[1..]);
      if first.None? || rest.None? then None else Some([first.value] + rest.value)
  }

  lemma {:induction false} CharsReadBack(v: seq<Sextet>)
    ensures ValuesOf(CharsOf(v)) == Some(v)
    ensures '=' !in CharsOf(v) && '.' !in CharsOf(v)
  {
    forall i | 0 <= i < |v|
      ensures CharsOf(v)[i] != '=' && CharsOf(v)[i] != '.'
    {
      CharIsReadBack(v[i]);
    }
    if v != [] {
      CharIsReadBack(v[0]);
      CharsReadBack(v[1..]);
      assert CharsOf(v)[1..] == CharsOf(v[1..]);
      assert v == [v[0]] + v[1..];
    }
  }

  function Pads(n: nat): string {
    seq(n, _ => '=')
  }

  /** How far n is from the next multiple of three. */
  function MissingOf3(n: nat): nat {
    if n % 3 == 0 then 0 else 3 - n % 3
  }

  /** How far n is from the next multiple of four. */
  function MissingOf4(n: nat): nat {
    if n % 4 == 0 then 0 else 4 - n % 4
  }

  /** The standard encoder pads to a multiple of four characters. */
  function EncodePadded(x: seq<Byte>): string {
    CharsOf(Sextets(x)) + Pads(MissingOf3(|x|))
  }

  /** `rstrip(b"=")`. */
  function StripPads(text: string): string {
    if text != "" && text[|text| - 1] == '=' then StripPads(text[..|text| - 1]) else text
  }

  function B64(x: seq<Byte>): string {
    StripPads(EncodePadded(x))
  }

  /** The strict decoder: whole groups of four, at most two pads, all at the end. */
  function DecodePadded(text: string): Option<seq<Byte>> {
    var data := StripPads(text);
    if |text| % 4 != 0 || |text| - |data| > 2 then None
    else
      var values := ValuesOf(data);
      if values.None? then None else BytesOf(values.value)
  }

  function Unb64(text: string): Option<seq<Byte>> {
    DecodePadded(text + Pads(MissingOf4(|text|)))
  }

  lemma {:induction false} PadsAreStripped(text: string, n: nat)
    requires text == "" || text[|text| - 1] != '='
    ensures StripPads(text + Pads(n)) == text
    decreases n
  {
    if n == 0 {
      assert text + Pads(0) == text;
    } else {
      assert (text + Pads(n))[..|text| + n - 1] == text + Pads(n - 1);
      PadsAreStripped(text, n - 1);
    }
  }

  lemma NoPadAtEnd(v: seq<Sextet>)
    ensures CharsOf(v) == "" || CharsOf(v)[|CharsOf(v)| - 1] != '='
  {
    if v != [] {
      CharIsReadBack(v[|v| - 1]);
    }
  }

  lemma B64IsPlain(x: seq<Byte>)
    ensures B64(x) == CharsOf(Sextets(x))
    ensures '.' !in B64(x) && '=' !in B64(x)
  {
    NoPadAtEnd(Sextets(x));
    PadsAreStripped(CharsOf(Sextets(x)), MissingOf3(|x|));
    CharsReadBack(Sextets(x));
  }

  lemma PadCount(n: nat)
    requires n % 4 != 1
    ensures (n + MissingOf4(n)) % 4 == 0 && MissingOf4(n) <= 2
  {
  }

  lemma DataDecodes(text: string, data: string, v: seq<Sextet>)
    requires |text| % 4 == 0 && StripPads(text) == data && |text| - |data| <= 2 && ValuesOf(data) == Some(v)
    ensures DecodePadded(text) == BytesOf(v)
  {
  }

  lemma PaddedLength(v: seq<Sextet>)
    requires |v| % 4 != 1
    ensures |CharsOf(v) + Pads(MissingOf4(|v|))| % 4 == 0
  {
    PadCount(|v|);
  }

  lemma PlainTextDecodes(v: seq<Sextet>)
    requires |v| % 4 != 1
    ensures Unb64(CharsOf(v)) == BytesOf(v)
  {
    var data := CharsOf(v);
    PadCount(|v|);
    NoPadAtEnd(v);
    PadsAreStripped(data, MissingOf4(|v|));
    PaddedLength(v);
    CharsReadBack(v);
    assert |data| == |v|;
    DataDecodes(data + Pads(MissingOf4(|v|)), data, v);
  }

  /** Decoding an encoded byte string gives it back, for all byte strings. */
  lemma DecodeAfterEncode(x: seq<Byte>)
    ensures Unb64(B64(x)) == Some(x)
  {
    B64IsPlain(x);
    PlainTextDecodes(Sextets(x));
    SextetsReadBack(x);
  }

  lemma EncodingIsInjective(x: seq<Byte>, y: seq<Byte>)
    requires B64(x) == B64(y)
    ensures x == y
  {
    DecodeAfterEncode(x);
    DecodeAfterEncode(y);
  }

  lemma CharOfValue(c: char)
    requires ValueOf(c).Some?
    ensures CharOf(ValueOf(c).value) == c <==> c != '+' && c != '/'
  {
  }

  lemma {:induction false} CharsOfValues(text: string)
    requires ValuesOf(text).Some?
    ensures CharsOf(ValuesOf(text).value) == text <==> '+' !in text && '/' !in text
  {
    if text != "" {
      CharOfValue(text[0]);
      CharsOfValues(text[1..]);
      var v := ValuesOf(text).value;
      assert CharsOf(v) == [CharOf(v[0])] + CharsOf(v[1..]);
      assert text == [text[0]] + text[1..];
    }
  }

  /** The one text among those that decode alike which the encoder writes. */
  predicate Canonical(text: string) {
    && '=' !in text && '+' !in text && '/' !in text
    && ValuesOf(text).Some? && CleanTail(ValuesOf(text).value)
  }

  /** Decoding and encoding gives this text back. */
  predicate GivenBack(text: string) {
    Unb64(text).Some? && B64(Unb64(text).value) == text
  }

  lemma PlainText(text: string)
    requires '=' !in text && Unb64(text).Some? && ValuesOf(text).Some?
    ensures Unb64(text) == BytesOf(ValuesOf(text).value)
  {
    PadsAreStripped(text, MissingOf4(|text|));
  }

  /** Several texts decode to the same bytes; encoding gives a text back exactly when it is the canonical one. */
  lemma EncodeAfterDecodeIff(text: string)
    requires Unb64(text).Some?
    ensures GivenBack(text) <==> Canonical(text)
  {
    var x := Unb64(text).value;
    B64IsPlain(x);
    CharsReadBack(Sextets(x));
    SextetsReadBack(x);
    if B64(x) == text {
      CharsOfValues(text);
    }
    if Canonical(text) {
      var v := ValuesOf(text).value;
      PlainText(text);
      BytesReadBack(v);
      CharsOfValues(text);
    }
  }
}
