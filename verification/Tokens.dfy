/** The signed, time-limited tokens that carry a download plan or a local import plan. */
module Tokens {
  import opened Basics
  import opened Base64

  /** The signed document; times count microseconds. */
  datatype Document<P> = Document(format: string, issuedAt: int, expiresAt: int, context: string, plan: P)

  /** What the tokens use without knowing it: the MAC, and JSON with its inverse. */
  datatype Crypto<!P> = Crypto(
    mac: (seq<Byte>, seq<Byte>) -> seq<Byte>,
    encode: Document<P> -> seq<Byte>,
    decode: seq<Byte> -> Option<Document<P>>)

  /** Parsing what has been printed gives the document back. */
  ghost predicate Faithful<P(!new)>(c: Crypto<P>) {
    forall d :: c.decode(c.encode(d)) == Some(d)
  }

  const SECOND: nat := 1_000_000
  const MAX_TTL_SECONDS: nat := 1_800
  const MAX_TOKEN_CHARS: nat := 16_384
  const MIN_SECRET_BYTES: nat := 32

  /** `split(".")`. */
  function Split(text: string): (parts: seq<string>)
    ensures |parts| >= 1
  {
    if text == "" then [""]
    else
      var rest := Split(text[1..]);
      if text[0] == '.' then [""] + rest else [[text[0]] + rest[0]] + rest[1..]
  }

  lemma {:induction false} SplitPlain(part: string)
    requires '.' !in part
    ensures Split(part) == [part]
  {
    if part != "" {
      SplitPlain(part[1..]);
      assert [part[0]] + part[1..] == part;
    }
  }

  lemma {:induction false} SplitAtDot(part: string, text: string)
    requires '.' !in part
    ensures Split(part + "." + text) == [part] + Split(text)
  {
    var whole := part + "." + text;
    if part == "" {
      assert whole[1..] == text;
    } else {
      assert whole[1..] == part[1..] + "." + text;
      SplitAtDot(part[1..], text);
      assert [part[0]] + part[1..] == part;
    }
  }

  /** A token of dot-free parts falls into exactly these three. */
  lemma SplitsInThree(a: string, b: string, c: string)
    requires '.' !in a && '.' !in b && '.' !in c
    ensures Split(a + "." + b + "." + c) == [a, b, c]
  {
    assert a + "." + b + "." + c == a + "." + (b + "." + c);
    SplitAtDot(a, b + "." + c);
    SplitAtDot(b, c);
    SplitPlain(c);
  }

  /** Text in ASCII; what is encoded here never has other characters. */
  function Ascii(text: string): seq<Byte> {
    seq(|text|, i requires 0 <= i < |text| => text[i] as int % 256)
  }

  // ---------------------------------------------------------------- download plans

  const DOWNLOAD_FORMAT: string := "nsfwtrack.download-plan.v1"
  const DOWNLOAD_PREFIX: string := "d1"
  const DOWNLOAD_MAC_LABEL: string := "nsfwtrack-download"

  function DownloadMac<P>(c: Crypto<P>, secret: seq<Byte>, segment: string): seq<Byte> {
    c.mac(secret, Ascii(DOWNLOAD_MAC_LABEL) + [0] + Ascii(segment))
  }

  function SignDownload<P>(c: Crypto<P>, plan: P, secret: seq<Byte>, context: string, now: int,
                           ttl: int): Option<string> {
    if |secret| < MIN_SECRET_BYTES || context == "" || !(1 <= ttl <= MAX_TTL_SECONDS) then None
    else
      var segment := B64(c.encode(Document(DOWNLOAD_FORMAT, now, now + ttl * SECOND, context, plan)));
      Some(DOWNLOAD_PREFIX + "." + segment + "." + B64(DownloadMac(c, secret, segment)))
  }

  function VerifyDownload<P>(c: Crypto<P>, token: string, secret: seq<Byte>, context: string, now: int): Option<P> {
    if |token| > MAX_TOKEN_CHARS || |secret| < MIN_SECRET_BYTES then None
    else
      var parts := Split(token);
      if |parts| != 3 || parts[0] != DOWNLOAD_PREFIX then None
      else
        var supplied := Unb64(parts[2]);
        if supplied != Some(DownloadMac(c, secret, parts[1])) then None
        else
          var payload := Unb64(parts[1]);
          var document := if payload.None? then None else c.decode(payload.value);
          if document.None? then None
          else
            var d := document.value;
            if d.format != DOWNLOAD_FORMAT then None
            else if now < d.issuedAt || now >= d.expiresAt
                || d.expiresAt - d.issuedAt > MAX_TTL_SECONDS * SECOND then None
            else if d.context != context then None
            else Some(d.plan)
  }

  lemma DownloadTokenParts<P>(c: Crypto<P>, segment: string, payload: seq<Byte>, mac: seq<Byte>)
    requires segment == B64(payload)
    ensures Split(DOWNLOAD_PREFIX + "." + segment + "." + B64(mac)) == [DOWNLOAD_PREFIX, segment, B64(mac)]
    ensures Unb64(segment) == Some(payload) && Unb64(B64(mac)) == Some(mac)
  {
    B64IsPlain(payload);
    B64IsPlain(mac);
    SplitsInThree(DOWNLOAD_PREFIX, segment, B64(mac));
    DecodeAfterEncode(payload);
    DecodeAfterEncode(mac);
  }

  /** A signed download plan comes back exactly: in its time window, for its context, in a token of admitted length. */
  lemma DownloadTokenRoundTrip<P(!new)>(c: Crypto<P>, plan: P, secret: seq<Byte>, context: string, issued: int,
                                        ttl: int, reader: string, now: int)
    requires Faithful(c) && SignDownload(c, plan, secret, context, issued, ttl).Some?
    ensures var token := SignDownload(c, plan, secret, context, issued, ttl).value;
            VerifyDownload(c, token, secret, reader, now)
            == if |token| <= MAX_TOKEN_CHARS && issued <= now < issued + ttl * SECOND
                && reader == context then Some(plan) else None
  {
    var payload := c.encode(Document(DOWNLOAD_FORMAT, issued, issued + ttl * SECOND, context, plan));
    DownloadTokenParts(c, B64(payload), payload, DownloadMac(c, secret, B64(payload)));
  }

  /** The MAC as a free constructor: it determines its key and its message. */
  ghost predicate InjectiveMac<P(!new)>(c: Crypto<P>) {
    forall k, m, l, n :: c.mac(k, m) == c.mac(l, n) ==> k == l && m == n
  }

  predicate IsAscii(text: string) {
    forall i :: 0 <= i < |text| ==> text[i] < 128 as char
  }

  lemma AsciiDetermines(a: string, b: string)
    requires IsAscii(a) && IsAscii(b) && Ascii(a) == Ascii(b)
    ensures a == b
  {
    forall i | 0 <= i < |a|
      ensures a[i] == b[i]
    {
      assert Ascii(a)[i] == Ascii(b)[i];
    }
  }

  lemma {:induction false} ValuesAreAscii(text: string)
    requires ValuesOf(text).Some?
    ensures IsAscii(text)
  {
    if text != "" {
      ValuesAreAscii(text[1..]);
      assert text == [text[0]] + text[1..];
    }
  }

  lemma {:induction false} PadsAreAscii(text: string)
    requires IsAscii(StripPads(text))
    ensures IsAscii(text)
  {
    if text != "" && text[|text| - 1] == '=' {
      PadsAreAscii(text[..|text| - 1]);
      assert text == text[..|text| - 1] + "=";
    }
  }

  lemma DecodableIsAscii(text: string)
    requires Unb64(text).Some?
    ensures IsAscii(text)
  {
    var padded := text + Pads(MissingOf4(|text|));
    ValuesAreAscii(StripPads(padded));
    PadsAreAscii(padded);
    assert forall i :: 0 <= i < |text| ==> text[i] == padded[i];
  }

  lemma MacDetermines<P(!new)>(c: Crypto<P>, secret: seq<Byte>, presented: string, key: seq<Byte>, segment: string)
    requires InjectiveMac(c) && DownloadMac(c, secret, presented) == DownloadMac(c, key, segment)
    requires IsAscii(presented) && IsAscii(segment)
    ensures secret == key && presented == segment
  {
    var head := Ascii(DOWNLOAD_MAC_LABEL) + [0];
    assert head + Ascii(presented) == head + Ascii(segment);
    assert Ascii(presented) == (head + Ascii(presented))[|head|..];
    assert Ascii(segment) == (head + Ascii(segment))[|head|..];
    AsciiDetermines(presented, segment);
  }

  /**
   Whoever presents the signature of an issued token presents its document: if the token is accepted, it carries the
   segment, the plan and the context that were signed, under the same secret, and the present is in the signed window.
   */
  lemma AcceptedDownloadWasIssued<P(!new)>(
    c: Crypto<P>, token: string, secret: seq<Byte>, reader: string, now: int,
    plan: P, key: seq<Byte>, context: string, issued: int, ttl: int)
    requires Faithful(c) && InjectiveMac(c) && VerifyDownload(c, token, secret, reader, now).Some?
    requires SignDownload(c, plan, key, context, issued, ttl).Some?
    requires |Split(token)| == |Split(SignDownload(c, plan, key, context, issued, ttl).value)| == 3
    requires Unb64(Split(token)[2]) == Unb64(Split(SignDownload(c, plan, key, context, issued, ttl).value)[2])
    ensures Split(token)[1] == Split(SignDownload(c, plan, key, context, issued, ttl).value)[1]
    ensures VerifyDownload(c, token, secret, reader, now) == Some(plan)
    ensures secret == key && reader == context && issued <= now < issued + ttl * SECOND
  {
    var document := Document(DOWNLOAD_FORMAT, issued, issued + ttl * SECOND, context, plan);
    var payload := c.encode(document);
    var segment, presented := B64(payload), Split(token)[1];
    DownloadTokenParts(c, segment, payload, DownloadMac(c, key, segment));
    DecodableIsAscii(presented);
    DecodableIsAscii(segment);
    MacDetermines(c, secret, presented, key, segment);
  }

  /** The segment of a token determines what was signed. */
  lemma SegmentDeterminesDocument<P(!new)>(c: Crypto<P>, a: Document<P>, b: Document<P>)
    requires Faithful(c) && B64(c.encode(a)) == B64(c.encode(b))
    ensures a == b
  {
    EncodingIsInjective(c.encode(a), c.encode(b));
    assert c.decode(c.encode(a)) == Some(a) && c.decode(c.encode(b)) == Some(b);
  }

  // ---------------------------------------------------------------- local import plans

  const LOCAL_FORMAT: string := "nsfwtrack.local-import.v1"
  const LOCAL_PREFIX: string := "li1"

  function LocalMac<P>(c: Crypto<P>, secret: seq<Byte>, payload: seq<Byte>): seq<Byte> {
    c.mac(secret, Ascii(LOCAL_PREFIX) + Ascii(".") + payload)
  }

  function SignLocal<P>(c: Crypto<P>, plan: P, secret: seq<Byte>, context: string, now: int, ttl: int): Option<string> {
    if |secret| < MIN_SECRET_BYTES || context == "" || !(1 <= ttl <= MAX_TTL_SECONDS) then None
    else
      var payload := c.encode(Document(LOCAL_FORMAT, now, now + ttl * SECOND, context, plan));
      Some(LOCAL_PREFIX + "." + B64(payload) + "." + B64(LocalMac(c, secret, payload)))
  }

  function VerifyLocal<P>(c: Crypto<P>, token: string, secret: seq<Byte>, context: string, now: int): Option<P> {
    var parts := Split(token);
    if |parts| != 3 || parts[0] != LOCAL_PREFIX || |secret| < MIN_SECRET_BYTES then None
    else
      var payload, signature := Unb64(parts[1]), Unb64(parts[2]);
      if payload.None? || signature.None? || signature.value != LocalMac(c, secret, payload.value) then None
      else
        var document := c.decode(payload.value);
        if document.None? then None
        else
          var d := document.value;
          if d.format != LOCAL_FORMAT || d.context != context || now > d.expiresAt then None else Some(d.plan)
  }

  /**
   A signed import plan comes back until its last moment inclusive; the time of issue and the length are not looked at.
   */
  lemma LocalTokenRoundTrip<P(!new)>(c: Crypto<P>, plan: P, secret: seq<Byte>, context: string, issued: int, ttl: int,
                                     reader: string, now: int)
    requires Faithful(c) && SignLocal(c, plan, secret, context, issued, ttl).Some?
    ensures var token := SignLocal(c, plan, secret, context, issued, ttl).value;
            VerifyLocal(c, token, secret, reader, now) == if now <= issued + ttl * SECOND
                && reader == context then Some(plan) else None
  {
    var payload := c.encode(Document(LOCAL_FORMAT, issued, issued + ttl * SECOND, context, plan));
    var mac := LocalMac(c, secret, payload);
    B64IsPlain(payload);
    B64IsPlain(mac);
    SplitsInThree(LOCAL_PREFIX, B64(payload), B64(mac));
    DecodeAfterEncode(payload);
    DecodeAfterEncode(mac);
  }

  /** Neither kind of token is taken for the other. */
  lemma TokenKindsAreApart<P(!new)>(c: Crypto<P>, plan: P, secret: seq<Byte>, context: string, issued: int, ttl: int,
                                    reader: string, now: int)
    ensures var token := SignDownload(c, plan, secret, context, issued, ttl);
            token.Some? ==> VerifyLocal(c, token.value, secret, reader, now).None?
    ensures var token := SignLocal(c, plan, secret, context, issued, ttl);
            token.Some? ==> VerifyDownload(c, token.value, secret, reader, now).None?
  {
    var payload := c.encode(Document(DOWNLOAD_FORMAT, issued, issued + ttl * SECOND, context, plan));
    DownloadTokenParts(c, B64(payload), payload, DownloadMac(c, secret, B64(payload)));
    var local := c.encode(Document(LOCAL_FORMAT, issued, issued + ttl * SECOND, context, plan));
    B64IsPlain(local);
    B64IsPlain(LocalMac(c, secret, local));
    SplitsInThree(LOCAL_PREFIX, B64(local), B64(LocalMac(c, secret, local)));
  }
}
