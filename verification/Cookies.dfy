/** The choice of cookies for approved hosts, the Cookie header, and the padding of decrypted payloads. */
module Cookies {
  import opened Basics
  import opened Texts

  datatype RawCookie = RawCookie(name: string, value: string, expires: Option<real>)

  /** The cookies that the payload lists under one domain, in its order. */
  datatype DomainEntry = DomainEntry(domain: string, cookies: seq<RawCookie>)

  datatype CookieError = NoHost | NoCookie

  function LowerChar(c: char): char {
    if 'A' <= c <= 'Z' then (c as int + 32) as char else c
  }

  function Lower(text: string): string {
    seq(|text|, i requires 0 <= i < |text| => LowerChar(text[i]))
  }

  function DropDots(text: string): string {
    if text != "" && text[0] == '.' then DropDots(text[1..]) else text
  }

  predicate TokenChar(c: char) {
    'a' <= c <= 'z' || 'A' <= c <= 'Z' || '0' <= c <= '9' || c in "!#$%&'*+.^_`|~-"
  }

  predicate NameAdmitted(name: string) {
    1 <= |name| <= 256 && forall i :: 0 <= i < |name| ==> TokenChar(name[i])
  }

  predicate ValueAdmitted(value: string) {
    value != "" && forall i :: 0 <= i < |value| ==> value[i] != ';' && value[i] as int >= 32 && value[i] as int != 127
  }

  predicate Unexpired(c: RawCookie, now: real) {
    c.expires.Some? && c.expires.value > 0.0 ==> c.expires.value > now
  }

  predicate Usable(c: RawCookie, names: Option<set<string>>, now: real) {
    NameAdmitted(c.name) && ValueAdmitted(c.value) && Unexpired(c, now) && (names.Some? ==> c.name in names.value)
  }

  predicate EndsWith(text: string, suffix: string) {
    |suffix| <= |text| && text[|text| - |suffix|..] == suffix
  }

  /** The host is the domain or one of its subdomains. */
  predicate DomainMatches(host: string, domain: string) {
    host == domain || EndsWith(host, "." + domain)
  }

  /** A domain with a dot in it that covers an approved host. */
  predicate Approved(entry: DomainEntry, hosts: set<string>) {
    var domain := Lower(DropDots(entry.domain));
    '.' in domain && exists host :: host in hosts && DomainMatches(host, domain)
  }

  /** The usable cookies of a list, in order. */
  function UsableOf(cookies: seq<RawCookie>, names: Option<set<string>>, now: real): seq<(string, string)> {
    if cookies == [] then []
    else
      var last := cookies[|cookies| - 1];
      UsableOf(cookies[..|cookies| - 1], names, now)
      + if Usable(last, names, now) then [(last.name, last.value)] else []
  }

  /** The usable cookies of all approved domains, in the order of the payload. */
  function Offers(data: seq<DomainEntry>, hosts: set<string>, names: Option<set<string>>,
                  now: real): seq<(string, string)> {
    if data == [] then []
    else
      var last := data[|data| - 1];
      Offers(data[..|data| - 1], hosts, names, now)
      + if Approved(last, hosts) then UsableOf(last.cookies, names, now) else []
  }

  /** For every name the value of its last pair. */
  function LastWins(pairs: seq<(string, string)>): map<string, string> {
    if pairs == [] then map[]
    else LastWins(pairs[..|pairs| - 1])[pairs[|pairs| - 1].0 := pairs[|pairs| - 1].1]
  }

  lemma {:induction false} UsableOfMembers(cookies: seq<RawCookie>, names: Option<set<string>>, now: real,
                                           pair: (string, string))
    ensures pair in UsableOf(cookies, names, now)
            <==> exists c :: c in cookies && Usable(c, names, now) && pair == (c.name, c.value)
  {
    if cookies != [] {
      UsableOfMembers(cookies[..|cookies| - 1], names, now, pair);
      assert cookies == cookies[..|cookies| - 1] + [cookies[|cookies| - 1]];
    }
  }

  ghost predicate Offered(entry: DomainEntry, c: RawCookie, hosts: set<string>, names: Option<set<string>>, now: real,
                          pair: (string, string)) {
    Approved(entry, hosts) && c in entry.cookies && Usable(c, names, now) && pair == (c.name, c.value)
  }

  /** A cookie is considered exactly when it is usable and its domain covers an approved host. */
  lemma {:induction false} OffersMembers(data: seq<DomainEntry>, hosts: set<string>, names: Option<set<string>>,
                                         now: real, pair: (string, string))
    ensures pair in Offers(data, hosts, names, now)
            <==> exists entry, c :: entry in data && Offered(entry, c, hosts, names, now, pair)
  {
    if data != [] {
      var last := data[|data| - 1];
      OffersMembers(data[..|data| - 1], hosts, names, now, pair);
      UsableOfMembers(last.cookies, names, now, pair);
      assert data == data[..|data| - 1] + [last];
      if Approved(last, hosts) && pair in UsableOf(last.cookies, names, now) {
        var c :| c in last.cookies && Usable(c, names, now) && pair == (c.name, c.value);
        assert Offered(last, c, hosts, names, now, pair);
      }
    }
  }

  /** A name's value comes from its last pair. */
  lemma {:induction false} LastWinsMeans(pairs: seq<(string, string)>, name: string)
    ensures name in LastWins(pairs) <==> exists i :: 0 <= i < |pairs| && pairs[i].0 == name
    ensures name in LastWins(pairs) ==>
              exists i :: && 0 <= i < |pairs| && pairs[i] == (name, LastWins(pairs)[name])
                          && forall j :: i < j < |pairs| ==> pairs[j].0 != name
  {
    if pairs != [] {
      var n := |pairs| - 1;
      LastWinsMeans(pairs[..n], name);
      if pairs[n].0 == name {
        assert pairs[n] == (name, LastWins(pairs)[name]);
      } else if name in LastWins(pairs) {
        var i :| && 0 <= i < n && pairs[..n][i] == (name, LastWins(pairs[..n])[name])
                 && forall j :: i < j < n ==> pairs[..n][j].0 != name;
        assert forall j :: i < j < n ==> pairs[j] == pairs[..n][j];
      }
    }
  }

  lemma {:induction false} LastWinsAppends(pairs: seq<(string, string)>, pair: (string, string))
    ensures LastWins(pairs + [pair]) == LastWins(pairs)[pair.0 := pair.1]
  {
    assert (pairs + [pair])[..|pairs|] == pairs;
  }

  /** Approved hosts: lower case, without leading dots, the empty ones left out. */
  function AllowedHosts(hosts: set<string>): set<string> {
    set host | host in hosts && host != "" :: DropDots(Lower(host))
  }

  /** The cookies of one approved domain are added to the pairs. */
  method AddUsable(cookies: seq<RawCookie>, names: Option<set<string>>, now: real, before: map<string, string>,
                   ghost seen: seq<(string, string)>)
    returns (pairs: map<string, string>)
    requires before == LastWins(seen)
    ensures pairs == LastWins(seen + UsableOf(cookies, names, now))
  {
    pairs := before;
    assert seen + [] == seen;
    for m := 0 to |cookies|
      invariant pairs == LastWins(seen + UsableOf(cookies[..m], names, now))
    {
      var c := cookies[m];
      ghost var sofar := UsableOf(cookies[..m], names, now);
      assert cookies[..m + 1][..m] == cookies[..m];
      if Usable(c, names, now) {
        LastWinsAppends(seen + sofar, (c.name, c.value));
        assert seen + (sofar + [(c.name, c.value)]) == (seen + sofar) + [(c.name, c.value)];
        pairs := pairs[c.name := c.value];
      } else {
        assert sofar + [] == sofar;
      }
    }
    assert cookies[..|cookies|] == cookies;
  }

  /** The pairs of the last usable cookies for the approved hosts; no host and no cookie are errors. */
  method FilterCookies(data: seq<DomainEntry>, hosts: set<string>, names: Option<set<string>>, now: real)
    returns (r: Result<map<string, string>, CookieError>)
    ensures r == (if AllowedHosts(hosts) == {} then Err(NoHost)
                  else if Offers(data, AllowedHosts(hosts), names, now) == [] then Err(NoCookie)
                  else Ok(LastWins(Offers(data, AllowedHosts(hosts), names, now))))
  {
    var allowed := AllowedHosts(hosts);
    if allowed == {} {
      return Err(NoHost);
    }
    var pairs: map<string, string> := map[];
    for n := 0 to |data|
      invariant pairs == LastWins(Offers(data[..n], allowed, names, now))
    {
      assert data[..n + 1][..n] == data[..n];
      ghost var sofar := Offers(data[..n], allowed, names, now);
      if Approved(data[n], allowed) {
        pairs := AddUsable(data[n].cookies, names, now, pairs, sofar);
      } else {
        assert sofar + [] == sofar;
      }
    }
    assert data[..|data|] == data;
    ghost var offers := Offers(data, allowed, names, now);
    if offers != [] {
      LastWinsMeans(offers, offers[0].0);
    }
    if pairs == map[] {
      return Err(NoCookie);
    }
    return Ok(pairs);
  }

  // ---------------------------------------------------------------- the header

  function Pair(name: string, value: string): string {
    name + "=" + value
  }

  /** Pairs joined by a semicolon and a blank. */
  function Print(pairs: seq<(string, string)>): string {
    if pairs == [] then ""
    else if |pairs| == 1 then Pair(pairs[0].0, pairs[0].1)
    else Pair(pairs[0].0, pairs[0].1) + "; " + Print(pairs[1..])
  }

  /** The position of the first such character, or the length. */
  function IndexOf(text: string, c: char): (k: nat)
    ensures k <= |text| && (k < |text| ==> text[k] == c) && forall i :: 0 <= i < k ==> text[i] != c
  {
    if text == "" || text[0] == c then 0 else 1 + IndexOf(text[1..], c)
  }

  lemma IndexIs(text: string, c: char, k: nat)
    requires k <= |text| && (k < |text| ==> text[k] == c) && forall i :: 0 <= i < k ==> text[i] != c
    ensures IndexOf(text, c) == k
  {
    var m := IndexOf(text, c);
  }

  /** A reader of printed headers. */
  function Read(header: string): seq<(string, string)>
    decreases |header|
  {
    if header == "" then []
    else
      var equals, semicolon := IndexOf(header, '='), IndexOf(header, ';');
      if equals >= semicolon then []
      else
        var pair := (header[..equals], header[equals + 1..semicolon]);
        if semicolon + 2 > |header| then [pair] else [pair] + Read(header[semicolon + 2..])
  }

  predicate Printable(pairs: seq<(string, string)>) {
    forall i :: 0 <= i < |pairs| ==> '=' !in pairs[i].0 && ';' !in pairs[i].0 && ';' !in pairs[i].1
  }

  /** What is printed can be read again: the header determines the pairs. */
  lemma {:induction false} ReadAfterPrint(pairs: seq<(string, string)>)
    requires Printable(pairs)
    ensures Read(Print(pairs)) == pairs
    decreases |pairs|
  {
    if pairs != [] {
      var name, value := pairs[0].0, pairs[0].1;
      var header := Print(pairs);
      if |pairs| == 1 {
        LonePair(name, value);
        assert pairs == [(name, value)];
      } else {
        var rest := Print(pairs[1..]);
        FirstPair(name, value, rest);
        ReadAfterPrint(pairs[1..]);
        assert pairs == [(name, value)] + pairs[1..];
      }
    }
  }

  lemma ReadLast(header: string, equals: nat)
    requires IndexOf(header, '=') == equals < |header| == IndexOf(header, ';')
    ensures Read(header) == [(header[..equals], header[equals + 1..])]
  {
    assert header[equals + 1..|header|] == header[equals + 1..];
  }

  lemma ReadStep(header: string, equals: nat, semicolon: nat)
    requires IndexOf(header, '=') == equals < semicolon == IndexOf(header, ';') && semicolon + 2 <= |header|
    ensures Read(header) == [(header[..equals], header[equals + 1..semicolon])] + Read(header[semicolon + 2..])
  {
  }

  lemma PairSlices(name: string, value: string)
    ensures var header := Pair(name, value);
            && |header| == |name| + 1 + |value| && header[|name|] == '='
            && header[..|name|] == name && header[|name| + 1..] == value
            && (forall i :: 0 <= i < |name| ==> header[i] == name[i])
            && (forall i :: 0 <= i < |value| ==> header[|name| + 1 + i] == value[i])
  {
  }

  lemma PairHasNoSemicolon(name: string, value: string)
    requires ';' !in name && ';' !in value
    ensures forall i :: 0 <= i < |Pair(name, value)| ==> Pair(name, value)[i] != ';'
  {
    PairSlices(name, value);
    forall i | 0 <= i < |Pair(name, value)|
      ensures Pair(name, value)[i] != ';'
    {
      if i > |name| {
        assert Pair(name, value)[|name| + 1 + (i - |name| - 1)] == value[i - |name| - 1];
      }
    }
  }

  lemma LonePair(name: string, value: string)
    requires '=' !in name && ';' !in name && ';' !in value
    ensures Read(Pair(name, value)) == [(name, value)]
  {
    var header := Pair(name, value);
    PairSlices(name, value);
    PairHasNoSemicolon(name, value);
    IndexIs(header, '=', |name|);
    IndexIs(header, ';', |header|);
    ReadLast(header, |name|);
  }

  lemma FirstSlices(pair: string, rest: string)
    ensures var header := pair + "; " + rest;
            && |pair| + 2 <= |header| && header[|pair|] == ';' && header[..|pair|] == pair
               && header[|pair| + 2..] == rest
            && forall i :: 0 <= i < |pair| ==> header[i] == pair[i]
  {
  }

  lemma FirstPair(name: string, value: string, rest: string)
    requires '=' !in name && ';' !in name && ';' !in value
    ensures Read(Pair(name, value) + "; " + rest) == [(name, value)] + Read(rest)
  {
    var pair := Pair(name, value);
    var header := pair + "; " + rest;
    PairSlices(name, value);
    PairHasNoSemicolon(name, value);
    FirstSlices(pair, rest);
    IndexIs(header, '=', |name|);
    IndexIs(header, ';', |pair|);
    ReadStep(header, |name|, |pair|);
    assert header[..|name|] == pair[..|name|] && header[|name| + 1..|pair|] == pair[|name| + 1..];
  }

  /** The pairs of a map in the order of their names. */
  ghost predicate Lists(pairs: map<string, string>, items: seq<(string, string)>) {
    && (forall i, j :: 0 <= i < j < |items| ==> Below(items[i].0, items[j].0))
    && (forall i :: 0 <= i < |items| ==> items[i].0 in pairs && pairs[items[i].0] == items[i].1)
    && (forall name :: name in pairs ==> exists i :: 0 <= i < |items| && items[i].0 == name)
  }

  /** The least names have been listed; the rest are all greater. */
  ghost predicate ListedSoFar(pairs: map<string, string>, sorted: seq<(string, string)>, rest: set<string>) {
    && rest <= pairs.Keys
    && (forall i, j :: 0 <= i < j < |sorted| ==> Below(sorted[i].0, sorted[j].0))
    && (forall i :: 0 <= i < |sorted| ==> sorted[i].0 in pairs && pairs[sorted[i].0] == sorted[i].1)
    && (forall i, name :: 0 <= i < |sorted| && name in rest ==> Below(sorted[i].0, name))
    && (forall name :: name in pairs && name !in rest ==> exists i :: 0 <= i < |sorted| && sorted[i].0 == name)
  }

  lemma ListLeast(pairs: map<string, string>, sorted: seq<(string, string)>, rest: set<string>, least: string)
    requires ListedSoFar(pairs, sorted, rest)
    requires least in rest && forall name :: name in rest ==> name == least || Below(least, name)
    ensures ListedSoFar(pairs, sorted + [(least, pairs[least])], rest - {least})
  {
    var more := sorted + [(least, pairs[least])];
    assert more[|sorted|].0 == least;
    forall name | name in pairs && name !in rest - {least}
      ensures exists i :: 0 <= i < |more| && more[i].0 == name
    {
      if name != least {
        var i :| 0 <= i < |sorted| && sorted[i].0 == name;
        assert more[i].0 == name;
      }
    }
  }

  /** The header of the map, names in ascending order. */
  method CookieHeader(pairs: map<string, string>) returns (header: string)
    ensures exists items :: Lists(pairs, items) && header == Print(items)
  {
    var sorted: seq<(string, string)> := [];
    var rest := pairs.Keys;
    while rest != {}
      invariant ListedSoFar(pairs, sorted, rest)
      decreases |rest|
    {
      LeastExists(rest);
      var least :| least in rest && forall name :: name in rest ==> name == least || Below(least, name);
      ListLeast(pairs, sorted, rest, least);
      sorted := sorted + [(least, pairs[least])];
      rest := rest - {least};
    }
    assert Lists(pairs, sorted);
    return Print(sorted);
  }

  lemma {:induction false} LeastExists(names: set<string>)
    requires names != {}
    ensures exists least :: least in names && forall name :: name in names ==> name == least || Below(least, name)
    decreases |names|
  {
    var some :| some in names;
    if names == {some} {
      assert forall name :: name in names ==> name == some;
    } else {
      var others := names - {some};
      assert names == others + {some};
      LeastExists(others);
      var least :| least in others && forall name :: name in others ==> name == least || Below(least, name);
      BelowIsTotal(some, least);
      if Below(some, least) {
        forall name | name in names
          ensures name == some || Below(some, name)
        {
          if name != some && name != least {
            BelowIsTransitive(some, least, name);
          }
        }
      }
    }
  }

  /** Two maps with the same header are the same. */
  lemma HeaderDeterminesPairs(a: map<string, string>, b: map<string, string>, itemsA: seq<(string, string)>,
                              itemsB: seq<(string, string)>)
    requires Lists(a, itemsA) && Lists(b, itemsB) && Printable(itemsA) && Printable(itemsB)
    requires Print(itemsA) == Print(itemsB)
    ensures a == b
  {
    ReadAfterPrint(itemsA);
    ReadAfterPrint(itemsB);
    forall name: string
      ensures name in a <==> name in b
      ensures name in a ==> a[name] == b[name]
    {
    }
  }

  lemma OfferIsPrintable(data: seq<DomainEntry>, hosts: set<string>, names: Option<set<string>>, now: real,
                         pair: (string, string))
    requires pair in Offers(data, hosts, names, now)
    ensures '=' !in pair.0 && ';' !in pair.0 && ';' !in pair.1
  {
    OffersMembers(data, hosts, names, now, pair);
    var entry, c :| entry in data && Offered(entry, c, hosts, names, now, pair);
    assert NameAdmitted(c.name) && ValueAdmitted(c.value);
  }

  /** Filtered cookies are printable. */
  lemma FilteredIsPrintable(data: seq<DomainEntry>, hosts: set<string>, names: Option<set<string>>, now: real,
                            items: seq<(string, string)>)
    requires Lists(LastWins(Offers(data, hosts, names, now)), items)
    ensures Printable(items)
  {
    forall i | 0 <= i < |items|
      ensures '=' !in items[i].0 && ';' !in items[i].0 && ';' !in items[i].1
    {
      LastWinsMeans(Offers(data, hosts, names, now), items[i].0);
      OfferIsPrintable(data, hosts, names, now, items[i]);
    }
  }

  // ---------------------------------------------------------------- key derivation and padding

  /** The chained digests from which key and initialisation vector are cut. */
  function Chain(md5: Bytes -> Bytes, seed: Bytes, n: nat): (Bytes, Bytes) {
    if n == 0 then ([], [])
    else
      var (output, previous) := Chain(md5, seed, n - 1);
      var next := md5(previous + seed);
      (output + next, next)
  }

  /** The loop stops at the first length that suffices. */
  method EvpBytesToKey(md5: Bytes -> Bytes, password: Bytes, salt: Bytes, keyLength: nat,
                       ivLength: nat) returns (key: Bytes, iv: Bytes)
    requires forall x :: |md5(x)| == 16
    ensures |key| == keyLength && |iv| == ivLength
    ensures exists n :: && key + iv <= Chain(md5, password + salt, n).0
                        && |Chain(md5, password + salt, n).0| < keyLength + ivLength + 16
  {
    var output: Bytes, previous: Bytes := [], [];
    ghost var n := 0;
    while |output| < keyLength + ivLength
      invariant (output, previous) == Chain(md5, password + salt, n)
      invariant |output| < keyLength + ivLength + 16
      decreases keyLength + ivLength - |output|
    {
      assert previous + password + salt == previous + (password + salt);
      previous := md5(previous + password + salt);
      output := output + previous;
      n := n + 1;
    }
    key, iv := output[..keyLength], output[keyLength..keyLength + ivLength];
    assert key + iv == output[..keyLength + ivLength];
    assert key + iv <= Chain(md5, password + salt, n).0;
  }

  function Padding(pad: nat): Bytes {
    seq(pad, _ => pad)
  }

  function Unpadded(padded: Bytes): Option<Bytes> {
    if padded == [] then None
    else
      var pad := padded[|padded| - 1];
      if pad < 1 || pad > 16 || pad > |padded| || padded[|padded| - pad..] != Padding(pad) then None
      else Some(padded[..|padded| - pad])
  }

  /** A payload is accepted with this content exactly when it is the content followed by one of the sixteen paddings. */
  lemma UnpaddedIff(padded: Bytes, content: Bytes)
    ensures Unpadded(padded) == Some(content) <==> exists pad :: 1 <= pad <= 16 && padded == content + Padding(pad)
  {
    if Unpadded(padded) == Some(content) {
      var pad := padded[|padded| - 1];
      assert padded == content + Padding(pad);
    }
    forall pad | 1 <= pad <= 16 && padded == content + Padding(pad)
      ensures Unpadded(padded) == Some(content)
    {
      assert padded[|padded| - 1] == pad;
      assert padded[|padded| - pad..] == Padding(pad);
      assert padded[..|padded| - pad] == content;
    }
  }
}
