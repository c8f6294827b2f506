/** The stored form of the proxy pool: parsing, saving, and parsing what was saved. */
module PoolFile {
  import opened Basics
  import opened ProxyPool
  import opened Texts

  /** A value in JSON where null is not taken for a missing key. */
  datatype Field<T> = Missing | Null | Given(value: T)

  /** An entry as JSON gives it; None stands for a missing key or null. */
  datatype RawProxy = RawProxy(
    id: Option<string>, url: Option<string>, enabled: Field<bool>, priority: Field<int>, tags: Option<seq<string>>,
    expectedCountry: Option<string>, notes: Option<string>)

  datatype RawPolicy = RawPolicy(
    denyCountries: Field<seq<string>>, preferCountries: Field<seq<string>>, maxRiskScore: Field<int>,
    requireExitIp: Field<bool>, cooldownSeconds: Field<int>, maxFailCount: Field<int>, probeUrl: Option<string>,
    geoProvider: Field<string>)

  datatype RawHealth = RawHealth(
    ok: Option<bool>, latencyMs: Option<int>, exitIp: Option<string>, countryCode: Option<string>,
    riskScore: Option<int>, qualityScore: Option<int>, failCount: Option<int>, cooldownUntil: Option<real>)

  /** Entries of `health` that are not objects are None. */
  datatype Payload = Payload(policy: RawPolicy, proxies: seq<RawProxy>, health: map<string, Option<RawHealth>>)

  datatype PoolData = PoolData(policy: Policy, proxies: seq<Endpoint>, health: map<string, Health>)

  function Or<T>(o: Option<T>, other: T): T {
    if o.Some? then o.value else other
  }

  function UpperAll(texts: seq<string>): seq<string> {
    seq(|texts|, i requires 0 <= i < |texts| => Upper(texts[i]))
  }

  /** A missing key has the default; `other` is what the conversion makes of null, where it does not raise. */
  function Of<T>(field: Field<T>, default: T, other: T): T {
    match field
    case Missing => default
    case Null => other
    case Given(value) => value
  }

  /** No conversion of a policy value raises: lists and numbers are not null. */
  predicate Convertible(raw: RawPolicy) {
    && !raw.denyCountries.Null? && !raw.preferCountries.Null? && !raw.maxRiskScore.Null? && !raw.cooldownSeconds.Null?
    && !raw.maxFailCount.Null?
  }

  function ParsePolicy(raw: RawPolicy): Policy
    requires Convertible(raw)
  {
    Policy(UpperAll(Of(raw.denyCountries, ["JP", "KR"], [])), UpperAll(Of(raw.preferCountries, [], [])),
           Of(raw.maxRiskScore, 90, 0), Of(raw.requireExitIp, true, false), Of(raw.cooldownSeconds, 300, 0),
           Of(raw.maxFailCount, 5, 0), Or(raw.probeUrl, ""), Of(raw.geoProvider, "ip_sb", "None"))
  }

  /** None stands for the failed conversion of a null priority. */
  function ParseEndpoint(raw: RawProxy): Option<Endpoint> {
    if raw.priority.Null? then None
    else
      var expected := Or(raw.expectedCountry, "");
      Some(Endpoint(Strip(Or(raw.id, "")), Strip(Or(raw.url, "")), Of(raw.enabled, true, false),
                    Of(raw.priority, 100, 0), Or(raw.tags, []), if expected != "" then Some(Upper(expected)) else None,
                    Or(raw.notes, "")))
  }

  function ParseHealth(raw: RawHealth): Health {
    Health(Or(raw.ok, false), raw.latencyMs, Or(raw.exitIp, ""), Or(raw.countryCode, ""), raw.riskScore,
           raw.qualityScore, Or(raw.failCount, 0), Or(raw.cooldownUntil, 0.0))
  }

  function ParseAll(raw: seq<RawProxy>): seq<Option<Endpoint>> {
    seq(|raw|, i requires 0 <= i < |raw| => ParseEndpoint(raw[i]))
  }

  /** Every entry is converted, ids are present and different, and URLs are admitted. */
  predicate WellFormed(parsed: seq<Option<Endpoint>>, admitted: string -> bool) {
    WellFormedTo(parsed, admitted, |parsed|)
  }

  predicate WellFormedTo(parsed: seq<Option<Endpoint>>, admitted: string -> bool, n: nat)
    requires n <= |parsed|
  {
    && (forall i :: 0 <= i < n ==> parsed[i].Some? && parsed[i].value.id != "" && admitted(parsed[i].value.url))
    && (forall i, j :: 0 <= i < j < n ==> parsed[i].value.id != parsed[j].value.id)
  }

  function Entries(parsed: seq<Option<Endpoint>>): seq<Endpoint>
    requires forall i :: 0 <= i < |parsed| ==> parsed[i].Some?
  {
    seq(|parsed|, i requires 0 <= i < |parsed| => parsed[i].value)
  }

  /** The parsed entries are taken in order; the first malformed or repeated one is refused. */
  method TakeDistinct(parsed: seq<Option<Endpoint>>, admitted: string -> bool) returns (r: Option<seq<Endpoint>>)
    ensures r.Some? <==> WellFormed(parsed, admitted)
    ensures r.Some? ==> r.value == Entries(parsed)
  {
    var proxies: seq<Endpoint> := [];
    var seen: set<string> := {};
    for n := 0 to |parsed|
      invariant WellFormedTo(parsed, admitted, n)
      invariant |proxies| == n && forall i :: 0 <= i < n ==> proxies[i] == parsed[i].value
      invariant forall i :: 0 <= i < n ==> parsed[i].value.id in seen
      invariant forall id :: id in seen ==> exists i :: 0 <= i < n && parsed[i].value.id == id
    {
      if parsed[n].None? {
        return None;
      }
      var proxy := parsed[n].value;
      if proxy.id == "" || proxy.id in seen || !admitted(proxy.url) {
        return None;
      }
      seen := seen + {proxy.id};
      proxies := proxies + [proxy];
    }
    return Some(proxies);
  }

  /** What is parsed at all: convertible policy values and a non-empty list of well-formed entries with unique ids. */
  predicate Readable(payload: Payload, admitted: string -> bool) {
    Convertible(payload.policy) && payload.proxies != [] && WellFormed(ParseAll(payload.proxies), admitted)
  }

  method FromDict(payload: Payload, admitted: string -> bool) returns (r: Option<PoolData>)
    ensures r.Some? <==> Readable(payload, admitted)
    ensures r.Some? ==> r.value == Parsed(payload)
  {
    if !Convertible(payload.policy) || payload.proxies == [] {
      return None;
    }
    var policy := ParsePolicy(payload.policy);
    var proxies := TakeDistinct(ParseAll(payload.proxies), admitted);
    if proxies.None? {
      return None;
    }
    return Some(PoolData(policy, proxies.value, ParsedHealth(payload.health)));
  }

  function ParsedHealth(raw: map<string, Option<RawHealth>>): map<string, Health> {
    map id | id in raw && raw[id].Some? :: ParseHealth(raw[id].value)
  }

  function Parsed(payload: Payload): PoolData
    requires Convertible(payload.policy) && forall i :: 0 <= i < |payload.proxies| ==>
             ParseAll(payload.proxies)[i].Some?
  {
    PoolData(ParsePolicy(payload.policy), Entries(ParseAll(payload.proxies)), ParsedHealth(payload.health))
  }

  function SaveEndpoint(p: Endpoint): RawProxy {
    RawProxy(Some(p.id), Some(p.url), Given(p.enabled), Given(p.priority), Some(p.tags), p.expectedCountry,
             Some(p.notes))
  }

  function SaveAll(proxies: seq<Endpoint>): seq<RawProxy> {
    seq(|proxies|, i requires 0 <= i < |proxies| => SaveEndpoint(proxies[i]))
  }

  function SavePolicy(p: Policy): RawPolicy {
    RawPolicy(Given(p.denyCountries), Given(p.preferCountries), Given(p.maxRiskScore), Given(p.requireExitIp),
              Given(p.cooldownSeconds), Given(p.maxFailCount), Some(p.probeUrl), Given(p.geoProvider))
  }

  function SaveHealth(h: Health): RawHealth {
    RawHealth(Some(h.ok), h.latencyMs, if h.exitIp != "" then Some(h.exitIp) else None,
              if h.countryCode != "" then Some(h.countryCode) else None, h.riskScore, h.qualityScore,
              Some(h.failCount), Some(h.cooldownUntil))
  }

  function SavedHealth(health: map<string, Health>): map<string, Option<RawHealth>> {
    map id | id in health :: Some(SaveHealth(health[id]))
  }

  function Saved(pool: PoolData): Payload {
    Payload(SavePolicy(pool.policy), SaveAll(pool.proxies), SavedHealth(pool.health))
  }

  /** An endpoint as parsing leaves it. */
  predicate Normal(p: Endpoint) {
    && Trimmed(p.id) && Trimmed(p.url)
    && (p.expectedCountry.Some? ==>
          p.expectedCountry.value != "" && Upper(p.expectedCountry.value) == p.expectedCountry.value)
  }

  lemma ParsedIsNormal(raw: RawProxy)
    requires ParseEndpoint(raw).Some?
    ensures Normal(ParseEndpoint(raw).value)
  {
    StripTrims(Or(raw.id, ""));
    StripTrims(Or(raw.url, ""));
    if raw.expectedCountry.Some? {
      UpperTwice(raw.expectedCountry.value);
    }
  }

  lemma NormalEndpointSurvives(p: Endpoint)
    requires Normal(p)
    ensures ParseEndpoint(SaveEndpoint(p)) == Some(p)
  {
    TrimmedStays(p.id);
    TrimmedStays(p.url);
  }

  lemma UpperAllTwice(texts: seq<string>)
    ensures UpperAll(UpperAll(texts)) == UpperAll(texts)
  {
    forall i | 0 <= i < |texts|
      ensures UpperAll(UpperAll(texts))[i] == UpperAll(texts)[i]
    {
      UpperTwice(texts[i]);
    }
  }

  lemma PolicySurvives(raw: RawPolicy)
    requires Convertible(raw)
    ensures Convertible(SavePolicy(ParsePolicy(raw))) && ParsePolicy(SavePolicy(ParsePolicy(raw))) == ParsePolicy(raw)
  {
    UpperAllTwice(Of(raw.denyCountries, ["JP", "KR"], []));
    UpperAllTwice(Of(raw.preferCountries, [], []));
  }

  lemma EntriesAreNormal(raw: seq<RawProxy>)
    requires forall i :: 0 <= i < |raw| ==> ParseAll(raw)[i].Some?
    ensures forall i :: 0 <= i < |raw| ==> Normal(Entries(ParseAll(raw))[i])
  {
    forall i | 0 <= i < |raw|
      ensures Normal(Entries(ParseAll(raw))[i])
    {
      assert ParseAll(raw)[i].Some?;
      ParsedIsNormal(raw[i]);
    }
  }

  lemma NormalEntriesSurvive(proxies: seq<Endpoint>)
    requires forall i :: 0 <= i < |proxies| ==> Normal(proxies[i])
    ensures forall i :: 0 <= i < |proxies| ==> ParseAll(SaveAll(proxies))[i] == Some(proxies[i])
  {
    forall i | 0 <= i < |proxies|
      ensures ParseAll(SaveAll(proxies))[i] == Some(proxies[i])
    {
      NormalEndpointSurvives(proxies[i]);
    }
  }

  lemma HealthSurvives(raw: map<string, Option<RawHealth>>)
    ensures ParsedHealth(SavedHealth(ParsedHealth(raw))) == ParsedHealth(raw)
  {
  }

  /** Parsing the saved pool succeeds and gives the pool. */
  predicate ReadBack(pool: PoolData, admitted: string -> bool) {
    Readable(Saved(pool), admitted) && Parsed(Saved(pool)) == pool
  }

  lemma NormalPoolReadsBack(pool: PoolData, admitted: string -> bool)
    requires Convertible(SavePolicy(pool.policy)) && ParsePolicy(SavePolicy(pool.policy)) == pool.policy
    requires pool.proxies != [] && forall i :: 0 <= i < |pool.proxies| ==> Normal(pool.proxies[i])
    requires forall i :: 0 <= i < |pool.proxies| ==> pool.proxies[i].id != "" && admitted(pool.proxies[i].url)
    requires forall i, j :: 0 <= i < j < |pool.proxies| ==> pool.proxies[i].id != pool.proxies[j].id
    requires ParsedHealth(SavedHealth(pool.health)) == pool.health
    ensures ReadBack(pool, admitted)
  {
    NormalEntriesSurvive(pool.proxies);
  }

  /** Saving a parsed pool and parsing it again gives the same pool, and never an error. */
  lemma ParsedPoolSurvivesSaving(payload: Payload, admitted: string -> bool)
    requires Readable(payload, admitted)
    ensures ReadBack(Parsed(payload), admitted)
  {
    PolicySurvives(payload.policy);
    EntriesAreNormal(payload.proxies);
    HealthSurvives(payload.health);
    NormalPoolReadsBack(Parsed(payload), admitted);
  }
}
