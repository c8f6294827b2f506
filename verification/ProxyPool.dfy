/** The proxy pool: health as a function of the probes, eligibility, and the choice among candidates. */
module ProxyPool {
  import opened Basics
  import opened Choosing
  import opened Texts

  datatype Policy = Policy(
    denyCountries: seq<string>, preferCountries: seq<string>, maxRiskScore: int, requireExitIp: bool,
    cooldownSeconds: int, maxFailCount: int, probeUrl: string, geoProvider: string)

  datatype Endpoint = Endpoint(id: string, url: string, enabled: bool, priority: int, tags: seq<string>,
                               expectedCountry: Option<string>, notes: string)

  datatype Health = Health(
    ok: bool, latencyMs: Option<int>, exitIp: string, countryCode: string, riskScore: Option<int>,
        qualityScore: Option<int>,
    failCount: int, cooldownUntil: real)

  /** What a probe brings back; an empty text stands for a missing one. */
  datatype Probe =
    | ProbeFailed(latencyMs: int)
    | Measured(latencyMs: int, exitIp: string, countryCode: string, riskScore: Option<int>, qualityScore: Option<int>)

  datatype Event = Event(probe: Probe, at: real)

  datatype Refusal =
    | MissingExitIp | DeniedCountry(country: string) | UnexpectedCountry(country: string) | TooRisky(score: int)

  function PolicyRefusal(policy: Policy, proxy: Endpoint, h: Health): Option<Refusal> {
    var country := Upper(h.countryCode);
    if policy.requireExitIp && h.exitIp == "" then Some(MissingExitIp)
    else if country != "" && country in policy.denyCountries then Some(DeniedCountry(country))
    else if proxy.expectedCountry.Some? && proxy.expectedCountry.value != "" && country != ""
        && country != Upper(proxy.expectedCountry.value) then
      Some(UnexpectedCountry(country))
    else if h.riskScore.Some? && h.riskScore.value > policy.maxRiskScore then Some(TooRisky(h.riskScore.value))
    else None
  }

  /** The health that a probe leaves behind. */
  function Probed(policy: Policy, proxy: Endpoint, previous: Option<Health>, event: Event): Health {
    var failCount := if previous.Some? then previous.value.failCount else 0;
    var until := event.at + policy.cooldownSeconds as real;
    match event.probe
    case ProbeFailed(latencyMs) => Health(false, Some(latencyMs), "", "", None, None, failCount + 1, until)
    case Measured(latencyMs, exitIp, countryCode, riskScore, qualityScore) =>
      var h := Health(true, Some(latencyMs), exitIp, countryCode, riskScore, qualityScore, 0, 0.0);
      if PolicyRefusal(policy, proxy, h).Some? then h.(ok := false, failCount := failCount + 1, cooldownUntil := until)
          else h
  }

  function After(policy: Policy, proxy: Endpoint, loaded: Option<Health>, events: seq<Event>): Option<Health> {
    if events == [] then loaded
    else Some(Probed(policy, proxy, After(policy, proxy, loaded, events[..|events| - 1]), events[|events| - 1]))
  }

  // ---------------------------------------------------------------- health and history

  /** The probe measured a proxy that the policy admits. */
  predicate Succeeded(policy: Policy, proxy: Endpoint, event: Event) {
    event.probe.Measured?
    && (policy.requireExitIp ==> event.probe.exitIp != "")
    && var country := Upper(event.probe.countryCode);
       && (country != "" ==> country !in policy.denyCountries)
       && (country != "" && proxy.expectedCountry.Some? && proxy.expectedCountry.value != "" ==>
           country == Upper(proxy.expectedCountry.value))
       && (event.probe.riskScore.Some? ==> event.probe.riskScore.value <= policy.maxRiskScore)
  }

  /** The length of the run of failures at the end of the history; loaded failures count until the first success. */
  function Streak(policy: Policy, proxy: Endpoint, loaded: int, events: seq<Event>): int {
    if events == [] then loaded
    else if Succeeded(policy, proxy, events[|events| - 1]) then 0
    else Streak(policy, proxy, loaded, events[..|events| - 1]) + 1
  }

  /** After any probes, health is what the history says. */
  lemma {:induction false} HealthFollowsHistory(policy: Policy, proxy: Endpoint, loaded: Option<Health>,
                                                events: seq<Event>)
    ensures After(policy, proxy, loaded, events).None? <==> loaded.None? && events == []
    ensures After(policy, proxy, loaded, events).Some? ==>
              After(policy, proxy, loaded, events).value.failCount
              == Streak(policy, proxy, if loaded.Some? then loaded.value.failCount else 0, events)
    ensures events != [] ==>
              var h, last := After(policy, proxy, loaded, events).value, events[|events| - 1];
              && (h.ok <==> Succeeded(policy, proxy, last))
              && (h.ok ==> h.failCount == 0 && h.cooldownUntil == 0.0 && PolicyRefusal(policy, proxy, h).None?)
              && (!h.ok ==> h.cooldownUntil == last.at + policy.cooldownSeconds as real)
  {
    if events != [] {
      HealthFollowsHistory(policy, proxy, loaded, events[..|events| - 1]);
    }
  }

  /** Since a streak, the last so many probes failed, and the one before them did not. */
  lemma {:induction false} StreakCountsFailures(policy: Policy, proxy: Endpoint, loaded: int, events: seq<Event>,
                                                n: nat)
    requires n <= |events| && (forall i :: |events| - n <= i < |events| ==> !Succeeded(policy, proxy, events[i]))
    requires n < |events| ==> Succeeded(policy, proxy, events[|events| - n - 1])
    ensures Streak(policy, proxy, loaded, events) == if n < |events| then n else n + loaded
    decreases |events|
  {
    if n > 0 {
      StreakCountsFailures(policy, proxy, loaded, events[..|events| - 1], n - 1);
    }
  }

  // ---------------------------------------------------------------- eligibility

  predicate Eligible(policy: Policy, proxy: Endpoint, h: Option<Health>, now: real) {
    && proxy.enabled
    && (h.Some? ==>
          && h.value.cooldownUntil <= now
          && h.value.failCount < policy.maxFailCount
          && (h.value.ok ==> PolicyRefusal(policy, proxy, h.value).None?))
  }

  /**
   Eligibility in terms of the probes and what was loaded: only until the first probe does the loaded health decide.
   */
  lemma EligibleByHistory(policy: Policy, proxy: Endpoint, loaded: Option<Health>, events: seq<Event>, now: real)
    requires now >= 0.0
    ensures Eligible(policy, proxy, After(policy, proxy, loaded, events), now)
            <==> if events == [] then Eligible(policy, proxy, loaded, now)
                 else
                   && proxy.enabled
                   && if Succeeded(policy, proxy, events[|events| - 1])
                      then policy.maxFailCount > 0
                      else && events[|events| - 1].at + policy.cooldownSeconds as real <= now
                           && Streak(policy, proxy, if loaded.Some? then loaded.value.failCount else 0, events)
                              < policy.maxFailCount
  {
    HealthFollowsHistory(policy, proxy, loaded, events);
    if events != [] {
      HealthFollowsHistory(policy, proxy, loaded, events[..|events| - 1]);
    }
  }

  // ---------------------------------------------------------------- selection

  datatype Key = Key(priority: int, prefer: int, quality: int, latency: int, risk: int, id: string)

  function KeyOf(policy: Policy, proxy: Endpoint, h: Option<Health>): Key {
    Key(proxy.priority,
        if h.Some? && h.value.countryCode != "" && Upper(h.value.countryCode) in policy.preferCountries then -1 else 0,
        if h.Some? && h.value.qualityScore.Some? then -h.value.qualityScore.value else 0,
        if h.Some? && h.value.latencyMs.Some? then h.value.latencyMs.value else 50_000,
        if h.Some? && h.value.riskScore.Some? then h.value.riskScore.value else 50,
        proxy.id)
  }

  predicate Before(a: Key, b: Key) {
    if a.priority != b.priority then a.priority < b.priority
    else if a.prefer != b.prefer then a.prefer < b.prefer
    else if a.quality != b.quality then a.quality < b.quality
    else if a.latency != b.latency then a.latency < b.latency
    else if a.risk != b.risk then a.risk < b.risk
    else Below(a.id, b.id)
  }

  lemma BeforeIsTotal(a: Key, b: Key)
    ensures a == b || Before(a, b) || Before(b, a)
    ensures !(Before(a, b) && Before(b, a)) && !Before(a, a)
  {
    BelowIsTotal(a.id, b.id);
    BelowIsTotal(a.id, a.id);
  }

  lemma BeforeIsTransitive(a: Key, b: Key, c: Key)
    requires Before(a, b) && Before(b, c)
    ensures Before(a, c)
  {
    if Below(a.id, b.id) && Below(b.id, c.id) {
      BelowIsTransitive(a.id, b.id, c.id);
    }
  }

  /** The first candidate in the order of the keys. */
  function Least(candidates: seq<Endpoint>, key: Endpoint -> Key): Endpoint
    requires candidates != []
  {
    if |candidates| == 1 then candidates[0]
    else
      var rest := Least(candidates[1..], key);
      if Before(key(rest), key(candidates[0])) then rest else candidates[0]
  }

  lemma {:induction false} LeastIsLeast(candidates: seq<Endpoint>, key: Endpoint -> Key, other: Endpoint)
    requires candidates != []
    ensures Least(candidates, key) in candidates
    ensures other in candidates ==> !Before(key(other), key(Least(candidates, key)))
  {
    BeforeIsTotal(key(other), key(other));
    if |candidates| > 1 {
      var rest := Least(candidates[1..], key);
      LeastIsLeast(candidates[1..], key, other);
      BeforeIsTotal(key(rest), key(candidates[0]));
      BeforeIsTotal(key(other), key(candidates[0]));
      if Before(key(other), key(candidates[0])) && !Before(key(rest), key(candidates[0])) && other in candidates[1..] {
        BeforeIsTotal(key(other), key(rest));
        if Before(key(candidates[0]), key(rest)) {
          BeforeIsTransitive(key(other), key(candidates[0]), key(rest));
        }
      }
    }
  }

  lemma LeastIsUnique(candidates: seq<Endpoint>, key: Endpoint -> Key, a: Endpoint)
    requires a in candidates && (forall p, q :: p in candidates && q in candidates && key(p) == key(q) ==> p == q)
    requires forall p :: p in candidates ==> !Before(key(p), key(a))
    ensures Least(candidates, key) == a
  {
    var least := Least(candidates, key);
    LeastIsLeast(candidates, key, a);
    BeforeIsTotal(key(a), key(least));
  }

  ghost predicate DistinctIds(candidates: seq<Endpoint>) {
    forall p, q :: p in candidates && q in candidates && p.id == q.id ==> p == q
  }

  /** The order in which candidates are listed does not matter. */
  lemma SelectionIgnoresOrder(a: seq<Endpoint>, b: seq<Endpoint>, policy: Policy, health: map<string, Health>)
    requires a != [] && DistinctIds(a) && multiset(a) == multiset(b)
    ensures b != [] && Least(a, KeyIn(policy, health)) == Least(b, KeyIn(policy, health))
  {
    var key := KeyIn(policy, health);
    SameMembers(a, b);
    var chosen := Least(b, key);
    LeastIsLeast(b, key, chosen);
    forall p | p in a
      ensures !Before(key(p), key(chosen))
    {
      LeastIsLeast(b, key, p);
    }
    LeastIsUnique(a, key, chosen);
  }

  lemma SameMembers(a: seq<Endpoint>, b: seq<Endpoint>)
    requires multiset(a) == multiset(b)
    ensures forall p :: p in a <==> p in b
    ensures |a| == |b|
  {
    forall p: Endpoint
      ensures p in a <==> p in b
    {
      assert p in a <==> p in multiset(a);
      assert p in b <==> p in multiset(b);
    }
    assert |multiset(a)| == |a| && |multiset(b)| == |b|;
  }

  function Lookup(health: map<string, Health>, id: string): Option<Health> {
    if id in health then Some(health[id]) else None
  }

  function KeyIn(policy: Policy, health: map<string, Health>): Endpoint -> Key {
    (p: Endpoint) => KeyOf(policy, p, Lookup(health, p.id))
  }

  // ---------------------------------------------------------------- the pool

  class Pool {
    const proxies: seq<Endpoint>
    const policy: Policy
    var health: map<string, Health>
    ghost const loaded: map<string, Health>
    ghost var history: map<string, seq<Event>>

    constructor (proxies: seq<Endpoint>, policy: Policy, health: map<string, Health>)
      requires forall i, j :: 0 <= i < j < |proxies| ==> proxies[i].id != proxies[j].id
      ensures Valid() && history == map[] && loaded == health && this.health == health
      ensures this.proxies == proxies && this.policy == policy
    {
      this.proxies, this.policy, this.health, this.loaded := proxies, policy, health, health;
      history := map[];
    }

    ghost function EventsOf(id: string): seq<Event>
      reads `history
    {
      if id in history then history[id] else []
    }

    /** Ids are unique, and the health of every proxy is what its probes say. */
    ghost predicate Valid()
      reads `health, `history
    {
      && (forall i, j :: 0 <= i < j < |proxies| ==> proxies[i].id != proxies[j].id)
      && (forall p :: p in proxies ==> Lookup(health, p.id) == After(policy, p, Lookup(loaded, p.id), EventsOf(p.id)))
    }

    method Get(id: string) returns (r: Option<Endpoint>)
      ensures r.Some? ==> r.value in proxies && r.value.id == id
      ensures r.None? ==> forall p :: p in proxies ==> p.id != id
    {
      for i := 0 to |proxies|
        invariant forall j :: 0 <= j < i ==> proxies[j].id != id
      {
        if proxies[i].id == id {
          return Some(proxies[i]);
        }
      }
      return None;
    }

    /** The health of one proxy follows one more probe; an unknown id changes nothing. */
    method ProbeOne(id: string, event: Event) returns (r: Option<Health>)
      requires Valid()
      modifies `health, `history
      ensures Valid()
      ensures r.None? <==> forall p :: p in proxies ==> p.id != id
      ensures r.None? ==> health == old(health) && history == old(history)
      ensures r.Some? ==>
                && health == old(health)[id := r.value]
                && history == old(history)[id := old(EventsOf(id)) + [event]]
    {
      var proxy := Get(id);
      if proxy.None? {
        return None;
      }
      var h := Probed(policy, proxy.value, Lookup(health, id), event);
      ghost var events := EventsOf(id) + [event];
      assert events[..|events| - 1] == EventsOf(id);
      health := health[id := h];
      history := history[id := events];
      assert forall p :: p in proxies && p.id == id ==> p == proxy.value;
      return Some(h);
    }

    ghost function Rule(now: real): int -> bool
      reads `health
    {
      var h := health;
      (i: int) => 0 <= i < |proxies| && Eligible(policy, proxies[i], Lookup(h, proxies[i].id), now)
    }

    /** In the order of the configuration, the proxies that may be used now. */
    method ListEligible(now: real) returns (result: seq<Endpoint>)
      ensures result == Chosen(proxies, |proxies|, Rule(now), true)
    {
      result := [];
      for i := 0 to |proxies|
        invariant result == Chosen(proxies, i, Rule(now), true)
      {
        var proxy := proxies[i];
        var h := Lookup(health, proxy.id);
        if !proxy.enabled {
          continue;
        }
        if h.None? {
          result := result + [proxy];
          continue;
        }
        if h.value.cooldownUntil > now || h.value.failCount >= policy.maxFailCount {
          continue;
        }
        if h.value.ok && PolicyRefusal(policy, proxy, h.value).Some? {
          continue;
        }
        result := result + [proxy];
      }
    }

    /**
     The candidate with the least key; with `requireProbed`, only proxies whose last probe succeeded are considered.
     */
    method Select(now: real, requireProbed: bool) returns (r: Option<Endpoint>)
      requires Valid()
      ensures r.None? <==> forall p :: p in proxies ==> !Candidate(p, now, requireProbed)
      ensures r.Some? ==>
                && r.value in proxies && Candidate(r.value, now, requireProbed)
                && forall p :: p in proxies && p != r.value && Candidate(p, now, requireProbed) ==>
                     Before(KeyIn(policy, health)(r.value), KeyIn(policy, health)(p))
      ensures r.Some? && requireProbed ==>
                r.value.id in health && health[r.value.id].ok
                    && PolicyRefusal(policy, r.value, health[r.value.id]).None?
    {
      var eligible := ListEligible(now);
      var candidates: seq<Endpoint> := [];
      for i := 0 to |eligible|
        invariant forall p :: p in candidates
                              <==> p in eligible[..i] && (requireProbed ==> p.id in health && health[p.id].ok)
      {
        if !requireProbed || (eligible[i].id in health && health[eligible[i].id].ok) {
          candidates := candidates + [eligible[i]];
        }
      }
      assert eligible[..|eligible|] == eligible;
      EligibleMembers(now);
      assert forall p :: p in candidates <==> p in proxies && Candidate(p, now, requireProbed);
      if candidates == [] {
        return None;
      }
      var chosen := Least(candidates, KeyIn(policy, health));
      LeastIsLeast(candidates, KeyIn(policy, health), chosen);
      forall p | p in proxies && p != chosen && Candidate(p, now, requireProbed)
        ensures Before(KeyIn(policy, health)(chosen), KeyIn(policy, health)(p))
      {
        LeastIsLeast(candidates, KeyIn(policy, health), p);
        BeforeIsTotal(KeyIn(policy, health)(chosen), KeyIn(policy, health)(p));
      }
      return Some(chosen);
    }

    ghost predicate Candidate(p: Endpoint, now: real, requireProbed: bool)
      reads `health
    {
      Eligible(policy, p, Lookup(health, p.id), now) && (requireProbed ==> p.id in health && health[p.id].ok)
    }

    lemma EligibleMembers(now: real)
      ensures forall p :: p in Chosen(proxies, |proxies|, Rule(now), true) <==>
                p in proxies && Eligible(policy, p, Lookup(health, p.id), now)
    {
      var rule := Rule(now);
      forall p | p in Chosen(proxies, |proxies|, rule, true)
        ensures p in proxies && Eligible(policy, p, Lookup(health, p.id), now)
      {
        var k :| 0 <= k < |Chosen(proxies, |proxies|, rule, true)| && Chosen(proxies, |proxies|, rule, true)[k] == p;
        var i := ChosenComesFrom(proxies, |proxies|, rule, k);
      }
      forall p | p in proxies && Eligible(policy, p, Lookup(health, p.id), now)
        ensures p in Chosen(proxies, |proxies|, rule, true)
      {
        var i :| 0 <= i < |proxies| && proxies[i] == p;
        var k := PositionOf(proxies, |proxies|, rule, i);
      }
    }
  }
}
