/** The vote on the exit address, and the country verdict among the sources that agree. */
module Consensus {
  import opened Basics
  import opened Texts

  datatype Source = Source(name: string, ok: bool, ip: string, countryCode: string)

  /** How many sources satisfy a condition. */
  function Tally(results: seq<Source>, condition: Source -> bool): nat {
    if results == [] then 0
    else Tally(results[..|results| - 1], condition) + if condition(results[|results| - 1]) then 1 else 0
  }

  /** How many sources report this address. */
  function Votes(results: seq<Source>, ip: string): nat {
    Tally(results, VotesFor(ip))
  }

  function VotesFor(ip: string): Source -> bool {
    (s: Source) => s.ok && s.ip != "" && s.ip == ip
  }

  /** Most votes, and among equals the greatest text. */
  ghost predicate Wins(results: seq<Source>, ip: string) {
    && Votes(results, ip) > 0
    && forall other: string :: other != ip ==>
         Votes(results, other) < Votes(results, ip) || (Votes(results, other) == Votes(results, ip) && Below(other, ip))
  }

  /** Every address with a vote is counted exactly. */
  method CountVotes(results: seq<Source>) returns (votes: map<string, nat>)
    ensures forall ip :: Votes(results, ip) == if ip in votes then votes[ip] else 0
    ensures forall ip :: ip in votes ==> votes[ip] > 0
  {
    votes := map[];
    for i := 0 to |results|
      invariant forall ip :: Votes(results[..i], ip) == if ip in votes then votes[ip] else 0
      invariant forall ip :: ip in votes ==> votes[ip] > 0
    {
      var item := results[i];
      assert results[..i + 1][..i] == results[..i];
      if item.ok && item.ip != "" {
        votes := votes[item.ip := (if item.ip in votes then votes[item.ip] else 0) + 1];
      }
    }
    assert results[..|results|] == results;
  }

  /** The address with the greatest pair of count and text. */
  method Elect(results: seq<Source>) returns (consensus: Option<string>, agreement: nat)
    ensures consensus.None? <==> forall ip :: Votes(results, ip) == 0
    ensures consensus.Some? ==> Wins(results, consensus.value) && agreement == Votes(results, consensus.value)
    ensures consensus.None? ==> agreement == 0
  {
    var votes := CountVotes(results);
    consensus, agreement := None, 0;
    var rest := votes.Keys;
    while rest != {}
      invariant rest <= votes.Keys
      invariant consensus.None? ==> rest == votes.Keys && agreement == 0
      invariant consensus.Some? ==> consensus.value in votes.Keys - rest && agreement == votes[consensus.value]
      invariant consensus.Some? ==>
                  forall ip :: ip in votes.Keys - rest && ip != consensus.value ==>
                    votes[ip] < agreement || (votes[ip] == agreement && Below(ip, consensus.value))
      decreases |rest|
    {
      var ip :| ip in rest;
      rest := rest - {ip};
      if consensus.Some? {
        TakeGreater(ip, consensus.value, votes, rest);
      }
      if consensus.None? || votes[ip] > agreement || (votes[ip] == agreement && Below(consensus.value, ip)) {
        consensus, agreement := Some(ip), votes[ip];
      }
    }
    if consensus.None? {
      assert forall ip :: ip !in votes;
    } else {
      assert Votes(results, consensus.value) == votes[consensus.value] > 0;
      forall other: string | other != consensus.value
        ensures Votes(results, other) < agreement
                || (Votes(results, other) == agreement && Below(other, consensus.value))
      {
      }
    }
  }

  /** Whichever of two addresses is greater stays greater than all that the other one beat. */
  lemma TakeGreater(ip: string, best: string, votes: map<string, nat>, rest: set<string>)
    requires ip in votes && best in votes && ip != best
    requires forall x :: x in votes.Keys - rest - {ip} && x != best ==>
               votes[x] < votes[best] || (votes[x] == votes[best] && Below(x, best))
    ensures Below(ip, best) || Below(best, ip)
    ensures !(Below(ip, best) && Below(best, ip))
    ensures votes[ip] > votes[best] || (votes[ip] == votes[best] && Below(best, ip)) ==>
              forall x :: x in votes.Keys - rest - {ip} ==>
                  votes[x] < votes[ip] || (votes[x] == votes[ip] && Below(x, ip))
  {
    BelowIsTotal(ip, best);
    if votes[ip] == votes[best] && Below(best, ip) {
      forall x | x in votes.Keys - rest - {ip} && votes[x] == votes[ip]
        ensures Below(x, ip)
      {
        if x != best {
          BelowIsTransitive(x, best, ip);
        }
      }
    }
  }

  lemma WinnerIsUnique(results: seq<Source>, a: string, b: string)
    requires Wins(results, a) && Wins(results, b)
    ensures a == b
  {
    BelowIsTotal(a, b);
  }

  lemma {:induction false} TallyWithout(results: seq<Source>, k: nat, condition: Source -> bool)
    requires k < |results|
    ensures Tally(results, condition)
            == Tally(results[..k] + results[k + 1..], condition) + if condition(results[k]) then 1 else 0
    decreases |results|
  {
    var without := results[..k] + results[k + 1..];
    if k == |results| - 1 {
      assert without == results[..k];
    } else {
      var shorter := results[..|results| - 1];
      TallyWithout(shorter, k, condition);
      assert without[..|without| - 1] == shorter[..k] + shorter[k + 1..];
      assert without[|without| - 1] == results[|results| - 1];
    }
  }

  lemma WithoutOne<T>(items: seq<T>, k: nat)
    requires k < |items|
    ensures multiset(items) == multiset(items[..k] + items[k + 1..]) + multiset{items[k]}
  {
    assert items == items[..k] + [items[k]] + items[k + 1..];
  }

  lemma SameRest<T>(a: multiset<T>, b: multiset<T>, x: multiset<T>)
    requires a + x == b + x
    ensures a == b
  {
    assert a == (a + x) - x && b == (b + x) - x;
  }

  /** No count depends on the order in which the sources complete. */
  lemma {:induction false} TallyIgnoresOrder(a: seq<Source>, b: seq<Source>, condition: Source -> bool)
    requires multiset(a) == multiset(b)
    ensures Tally(a, condition) == Tally(b, condition)
    decreases |a|
  {
    if a == [] {
      assert |multiset(b)| == 0;
    } else {
      var last := a[|a| - 1];
      assert last in multiset(b);
      var k :| 0 <= k < |b| && b[k] == last;
      TallyWithout(b, k, condition);
      var rest := b[..k] + b[k + 1..];
      WithoutOne(a, |a| - 1);
      WithoutOne(b, k);
      assert a[..|a| - 1] + a[|a|..] == a[..|a| - 1];
      SameRest(multiset(a[..|a| - 1]), multiset(rest), multiset{last});
      TallyIgnoresOrder(a[..|a| - 1], rest, condition);
    }
  }

  /** The elected address is the same for every completion order. */
  lemma ElectionIgnoresOrder(a: seq<Source>, b: seq<Source>, ip: string)
    requires multiset(a) == multiset(b)
    ensures Wins(a, ip) <==> Wins(b, ip)
  {
    forall other: string
      ensures Votes(a, other) == Votes(b, other)
    {
      TallyIgnoresOrder(a, b, VotesFor(other));
    }
  }

  // ---------------------------------------------------------------- the country verdict

  datatype Verdict = NoConsensus | CountryUnknown | CountryConflict | Country(code: string, allowed: bool)

  /** The source reports the address and names the country. */
  function Names(ip: string, code: string): Source -> bool {
    (s: Source) => s.ok && s.ip == ip && s.countryCode != "" && Upper(s.countryCode) == code
  }

  /** The country is named more often than any other. */
  ghost predicate Majority(results: seq<Source>, ip: string, code: string) {
    && Tally(results, Names(ip, code)) > 0
    && forall other: string :: other != code ==> Tally(results, Names(ip, other)) < Tally(results, Names(ip, code))
  }

  method CountCodes(results: seq<Source>, ip: string) returns (counted: map<string, nat>)
    ensures forall code :: Tally(results, Names(ip, code)) == if code in counted then counted[code] else 0
    ensures forall code :: code in counted ==> counted[code] > 0
  {
    counted := map[];
    for i := 0 to |results|
      invariant forall code :: Tally(results[..i], Names(ip, code)) == if code in counted then counted[code] else 0
      invariant forall code :: code in counted ==> counted[code] > 0
    {
      var s := results[i];
      assert results[..i + 1][..i] == results[..i];
      if s.ok && s.ip == ip && s.countryCode != "" {
        var code := Upper(s.countryCode);
        counted := counted[code := (if code in counted then counted[code] else 0) + 1];
      }
    }
    assert results[..|results|] == results;
  }

  /** The most frequent code and the count of the next, as the first two of `most_common`. */
  method TopTwo(counted: map<string, nat>) returns (top: Option<string>, second: nat, ghost runnerUp: Option<string>)
    ensures top.None? <==> counted == map[]
    ensures top.Some? ==> top.value in counted && second <= counted[top.value]
    ensures forall c :: c in counted && top != Some(c) ==> counted[c] <= second
    ensures second > 0 ==>
              && runnerUp.Some?
              && runnerUp.value in counted
              && runnerUp != top
              && counted[runnerUp.value] == second
  {
    top, second, runnerUp := None, 0, None;
    var rest := counted.Keys;
    while rest != {}
      invariant rest <= counted.Keys
      invariant top.None? ==> rest == counted.Keys && second == 0
      invariant top.Some? ==> top.value in counted.Keys - rest && second <= counted[top.value]
      invariant forall c :: c in counted.Keys - rest && top != Some(c) ==> counted[c] <= second
      invariant second > 0 ==>
                  && runnerUp.Some?
                  && runnerUp.value in counted.Keys - rest
                  && runnerUp != top
                  && counted[runnerUp.value] == second
      decreases |rest|
    {
      var code :| code in rest;
      rest := rest - {code};
      if top.None? {
        top := Some(code);
      } else if counted[code] > counted[top.value] {
        top, second, runnerUp := Some(code), counted[top.value], top;
      } else if counted[code] > second {
        second, runnerUp := counted[code], Some(code);
      }
    }
  }

  /** A definite verdict is given exactly for a strictly most frequent country. */
  method Judge(results: seq<Source>, consensus: Option<string>) returns (v: Verdict)
    ensures v.NoConsensus? <==> consensus.None? || consensus.value == ""
    ensures v.CountryUnknown? <==>
              && consensus.Some?
              && consensus.value != ""
              && forall code :: Tally(results, Names(consensus.value, code)) == 0
    ensures v.Country? <==>
              && consensus.Some?
              && consensus.value != ""
              && exists code :: Majority(results, consensus.value, code)
    ensures v.Country? ==>
              && Majority(results, consensus.value, v.code)
              && (v.allowed <==> v.code != "JP" && v.code != "KR")
  {
    if consensus.None? || consensus.value == "" {
      return NoConsensus;
    }
    var counted := CountCodes(results, consensus.value);
    ghost var runnerUp;
    var top, second;
    top, second, runnerUp := TopTwo(counted);
    if top.None? {
      assert forall code :: code !in counted;
      return CountryUnknown;
    }
    assert Tally(results, Names(consensus.value, top.value)) == counted[top.value] > 0;
    if second == counted[top.value] {
      NoMajority(results, consensus.value, counted, top.value, runnerUp.value);
      return CountryConflict;
    }
    assert Majority(results, consensus.value, top.value);
    return Country(top.value, top.value != "JP" && top.value != "KR");
  }

  lemma NoMajority(results: seq<Source>, ip: string, counted: map<string, nat>, top: string, c: string)
    requires forall code :: Tally(results, Names(ip, code)) == if code in counted then counted[code] else 0
    requires top in counted && (forall c :: c in counted ==> counted[c] <= counted[top])
    requires c in counted && c != top && counted[c] == counted[top]
    ensures forall code :: !Majority(results, ip, code)
  {
    forall code: string
      ensures !Majority(results, ip, code)
    {
      assert Tally(results, Names(ip, top)) == counted[top] && Tally(results, Names(ip, c)) == counted[top];
      assert Tally(results, Names(ip, code)) <= counted[top];
    }
  }

  /** The verdict is the same for every completion order. */
  lemma MajorityIgnoresOrder(a: seq<Source>, b: seq<Source>, ip: string, code: string)
    requires multiset(a) == multiset(b)
    ensures Majority(a, ip, code) <==> Majority(b, ip, code)
  {
    forall other: string
      ensures Tally(a, Names(ip, other)) == Tally(b, Names(ip, other))
    {
      TallyIgnoresOrder(a, b, Names(ip, other));
    }
  }
}
