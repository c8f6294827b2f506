/** The removal of stale temporary files from the download directory. */
module TempCleanup {
  import opened Basics
  import opened Transfer
  import opened Protocol

  datatype Stat = Stat(regular: bool, owned: bool, links: nat, modified: real)

  const PREFIX: string := ".download-"
  const SUFFIX: string := ".tmp"

  predicate StartsWith(name: string, prefix: string) {
    prefix <= name
  }

  predicate EndsWith(name: string, suffix: string) {
    |suffix| <= |name| && name[|name| - |suffix|..] == suffix
  }

  /** A download's temporary file that no fact refers to, with a single name, untouched since the cutoff. */
  predicate Stale(name: string, stat: Stat, referenced: set<string>, cutoff: real) {
    && StartsWith(name, PREFIX) && EndsWith(name, SUFFIX) && name !in referenced
    && stat.regular && stat.owned && stat.links == 1 && stat.modified < cutoff
  }

  class TempDirectory {
    var entries: map<string, Stat>

    constructor (entries: map<string, Stat>)
      ensures this.entries == entries
    {
      this.entries := entries;
    }

    /** A name that cannot be examined or removed is left alone. */
    method CleanupStale(listing: seq<string>, referenced: set<string>, failing: set<string>, retentionHours: int,
                        now: real)
      returns (r: Result<nat, ErrorCode>)
      requires forall i, j :: 0 <= i < j < |listing| ==> listing[i] != listing[j]
      requires forall name :: name in entries <==> name in listing
      modifies this
      ensures r.Err? <==> !(1 <= retentionHours <= 720)
      ensures r.Err? ==> r.error == InvalidRequest && entries == old(entries)
      ensures r.Ok? ==>
                var cutoff := now - (retentionHours * 3600) as real;
                && (forall name :: name in entries <==>
                      name in old(entries)
                      && (name in failing || !Stale(name, old(entries)[name], referenced, cutoff)))
                && (forall name :: name in entries ==> entries[name] == old(entries)[name])
                && r.value == |old(entries)| - |entries|
    {
      if !(1 <= retentionHours <= 720) {
        return Err(InvalidRequest);
      }
      var cutoff := now - (retentionHours * 3600) as real;
      var removed := 0;
      ghost var before := entries;
      for i := 0 to |listing|
        invariant forall name :: name in entries <==>
                    name in before
                    && (name in failing || !Stale(name, before[name], referenced, cutoff) || name in listing[i..])
        invariant forall name :: name in entries ==> entries[name] == before[name]
        invariant removed + |entries| == |before|
      {
        var name := listing[i];
        NextIsTaken(listing, i);
        if name !in failing && name in entries && Stale(name, entries[name], referenced, cutoff) {
          RemovalShrinks(entries, name);
          entries := entries - {name};
          removed := removed + 1;
        }
      }
      return Ok(removed);
    }
  }

  lemma NextIsTaken(listing: seq<string>, i: nat)
    requires i < |listing| && forall j, k :: 0 <= j < k < |listing| ==> listing[j] != listing[k]
    ensures listing[i] !in listing[i + 1..]
    ensures forall name :: name in listing[i..] <==> name == listing[i] || name in listing[i + 1..]
  {
    assert listing[i..] == [listing[i]] + listing[i + 1..];
  }

  lemma RemovalShrinks(entries: map<string, Stat>, name: string)
    requires name in entries
    ensures |entries - {name}| == |entries| - 1
  {
    assert (entries - {name}).Keys == entries.Keys - {name};
    assert |entries.Keys - {name}| == |entries.Keys| - 1;
    assert |(entries - {name}).Keys| == |entries - {name}|;
  }

  /** The directory as the cleanup sees it agrees with the state of the protocol, and no recorded file is missed. */
  ghost predicate Agrees(s: State, entries: map<string, Stat>, referenced: set<string>) {
    && (forall name :: name in entries ==>
          name in s.files.temp && entries[name].links == LinkCount(s.files, s.files.temp[name]))
    && (forall t :: t in s.facts && s.facts[t].temp.Some? ==> s.facts[t].temp.value.name in referenced)
  }

  function Sweeps(names: seq<string>): seq<Step> {
    if names == [] then [] else [Sweep(names[0])] + Sweeps(names[1..])
  }

  ghost function WithoutNames(s: State, names: set<string>): State {
    s.(files := s.files.(temp := s.files.temp - names))
  }

  lemma TwoNames(names: set<string>, m: string, n: string)
    requires m in names && n in names && m != n
    ensures |names| >= 2
  {
    assert |names - {m, n}| == |names| - |{m, n}|;
  }

  lemma SingleNameIsOwn(s: State, m: string, n: string)
    requires CanSweep(s, m) && CanSweep(s, n) && m != n
    ensures CanSweep(DoSweep(s, m), n)
  {
    var names := NamesOf(s.files.temp, s.files.temp[n]);
    assert n in names;
    assert m in names ==> |names| >= 2 by {
      if m in names {
        TwoNames(names, m, n);
      }
    }
    assert NamesOf(DoSweep(s, m).files.temp, s.files.temp[n]) == names;
  }

  lemma AfterSweep(s: State, name: string, more: seq<Step>)
    requires CanSweep(s, name)
    ensures Run(s, [Sweep(name)] + more) == Run(DoSweep(s, name), more)
  {
    assert ([Sweep(name)] + more)[1..] == more;
  }

  lemma {:induction false} SweepsRemove(s: State, names: seq<string>)
    requires forall name :: name in names ==> CanSweep(s, name)
    requires forall i, j :: 0 <= i < j < |names| ==> names[i] != names[j]
    ensures Run(s, Sweeps(names)) == WithoutNames(s, set name | name in names)
    decreases |names|
  {
    if names == [] {
      assert s.files.temp - {} == s.files.temp;
    } else {
      assert names == [names[0]] + names[1..];
      var r := DoSweep(s, names[0]);
      forall name | name in names[1..]
        ensures CanSweep(r, name)
      {
        SingleNameIsOwn(s, names[0], name);
      }
      SweepsRemove(r, names[1..]);
      AfterSweep(s, names[0], Sweeps(names[1..]));
      assert s.files.temp - (set name | name in names) == r.files.temp - set name | name in names[1..];
    }
  }

  /**
   Removing stale files, any of them and in any order, is a run of sweeps of the protocol, which takes away these names
   and nothing else.
   */
  lemma CleanupIsARun(s: State, entries: map<string, Stat>, referenced: set<string>, cutoff: real, names: seq<string>)
    requires Agrees(s, entries, referenced)
    requires forall i, j :: 0 <= i < j < |names| ==> names[i] != names[j]
    requires forall name :: name in names ==> name in entries && Stale(name, entries[name], referenced, cutoff)
    ensures Run(s, Sweeps(names)) == WithoutNames(s, set name | name in names)
  {
    SweepsRemove(s, names);
  }
}
