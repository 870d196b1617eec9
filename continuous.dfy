/**
 * The continuous scheduler of the lambdapark evaluation farm. For every
 * configured match setting it lays out a number of rounds. Each round
 * takes the punters that have played the fewest rounds of that setting so
 * far, and the scheduler files one pending job per round. The settings
 * file, the database, the clock, the build and the revision label's origin
 * are outside the model; the random shuffles are arbitrary permutations.
 */
module Continuous {
  import opened Wrappers
  import opened Sorting
  import opened PyBuiltins

  /** An entry of the settings' punter list. */
  datatype PunterSetting = PunterSetting(name: string, continuous: bool)

  /** An entry of the settings' map list. */
  datatype MapSetting = MapSetting(name: string, numSites: int)

  /** An entry of the settings' continuous configurations; `extensions` defaults to none. */
  datatype Config = Config(mapName: string, numPunters: nat, numRounds: nat, extensions: seq<string>)

  /** A job document as it is inserted into the job queue. */
  datatype Job = Job(
    mapName: string,
    extensions: string,
    punters: seq<string>,
    priority: int,
    user: string,
    runLabel: string,
    status: string)

  // ---------------------------------------------------------------------
  // Settings

  /** The names of the punters flagged continuous, in settings order. */
  function Continuing(settings: seq<PunterSetting>): (names: seq<string>)
    ensures |names| <= |settings|
    ensures forall n :: n in names <==> exists k :: 0 <= k < |settings| && settings[k].continuous && settings[k].name == n
    decreases |settings|
  {
    if settings == [] then []
    else
      var last := settings[|settings| - 1];
      Continuing(settings[..|settings| - 1]) + (if last.continuous then [last.name] else [])
  }

  /** The loop that collects the continuous punters. */
  method ContinuousNames(settings: seq<PunterSetting>) returns (names: seq<string>)
    ensures names == Continuing(settings)
  {
    names := [];
    for i := 0 to |settings|
      invariant names == Continuing(settings[..i])
    {
      assert settings[..i + 1][..i] == settings[..i];
      if settings[i].continuous {
        names := names + [settings[i].name];
      }
    }
    assert settings[..|settings|] == settings;
  }

  /** The number of sites of each map by name; a later entry with the same name replaces an earlier one. */
  function SitesOf(maps: seq<MapSetting>): (sites: map<string, int>)
    ensures forall n :: n in sites <==> exists k :: 0 <= k < |maps| && maps[k].name == n
    decreases |maps|
  {
    if maps == [] then map[]
    else
      var last := maps[|maps| - 1];
      SitesOf(maps[..|maps| - 1])[last.name := last.numSites]
  }

  /** A map's size is the one given by its last entry. */
  lemma {:induction false} LastEntryWins(maps: seq<MapSetting>, k: nat)
    requires k < |maps| && forall j :: k < j < |maps| ==> maps[j].name != maps[k].name
    ensures SitesOf(maps)[maps[k].name] == maps[k].numSites
    decreases |maps|
  {
    if k < |maps| - 1 {
      var front := maps[..|maps| - 1];
      assert forall j :: k < j < |front| ==> front[j] == maps[j];
      LastEntryWins(front, k);
      assert front[k] == maps[k];
    }
  }

  // ---------------------------------------------------------------------
  // Configurations in order of map size

  /** Every configuration names a known map. */
  predicate Known(configs: seq<Config>, sites: map<string, int>)
  {
    forall c :: c in configs ==> c.mapName in sites
  }

  /** The sort key of a configuration: its map's number of sites, then its number of punters. */
  function KeyOf(c: Config, sites: map<string, int>): (int, int)
    requires c.mapName in sites
  {
    (sites[c.mapName], c.numPunters)
  }

  predicate InOrder(configs: seq<Config>, sites: map<string, int>)
    requires Known(configs, sites)
  {
    forall i, j :: 0 <= i < j < |configs| ==> PairLe(KeyOf(configs[i], sites), KeyOf(configs[j], sites))
  }

  /** `x` filed after every configuration whose key is at most its own. */
  function Filed(sorted: seq<Config>, x: Config, sites: map<string, int>): (q: seq<Config>)
    requires Known(sorted, sites) && x.mapName in sites && InOrder(sorted, sites)
    ensures forall c :: c in q ==> c in sorted || c == x
    ensures Known(q, sites) && InOrder(q, sites)
    ensures multiset(q) == multiset(sorted) + multiset{x}
    decreases |sorted|
  {
    if sorted == [] then [x]
    else
      var last := sorted[|sorted| - 1];
      if !PairLe(KeyOf(last, sites), KeyOf(x, sites)) then
        var front := sorted[..|sorted| - 1];
        assert sorted == front + [last];
        var p := Filed(front, x, sites);
        FiledBelow(p, front, x, last, sites);
        p + [last]
      else sorted + [x]
  }

  /** Filing an entry that sorts before `last` among entries that all do leaves `last` at the end. */
  lemma FiledBelow(p: seq<Config>, front: seq<Config>, x: Config, last: Config, sites: map<string, int>)
    requires Known(front + [last], sites) && x.mapName in sites
    requires Known(p, sites) && InOrder(p, sites) && forall c :: c in p ==> c in front || c == x
    requires InOrder(front + [last], sites) && !PairLe(KeyOf(last, sites), KeyOf(x, sites))
    ensures Known(p + [last], sites) && InOrder(p + [last], sites)
  {
    assert (front + [last])[|front|] == last;
    forall i | 0 <= i < |p|
      ensures PairLe(KeyOf(p[i], sites), KeyOf(last, sites))
    {
      assert p[i] in p;
      if p[i] != x {
        var j :| 0 <= j < |front| && front[j] == p[i];
        assert (front + [last])[j] == front[j];
      }
    }
  }

  /** `configs.sort(key=...)`: stable, by map size and then number of punters. */
  function ByMapSize(configs: seq<Config>, sites: map<string, int>): (sorted: seq<Config>)
    requires Known(configs, sites)
    ensures Known(sorted, sites) && InOrder(sorted, sites)
    ensures multiset(sorted) == multiset(configs)
    decreases |configs|
  {
    if configs == [] then []
    else
      var front := configs[..|configs| - 1];
      assert configs == front + [configs[|configs| - 1]];
      Filed(ByMapSize(front, sites), configs[|configs| - 1], sites)
  }

  // ---------------------------------------------------------------------
  // Extension lists

  predicate TextSorted(s: seq<string>)
  {
    forall i :: 0 < i < |s| ==> TextLe(s[i - 1], s[i])
  }

  /** `x` inserted before the first string it does not follow. */
  function InsertText(r: seq<string>, x: string): (q: seq<string>)
    requires TextSorted(r)
    ensures TextSorted(q) && multiset(q) == multiset(r) + multiset{x}
    ensures |q| == |r| + 1 && (q[0] == x || (r != [] && q[0] == r[0]))
    decreases |r|
  {
    if r == [] || TextLe(x, r[0]) then [x] + r
    else
      TextLeTotal(x, r[0]);
      assert r == [r[0]] + r[1..];
      [r[0]] + InsertText(r[1..], x)
  }

  /** `sorted(extensions)`. */
  function SortedText(s: seq<string>): (r: seq<string>)
    ensures TextSorted(r) && multiset(r) == multiset(s)
    decreases |s|
  {
    if s == [] then []
    else
      assert s == s[..|s| - 1] + [s[|s| - 1]];
      InsertText(SortedText(s[..|s| - 1]), s[|s| - 1])
  }

  /** The extension field of a configuration's jobs. */
  function ExtensionField(c: Config): string
  {
    Join(SortedText(c.extensions), ',')
  }

  /** The extension field lists the configured extensions, sorted, and splits back into them. */
  lemma ExtensionFieldSplits(c: Config)
    requires |c.extensions| > 0 && forall k :: 0 <= k < |c.extensions| ==> ',' !in c.extensions[k]
    ensures Split(ExtensionField(c), ',') == SortedText(c.extensions)
    ensures multiset(Split(ExtensionField(c), ',')) == multiset(c.extensions)
  {
    var sorted := SortedText(c.extensions);
    forall k | 0 <= k < |sorted| ensures ',' !in sorted[k] {
      assert sorted[k] in multiset(c.extensions);
    }
    SplitJoin(sorted, ',');
  }

  // ---------------------------------------------------------------------
  // One round

  /** Shuffling a list: some permutation of it. */
  method Shuffle(s: seq<string>) returns (r: seq<string>)
    ensures multiset(r) == multiset(s)
  {
    r :| multiset(r) == multiset(s);
  }

  /** Every punter has a count, and nothing else has. */
  ghost predicate Tracks(selects: map<string, int>, punters: seq<string>)
  {
    forall p :: p in selects <==> p in punters
  }

  /** No two punters' counts differ by more than one. */
  predicate Balanced(selects: map<string, int>, punters: seq<string>)
    requires Tracks(selects, punters)
  {
    forall p, q :: p in punters && q in punters ==> selects[p] <= selects[q] + 1
  }

  /** `min(selects.values())`. */
  function Fewest(punters: seq<string>, selects: map<string, int>): (m: int)
    requires punters != [] && forall p :: p in punters ==> p in selects
    ensures exists k :: 0 <= k < |punters| && selects[punters[k]] == m
    ensures forall p :: p in punters ==> m <= selects[p]
    decreases |punters|
  {
    var last := punters[|punters| - 1];
    if |punters| == 1 then selects[last]
    else
      var front := punters[..|punters| - 1];
      assert punters == front + [last];
      Min(Fewest(front, selects), selects[last])
  }

  /** The punters whose count is `m` (when `equal`) or is not `m`, in list order. */
  function Sift(punters: seq<string>, selects: map<string, int>, m: int, equal: bool): (r: seq<string>)
    requires forall p :: p in punters ==> p in selects
    ensures multiset(r) <= multiset(punters)
    ensures forall p :: p in r <==> p in punters && (selects[p] == m) == equal
    decreases |punters|
  {
    if punters == [] then []
    else
      var last := punters[|punters| - 1];
      var front := punters[..|punters| - 1];
      assert punters == front + [last];
      Sift(front, selects, m, equal) + (if (selects[last] == m) == equal then [last] else [])
  }

  /** The two lists split the punters between them. */
  lemma {:induction false} SiftSizes(punters: seq<string>, selects: map<string, int>, m: int)
    requires forall p :: p in punters ==> p in selects
    ensures |Sift(punters, selects, m, true)| + |Sift(punters, selects, m, false)| == |punters|
    decreases |punters|
  {
    if punters != [] {
      var front := punters[..|punters| - 1];
      assert punters == front + [punters[|punters| - 1]];
      SiftSizes(front, selects, m);
    }
  }

  /**
   * One round: the least-played punters in some order, topped up by the
   * others in some order, shuffled, and each chosen punter's count raised
   * by one.
   */
  method Round(punters: seq<string>, selects: map<string, int>, size: nat) returns (chosen: seq<string>, after: map<string, int>)
    requires punters != [] && NoDuplicates(punters)
    requires Tracks(selects, punters) && Balanced(selects, punters)
    ensures NoDuplicates(chosen) && |chosen| == Min(size, |punters|)
    ensures forall p :: p in chosen ==> p in punters
    ensures forall p, q :: p in punters && p !in chosen && q in chosen ==> selects[q] <= selects[p]
    ensures Tracks(after, punters) && Balanced(after, punters)
    ensures forall p :: p in punters ==> after[p] == selects[p] + (if p in chosen then 1 else 0)
  {
    var fewest := Fewest(punters, selects);
    var least := Sift(punters, selects, fewest, true);
    var others := Sift(punters, selects, fewest, false);
    var low := Shuffle(least);
    var high := Shuffle(others);
    SiftSizes(punters, selects, fewest);
    Shuffled(low, least, punters);
    Shuffled(high, others, punters);
    var picked := Pick(punters, selects, fewest, low, high, size);
    chosen := Shuffle(picked);
    Shuffled(chosen, picked, picked);
    after := Count(punters, selects, chosen);
    assert forall p :: p in chosen ==> p in picked;
    Rebalanced(punters, selects, fewest, chosen, after);
  }

  /**
   * Raising the counts of chosen punters that all had the fewest, or of a
   * choice that takes in every punter that had the fewest, keeps the
   * counts within one of each other; nobody left out had fewer than
   * anyone chosen.
   */
  lemma Rebalanced(punters: seq<string>, selects: map<string, int>, fewest: int, chosen: seq<string>, after: map<string, int>)
    requires Tracks(selects, punters) && Balanced(selects, punters)
    requires (exists k :: 0 <= k < |punters| && selects[punters[k]] == fewest) && forall p :: p in punters ==> fewest <= selects[p]
    requires Tracks(after, punters) && forall p :: p in punters ==> after[p] == selects[p] + (if p in chosen then 1 else 0)
    requires forall p :: p in chosen ==> p in punters
    requires || (forall p :: p in chosen ==> selects[p] == fewest)
             || (forall p :: p in punters && selects[p] == fewest ==> p in chosen)
    ensures Balanced(after, punters)
    ensures forall p, q :: p in punters && p !in chosen && q in chosen ==> selects[q] <= selects[p]
  {
    var k :| 0 <= k < |punters| && selects[punters[k]] == fewest;
    assert forall p :: p in punters ==> selects[p] <= selects[punters[k]] + 1;
  }

  /** The least-played punters first, then as many others as are still wanted. */
  method Pick(punters: seq<string>, selects: map<string, int>, fewest: int, low: seq<string>, high: seq<string>, size: nat)
    returns (picked: seq<string>)
    requires NoDuplicates(low) && NoDuplicates(high) && |low| + |high| == |punters|
    requires forall p :: p in low <==> p in punters && p in selects && selects[p] == fewest
    requires forall p :: p in high <==> p in punters && p in selects && selects[p] != fewest
    ensures NoDuplicates(picked) && |picked| == Min(size, |punters|)
    ensures forall p :: p in picked ==> p in low || p in high
    ensures |low| >= size ==> forall p :: p in picked ==> p in low
    ensures |low| < size ==> forall p :: p in low ==> p in picked
  {
    picked := low[..Min(size, |low|)];
    NoDuplicatesPrefix(low, Min(size, |low|));
    if |picked| < size {
      var top := high[..Min(size - |picked|, |high|)];
      NoDuplicatesPrefix(high, Min(size - |picked|, |high|));
      assert picked == low;
      NoDuplicatesConcat(picked, top);
      picked := picked + top;
    }
  }

  /** A shuffled part of a list without repeats: the same members, the same length, no repeats. */
  lemma Shuffled(r: seq<string>, s: seq<string>, punters: seq<string>)
    requires multiset(r) == multiset(s) && multiset(s) <= multiset(punters) && NoDuplicates(punters)
    ensures NoDuplicates(r) && |r| == |s|
    ensures forall p :: p in r <==> p in s
  {
    assert |r| == |multiset(r)|;
    assert forall p :: p in r <==> p in multiset(r);
    assert forall p :: p in s <==> p in multiset(s);
  }

  /** `selects[p] += 1` for every chosen punter. */
  method Count(punters: seq<string>, selects: map<string, int>, chosen: seq<string>) returns (after: map<string, int>)
    requires Tracks(selects, punters) && NoDuplicates(chosen) && forall p :: p in chosen ==> p in punters
    ensures Tracks(after, punters)
    ensures forall p :: p in punters ==> after[p] == selects[p] + (if p in chosen then 1 else 0)
  {
    after := selects;
    for i := 0 to |chosen|
      invariant Tracks(after, punters)
      invariant forall p :: p in punters ==> after[p] == selects[p] + (if p in chosen[..i] then 1 else 0)
    {
      NoDuplicatesFresh(chosen, i);
      assert chosen[..i + 1] == chosen[..i] + [chosen[i]];
      after := after[chosen[i] := after[chosen[i]] + 1];
    }
    assert chosen[..|chosen|] == chosen;
  }

  // ---------------------------------------------------------------------
  // Jobs

  /** The number of jobs that `p` plays in. */
  function Appearances(jobs: seq<Job>, p: string): nat
    decreases |jobs|
  {
    if jobs == [] then 0
    else Appearances(jobs[..|jobs| - 1], p) + (if p in jobs[|jobs| - 1].punters then 1 else 0)
  }

  /** `j` is a job filed for one round of `c`, drawn from `punters`. */
  predicate JobFor(c: Config, runLabel: string, punters: seq<string>, j: Job)
  {
    && j.mapName == c.mapName
    && j.extensions == ExtensionField(c)
    && j.priority == 0 && j.user == "continuous" && j.runLabel == runLabel && j.status == "pending"
    && NoDuplicates(j.punters) && |j.punters| == Min(c.numPunters, |punters|)
    && forall p :: p in j.punters ==> p in punters
  }

  /**
   * The rounds of one configuration. Counting fails, as `min` of no
   * values raises, when there is a round to lay out and no punter.
   */
  method ConfigJobs(c: Config, punters: seq<string>, runLabel: string) returns (jobs: seq<Job>, failed: bool)
    requires NoDuplicates(punters)
    ensures failed <==> punters == [] && c.numRounds > 0
    ensures !failed ==> |jobs| == c.numRounds
    ensures forall j :: j in jobs ==> JobFor(c, runLabel, punters, j)
    ensures forall p, q :: p in punters && q in punters ==> Appearances(jobs, p) <= Appearances(jobs, q) + 1
  {
    jobs := [];
    failed := punters == [] && c.numRounds > 0;
    if failed {
      return;
    }
    var selects := map p | p in punters :: 0;
    var extensions := ExtensionField(c);
    for r := 0 to c.numRounds
      invariant |jobs| == r
      invariant Tracks(selects, punters) && Balanced(selects, punters)
      invariant forall p :: p in punters ==> selects[p] == Appearances(jobs, p)
      invariant forall j :: j in jobs ==> JobFor(c, runLabel, punters, j)
    {
      var chosen, after := Round(punters, selects, c.numPunters);
      var job := Job(c.mapName, extensions, chosen, 0, "continuous", runLabel, "pending");
      assert (jobs + [job])[..|jobs|] == jobs;
      selects := after;
      jobs := jobs + [job];
    }
  }

  /** The rounds asked for by all configurations together. */
  function TotalRounds(configs: seq<Config>): nat
    decreases |configs|
  {
    if configs == [] then 0
    else TotalRounds(configs[..|configs| - 1]) + configs[|configs| - 1].numRounds
  }

  lemma {:induction false} TotalRoundsAppend(a: seq<Config>, b: seq<Config>)
    ensures TotalRounds(a + b) == TotalRounds(a) + TotalRounds(b)
    decreases |b|
  {
    if b == [] {
      assert a + b == a;
    } else {
      assert (a + b)[..|a + b| - 1] == a + b[..|b| - 1];
      TotalRoundsAppend(a, b[..|b| - 1]);
    }
  }

  /** The total does not depend on the order of the configurations. */
  lemma {:induction false} TotalRoundsPermutation(a: seq<Config>, b: seq<Config>)
    requires multiset(a) == multiset(b)
    ensures TotalRounds(a) == TotalRounds(b)
    decreases |a|
  {
    if a != [] {
      var front, x := a[..|a| - 1], a[|a| - 1];
      assert a == front + [x];
      assert x in multiset(b) by {
        assert x in multiset(a);
      }
      var j :| 0 <= j < |b| && b[j] == x;
      var left, right := b[..j], b[j + 1..];
      assert b == left + [x] + right;
      var rest := left + right;
      Unpicked(front, x, b, j);
      TotalRoundsAppend(left + [x], right);
      TotalRoundsAppend(left, [x]);
      TotalRoundsAppend(left, right);
      assert [x][..0] == [];
      TotalRoundsPermutation(front, rest);
    }
  }

  /** Taking the same element out of two permutations of each other leaves permutations of each other. */
  lemma Unpicked<T>(front: seq<T>, x: T, b: seq<T>, j: nat)
    requires j < |b| && b[j] == x && multiset(front + [x]) == multiset(b)
    ensures multiset(front) == multiset(b[..j] + b[j + 1..])
  {
    assert b == b[..j] + [x] + b[j + 1..];
    assert multiset(b) == multiset(b[..j]) + multiset{x} + multiset(b[j + 1..]);
    assert multiset(b[..j] + b[j + 1..]) == multiset(b[..j]) + multiset(b[j + 1..]);
    assert multiset(front) == multiset(front + [x]) - multiset{x};
  }

  /** Every job names a known map, and jobs on smaller maps come first. */
  predicate BySize(jobs: seq<Job>, sites: map<string, int>)
  {
    && (forall a :: 0 <= a < |jobs| ==> jobs[a].mapName in sites)
    && (forall a, b :: 0 <= a < b < |jobs| ==> sites[jobs[a].mapName] <= sites[jobs[b].mapName])
  }

  /**
   * The job list the scheduler inserts, or `None` when scheduling raises:
   * a configuration names an unknown map, or a round is wanted and no
   * punter is continuous.
   */
  method Schedule(settings: seq<PunterSetting>, maps: seq<MapSetting>, configs: seq<Config>, runLabel: string)
    returns (jobs: Option<seq<Job>>)
    requires NoDuplicates(Continuing(settings))
    ensures jobs.None? <==>
      || !Known(configs, SitesOf(maps))
      || (Continuing(settings) == [] && exists c :: c in configs && c.numRounds > 0)
    ensures jobs.Some? ==> |jobs.value| == TotalRounds(configs)
    ensures jobs.Some? ==> forall j :: j in jobs.value ==> exists c :: c in configs && JobFor(c, runLabel, Continuing(settings), j)
    ensures jobs.Some? ==> BySize(jobs.value, SitesOf(maps))
  {
    var names := ContinuousNames(settings);
    var sites := SitesOf(maps);
    if !Known(configs, sites) {
      return None;
    }
    var sorted := ByMapSize(configs, sites);
    assert forall c :: c in sorted <==> c in configs by {
      assert forall c :: c in sorted <==> c in multiset(sorted);
      assert forall c :: c in configs <==> c in multiset(configs);
    }
    var all, failed := Collect(sorted, names, runLabel, sites);
    if failed {
      return None;
    }
    TotalRoundsPermutation(sorted, configs);
    return Some(all);
  }

  /** The jobs of the configurations in the order given, or failure when one of them cannot be counted. */
  method Collect(sorted: seq<Config>, names: seq<string>, runLabel: string, sites: map<string, int>)
    returns (all: seq<Job>, failed: bool)
    requires Known(sorted, sites) && InOrder(sorted, sites) && NoDuplicates(names)
    ensures failed <==> names == [] && exists c :: c in sorted && c.numRounds > 0
    ensures !failed ==> |all| == TotalRounds(sorted)
    ensures forall j :: j in all ==> exists c :: c in sorted && JobFor(c, runLabel, names, j)
    ensures BySize(all, sites)
  {
    all, failed := [], false;
    for i := 0 to |sorted|
      invariant |all| == TotalRounds(sorted[..i])
      invariant forall j :: j in all ==> exists c :: c in sorted && JobFor(c, runLabel, names, j)
      invariant BySize(all, sites)
      invariant forall a, k :: 0 <= a < |all| && i <= k < |sorted| ==> sites[all[a].mapName] <= sites[sorted[k].mapName]
      invariant names == [] ==> forall c :: c in sorted[..i] ==> c.numRounds == 0
    {
      var c := sorted[i];
      var more;
      more, failed := ConfigJobs(c, names, runLabel);
      if failed {
        return;
      }
      assert sorted[..i + 1] == sorted[..i] + [c];
      TotalRoundsAppend(sorted[..i], [c]);
      assert [c][..0] == [];
      Extend(all, more, sorted, i, sites, runLabel, names);
      all := all + more;
    }
    assert sorted[..|sorted|] == sorted;
  }


  /** Appending the jobs of configuration `i` keeps the list ordered by map size. */
  lemma Extend(all: seq<Job>, more: seq<Job>, sorted: seq<Config>, i: nat, sites: map<string, int>, runLabel: string, names: seq<string>)
    requires i < |sorted| && Known(sorted, sites) && InOrder(sorted, sites)
    requires BySize(all, sites)
    requires forall a, k :: 0 <= a < |all| && i <= k < |sorted| ==> sites[all[a].mapName] <= sites[sorted[k].mapName]
    requires forall j :: j in more ==> JobFor(sorted[i], runLabel, names, j)
    ensures BySize(all + more, sites)
    ensures forall a, k :: 0 <= a < |all + more| && i + 1 <= k < |sorted| ==> sites[(all + more)[a].mapName] <= sites[sorted[k].mapName]
  {
    assert sorted[i].mapName in sites by {
      assert sorted[i] in sorted;
    }
    forall b | 0 <= b < |more| ensures more[b].mapName == sorted[i].mapName {
      assert more[b] in more;
    }
  }
}
