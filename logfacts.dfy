/**
 * What a scanned log means, stated from the log alone: which line stops the
 * scan, what the time range is, which registry entries exist and what they
 * hold, and which reuse latencies are sampled. `Run` is proved to agree with
 * each of these reference descriptions.
 */
module LogFacts {
  import opened Wrappers
  import opened Decimal
  import opened CacheLog

  /** The scan succeeds exactly on logs whose every line is well formed; otherwise it names the first bad line. */
  lemma {:induction false} RunFailsAtFirstBadLine(lines: seq<seq<string>>)
    ensures Run(lines).Success? <==> forall i :: 0 <= i < |lines| ==> WellFormed(lines[i])
    ensures Run(lines).Failure? ==>
      var i := Run(lines).error.line;
      i < |lines| && !WellFormed(lines[i]) && forall j :: 0 <= j < i ==> WellFormed(lines[j])
    decreases |lines|
  {
    if |lines| > 0 {
      var n := |lines| - 1;
      RunFailsAtFirstBadLine(lines[..n]);
      assert forall j :: 0 <= j < n ==> lines[..n][j] == lines[j];
    }
  }

  /**
   * Which complaint a bad line draws: the field count is checked first, then
   * the timestamp, then the size of a `put`.
   */
  lemma StepFaults(s: ScanState, f: seq<string>)
    requires Linked(s.cache)
    ensures Step(s, f) == Failure(InvalidLine) <==> |f| > 0 && (|f| < 3 || (f[1] == "put" && |f| != 5))
    ensures Step(s, f) == Failure(InvalidTime) <==>
      |f| >= 3 && !(f[1] == "put" && |f| != 5) && ParseInt(f[0]).None?
    ensures Step(s, f) == Failure(InvalidSize) <==> IsPut(f) && ParseInt(f[0]).Some? && ParseInt(f[4]).None?
  {
  }

  /** The timestamp of a line; 0 for a line whose first field is not a number. */
  function TimeOf(f: seq<string>): int {
    if |f| > 0 && ParseInt(f[0]).Some? then ParseInt(f[0]).value else 0
  }

  /** The last non-empty line of the log, if any. */
  function LastNonEmpty(lines: seq<seq<string>>): (r: Option<nat>)
    ensures r.Some? ==> r.value < |lines| && |lines[r.value]| > 0
    ensures r.Some? ==> forall j :: r.value < j < |lines| ==> |lines[j]| == 0
    ensures r.None? ==> forall j :: 0 <= j < |lines| ==> |lines[j]| == 0
    decreases |lines|
  {
    if |lines| == 0 then None
    else if |lines[|lines| - 1]| > 0 then Some(|lines| - 1)
    else LastNonEmpty(lines[..|lines| - 1])
  }

  /** The first non-empty line whose timestamp is not 0, if any. */
  function FirstNonZeroTime(lines: seq<seq<string>>): (r: Option<nat>)
    ensures r.Some? ==> r.value < |lines| && |lines[r.value]| > 0 && TimeOf(lines[r.value]) != 0
    ensures r.Some? ==> forall j :: 0 <= j < r.value ==> |lines[j]| == 0 || TimeOf(lines[j]) == 0
    ensures r.None? ==> forall j :: 0 <= j < |lines| ==> |lines[j]| == 0 || TimeOf(lines[j]) == 0
    decreases |lines|
  {
    if |lines| == 0 then None
    else
      var n := |lines| - 1;
      assert forall j :: 0 <= j < n ==> lines[..n][j] == lines[j];
      match FirstNonZeroTime(lines[..n])
      case Some(i) => Some(i)
      case None => if |lines[n]| > 0 && TimeOf(lines[n]) != 0 then Some(n) else None
  }

  /**
   * The time range of a scanned log: `lastTime` is the timestamp of the last
   * non-empty line and `firstTime` that of the first line with a non-zero
   * timestamp (a timestamp of 0 leaves the start of the range unset).
   */
  lemma {:induction false} RunTimeRange(lines: seq<seq<string>>)
    requires Run(lines).Success?
    ensures Run(lines).value.lastTime == match LastNonEmpty(lines) case None => 0 case Some(i) => TimeOf(lines[i])
    ensures Run(lines).value.firstTime == match FirstNonZeroTime(lines) case None => 0 case Some(i) => TimeOf(lines[i])
    decreases |lines|
  {
    if |lines| > 0 {
      var n := |lines| - 1;
      var prefix := lines[..n];
      RunTimeRange(prefix);
      var s := Run(prefix).value;
      StepTimes(s, lines[n]);
      assert forall j :: 0 <= j < n ==> prefix[j] == lines[j];
    }
  }

  /** What one accepted line does to the time range. */
  lemma StepTimes(s: ScanState, f: seq<string>)
    requires Linked(s.cache) && Step(s, f).Success?
    ensures |f| == 0 ==> Step(s, f).value == s
    ensures |f| > 0 ==> Step(s, f).value.lastTime == TimeOf(f)
    ensures |f| > 0 ==> Step(s, f).value.firstTime == if s.firstTime == 0 then TimeOf(f) else s.firstTime
  {
  }

  /**
   * Lines that touch nothing but the time range: an empty line (not even
   * that), a line of a kind other than `put`, `get` and `miss`, and a `get` or
   * `miss` of an action the registry does not know.
   */
  lemma StepOnlyTimes(s: ScanState, f: seq<string>)
    requires Linked(s.cache) && WellFormed(f) && |f| > 0
    requires !IsPut(f) && (IsReuse(f) ==> Key(f[2], Action) !in s.cache)
    ensures Step(s, f) == Success(s.(firstTime := if s.firstTime == 0 then TimeOf(f) else s.firstTime, lastTime := TimeOf(f)))
  {
    if IsReuse(f) {
      var t := TimeOf(f);
      ReuseFacts(s.(firstTime := if s.firstTime == 0 then t else s.firstTime, lastTime := t), t, f[2]);
    }
  }

  /** A second reuse of the same action credits no more bytes but still records two latencies. */
  lemma ReuseCreditedOnce(s: ScanState, t1: int, t2: int, a: string)
    requires Linked(s.cache) && Key(a, Action) in s.cache
    ensures var r1 := Reuse(s, t1, a);
      var r2 := Reuse(r1, t2, a);
      && r2.cache == r1.cache
      && r2.totalReusedA == r1.totalReusedA && r2.totalReusedD == r1.totalReusedD
      && |r2.reuseA| == |s.reuseA| + 2 && |r2.reuseD| == |s.reuseD| + 2
  {
    var r1 := Reuse(s, t1, a);
    ReuseFacts(s, t1, a);
    ReuseFacts(r1, t2, a);
    var ak := Key(a, Action);
    var e := s.cache[ak];
    assert r1.cache[ak].data == e.data;
    RolesDisjoint(e.data.value);
  }

  /** Entries are never replaced or removed, and a reused flag once set stays set. */
  lemma StepGrows(s: ScanState, f: seq<string>)
    requires Linked(s.cache) && Step(s, f).Success?
    ensures forall k :: k in s.cache ==> k in Step(s, f).value.cache && Grown(s.cache[k], Step(s, f).value.cache[k])
  {
    if IsReuse(f) && f[1] != "put" {
      var t := TimeOf(f);
      ReuseFacts(s.(firstTime := if s.firstTime == 0 then t else s.firstTime, lastTime := t), t, f[2]);
    }
  }

  /** Every entry registered by a prefix of the log is still there, grown at most, at the end. */
  lemma {:induction false} RunGrows(lines: seq<seq<string>>, j: nat)
    requires j <= |lines| && Run(lines).Success?
    ensures Run(lines[..j]).Success?
    ensures forall k :: k in Run(lines[..j]).value.cache ==>
      k in Run(lines).value.cache && Grown(Run(lines[..j]).value.cache[k], Run(lines).value.cache[k])
    decreases |lines| - j
  {
    if j == |lines| {
      assert lines[..j] == lines;
    } else {
      var n := |lines| - 1;
      assert lines[..n][..j] == lines[..j];
      RunGrows(lines[..n], j);
      StepGrows(Run(lines[..n]).value, lines[n]);
    }
  }

  /** The id a `put` line registers in `role`: its action id or its data id. */
  function PutId(f: seq<string>, role: Role): string
    requires IsPut(f)
  {
    if role == Action then f[2] else f[3]
  }

  predicate PutsAs(f: seq<string>, id: string, role: Role) {
    IsPut(f) && PutId(f, role) == id
  }

  /** The keys registered by the `put` lines of the log. */
  function PutKeys(lines: seq<seq<string>>): set<string>
    decreases |lines|
  {
    if |lines| == 0 then {}
    else
      var n := |lines| - 1;
      var f := lines[n];
      PutKeys(lines[..n]) + if IsPut(f) then {Key(f[3], Data), Key(f[2], Action)} else {}
  }

  /** The first `put` line that registers `id` in `role`, if any. */
  function FirstPut(lines: seq<seq<string>>, id: string, role: Role): (r: Option<nat>)
    ensures r.Some? ==> r.value < |lines| && PutsAs(lines[r.value], id, role)
    decreases |lines|
  {
    if |lines| == 0 then None
    else
      var n := |lines| - 1;
      match FirstPut(lines[..n], id, role)
      case Some(i) => Some(i)
      case None => if PutsAs(lines[n], id, role) then Some(n) else None
  }

  /** `FirstPut` finds the earliest `put` that names `id` in `role`, and finds one whenever there is one. */
  lemma {:induction false} FirstPutMeaning(lines: seq<seq<string>>, id: string, role: Role)
    ensures FirstPut(lines, id, role).Some? ==>
      forall j :: 0 <= j < FirstPut(lines, id, role).value ==> !PutsAs(lines[j], id, role)
    ensures FirstPut(lines, id, role).None? ==> forall j :: 0 <= j < |lines| ==> !PutsAs(lines[j], id, role)
    decreases |lines|
  {
    if |lines| > 0 {
      var n := |lines| - 1;
      FirstPutMeaning(lines[..n], id, role);
      assert forall j :: 0 <= j < n ==> lines[..n][j] == lines[j];
    }
  }

  /** The size field of a `put` line; 0 when it is not a number. */
  function SizeOf(f: seq<string>): int {
    if |f| == 5 && ParseInt(f[4]).Some? then ParseInt(f[4]).value else 0
  }

  /** The entry a `put` line creates in `role`, with the given reused flag. */
  function Created(f: seq<string>, role: Role, reused: bool): Entry
    requires IsPut(f)
  {
    if role == Action then Entry(TimeOf(f), ActionSize, reused, Some(Key(f[3], Data)))
    else Entry(TimeOf(f), SizeOf(f), reused, None)
  }

  /**
   * For a `get` or `miss` line `f` after the lines `prefix`: the first `put` of
   * its action and the first `put` of that action's data, when the action was
   * ever put; `None` for an orphan reuse and for every other kind of line.
   */
  function HitPuts(prefix: seq<seq<string>>, f: seq<string>): (r: Option<(nat, nat)>)
    ensures r.Some? ==> IsReuse(f) && r.value.0 < |prefix| && r.value.1 < |prefix|
    ensures r.Some? ==> PutsAs(prefix[r.value.0], f[2], Action)
    ensures r.Some? ==> PutsAs(prefix[r.value.1], prefix[r.value.0][3], Data)
  {
    if !IsReuse(f) then None
    else
      match FirstPut(prefix, f[2], Action)
      case None => None
      case Some(i) =>
        match FirstPut(prefix, prefix[i][3], Data)
        case None => None
        case Some(j) => Some((i, j))
  }

  /** Line `f` after `prefix` reuses the entry of `id` in `role`. */
  predicate Hits(prefix: seq<seq<string>>, f: seq<string>, id: string, role: Role) {
    HitPuts(prefix, f).Some? &&
    (if role == Action then f[2] else prefix[HitPuts(prefix, f).value.0][3]) == id
  }

  /** Some line of the log reuses the entry of `id` in `role`. */
  predicate EverHit(lines: seq<seq<string>>, id: string, role: Role)
    decreases |lines|
  {
    |lines| > 0 &&
    var n := |lines| - 1;
    (EverHit(lines[..n], id, role) || Hits(lines[..n], lines[n], id, role))
  }

  /** The reuse latencies of `role`, in log order: reuse time minus creation time of the entry reused. */
  function Samples(lines: seq<seq<string>>, role: Role): seq<int>
    decreases |lines|
  {
    if |lines| == 0 then []
    else
      var n := |lines| - 1;
      Samples(lines[..n], role) + Sample(lines[..n], lines[n], role)
  }

  /** The latency line `f` after `prefix` records for `role`: none unless it reuses a known action. */
  function Sample(prefix: seq<seq<string>>, f: seq<string>, role: Role): seq<int> {
    match HitPuts(prefix, f)
    case None => []
    case Some((i, j)) => [TimeOf(f) - TimeOf(prefix[if role == Action then i else j])]
  }

  /**
   * The scan state `s` is the one the log `lines` describes: the registry holds
   * exactly the keys the `put` lines name, each entry is the one its first
   * `put` created, marked reused exactly when some line reused it, and the
   * sample lists are the reuse latencies in log order.
   */
  ghost predicate Explained(lines: seq<seq<string>>, s: ScanState) {
    && s.cache.Keys == PutKeys(lines)
    && (forall id, role :: FirstPut(lines, id, role).Some? ==>
          Key(id, role) in s.cache &&
          s.cache[Key(id, role)] == Created(lines[FirstPut(lines, id, role).value], role, EverHit(lines, id, role)))
    && s.reuseA == Samples(lines, Action)
    && s.reuseD == Samples(lines, Data)
  }

  /** The reference descriptions of `prefix + [f]`, one line at a time. */
  lemma UnfoldPutKeys(prefix: seq<seq<string>>, f: seq<string>)
    ensures PutKeys(prefix + [f]) == PutKeys(prefix) + (if IsPut(f) then {Key(f[3], Data), Key(f[2], Action)} else {})
  {
    assert (prefix + [f])[..|prefix|] == prefix;
  }

  lemma UnfoldFirstPut(prefix: seq<seq<string>>, f: seq<string>, id: string, role: Role)
    ensures FirstPut(prefix + [f], id, role) ==
      match FirstPut(prefix, id, role)
      case Some(i) => Some(i)
      case None => if PutsAs(f, id, role) then Some(|prefix|) else None
  {
    assert (prefix + [f])[..|prefix|] == prefix;
  }

  lemma UnfoldEverHit(prefix: seq<seq<string>>, f: seq<string>, id: string, role: Role)
    ensures EverHit(prefix + [f], id, role) == (EverHit(prefix, id, role) || Hits(prefix, f, id, role))
  {
    assert (prefix + [f])[..|prefix|] == prefix;
  }

  lemma UnfoldSamples(prefix: seq<seq<string>>, f: seq<string>, role: Role)
    ensures Samples(prefix + [f], role) == Samples(prefix, role) + Sample(prefix, f, role)
  {
    assert (prefix + [f])[..|prefix|] == prefix;
  }

  /** A key is registered exactly when some `put` line names it. */
  lemma {:induction false} PutKeysFirstPut(lines: seq<seq<string>>, id: string, role: Role)
    ensures Key(id, role) in PutKeys(lines) <==> FirstPut(lines, id, role).Some?
    decreases |lines|
  {
    if |lines| > 0 {
      var n := |lines| - 1;
      PutKeysFirstPut(lines[..n], id, role);
      UnfoldPutKeys(lines[..n], lines[n]);
      UnfoldFirstPut(lines[..n], lines[n], id, role);
      assert lines[..n] + [lines[n]] == lines;
    }
  }

  /** Only an entry that was put can be reused. */
  lemma {:induction false} EverHitNeedsPut(lines: seq<seq<string>>, id: string, role: Role)
    requires EverHit(lines, id, role)
    ensures FirstPut(lines, id, role).Some?
    decreases |lines|
  {
    var n := |lines| - 1;
    UnfoldFirstPut(lines[..n], lines[n], id, role);
    assert lines[..n] + [lines[n]] == lines;
    if EverHit(lines[..n], id, role) {
      EverHitNeedsPut(lines[..n], id, role);
    } else {
      var (i, j) := HitPuts(lines[..n], lines[n]).value;
      assert PutsAs(lines[..n][if role == Action then i else j], id, role);
    }
  }

  /** A line that registers nothing and reuses nothing leaves the description as it was. */
  lemma StepExplainedQuiet(prefix: seq<seq<string>>, f: seq<string>, sp: ScanState, s: ScanState)
    requires Explained(prefix, sp)
    requires !IsPut(f) && HitPuts(prefix, f).None?
    requires s.cache == sp.cache && s.reuseA == sp.reuseA && s.reuseD == sp.reuseD
    ensures Explained(prefix + [f], s)
  {
    var lines := prefix + [f];
    UnfoldPutKeys(prefix, f);
    UnfoldSamples(prefix, f, Action);
    UnfoldSamples(prefix, f, Data);
    forall id, role | FirstPut(lines, id, role).Some?
      ensures Key(id, role) in s.cache
      ensures s.cache[Key(id, role)] == Created(lines[FirstPut(lines, id, role).value], role, EverHit(lines, id, role))
    {
      UnfoldFirstPut(prefix, f, id, role);
      UnfoldEverHit(prefix, f, id, role);
      var i := FirstPut(prefix, id, role).value;
      assert lines[i] == prefix[i];
    }
  }

  /** A `put` line adds the entries it is the first to name, unreused. */
  lemma StepExplainedPut(prefix: seq<seq<string>>, f: seq<string>, sp: ScanState, s1: ScanState)
    requires Explained(prefix, sp) && Linked(sp.cache)
    requires IsPut(f) && ParseInt(f[0]).Some? && ParseInt(f[4]).Some?
    requires s1.cache == sp.cache && s1.reuseA == sp.reuseA && s1.reuseD == sp.reuseD
    ensures Explained(prefix + [f], Put(s1, TimeOf(f), f[2], f[3], SizeOf(f)))
  {
    var lines := prefix + [f];
    var r := Put(s1, TimeOf(f), f[2], f[3], SizeOf(f));
    UnfoldPutKeys(prefix, f);
    UnfoldSamples(prefix, f, Action);
    UnfoldSamples(prefix, f, Data);
    forall id, role | FirstPut(lines, id, role).Some?
      ensures Key(id, role) in r.cache
      ensures r.cache[Key(id, role)] == Created(lines[FirstPut(lines, id, role).value], role, EverHit(lines, id, role))
    {
      UnfoldFirstPut(prefix, f, id, role);
      UnfoldEverHit(prefix, f, id, role);
      PutKeysFirstPut(prefix, id, role);
      match FirstPut(prefix, id, role)
      case Some(i) =>
        assert lines[i] == prefix[i];
      case None =>
        if EverHit(prefix, id, role) {
          EverHitNeedsPut(prefix, id, role);
        }
        assert lines[|prefix|] == f;
    }
  }

  /** The first `put`s a `get` or `miss` of a known action resolves to, and what the registry holds for them. */
  lemma ReuseResolves(prefix: seq<seq<string>>, f: seq<string>, sp: ScanState)
    requires Explained(prefix, sp) && Linked(sp.cache)
    requires IsReuse(f) && Key(f[2], Action) in sp.cache
    ensures HitPuts(prefix, f).Some?
    ensures var (i, j) := HitPuts(prefix, f).value;
      var e := sp.cache[Key(f[2], Action)];
      && e.created == TimeOf(prefix[i]) && e.data == Some(Key(prefix[i][3], Data))
      && sp.cache[Key(prefix[i][3], Data)].created == TimeOf(prefix[j])
  {
    PutKeysFirstPut(prefix, f[2], Action);
    var i := FirstPut(prefix, f[2], Action).value;
    var dd := prefix[i][3];
    assert PutsAs(prefix[i], dd, Data);
    FirstPutMeaning(prefix, dd, Data);
    var j := FirstPut(prefix, dd, Data).value;
    assert HitPuts(prefix, f) == Some((i, j));
  }

  /** After a `get` or `miss` of a known action, each entry is as its first `put` made it, reused when hit. */
  lemma ReuseEntryExplained(prefix: seq<seq<string>>, f: seq<string>, sp: ScanState, s1: ScanState, id: string, role: Role)
    requires Explained(prefix, sp) && Linked(sp.cache)
    requires IsReuse(f) && Key(f[2], Action) in sp.cache && s1.cache == sp.cache
    requires FirstPut(prefix + [f], id, role).Some?
    ensures Key(id, role) in Reuse(s1, TimeOf(f), f[2]).cache
    ensures Reuse(s1, TimeOf(f), f[2]).cache[Key(id, role)] ==
      Created((prefix + [f])[FirstPut(prefix + [f], id, role).value], role, EverHit(prefix + [f], id, role))
  {
    var r := Reuse(s1, TimeOf(f), f[2]);
    ReuseFacts(s1, TimeOf(f), f[2]);
    ReuseResolves(prefix, f, sp);
    UnfoldFirstPut(prefix, f, id, role);
    UnfoldEverHit(prefix, f, id, role);
    var k := FirstPut(prefix, id, role).value;
    assert (prefix + [f])[k] == prefix[k];
    assert Grown(sp.cache[Key(id, role)], r.cache[Key(id, role)]);
  }

  lemma SampleOfHit(prefix: seq<seq<string>>, f: seq<string>, i: nat, j: nat, role: Role)
    requires HitPuts(prefix, f) == Some((i, j))
    ensures Sample(prefix, f, role) == [TimeOf(f) - TimeOf(prefix[if role == Action then i else j])]
  {
  }

  lemma ReuseAppends(s: ScanState, t: int, a: string)
    requires Linked(s.cache) && Key(a, Action) in s.cache
    ensures var e := s.cache[Key(a, Action)];
      && Reuse(s, t, a).reuseA == s.reuseA + [t - e.created]
      && Reuse(s, t, a).reuseD == s.reuseD + [t - s.cache[e.data.value].created]
  {
  }

  /** The latency of `role` a `get` or `miss` of a known action appends, which resolves to the first `put`s `i` and `j`. */
  lemma ReuseSamplesExplained(prefix: seq<seq<string>>, f: seq<string>, s1: ScanState, i: nat, j: nat, role: Role)
    requires Linked(s1.cache) && IsReuse(f) && Key(f[2], Action) in s1.cache
    requires HitPuts(prefix, f) == Some((i, j))
    requires s1.cache[Key(f[2], Action)].created == TimeOf(prefix[i])
    requires s1.cache[Key(f[2], Action)].data == Some(Key(prefix[i][3], Data))
    requires s1.cache[Key(prefix[i][3], Data)].created == TimeOf(prefix[j])
    ensures var r := Reuse(s1, TimeOf(f), f[2]);
      (if role == Action then r.reuseA else r.reuseD) == (if role == Action then s1.reuseA else s1.reuseD) + Sample(prefix, f, role)
  {
    SampleOfHit(prefix, f, i, j, role);
    ReuseAppends(s1, TimeOf(f), f[2]);
  }

  /** A `get` or `miss` of a known action marks its entry and its data entry reused and records both latencies. */
  lemma StepExplainedReuse(prefix: seq<seq<string>>, f: seq<string>, sp: ScanState, s1: ScanState)
    requires Explained(prefix, sp) && Linked(sp.cache)
    requires IsReuse(f) && ParseInt(f[0]).Some? && Key(f[2], Action) in sp.cache
    requires s1.cache == sp.cache && s1.reuseA == sp.reuseA && s1.reuseD == sp.reuseD
    ensures Explained(prefix + [f], Reuse(s1, TimeOf(f), f[2]))
  {
    var lines := prefix + [f];
    var r := Reuse(s1, TimeOf(f), f[2]);
    ReuseFacts(s1, TimeOf(f), f[2]);
    UnfoldPutKeys(prefix, f);
    assert r.cache.Keys == PutKeys(lines);
    ReuseResolves(prefix, f, sp);
    var (i, j) := HitPuts(prefix, f).value;
    ReuseSamplesExplained(prefix, f, s1, i, j, Action);
    ReuseSamplesExplained(prefix, f, s1, i, j, Data);
    UnfoldSamples(prefix, f, Action);
    UnfoldSamples(prefix, f, Data);
    forall id, role | FirstPut(lines, id, role).Some?
      ensures Key(id, role) in r.cache
      ensures r.cache[Key(id, role)] == Created(lines[FirstPut(lines, id, role).value], role, EverHit(lines, id, role))
    {
      ReuseEntryExplained(prefix, f, sp, s1, id, role);
    }
  }

  /** One accepted line keeps the scan state described by the log read so far. */
  lemma StepExplained(prefix: seq<seq<string>>, f: seq<string>, sp: ScanState)
    requires Linked(sp.cache) && Explained(prefix, sp) && Step(sp, f).Success?
    ensures Explained(prefix + [f], Step(sp, f).value)
  {
    if |f| == 0 {
      StepExplainedQuiet(prefix, f, sp, sp);
    } else {
      var t := TimeOf(f);
      var s1 := sp.(firstTime := if sp.firstTime == 0 then t else sp.firstTime, lastTime := t);
      if f[1] == "put" {
        StepExplainedPut(prefix, f, sp, s1);
      } else if (f[1] == "get" || f[1] == "miss") && Key(f[2], Action) in sp.cache {
        StepExplainedReuse(prefix, f, sp, s1);
      } else {
        PutKeysFirstPut(prefix, f[2], Action);
        if f[1] == "get" || f[1] == "miss" {
          ReuseFacts(s1, t, f[2]);
        }
        StepExplainedQuiet(prefix, f, sp, s1);
      }
    }
  }

  /** The registry and the sample lists a successful scan ends with are the ones the log describes. */
  lemma {:induction false} RunExplained(lines: seq<seq<string>>)
    requires Run(lines).Success?
    ensures Explained(lines, Run(lines).value)
    decreases |lines|
  {
    if |lines| > 0 {
      var n := |lines| - 1;
      RunExplained(lines[..n]);
      StepExplained(lines[..n], lines[n], Run(lines[..n]).value);
      assert lines[..n] + [lines[n]] == lines;
    }
  }
}
