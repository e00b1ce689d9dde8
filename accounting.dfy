/**
 * The accounting invariant of the log scan. After every line the four byte
 * totals are sums over the registry: all action entries, all data entries,
 * and those of each role that have been reused. Because an entry's reused flag
 * only ever goes from false to true, each entry is credited at most once.
 */
module Accounting {
  import opened Wrappers
  import opened Decimal
  import opened CacheLog

  /** Sum of the sizes of the entries under `ks`. */
  ghost function SumSizes(m: Registry, ks: set<string>): int
    requires ks <= m.Keys
    decreases ks
  {
    if ks == {} then 0
    else
      var k :| k in ks;
      m[k].size + SumSizes(m, ks - {k})
  }

  /** The keys of one role. */
  function Keys(m: Registry, role: Role): set<string> {
    set k | k in m && HasRole(k, role)
  }

  /** The keys of one role whose entry has been reused. */
  function ReusedKeys(m: Registry, role: Role): set<string> {
    set k | k in m && HasRole(k, role) && m[k].reused
  }

  /** The shape of the registry and the meaning of the four totals. */
  ghost predicate Consistent(s: ScanState) {
    && Linked(s.cache)
    && (forall k {:trigger HasRole(k, Action)} :: k in s.cache && HasRole(k, Action) ==> s.cache[k].size == ActionSize)
    && (forall k {:trigger HasRole(k, Data)} :: k in s.cache && HasRole(k, Data) ==> s.cache[k].data == None)
    && s.totalA == SumSizes(s.cache, Keys(s.cache, Action))
    && s.totalD == SumSizes(s.cache, Keys(s.cache, Data))
    && s.totalReusedA == SumSizes(s.cache, ReusedKeys(s.cache, Action))
    && s.totalReusedD == SumSizes(s.cache, ReusedKeys(s.cache, Data))
    && |s.reuseA| == |s.reuseD|
  }

  /** Any element may be taken out of the sum first. */
  lemma {:induction false} SumSizesRemove(m: Registry, ks: set<string>, k: string)
    requires ks <= m.Keys && k in ks
    ensures SumSizes(m, ks) == m[k].size + SumSizes(m, ks - {k})
    decreases ks
  {
    var j :| j in ks && SumSizes(m, ks) == m[j].size + SumSizes(m, ks - {j});
    if j != k {
      SumSizesRemove(m, ks - {j}, k);
      SumSizesRemove(m, ks - {k}, j);
      assert ks - {j} - {k} == ks - {k} - {j};
    }
  }

  /** Registries whose sizes agree on `ks` have the same sum over `ks`. */
  lemma {:induction false} SumSizesAgree(m1: Registry, m2: Registry, ks: set<string>)
    requires ks <= m1.Keys && ks <= m2.Keys
    requires forall k :: k in ks ==> m1[k].size == m2[k].size
    ensures SumSizes(m1, ks) == SumSizes(m2, ks)
    decreases ks
  {
    if ks != {} {
      var k :| k in ks;
      SumSizesRemove(m1, ks, k);
      SumSizesRemove(m2, ks, k);
      SumSizesAgree(m1, m2, ks - {k});
    }
  }

  /** A sum of action-sized entries is the action size times their number. */
  lemma {:induction false} SumSizesOfActions(m: Registry, ks: set<string>)
    requires ks <= m.Keys
    requires forall k :: k in ks ==> m[k].size == ActionSize
    ensures SumSizes(m, ks) == ActionSize * |ks|
    decreases ks
  {
    if ks != {} {
      var k :| k in ks;
      SumSizesRemove(m, ks, k);
      SumSizesOfActions(m, ks - {k});
    }
  }

  /** Registries that agree on sizes and on keys of role `r` have equal sums over those keys. */
  lemma KeysSumsAgree(m: Registry, m': Registry, r: Role)
    requires Keys(m', r) == Keys(m, r)
    requires forall k :: k in Keys(m, r) ==> m[k].size == m'[k].size
    ensures SumSizes(m', Keys(m', r)) == SumSizes(m, Keys(m, r))
  {
    SumSizesAgree(m, m', Keys(m, r));
  }

  /** Adding key `k` to a key set adds its entry's size, if the rest of the entries agree. */
  lemma SumSizesGrow(m: Registry, m': Registry, ks: set<string>, ks': set<string>, k: string)
    requires ks <= m.Keys && ks' <= m'.Keys && k !in ks && ks' == ks + {k}
    requires forall j :: j in ks ==> m[j].size == m'[j].size
    ensures SumSizes(m', ks') == SumSizes(m, ks) + m'[k].size
  {
    SumSizesRemove(m', ks', k);
    assert ks' - {k} == ks;
    SumSizesAgree(m, m', ks);
  }

  /** A new, unreused entry of `role` adds its size to that role's total and nothing else. */
  lemma InsertSums(m: Registry, k: string, e: Entry, role: Role, r: Role)
    requires k !in m && HasRole(k, role) && !e.reused
    ensures SumSizes(m[k := e], Keys(m[k := e], r)) == SumSizes(m, Keys(m, r)) + (if r == role then e.size else 0)
    ensures SumSizes(m[k := e], ReusedKeys(m[k := e], r)) == SumSizes(m, ReusedKeys(m, r))
  {
    var m' := m[k := e];
    RolesDisjoint(k);
    assert ReusedKeys(m', r) == ReusedKeys(m, r);
    SumSizesAgree(m, m', ReusedKeys(m, r));
    if r == role {
      assert Keys(m', r) == Keys(m, r) + {k};
      SumSizesGrow(m, m', Keys(m, r), Keys(m', r), k);
    } else {
      assert Keys(m', r) == Keys(m, r);
      KeysSumsAgree(m, m', r);
    }
  }

  /** Marking an unreused entry of `role` reused adds its size to that role's reused total only. */
  lemma MarkSums(m: Registry, k: string, role: Role, r: Role)
    requires k in m && HasRole(k, role) && !m[k].reused
    ensures var m' := m[k := m[k].(reused := true)];
      && SumSizes(m', Keys(m', r)) == SumSizes(m, Keys(m, r))
      && SumSizes(m', ReusedKeys(m', r)) == SumSizes(m, ReusedKeys(m, r)) + (if r == role then m[k].size else 0)
  {
    var m' := m[k := m[k].(reused := true)];
    RolesDisjoint(k);
    assert Keys(m', r) == Keys(m, r);
    KeysSumsAgree(m, m', r);
    if r == role {
      assert ReusedKeys(m', r) == ReusedKeys(m, r) + {k};
      SumSizesGrow(m, m', ReusedKeys(m, r), ReusedKeys(m', r), k);
    } else {
      assert ReusedKeys(m', r) == ReusedKeys(m, r);
      SumSizesAgree(m, m', ReusedKeys(m, r));
    }
  }

  /** Registering a new data entry keeps the registry consistent. */
  lemma InsertDataConsistent(s: ScanState, k: string, e: Entry)
    requires Consistent(s) && k !in s.cache && HasRole(k, Data) && !e.reused && e.data == None
    ensures Consistent(s.(cache := s.cache[k := e], totalD := s.totalD + e.size))
  {
    var s' := s.(cache := s.cache[k := e], totalD := s.totalD + e.size);
    RolesDisjoint(k);
    InsertSums(s.cache, k, e, Data, Action);
    InsertSums(s.cache, k, e, Data, Data);
    assert Linked(s'.cache);
  }

  /** Registering a new action entry that points to a registered data entry keeps the registry consistent. */
  lemma InsertActionConsistent(s: ScanState, k: string, e: Entry)
    requires Consistent(s) && k !in s.cache && HasRole(k, Action) && !e.reused
    requires e.size == ActionSize && e.data.Some? && e.data.value in s.cache && HasRole(e.data.value, Data)
    ensures Consistent(s.(cache := s.cache[k := e], totalA := s.totalA + e.size))
  {
    var s' := s.(cache := s.cache[k := e], totalA := s.totalA + e.size);
    RolesDisjoint(k);
    InsertSums(s.cache, k, e, Action, Action);
    InsertSums(s.cache, k, e, Action, Data);
    assert Linked(s'.cache);
  }

  /** Marking an entry reused for the first time, and crediting its size, keeps the registry consistent. */
  lemma MarkActionConsistent(s: ScanState, k: string)
    requires Consistent(s) && k in s.cache && HasRole(k, Action) && !s.cache[k].reused
    ensures Consistent(s.(cache := s.cache[k := s.cache[k].(reused := true)], totalReusedA := s.totalReusedA + s.cache[k].size))
  {
    var s' := s.(cache := s.cache[k := s.cache[k].(reused := true)], totalReusedA := s.totalReusedA + s.cache[k].size);
    RolesDisjoint(k);
    MarkSums(s.cache, k, Action, Action);
    MarkSums(s.cache, k, Action, Data);
    assert Linked(s'.cache);
  }

  lemma MarkDataConsistent(s: ScanState, k: string)
    requires Consistent(s) && k in s.cache && HasRole(k, Data) && !s.cache[k].reused
    ensures Consistent(s.(cache := s.cache[k := s.cache[k].(reused := true)], totalReusedD := s.totalReusedD + s.cache[k].size))
  {
    var s' := s.(cache := s.cache[k := s.cache[k].(reused := true)], totalReusedD := s.totalReusedD + s.cache[k].size);
    RolesDisjoint(k);
    MarkSums(s.cache, k, Data, Action);
    MarkSums(s.cache, k, Data, Data);
    assert Linked(s'.cache);
  }

  /**
   * Registering `e` under `k`, of role `role`, unless `k` is taken. Proof
   * scaffolding only: `PutSplit` shows that `CacheLog.Put` is two of these
   * steps, so that `PutConsistent` can reason about one entry at a time.
   */
  function Add(s: ScanState, k: string, e: Entry, role: Role): (r: ScanState)
    ensures r.cache.Keys == s.cache.Keys + {k}
  {
    if k in s.cache then s
    else if role == Action then s.(cache := s.cache[k := e], totalA := s.totalA + e.size)
    else s.(cache := s.cache[k := e], totalD := s.totalD + e.size)
  }

  lemma AddConsistent(s: ScanState, k: string, e: Entry, role: Role)
    requires Consistent(s) && HasRole(k, role) && !e.reused
    requires role == Data ==> e.data == None
    requires role == Action ==> e.size == ActionSize && e.data.Some? && e.data.value in s.cache && HasRole(e.data.value, Data)
    ensures Consistent(Add(s, k, e, role))
  {
    if k !in s.cache {
      if role == Action {
        InsertActionConsistent(s, k, e);
      } else {
        InsertDataConsistent(s, k, e);
      }
    }
  }

  /** A `put` registers the data entry first, then the action entry pointing to it. */
  lemma PutSplit(s: ScanState, t: int, a: string, d: string, size: int)
    requires Linked(s.cache)
    ensures var dk := Key(d, Data);
      var s1 := Add(s, dk, Entry(t, size, false, None), Data);
      Put(s, t, a, d, size) == Add(s1, Key(a, Action), Entry(t, ActionSize, false, Some(dk)), Action)
  {
  }

  /** A `put` keeps the totals equal to the sums over the registry. */
  lemma PutConsistent(s: ScanState, t: int, a: string, d: string, size: int)
    requires Consistent(s)
    ensures Consistent(Put(s, t, a, d, size))
  {
    var dk := Key(d, Data);
    var s1 := Add(s, dk, Entry(t, size, false, None), Data);
    AddConsistent(s, dk, Entry(t, size, false, None), Data);
    AddConsistent(s1, Key(a, Action), Entry(t, ActionSize, false, Some(dk)), Action);
    PutSplit(s, t, a, d, size);
  }

  /** Consistency does not depend on the samples, only on their two lists having equal length. */
  lemma SamplesConsistent(s: ScanState, xa: seq<int>, xd: seq<int>)
    requires Consistent(s) && |xa| == |xd|
    ensures Consistent(s.(reuseA := xa, reuseD := xd))
  {
  }

  /**
   * Crediting the first reuse of the entry under `k`, whose role is `role`.
   * Proof scaffolding only: `ReuseSplit` shows that `CacheLog.Reuse` is two of
   * these steps plus the samples, so that `ReuseConsistent` can reason about
   * one entry at a time.
   */
  function Mark(s: ScanState, k: string, role: Role): (r: ScanState)
    requires k in s.cache
    ensures r.cache.Keys == s.cache.Keys && r.cache[k].reused
  {
    var e := s.cache[k];
    if e.reused then s
    else if role == Action then s.(cache := s.cache[k := e.(reused := true)], totalReusedA := s.totalReusedA + e.size)
    else s.(cache := s.cache[k := e.(reused := true)], totalReusedD := s.totalReusedD + e.size)
  }

  lemma MarkConsistent(s: ScanState, k: string, role: Role)
    requires Consistent(s) && k in s.cache && HasRole(k, role)
    ensures Consistent(Mark(s, k, role))
  {
    if !s.cache[k].reused {
      if role == Action {
        MarkActionConsistent(s, k);
      } else {
        MarkDataConsistent(s, k);
      }
    }
  }

  /** A reuse of a known action credits the action entry, then its data entry, then appends the two samples. */
  lemma ReuseSplit(s: ScanState, t: int, a: string)
    requires Linked(s.cache) && Key(a, Action) in s.cache
    ensures var ak := Key(a, Action);
      var e := s.cache[ak];
      var dk := e.data.value;
      var s1 := Mark(s, ak, Action);
      Reuse(s, t, a) == Mark(s1, dk, Data).(reuseA := s.reuseA + [t - e.created], reuseD := s.reuseD + [t - s1.cache[dk].created])
  {
    RolesDisjoint(s.cache[Key(a, Action)].data.value);
  }

  /** A `get`/`miss` keeps the totals equal to the sums and the sample lists of equal length. */
  lemma ReuseConsistent(s: ScanState, t: int, a: string)
    requires Consistent(s)
    ensures Consistent(Reuse(s, t, a))
  {
    var ak := Key(a, Action);
    if ak in s.cache {
      var e := s.cache[ak];
      var dk := e.data.value;
      var s1 := Mark(s, ak, Action);
      MarkConsistent(s, ak, Action);
      MarkConsistent(s1, dk, Data);
      ReuseSplit(s, t, a);
      SamplesConsistent(Mark(s1, dk, Data), s.reuseA + [t - e.created], s.reuseD + [t - s1.cache[dk].created]);
    }
  }

  lemma StepConsistent(s: ScanState, f: seq<string>)
    requires Consistent(s)
    requires Step(s, f).Success?
    ensures Consistent(Step(s, f).value)
  {
    if |f| > 0 {
      var t := ParseInt(f[0]).value;
      var s1 := s.(firstTime := if s.firstTime == 0 then t else s.firstTime, lastTime := t);
      if f[1] == "put" {
        PutConsistent(s1, t, f[2], f[3], ParseInt(f[4]).value);
      } else if f[1] == "get" || f[1] == "miss" {
        ReuseConsistent(s1, t, f[2]);
      }
    }
  }

  /**
   * After any successfully scanned log: every action points to a data entry,
   * action entries weigh 154 bytes, and each total is the sum over its entries.
   */
  lemma {:induction false} RunConsistent(lines: seq<seq<string>>)
    requires Run(lines).Success?
    ensures Consistent(Run(lines).value)
    decreases |lines|
  {
    if |lines| > 0 {
      var n := |lines| - 1;
      RunConsistent(lines[..n]);
      StepConsistent(Run(lines[..n]).value, lines[n]);
    }
  }

  /** The action totals count entries: 154 bytes per action entry and per reused action entry. */
  lemma ActionTotalsCount(s: ScanState)
    requires Consistent(s)
    ensures s.totalA == ActionSize * |Keys(s.cache, Action)|
    ensures s.totalReusedA == ActionSize * |ReusedKeys(s.cache, Action)|
    ensures 0 <= s.totalReusedA <= s.totalA
  {
    SumSizesOfActions(s.cache, Keys(s.cache, Action));
    SumSizesOfActions(s.cache, ReusedKeys(s.cache, Action));
    assert ReusedKeys(s.cache, Action) <= Keys(s.cache, Action);
    SubsetCard(ReusedKeys(s.cache, Action), Keys(s.cache, Action));
  }

  lemma SubsetCard(a: set<string>, b: set<string>)
    requires a <= b
    ensures |a| <= |b|
  {
    assert b == a + (b - a);
  }
}
