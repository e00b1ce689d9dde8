/**
 * The log scan of gocachelogstat: every line of the build cache's log either is
 * empty, or names a timestamp, an event kind and keys. `put` lines register an
 * action record and the data blob it points to (first write wins); `get` and
 * `miss` lines credit the first reuse of both and record how long after their
 * creation they were reused. One malformed line aborts the whole scan.
 *
 * `Step` and `Run` say what one line and a whole log do to the scan state;
 * `ScanLog` is the scan loop itself, over the same local variables as the tool,
 * and is proved to compute `Run`.
 */
module CacheLog {
  import opened Wrappers
  import opened Decimal

  /** Bytes credited to every action record: a fixed per-record overhead. */
  const ActionSize: int := 154

  /** The two kinds of registry entry: an action record and a data blob. */
  datatype Role = Action | Data

  function Suffix(role: Role): string {
    if role == Action then "-a" else "-d"
  }

  predicate HasRole(k: string, role: Role) {
    |k| >= 2 && k[|k| - 2..] == Suffix(role)
  }

  /** No key is both an action key and a data key. */
  lemma RolesDisjoint(k: string)
    ensures !(HasRole(k, Action) && HasRole(k, Data))
  {
  }

  /** Registry key of `id` in `role`: the id followed by `-a` or `-d`. */
  function Key(id: string, role: Role): (k: string)
    ensures |k| == |id| + 2 && k[..|id|] == id
    ensures HasRole(k, Action) <==> role == Action
    ensures HasRole(k, Data) <==> role == Data
  {
    var k := id + Suffix(role);
    assert k[|k| - 2..] == Suffix(role);
    k
  }

  /**
   * One registry entry. `data` is the key of the data entry an action record
   * points to (the Go pointer `data`); it is `None` for data entries.
   */
  datatype Entry = Entry(created: int, size: int, reused: bool, data: Option<string>)

  type Registry = map<string, Entry>

  /** Everything the scan accumulates: the registry, four byte totals, two sample lists, the time range. */
  datatype ScanState = ScanState(
    cache: Registry,
    totalA: int, totalReusedA: int, totalD: int, totalReusedD: int,
    reuseA: seq<int>, reuseD: seq<int>,
    firstTime: int, lastTime: int)

  const Initial: ScanState := ScanState(map[], 0, 0, 0, 0, [], [], 0, 0)

  /** The three fatal complaints: bad field count, bad timestamp, bad size. */
  datatype Fault = InvalidLine | InvalidTime | InvalidSize

  /** A fatal error at the line with index `line` (counting empty lines). */
  datatype ScanError = ScanError(line: nat, fault: Fault)

  /** Every action record points to a data entry that is in the registry. */
  predicate Linked(cache: Registry) {
    forall k {:trigger HasRole(k, Action)} :: k in cache && HasRole(k, Action) ==>
      cache[k].data.Some? && cache[k].data.value in cache && HasRole(cache[k].data.value, Data)
  }

  /** `e'` is `e` with, at most, its reused flag newly set. */
  predicate Grown(e: Entry, e': Entry) {
    e'.created == e.created && e'.size == e.size && e'.data == e.data && (e.reused ==> e'.reused)
  }

  /** A line the scan accepts: empty, or well-formed for its kind. */
  predicate WellFormed(f: seq<string>) {
    |f| == 0 ||
    (|f| >= 3 && ParseInt(f[0]).Some? && (f[1] == "put" ==> |f| == 5 && ParseInt(f[4]).Some?))
  }

  predicate IsPut(f: seq<string>) {
    |f| == 5 && f[1] == "put"
  }

  predicate IsReuse(f: seq<string>) {
    |f| >= 3 && (f[1] == "get" || f[1] == "miss")
  }

  /** Insert `e` under `k` unless `k` is taken, charging `total` only for a new entry. */
  function Insert(cache: Registry, k: string, e: Entry, total: int): (Registry, int) {
    if k in cache then (cache, total) else (cache[k := e], total + e.size)
  }

  /** A `put` of action `a` with data `d` of `size` bytes at time `t`. */
  function Put(s: ScanState, t: int, a: string, d: string, size: int): (r: ScanState)
    requires Linked(s.cache)
    ensures Linked(r.cache)
    ensures r.cache.Keys == s.cache.Keys + {Key(d, Data), Key(a, Action)}
    ensures forall k :: k in s.cache ==> r.cache[k] == s.cache[k]
    ensures Key(d, Data) !in s.cache ==> r.cache[Key(d, Data)] == Entry(t, size, false, None)
    ensures Key(a, Action) !in s.cache ==> r.cache[Key(a, Action)] == Entry(t, ActionSize, false, Some(Key(d, Data)))
    ensures Key(d, Data) in s.cache ==> r.totalD == s.totalD
    ensures Key(a, Action) in s.cache ==> r.totalA == s.totalA
    ensures r.totalReusedA == s.totalReusedA && r.totalReusedD == s.totalReusedD
    ensures r.reuseA == s.reuseA && r.reuseD == s.reuseD
    ensures r.firstTime == s.firstTime && r.lastTime == s.lastTime
  {
    var dk := Key(d, Data);
    var (c1, totalD) := Insert(s.cache, dk, Entry(t, size, false, None), s.totalD);
    var (c2, totalA) := Insert(c1, Key(a, Action), Entry(t, ActionSize, false, Some(dk)), s.totalA);
    s.(cache := c2, totalD := totalD, totalA := totalA)
  }

  /**
   * A `get` or `miss` of action `a` at time `t`: one latency per list for a
   * known action, none for an unknown one. `ReuseFacts` states the rest.
   */
  function Reuse(s: ScanState, t: int, a: string): (r: ScanState)
    requires Linked(s.cache)
    ensures r.cache.Keys == s.cache.Keys
    ensures |r.reuseA| == |s.reuseA| + (if Key(a, Action) in s.cache then 1 else 0)
    ensures |r.reuseD| == |s.reuseD| + (if Key(a, Action) in s.cache then 1 else 0)
  {
    var ak := Key(a, Action);
    if ak !in s.cache then s
    else
      var e := s.cache[ak];
      var c1 := if e.reused then s.cache else s.cache[ak := e.(reused := true)];
      var reusedA := if e.reused then s.totalReusedA else s.totalReusedA + e.size;
      var dk := e.data.value;
      var d := c1[dk];
      var c2 := if d.reused then c1 else c1[dk := d.(reused := true)];
      var reusedD := if d.reused then s.totalReusedD else s.totalReusedD + d.size;
      s.(cache := c2, totalReusedA := reusedA, totalReusedD := reusedD,
         reuseA := s.reuseA + [t - e.created], reuseD := s.reuseD + [t - d.created])
  }

  /**
   * A `get` or `miss` of an unknown action changes nothing. Otherwise it marks
   * the action entry and its data entry reused, appends the time since each was
   * created to the sample lists, and leaves every other entry, the byte totals
   * and the time range alone; the registry stays linked.
   */
  lemma ReuseFacts(s: ScanState, t: int, a: string)
    requires Linked(s.cache)
    ensures var r := Reuse(s, t, a);
      && Linked(r.cache)
      && r.cache.Keys == s.cache.Keys
      && (forall k :: k in s.cache ==> Grown(s.cache[k], r.cache[k]))
      && r.totalA == s.totalA && r.totalD == s.totalD
      && r.firstTime == s.firstTime && r.lastTime == s.lastTime
    ensures Key(a, Action) !in s.cache ==> Reuse(s, t, a) == s
    ensures Key(a, Action) in s.cache ==>
      var r := Reuse(s, t, a);
      var e := s.cache[Key(a, Action)];
      && r.cache[Key(a, Action)].reused && r.cache[e.data.value].reused
      && r.reuseA == s.reuseA + [t - e.created]
      && r.reuseD == s.reuseD + [t - s.cache[e.data.value].created]
      && forall k :: k in s.cache && k != Key(a, Action) && k != e.data.value ==> r.cache[k] == s.cache[k]
  {
    var ak := Key(a, Action);
    if ak in s.cache {
      RolesDisjoint(s.cache[ak].data.value);
    }
  }

  /** One line of the log: its fields `f`, as `strings.Fields` splits them. */
  function Step(s: ScanState, f: seq<string>): (r: Result<ScanState, Fault>)
    requires Linked(s.cache)
    ensures r.Success? ==> Linked(r.value.cache)
    ensures r.Failure? <==> !WellFormed(f)
  {
    if |f| == 0 then Success(s)
    else if |f| < 3 || (f[1] == "put" && |f| != 5) then Failure(InvalidLine)
    else
      match ParseInt(f[0])
      case None => Failure(InvalidTime)
      case Some(t) =>
        var s1 := s.(firstTime := if s.firstTime == 0 then t else s.firstTime, lastTime := t);
        if f[1] == "put" then
          match ParseInt(f[4])
          case None => Failure(InvalidSize)
          case Some(size) => Success(Put(s1, t, f[2], f[3], size))
        else if f[1] == "get" || f[1] == "miss" then
          ReuseFacts(s1, t, f[2]);
          Success(Reuse(s1, t, f[2]))
        else Success(s1)
  }

  /** The whole log, line by line; the first failing line ends the scan. */
  function Run(lines: seq<seq<string>>): (r: Result<ScanState, ScanError>)
    ensures r.Success? ==> Linked(r.value.cache)
    ensures r.Failure? ==> r.error.line < |lines|
    decreases |lines|
  {
    if |lines| == 0 then Success(Initial)
    else
      var n := |lines| - 1;
      match Run(lines[..n])
      case Failure(e) => Failure(e)
      case Success(s) =>
        match Step(s, lines[n])
        case Failure(fault) => Failure(ScanError(n, fault))
        case Success(s') => Success(s')
  }

  /** Once a prefix of the log fails, the whole log fails with the same error. */
  lemma {:induction false} RunStopsAt(lines: seq<seq<string>>, j: nat)
    requires j <= |lines|
    requires Run(lines[..j]).Failure?
    ensures Run(lines) == Run(lines[..j])
    decreases |lines| - j
  {
    if j < |lines| {
      var n := |lines| - 1;
      assert lines[..n][..j] == lines[..j];
      RunStopsAt(lines[..n], j);
    } else {
      assert lines[..j] == lines;
    }
  }

  /** Scanning one more line: the step's outcome decides the longer prefix's. */
  lemma RunExtend(lines: seq<seq<string>>, i: nat, s: ScanState)
    requires i < |lines| && Run(lines[..i]) == Success(s)
    ensures Step(s, lines[i]).Success? ==> Run(lines[..i + 1]) == Success(Step(s, lines[i]).value)
    ensures Step(s, lines[i]).Failure? ==> Run(lines[..i + 1]) == Failure(ScanError(i, Step(s, lines[i]).error))
  {
    assert lines[..i + 1][..i] == lines[..i];
  }

  /**
   * The scan's accumulators, which the tool keeps in local variables of `main`
   * and updates in place, one log line at a time.
   */
  class Scanner {
    var cache: Registry
    var totalA: int
    var totalReusedA: int
    var totalD: int
    var totalReusedD: int
    var reuseA: seq<int>
    var reuseD: seq<int>
    var firstTime: int
    var lastTime: int

    /** The accumulators as one value. */
    function State(): ScanState
      reads this
    {
      ScanState(cache, totalA, totalReusedA, totalD, totalReusedD, reuseA, reuseD, firstTime, lastTime)
    }

    constructor ()
      ensures State() == Initial
    {
      cache := map[];
      totalA, totalReusedA, totalD, totalReusedD := 0, 0, 0, 0;
      reuseA, reuseD := [], [];
      firstTime, lastTime := 0, 0;
    }

    /** The `put` case of the scan loop: register data entry and action entry, first write wins. */
    method PutEntry(t: int, a: string, d: string, size: int)
      requires Linked(cache)
      modifies this
      ensures State() == Put(old(State()), t, a, d, size)
    {
      var dk := Key(d, Data);
      if dk !in cache {
        cache := cache[dk := Entry(t, size, false, None)];
        totalD := totalD + size;
      }
      var ak := Key(a, Action);
      if ak !in cache {
        cache := cache[ak := Entry(t, ActionSize, false, Some(dk))];
        totalA := totalA + ActionSize;
      }
    }

    /** The `get`/`miss` case of the scan loop: credit first reuses, record both latencies. */
    method ReuseEntry(t: int, a: string)
      requires Linked(cache)
      modifies this
      ensures State() == Reuse(old(State()), t, a)
    {
      var ak := Key(a, Action);
      if ak !in cache {
        return;
      }
      var e := cache[ak];
      if !e.reused {
        cache := cache[ak := e.(reused := true)];
        totalReusedA := totalReusedA + e.size;
      }
      var dk := e.data.value;
      RolesDisjoint(dk);
      var d := cache[dk];
      if !d.reused {
        cache := cache[dk := d.(reused := true)];
        totalReusedD := totalReusedD + d.size;
      }
      reuseA := reuseA + [t - e.created];
      reuseD := reuseD + [t - d.created];
    }

    /** One iteration of the scan loop, on the fields of one line; a fault aborts the scan. */
    method Line(f: seq<string>) returns (fault: Option<Fault>)
      requires Linked(cache)
      modifies this
      ensures fault.None? ==> Step(old(State()), f) == Success(State())
      ensures fault.Some? ==> Step(old(State()), f) == Failure(fault.value)
    {
      if |f| == 0 {
        return None;
      }
      if |f| < 3 || (f[1] == "put" && |f| != 5) {
        return Some(InvalidLine);
      }
      var t := ParseInt(f[0]);
      if t.None? {
        return Some(InvalidTime);
      }
      if firstTime == 0 {
        firstTime := t.value;
      }
      lastTime := t.value;
      if f[1] == "put" {
        var size := ParseInt(f[4]);
        if size.None? {
          return Some(InvalidSize);
        }
        PutEntry(t.value, f[2], f[3], size.value);
      } else if f[1] == "get" || f[1] == "miss" {
        ReuseEntry(t.value, f[2]);
      }
      return None;
    }
  }

  /** The scan loop of the tool: every line in file order, stopping at the first fault. */
  method ScanLog(lines: seq<seq<string>>) returns (r: Result<ScanState, ScanError>)
    ensures r == Run(lines)
  {
    var scanner := new Scanner();
    for i := 0 to |lines|
      invariant Run(lines[..i]) == Success(scanner.State())
    {
      ghost var s := scanner.State();
      var fault := scanner.Line(lines[i]);
      RunExtend(lines, i, s);
      if fault.Some? {
        RunStopsAt(lines, i + 1);
        return Failure(ScanError(i, fault.value));
      }
    }
    assert lines[..|lines|] == lines;
    r := Success(scanner.State());
  }
}
