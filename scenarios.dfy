/**
 * Three small logs worked through the model: a data blob put once and reused
 * twice, a reuse of an action that was never put, and a `put` line that is
 * missing its size.
 */
module Scenarios {
  import opened Wrappers
  import opened Decimal
  import opened CacheLog

  lemma Parse500()
    ensures ParseInt("500") == Some(500)
  {
    assert "500"[..2] == "50" && "50"[..1] == "5" && "5"[..0] == "";
  }

  lemma Parse1000()
    ensures ParseInt("1000") == Some(1000)
  {
    assert "1000"[..3] == "100" && "100"[..2] == "10" && "10"[..1] == "1" && "1"[..0] == "";
  }

  lemma Parse1010()
    ensures ParseInt("1010") == Some(1010)
  {
    assert "1010"[..3] == "101" && "101"[..2] == "10" && "10"[..1] == "1" && "1"[..0] == "";
  }

  lemma Parse1020()
    ensures ParseInt("1020") == Some(1020)
  {
    assert "1020"[..3] == "102" && "102"[..2] == "10" && "10"[..1] == "1" && "1"[..0] == "";
  }

  const PutLine: seq<string> := ["1000", "put", "A", "D", "500"]
  const FirstGet: seq<string> := ["1010", "get", "A"]
  const SecondGet: seq<string> := ["1020", "get", "A"]

  /** After the `put`: one action entry of 154 bytes linked to one data entry of 500 bytes. */
  const AfterPut: ScanState := ScanState(
    map["D-d" := Entry(1000, 500, false, None), "A-a" := Entry(1000, 154, false, Some("D-d"))],
    154, 0, 500, 0, [], [], 1000, 1000)

  /** After the first `get`: both entries credited, one latency of 10 seconds each. */
  const AfterFirstGet: ScanState := ScanState(
    map["D-d" := Entry(1000, 500, true, None), "A-a" := Entry(1000, 154, true, Some("D-d"))],
    154, 154, 500, 500, [10], [10], 1000, 1010)

  /** After the second `get`: no new credit, a second latency of 20 seconds each. */
  const AfterSecondGet: ScanState := AfterFirstGet.(reuseA := [10, 20], reuseD := [10, 20], lastTime := 1020)

  lemma StepPut()
    ensures Step(Initial, PutLine) == Success(AfterPut)
  {
    Parse1000();
    Parse500();
    assert Key("D", Data) == "D-d" && Key("A", Action) == "A-a";
  }

  lemma StepFirstGet()
    ensures Step(AfterPut, FirstGet) == Success(AfterFirstGet)
  {
    Parse1010();
    assert Key("A", Action) == "A-a";
    var s1 := AfterPut.(lastTime := 1010);
    var r := Reuse(s1, 1010, "A");
    ReuseFacts(s1, 1010, "A");
    assert r.cache.Keys == AfterFirstGet.cache.Keys;
    assert r.cache["A-a"] == AfterFirstGet.cache["A-a"];
    assert r.cache["D-d"] == AfterFirstGet.cache["D-d"];
    assert r.cache == AfterFirstGet.cache;
    assert r.reuseA == [10] && r.reuseD == [10];
    assert r == AfterFirstGet;
  }

  lemma StepSecondGet()
    ensures Step(AfterFirstGet, SecondGet) == Success(AfterSecondGet)
  {
    Parse1020();
    assert Key("A", Action) == "A-a";
    var s1 := AfterFirstGet.(lastTime := 1020);
    var r := Reuse(s1, 1020, "A");
    assert r.cache == AfterFirstGet.cache;
    assert r.reuseA == [10, 20] && r.reuseD == [10, 20];
    assert r == AfterSecondGet;
  }

  /** `1000 put A D 500`, `1010 get A`, `1020 get A`: both entries are credited once, and both reuses are sampled. */
  lemma PutThenTwoGets()
    ensures Run([PutLine, FirstGet, SecondGet]) == Success(AfterSecondGet)
  {
    var lines := [PutLine, FirstGet, SecondGet];
    StepPut();
    StepFirstGet();
    StepSecondGet();
    assert lines[..0] == [];
    RunExtend(lines, 0, Initial);
    RunExtend(lines, 1, AfterPut);
    RunExtend(lines, 2, AfterFirstGet);
    assert lines[..3] == lines;
  }

  /** `500 get X` alone: nothing is registered, credited or sampled; only the time range is set. */
  lemma OrphanGet()
    ensures Run([["500", "get", "X"]]) == Success(Initial.(firstTime := 500, lastTime := 500))
  {
    Parse500();
    assert [["500", "get", "X"]][..0] == [];
  }

  /** `100 put A D`: a `put` with four fields aborts the scan at its line. */
  lemma PutWithoutSize()
    ensures Run([["100", "put", "A", "D"]]) == Failure(ScanError(0, InvalidLine))
  {
    assert [["100", "put", "A", "D"]][..0] == [];
  }
}
