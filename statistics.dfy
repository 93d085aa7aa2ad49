/**
 * The statistics SaveStats folds out of logs.json into the module-level
 * CUR_STATS dict: totals, the floor average, time per discipline, per project
 * and per project and discipline, and the hour-of-day coverage histogram.
 */
module Statistics {
  import opened Entries
  import opened Maps
  import opened LocalTime

  /** Which label of a log a per-key total groups by. */
  datatype Field = Disc | Proj

  function KeyOf(l: Log, f: Field): string
  {
    match f
    case Disc => l.disc
    case Proj => l.proj
  }

  /** Sum of TIME_LENGTH over `logs`. */
  function SumTime(logs: seq<Log>): int
    decreases |logs|
  {
    if logs == [] then 0 else SumTime(logs[..|logs| - 1]) + logs[|logs| - 1].timeLength
  }

  /** The logs whose label `f` is `k`, in order. */
  function WithKey(logs: seq<Log>, f: Field, k: string): seq<Log>
    decreases |logs|
  {
    if logs == [] then []
    else
      var last := logs[|logs| - 1];
      WithKey(logs[..|logs| - 1], f, k) + (if KeyOf(last, f) == k then [last] else [])
  }

  /** The labels `f` that occur in `logs`. */
  function KeysOf(logs: seq<Log>, f: Field): set<string>
  {
    set l | l in logs :: KeyOf(l, f)
  }

  /** discbytime / projbytime: `m[key] = m.get(key, 0) + TIME_LENGTH` for each log in turn. */
  function Tally(m: map<string, int>, logs: seq<Log>, f: Field): map<string, int>
    decreases |logs|
  {
    if logs == [] then m
    else
      var last := logs[|logs| - 1];
      Bump(Tally(m, logs[..|logs| - 1], f), KeyOf(last, f), last.timeLength)
  }

  /** projbydisc: the same update one level down, under the log's project. */
  function NestedTally(m: map<string, map<string, int>>, logs: seq<Log>): map<string, map<string, int>>
    decreases |logs|
  {
    if logs == [] then m
    else
      var last := logs[|logs| - 1];
      var prev := NestedTally(m, logs[..|logs| - 1]);
      prev[last.proj := Bump(Row(prev, last.proj), last.disc, last.timeLength)]
  }

  /** Logs shorter than this many seconds count for their starting hour only. */
  const SingleHourLimit := 3601
  const HourSeconds := 3600
  const HourMillis := 3600000

  /** How many hour slots a log touches. */
  function Slots(l: Log): nat
  {
    if l.timeLength < SingleHourLimit then 1 else l.timeLength / HourSeconds + 1
  }

  /** The hour labels a log increments, in the order SaveStats visits them. */
  function SlotHours(l: Log, hourOf: int -> string): seq<string>
  {
    seq(Slots(l), h => hourOf(l.timeStart + HourMillis * h))
  }

  /** All hour labels the logs increment, log after log. */
  function TouchedHours(logs: seq<Log>, hourOf: int -> string): seq<string>
    decreases |logs|
  {
    if logs == [] then []
    else TouchedHours(logs[..|logs| - 1], hourOf) + SlotHours(logs[|logs| - 1], hourOf)
  }

  /** The hour labels the logs touch. */
  function HoursOf(logs: seq<Log>, hourOf: int -> string): set<string>
  {
    set h | h in TouchedHours(logs, hourOf)
  }

  /** Sum of the slot counts of `logs`. */
  function SumSlots(logs: seq<Log>): nat
    decreases |logs|
  {
    if logs == [] then 0 else SumSlots(logs[..|logs| - 1]) + Slots(logs[|logs| - 1])
  }

  /** `m[h] = m.get(h, 0) + 1` for each label of `hs` in turn. */
  function BumpAll(m: map<string, int>, hs: seq<string>): map<string, int>
    decreases |hs|
  {
    if hs == [] then m else Bump(BumpAll(m, hs[..|hs| - 1]), hs[|hs| - 1], 1)
  }

  /** workbyhour: each log's slot hours incremented in turn. */
  function HourTally(m: map<string, int>, logs: seq<Log>, hourOf: int -> string): map<string, int>
    decreases |logs|
  {
    if logs == [] then m
    else BumpAll(HourTally(m, logs[..|logs| - 1], hourOf), SlotHours(logs[|logs| - 1], hourOf))
  }

  /** The seven values of CUR_STATS. */
  datatype Snapshot = Snapshot(
    discByTime: map<string, int>,
    projByTime: map<string, int>,
    projByDisc: map<string, map<string, int>>,
    workByHour: map<string, int>,
    avgLogLength: int,
    totalLogs: int,
    totalTime: int)

  /** CUR_STATS as the module initialises it. */
  const Zero := Snapshot(map[], map[], map[], map[], 0, 0, 0)

  /**
   * CUR_STATS after the loop of SaveStats has run over `logs` starting from `s`.
   * The count is set to the length of the whole collection and the average
   * recomputed on every iteration, so an empty collection leaves both alone.
   */
  function Fold(s: Snapshot, logs: seq<Log>, hourOf: int -> string): Snapshot
  {
    var total := s.totalTime + SumTime(logs);
    Snapshot(
      Tally(s.discByTime, logs, Disc),
      Tally(s.projByTime, logs, Proj),
      NestedTally(s.projByDisc, logs),
      HourTally(s.workByHour, logs, hourOf),
      if logs == [] then s.avgLogLength else FloorDiv(total, |logs|),
      if logs == [] then s.totalLogs else |logs|,
      total)
  }

  // ---------------------------------------------------------------------
  // Sequence facts

  lemma SnocPrefix(logs: seq<Log>, x: Log)
    ensures (logs + [x])[..|logs|] == logs
  {
  }

  lemma SumTimeSnoc(logs: seq<Log>, x: Log)
    ensures SumTime(logs + [x]) == SumTime(logs) + x.timeLength
  {
    SnocPrefix(logs, x);
  }

  lemma WithKeySnoc(logs: seq<Log>, x: Log, f: Field, k: string)
    ensures WithKey(logs + [x], f, k) == WithKey(logs, f, k) + (if KeyOf(x, f) == k then [x] else [])
  {
    SnocPrefix(logs, x);
  }

  /** The filtered logs are exactly those of `logs` that carry the label. */
  lemma {:induction false} WithKeyMembers(logs: seq<Log>, f: Field, k: string)
    ensures forall l :: l in WithKey(logs, f, k) <==> l in logs && KeyOf(l, f) == k
    decreases |logs|
  {
    if logs != [] {
      WithKeyMembers(logs[..|logs| - 1], f, k);
      assert logs == logs[..|logs| - 1] + [logs[|logs| - 1]];
    }
  }

  lemma KeysOfSnoc(logs: seq<Log>, f: Field)
    requires logs != []
    ensures KeysOf(logs, f) == KeysOf(logs[..|logs| - 1], f) + {KeyOf(logs[|logs| - 1], f)}
  {
    assert logs == logs[..|logs| - 1] + [logs[|logs| - 1]];
  }

  // ---------------------------------------------------------------------
  // discbytime and projbytime

  /** Each counter is its start value plus the time of the logs with that label. */
  lemma {:induction false} TallyAt(m: map<string, int>, logs: seq<Log>, f: Field, k: string)
    ensures Get(Tally(m, logs, f), k) == Get(m, k) + SumTime(WithKey(logs, f, k))
    decreases |logs|
  {
    if logs != [] {
      var init, last := logs[..|logs| - 1], logs[|logs| - 1];
      TallyAt(m, init, f, k);
      assert Tally(m, logs, f) == Bump(Tally(m, init, f), KeyOf(last, f), last.timeLength);
      if KeyOf(last, f) == k {
        assert WithKey(logs, f, k) == WithKey(init, f, k) + [last];
        SumTimeSnoc(WithKey(init, f, k), last);
        assert Get(Tally(m, logs, f), k) == Get(Tally(m, init, f), k) + last.timeLength;
      } else {
        assert WithKey(logs, f, k) == WithKey(init, f, k);
      }
    }
  }

  /** The keys are the start keys plus the labels that occur. */
  lemma {:induction false} TallyKeys(m: map<string, int>, logs: seq<Log>, f: Field)
    ensures Tally(m, logs, f).Keys == m.Keys + KeysOf(logs, f)
    decreases |logs|
  {
    if logs != [] {
      TallyKeys(m, logs[..|logs| - 1], f);
      KeysOfSnoc(logs, f);
    }
  }

  /** The values grow by the total time, whatever the grouping. */
  lemma {:induction false} TallyTotal(m: map<string, int>, logs: seq<Log>, f: Field)
    ensures MapSum(Tally(m, logs, f)) == MapSum(m) + SumTime(logs)
    decreases |logs|
  {
    if logs != [] {
      var init, last := logs[..|logs| - 1], logs[|logs| - 1];
      TallyTotal(m, init, f);
      MapSumBump(Tally(m, init, f), KeyOf(last, f), last.timeLength);
    }
  }

  // ---------------------------------------------------------------------
  // projbydisc

  /** Each inner counter is its start value plus the time of the logs with that project and discipline. */
  lemma {:induction false} NestedAt(m: map<string, map<string, int>>, logs: seq<Log>, p: string, d: string)
    ensures Get2(NestedTally(m, logs), p, d) == Get2(m, p, d) + SumTime(WithKey(WithKey(logs, Proj, p), Disc, d))
    decreases |logs|
  {
    if logs != [] {
      var init, last := logs[..|logs| - 1], logs[|logs| - 1];
      NestedAt(m, init, p, d);
      var prev := NestedTally(m, init);
      var row := Bump(Row(prev, last.proj), last.disc, last.timeLength);
      assert NestedTally(m, logs) == prev[last.proj := row];
      var byProj := WithKey(init, Proj, p);
      if last.proj == p {
        assert WithKey(logs, Proj, p) == byProj + [last];
        WithKeySnoc(byProj, last, Disc, d);
        assert Get2(NestedTally(m, logs), p, d) == Get(row, d);
        assert Get2(prev, p, d) == Get(Row(prev, p), d);
        if last.disc == d {
          SumTimeSnoc(WithKey(byProj, Disc, d), last);
          assert Get(row, d) == Get(Row(prev, p), d) + last.timeLength;
        } else {
          assert Get(row, d) == Get(Row(prev, p), d);
          assert WithKey(byProj + [last], Disc, d) == WithKey(byProj, Disc, d) + [];
          assert WithKey(byProj, Disc, d) + [] == WithKey(byProj, Disc, d);
        }
      } else {
        assert WithKey(logs, Proj, p) == byProj;
        assert Get2(NestedTally(m, logs), p, d) == Get2(prev, p, d);
      }
    }
  }

  /** The projects present are the start ones plus those that occur. */
  lemma {:induction false} NestedKeys(m: map<string, map<string, int>>, logs: seq<Log>)
    ensures NestedTally(m, logs).Keys == m.Keys + KeysOf(logs, Proj)
    decreases |logs|
  {
    if logs != [] {
      NestedKeys(m, logs[..|logs| - 1]);
      KeysOfSnoc(logs, Proj);
    }
  }

  /** The disciplines under a project are the start ones plus those its logs carry. */
  lemma {:induction false} NestedRowKeys(m: map<string, map<string, int>>, logs: seq<Log>, p: string)
    ensures Row(NestedTally(m, logs), p).Keys == Row(m, p).Keys + KeysOf(WithKey(logs, Proj, p), Disc)
    decreases |logs|
  {
    if logs != [] {
      var init, last := logs[..|logs| - 1], logs[|logs| - 1];
      NestedRowKeys(m, init, p);
      var byProj := WithKey(init, Proj, p);
      if last.proj == p {
        assert WithKey(logs, Proj, p) == byProj + [last];
        SnocPrefix(byProj, last);
        KeysOfSnoc(byProj + [last], Disc);
      } else {
        assert WithKey(logs, Proj, p) == byProj;
      }
    }
  }

  /** The inner values, summed over every project, grow by the total time. */
  lemma {:induction false} NestedTotal(m: map<string, map<string, int>>, logs: seq<Log>)
    ensures MapSum(RowSums(NestedTally(m, logs))) == MapSum(RowSums(m)) + SumTime(logs)
    decreases |logs|
  {
    if logs != [] {
      var init, last := logs[..|logs| - 1], logs[|logs| - 1];
      var prev := NestedTally(m, init);
      var row := Bump(Row(prev, last.proj), last.disc, last.timeLength);
      NestedTotal(m, init);
      RowSumsUpdate(prev, last.proj, row);
      MapSumBump(Row(prev, last.proj), last.disc, last.timeLength);
      MapSumUpdate(RowSums(prev), last.proj, MapSum(row));
    }
  }

  // ---------------------------------------------------------------------
  // workbyhour

  /** Incrementing a list of labels adds, per label, how often it occurs. */
  lemma {:induction false} BumpAllAt(m: map<string, int>, hs: seq<string>, h: string)
    ensures Get(BumpAll(m, hs), h) == Get(m, h) + multiset(hs)[h]
    decreases |hs|
  {
    if hs != [] {
      BumpAllAt(m, hs[..|hs| - 1], h);
      assert hs == hs[..|hs| - 1] + [hs[|hs| - 1]];
    }
  }

  lemma {:induction false} BumpAllTotal(m: map<string, int>, hs: seq<string>)
    ensures MapSum(BumpAll(m, hs)) == MapSum(m) + |hs|
    decreases |hs|
  {
    if hs != [] {
      BumpAllTotal(m, hs[..|hs| - 1]);
      MapSumBump(BumpAll(m, hs[..|hs| - 1]), hs[|hs| - 1], 1);
    }
  }

  lemma {:induction false} BumpAllKeys(m: map<string, int>, hs: seq<string>)
    ensures BumpAll(m, hs).Keys == m.Keys + set h | h in hs
    decreases |hs|
  {
    if hs != [] {
      BumpAllKeys(m, hs[..|hs| - 1]);
      assert hs == hs[..|hs| - 1] + [hs[|hs| - 1]];
    }
  }

  /**
   * A log shorter than 3601 seconds increments its starting hour once; a
   * longer one increments `TIME_LENGTH // 3600 + 1` hours, one per hour
   * offset 0 .. TIME_LENGTH // 3600 from its start.
   */
  lemma EntrySlots(l: Log, hourOf: int -> string)
    ensures l.timeLength < 3601 ==> SlotHours(l, hourOf) == [hourOf(l.timeStart)]
    ensures l.timeLength >= 3601 ==>
      |SlotHours(l, hourOf)| == l.timeLength / 3600 + 1 >= 2 &&
      forall h :: 0 <= h < |SlotHours(l, hourOf)| ==>
        SlotHours(l, hourOf)[h] == hourOf(l.timeStart + 3600000 * h)
  {
  }

  /** Each bucket is its start value plus the number of slots of all logs that fall in that hour. */
  lemma {:induction false} HourTallyAt(m: map<string, int>, logs: seq<Log>, hourOf: int -> string, h: string)
    ensures Get(HourTally(m, logs, hourOf), h) == Get(m, h) + multiset(TouchedHours(logs, hourOf))[h]
    decreases |logs|
  {
    if logs != [] {
      var init, last := logs[..|logs| - 1], logs[|logs| - 1];
      HourTallyAt(m, init, hourOf, h);
      BumpAllAt(HourTally(m, init, hourOf), SlotHours(last, hourOf), h);
    }
  }

  lemma {:induction false} TouchedHoursLength(logs: seq<Log>, hourOf: int -> string)
    ensures |TouchedHours(logs, hourOf)| == SumSlots(logs)
    decreases |logs|
  {
    if logs != [] {
      TouchedHoursLength(logs[..|logs| - 1], hourOf);
    }
  }

  /** The histogram grows by the total number of slots. */
  lemma {:induction false} HourTallyTotal(m: map<string, int>, logs: seq<Log>, hourOf: int -> string)
    ensures MapSum(HourTally(m, logs, hourOf)) == MapSum(m) + SumSlots(logs)
    decreases |logs|
  {
    if logs != [] {
      var init, last := logs[..|logs| - 1], logs[|logs| - 1];
      HourTallyTotal(m, init, hourOf);
      BumpAllTotal(HourTally(m, init, hourOf), SlotHours(last, hourOf));
    }
  }

  /** The buckets present are the start ones plus exactly the hours the logs touch. */
  lemma {:induction false} HourTallyKeySet(m: map<string, int>, logs: seq<Log>, hourOf: int -> string)
    ensures HourTally(m, logs, hourOf).Keys == m.Keys + HoursOf(logs, hourOf)
    decreases |logs|
  {
    if logs != [] {
      var init, last := logs[..|logs| - 1], logs[|logs| - 1];
      HourTallyKeySet(m, init, hourOf);
      BumpAllKeys(HourTally(m, init, hourOf), SlotHours(last, hourOf));
    }
  }

  /** Only the twenty-four hour labels ever become keys. */
  lemma {:induction false} HourTallyKeys(m: map<string, int>, logs: seq<Log>, hourOf: int -> string)
    requires IsHourFunction(hourOf)
    requires forall k :: k in m ==> IsHour(k)
    ensures forall k :: k in HourTally(m, logs, hourOf) ==> IsHour(k)
    decreases |logs|
  {
    if logs != [] {
      var init, last := logs[..|logs| - 1], logs[|logs| - 1];
      var prev := HourTally(m, init, hourOf);
      var hs := SlotHours(last, hourOf);
      HourTallyKeys(m, init, hourOf);
      BumpAllKeys(prev, hs);
      forall k | k in HourTally(m, logs, hourOf) ensures IsHour(k) {
        if k !in prev {
          var j :| 0 <= j < |hs| && hs[j] == k;
          assert k == hourOf(last.timeStart + HourMillis * j);
        }
      }
    }
  }

  // ---------------------------------------------------------------------
  // The snapshot of a first call

  /**
   * From the initial CUR_STATS, one run of the loop gives the count, the
   * total and the floor average of the collection; for an empty collection
   * all three stay 0 and nothing is divided.
   */
  lemma FreshTotals(logs: seq<Log>, hourOf: int -> string)
    ensures var s := Fold(Zero, logs, hourOf);
      && s.totalLogs == |logs|
      && s.totalTime == SumTime(logs)
      && s.avgLogLength == (if logs == [] then 0 else SumTime(logs) / |logs|)
  {
  }

  /**
   * From the initial CUR_STATS, each per-key total is the time of the logs
   * with that key, and each hour bucket the number of slots in that hour.
   */
  lemma FreshPerKey(logs: seq<Log>, hourOf: int -> string)
    ensures var s := Fold(Zero, logs, hourOf);
      && (forall d :: Get(s.discByTime, d) == SumTime(WithKey(logs, Disc, d)))
      && (forall p :: Get(s.projByTime, p) == SumTime(WithKey(logs, Proj, p)))
      && (forall p, d :: Get2(s.projByDisc, p, d) == SumTime(WithKey(WithKey(logs, Proj, p), Disc, d)))
      && (forall h :: Get(s.workByHour, h) == multiset(TouchedHours(logs, hourOf))[h])
  {
    var s := Fold(Zero, logs, hourOf);
    forall d ensures Get(s.discByTime, d) == SumTime(WithKey(logs, Disc, d)) {
      TallyAt(map[], logs, Disc, d);
    }
    forall p ensures Get(s.projByTime, p) == SumTime(WithKey(logs, Proj, p)) {
      TallyAt(map[], logs, Proj, p);
    }
    forall p, d ensures Get2(s.projByDisc, p, d) == SumTime(WithKey(WithKey(logs, Proj, p), Disc, d)) {
      NestedAt(map[], logs, p, d);
    }
    forall h ensures Get(s.workByHour, h) == multiset(TouchedHours(logs, hourOf))[h] {
      HourTallyAt(map[], logs, hourOf, h);
    }
  }

  /**
   * From the initial CUR_STATS, exactly the disciplines, projects and hours
   * that occur in the logs are keys of the maps that group by them.
   */
  lemma FreshKeys(logs: seq<Log>, hourOf: int -> string)
    ensures var s := Fold(Zero, logs, hourOf);
      && s.discByTime.Keys == KeysOf(logs, Disc)
      && s.projByTime.Keys == KeysOf(logs, Proj)
      && s.projByDisc.Keys == KeysOf(logs, Proj)
      && s.workByHour.Keys == HoursOf(logs, hourOf)
  {
    TallyKeys(map[], logs, Disc);
    TallyKeys(map[], logs, Proj);
    NestedKeys(map[], logs);
    HourTallyKeySet(map[], logs, hourOf);
  }

  /**
   * From the initial CUR_STATS, the values of discbytime, of projbytime and
   * of projbydisc each add up to totaltime, and those of workbyhour to the
   * number of hour slots the logs touch.
   */
  lemma FreshSums(logs: seq<Log>, hourOf: int -> string)
    ensures var s := Fold(Zero, logs, hourOf);
      && MapSum(s.discByTime) == s.totalTime
      && MapSum(s.projByTime) == s.totalTime
      && MapSum(RowSums(s.projByDisc)) == s.totalTime
      && MapSum(s.workByHour) == SumSlots(logs)
  {
    TallyTotal(map[], logs, Disc);
    TallyTotal(map[], logs, Proj);
    assert RowSums(map[]) == map[];
    NestedTotal(map[], logs);
    HourTallyTotal(map[], logs, hourOf);
  }

  /** CUR_STATS is never reset: a second run over the same collection in one process doubles the totals. */
  lemma RepeatedFoldAccumulates(logs: seq<Log>, hourOf: int -> string)
    ensures var s := Fold(Fold(Zero, logs, hourOf), logs, hourOf);
      s.totalLogs == |logs| && s.totalTime == 2 * SumTime(logs)
  {
  }

  /** Two logs: 60 s of A on X, 7200 s of B on X. */
  lemma TwoLogExample(hourOf: int -> string)
    ensures var s := Fold(Zero, [Log(0, 60000, 60, "A", "X", ""), Log(0, 7200000, 7200, "B", "X", "")], hourOf);
      && s.totalLogs == 2 && s.totalTime == 7260 && s.avgLogLength == 3630
      && s.discByTime == map["A" := 60, "B" := 7200]
      && s.projByTime == map["X" := 7260]
  {
    var a, b := Log(0, 60000, 60, "A", "X", ""), Log(0, 7200000, 7200, "B", "X", "");
    assert [a, b][..1] == [a] && [a][..0] == [];
    assert SumTime([a]) == 60;
    assert SumTime([a, b]) == 7260;
    assert Tally(map[], [a], Disc) == map["A" := 60];
    assert Tally(map[], [a], Proj) == map["X" := 60];
    assert Tally(map[], [a, b], Disc) == map["A" := 60, "B" := 7200];
    assert Tally(map[], [a, b], Proj) == map["X" := 7260];
  }

  /** A two-hour log that starts at 23:00 local time touches 23, 00 and 01. */
  lemma LateNightExample()
    ensures SlotHours(Log(82800000, 90000000, 7200, "A", "X", ""), FixedOffsetClock(0)) == ["23", "00", "01"]
  {
    var l := Log(82800000, 90000000, 7200, "A", "X", "");
    assert Slots(l) == 3;
    assert HourOf(82800000, 0) == "23";
    assert HourOf(82800000 + 3600000, 0) == "00";
    assert HourOf(82800000 + 7200000, 0) == "01";
  }

  /** CUR_STATS after one iteration of the loop of SaveStats, in a collection of `count` logs. */
  function Step(s: Snapshot, log: Log, count: int, hourOf: int -> string): Snapshot
    requires count > 0
  {
    var total := s.totalTime + log.timeLength;
    Snapshot(
      Bump(s.discByTime, log.disc, log.timeLength),
      Bump(s.projByTime, log.proj, log.timeLength),
      s.projByDisc[log.proj := Bump(Row(s.projByDisc, log.proj), log.disc, log.timeLength)],
      BumpAll(s.workByHour, SlotHours(log, hourOf)),
      FloorDiv(total, count),
      count,
      total)
  }

  /** CUR_STATS after the first `i` iterations over `logs`. */
  function Partial(s: Snapshot, logs: seq<Log>, i: nat, hourOf: int -> string): Snapshot
    requires i <= |logs|
  {
    var total := s.totalTime + SumTime(logs[..i]);
    Snapshot(
      Tally(s.discByTime, logs[..i], Disc),
      Tally(s.projByTime, logs[..i], Proj),
      NestedTally(s.projByDisc, logs[..i]),
      HourTally(s.workByHour, logs[..i], hourOf),
      if i == 0 then s.avgLogLength else FloorDiv(total, |logs|),
      if i == 0 then s.totalLogs else |logs|,
      total)
  }

  /** Incrementing one more label of a list. */
  lemma BumpAllPrefix(m: map<string, int>, hs: seq<string>, h: nat)
    requires h < |hs|
    ensures BumpAll(m, hs[..h + 1]) == Bump(BumpAll(m, hs[..h]), hs[h], 1)
  {
    assert hs[..h + 1][..h] == hs[..h];
  }

  /** One more iteration is one more Step. */
  lemma PrefixStep(s: Snapshot, logs: seq<Log>, i: nat, hourOf: int -> string)
    requires i < |logs|
    ensures Partial(s, logs, i + 1, hourOf) == Step(Partial(s, logs, i, hourOf), logs[i], |logs|, hourOf)
  {
    assert logs[..i + 1][..i] == logs[..i];
    assert logs[..i + 1][i] == logs[i];
  }

  /** After the last iteration the fold is complete. */
  lemma PrefixDone(s: Snapshot, logs: seq<Log>, hourOf: int -> string)
    ensures Partial(s, logs, |logs|, hourOf) == Fold(s, logs, hourOf)
  {
    assert logs[..|logs|] == logs;
  }

  // ---------------------------------------------------------------------
  // CUR_STATS

  /** The module-level CUR_STATS dict, updated in place by SaveStats. */
  class Stats {
    var discByTime: map<string, int>
    var projByTime: map<string, int>
    var projByDisc: map<string, map<string, int>>
    var workByHour: map<string, int>
    var avgLogLength: int
    var totalLogs: int
    var totalTime: int

    function Value(): Snapshot
      reads this
    {
      Snapshot(discByTime, projByTime, projByDisc, workByHour, avgLogLength, totalLogs, totalTime)
    }

    constructor ()
      ensures Value() == Zero
    {
      discByTime, projByTime, projByDisc, workByHour := map[], map[], map[], map[];
      avgLogLength, totalLogs, totalTime := 0, 0, 0;
    }

    /** The increments of workbyhour for one log: its starting hour, or every hour it covers. */
    method CoverHours(log: Log, hourOf: int -> string)
      modifies this`workByHour
      ensures workByHour == BumpAll(old(workByHour), SlotHours(log, hourOf))
    {
      ghost var hours := SlotHours(log, hourOf);
      EntrySlots(log, hourOf);
      if log.timeLength < SingleHourLimit {
        var hour := hourOf(log.timeStart);
        BumpAllPrefix(old(workByHour), hours, 0);
        workByHour := workByHour[hour := Get(workByHour, hour) + 1];
      } else {
        for h := 0 to log.timeLength / HourSeconds + 1
          invariant workByHour == BumpAll(old(workByHour), hours[..h])
        {
          var hour := hourOf(log.timeStart + HourMillis * h);
          BumpAllPrefix(old(workByHour), hours, h);
          workByHour := workByHour[hour := Get(workByHour, hour) + 1];
        }
      }
      assert hours[..|hours|] == hours;
    }

    /** The count, total and average updates of one iteration, for a collection of `count` logs. */
    method AddTime(log: Log, count: int)
      requires count > 0
      modifies this`totalLogs, this`totalTime, this`avgLogLength
      ensures totalLogs == count
      ensures totalTime == old(totalTime) + log.timeLength
      ensures avgLogLength == FloorDiv(totalTime, count)
    {
      totalLogs := count;
      totalTime := totalTime + log.timeLength;
      avgLogLength := FloorDiv(totalTime, totalLogs);
    }

    /** The per-discipline, per-project and project-by-discipline updates of one iteration. */
    method AddLabels(log: Log)
      modifies this`discByTime, this`projByTime, this`projByDisc
      ensures discByTime == Bump(old(discByTime), log.disc, log.timeLength)
      ensures projByTime == Bump(old(projByTime), log.proj, log.timeLength)
      ensures projByDisc == old(projByDisc)[log.proj := Bump(Row(old(projByDisc), log.proj), log.disc, log.timeLength)]
    {
      discByTime := discByTime[log.disc := Get(discByTime, log.disc) + log.timeLength];
      projByTime := projByTime[log.proj := Get(projByTime, log.proj) + log.timeLength];
      projByDisc := projByDisc[log.proj := Row(projByDisc, log.proj)];
      projByDisc := projByDisc[log.proj := projByDisc[log.proj][log.disc := Get(projByDisc[log.proj], log.disc) + log.timeLength]];
    }

    /** One iteration of the loop of SaveStats, in a collection of `count` logs. */
    method AddLog(log: Log, count: int, hourOf: int -> string)
      requires count > 0
      modifies this
      ensures Value() == Step(old(Value()), log, count, hourOf)
    {
      AddTime(log, count);
      AddLabels(log);
      CoverHours(log, hourOf);
    }

    /** The loop of SaveStats over the parsed logs. */
    method Accumulate(logs: seq<Log>, hourOf: int -> string)
      modifies this
      ensures Value() == Fold(old(Value()), logs, hourOf)
    {
      for i := 0 to |logs|
        invariant Value() == Partial(old(Value()), logs, i, hourOf)
      {
        PrefixStep(old(Value()), logs, i, hourOf);
        AddLog(logs[i], |logs|, hourOf);
      }
      PrefixDone(old(Value()), logs, hourOf);
    }
  }
}
