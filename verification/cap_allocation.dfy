/** The project-owner dashboard (porteurs/script.js): each funding level offers
    its mean contribution, adjustable by a slider between -15% and a cap that
    shrinks with the level's bonus/malus history; the project is funded once
    the rounded sum of the proposed amounts reaches its cost; a greedy
    auto-fill proposes amounts; validating records a new bonus or malus per
    level. */
module CapAllocation {
  import opened Basics

  /** A funding level: its key, type, label, the total of the donations it
      received and the number of projects sharing them. */
  datatype FundingLevel = FundingLevel(key: string, kind: string, name: string, total: real, projects: int)

  /** One year's bonus (positive) or malus (negative) for a level. */
  datatype HistoryEntry = HistoryEntry(year: int, delta: int)

  /** `levelMaluses[key]`: the history, most recent first, and its running total. */
  datatype LevelRecord = LevelRecord(history: seq<HistoryEntry>, cumulated: int)

  /** The proposed amounts per level key and the amount still to find. */
  datatype Fill = Fill(proposed: map<string, real>, remaining: real)

  /** The funding message: funded, or the euros still to find; with the
      rounded percentage of the cost reached. */
  datatype FundingStatus = Funded(percent: int) | Shortfall(missing: real, percent: int)

  const ProjectCost: real := 1120.0
  const ProjectLevelKey: string := "project"
  const SliderMin: int := -15
  const InitialYear: int := 2025

  const Levels: seq<FundingLevel> := [
    FundingLevel("project", "Project", "Création : Soleil Levant", 700.0, 1),
    FundingLevel("establishment", "Establishment", "Théâtre du Soleil Levant", 500.0, 7),
    FundingLevel("commune", "Commune", "Douai", 950.0, 22),
    FundingLevel("commu", "Communauté de communes", "Douaisi agglo", 4730.0, 52),
    FundingLevel("dept_59", "Département", "Nord-pas-de-calais", 17520.0, 428),
    FundingLevel("region_hdf", "Région", "Haut-de-France", 49500.0, 907),
    FundingLevel("country_fr", "Pays", "France", 128000.0, 1242)
  ]

  const BaseMaluses: map<string, int> :=
    map["commune" := 3, "commu" := 0, "dept_59" := -2, "region_hdf" := 1, "country_fr" := 0]

  /** The fixed key order `autoFill` starts from before sorting by mean. */
  const AutoFillOrder: seq<string> :=
    ["project", "establishment", "commune", "commu", "dept_59", "region_hdf", "country_fr"]

  // ---------- levels, means and caps ----------

  /** `baseCapForProjects`: the structural cap, a step function of the number of
      projects sharing the level. */
  function BaseCapForProjects(n: int): (cap: int)
    ensures 0 <= cap <= 15 && cap % 5 == 0
    ensures n <= 2 ==> cap == 0
    ensures 7 < n ==> cap == 15
  {
    if n <= 2 then 0 else if n <= 4 then 5 else if n <= 7 then 10 else 15
  }

  /** More projects sharing a level never lowers its structural cap. */
  lemma BaseCapMonotone(a: int, b: int)
    requires a <= b
    ensures BaseCapForProjects(a) <= BaseCapForProjects(b)
  {
  }

  /** `meanForLevel`: the level's total shared out over its projects, 0 when it
      has none. */
  function Mean(l: FundingLevel): real {
    if l.projects > 0 then l.total / l.projects as real else 0.0
  }

  /** The mean shared out over the projects gives back the level's total;
      a level without projects has mean 0, and the mean has the total's sign. */
  lemma MeanShares(l: FundingLevel)
    ensures l.projects > 0 ==> Mean(l) * (l.projects as real) == l.total
    ensures l.projects <= 0 ==> Mean(l) == 0.0
    ensures l.total >= 0.0 ==> Mean(l) >= 0.0
  {
  }

  /** `levels.find(l => l.key === key)`. */
  function FindLevel(levels: seq<FundingLevel>, key: string): (r: Option<FundingLevel>)
    ensures r.Some? ==> r.value in levels && r.value.key == key
    ensures r.None? <==> forall l :: l in levels ==> l.key != key
    decreases |levels|
  {
    if levels == [] then None
    else if levels[0].key == key then Some(levels[0])
    else FindLevel(levels[1..], key)
  }

  function MeanOf(levels: seq<FundingLevel>, key: string): real {
    match FindLevel(levels, key)
    case Some(l) => Mean(l)
    case None => 0.0
  }

  function KeySet(levels: seq<FundingLevel>): set<string> {
    set l | l in levels :: l.key
  }

  function KeySeq(levels: seq<FundingLevel>): (ks: seq<string>)
    ensures |ks| == |levels| && forall i :: 0 <= i < |levels| ==> ks[i] == levels[i].key
  {
    seq(|levels|, i requires 0 <= i < |levels| => levels[i].key)
  }

  predicate DistinctKeys(levels: seq<FundingLevel>) {
    forall i, j :: 0 <= i < j < |levels| ==> levels[i].key != levels[j].key
  }

  lemma FindLevelAt(levels: seq<FundingLevel>, i: nat)
    requires DistinctKeys(levels) && i < |levels|
    ensures FindLevel(levels, levels[i].key) == Some(levels[i])
  {
    if i > 0 {
      FindLevelAt(levels[1..], i - 1);
    }
  }

  /** `computeCap`: 15 for a key without a level or a record; otherwise the
      structural cap lowered by an accumulated malus, never below -15, and
      never raised by an accumulated bonus. */
  function Cap(levels: seq<FundingLevel>, maluses: map<string, LevelRecord>, key: string): (c: int)
    ensures -15 <= c <= 15
    ensures key !in maluses || FindLevel(levels, key).None? ==> c == 15
    ensures key in maluses && FindLevel(levels, key).Some? ==>
              var base := BaseCapForProjects(FindLevel(levels, key).value.projects);
              var cum := maluses[key].cumulated;
              && c <= base
              && (cum >= 0 ==> c == base)
              && (cum < 0 ==> c == if base + cum < -15 then -15 else base + cum)
  {
    var lvl := FindLevel(levels, key);
    if key !in maluses || lvl.None? then 15
    else
      var base := BaseCapForProjects(lvl.value.projects);
      var raw := MinR(base as real, (base + maluses[key].cumulated) as real);
      var clamped := Clamp(raw, -15.0, base as real);
      assert clamped == (if maluses[key].cumulated >= 0 then base
                         else if base + maluses[key].cumulated < -15 then -15
                         else base + maluses[key].cumulated) as real;
      Round(clamped)
  }

  /** A level shared by at most two projects keeps a cap of 0 whatever bonus
      it has accumulated: a bonus never lifts a cap above its structural base. */
  lemma BonusNeverExceedsBase(levels: seq<FundingLevel>, maluses: map<string, LevelRecord>, key: string)
    requires key in maluses && FindLevel(levels, key).Some?
    ensures Cap(levels, maluses, key) <= BaseCapForProjects(FindLevel(levels, key).value.projects)
    ensures FindLevel(levels, key).value.projects <= 2 && maluses[key].cumulated >= 0 ==> Cap(levels, maluses, key) == 0
  {
  }

  // ---------- history ----------

  function SumDeltas(h: seq<HistoryEntry>): int
    decreases |h|
  {
    if h == [] then 0 else h[0].delta + SumDeltas(h[1..])
  }

  /** Every record's `cumulated` is the sum of its history's deltas. */
  ghost predicate Consistent(maluses: map<string, LevelRecord>) {
    forall k :: k in maluses ==> maluses[k].cumulated == SumDeltas(maluses[k].history)
  }

  /** `levelMaluses` as initialised: one entry per level key, a one-entry
      history holding the base bonus/malus (0 when none is given). */
  function InitialRecords(levels: seq<FundingLevel>, base: map<string, int>, year: int): (r: map<string, LevelRecord>)
    ensures r.Keys == KeySet(levels)
    ensures Consistent(r)
    ensures forall k :: k in r ==> |r[k].history| == 1 && r[k].history[0].year == year
    ensures forall k :: k in r ==> r[k].history[0].delta == r[k].cumulated == (if k in base then base[k] else 0)
  {
    map k | k in KeySet(levels) ::
      var d := if k in base then base[k] else 0;
      LevelRecord([HistoryEntry(year, d)], d)
  }

  /** `history.unshift(entry)` followed by recomputing `cumulated`. */
  function Recorded(r: LevelRecord, e: HistoryEntry): (n: LevelRecord)
    ensures n.history == [e] + r.history
    ensures n.cumulated == SumDeltas(n.history)
    ensures r.cumulated == SumDeltas(r.history) ==> n.cumulated == r.cumulated + e.delta
  {
    var h := [e] + r.history;
    assert h[1..] == r.history;
    LevelRecord(h, SumDeltas(h))
  }

  /** The deviation of a request from the mean, in percent of the mean. */
  function DiffPct(mean: real, req: real): real
    requires mean > 0.0
  {
    (req - mean) / mean * 100.0
  }

  /** The delta `validateAllocation` records for a level: asking less than the
      mean earns a bonus, asking the mean or more a malus; either way it is the
      deviation, negated, capped at 15 in size and rounded. */
  function ValidationDelta(mean: real, req: real): (d: int)
    requires mean > 0.0
    ensures -15 <= d <= 15
    ensures req < mean ==> 0 <= d
    ensures mean <= req ==> d <= 0
    ensures d == Round(Clamp(-DiffPct(mean, req), -15.0, 15.0))
  {
    var diff := DiffPct(mean, req);
    assert req < mean <==> diff < 0.0 by {
      assert req - mean == diff * mean / 100.0;
      if diff < 0.0 {
        assert diff * mean < 0.0;
      } else {
        assert diff * mean >= 0.0;
      }
    }
    if diff < 0.0 then Round(MinR(15.0, -diff)) else Round(-MinR(15.0, diff))
  }

  /** The levels `validateAllocation` records a delta for: every level but the
      project itself whose mean is positive. */
  predicate Validates(l: FundingLevel) {
    l.key != ProjectLevelKey && Mean(l) > 0.0
  }

  /** The record validation leaves for one level: this year's delta
      prepended for a validated level, the record unchanged otherwise. */
  function RecordFor(l: FundingLevel, proposed: map<string, real>, r: LevelRecord, year: int): LevelRecord {
    if Validates(l) then Recorded(r, HistoryEntry(year, ValidationDelta(Mean(l), Get(proposed, l.key)))) else r
  }

  /** `levelMaluses` after `validateAllocation` has run over the levels `ls`. */
  function Validated(ls: seq<FundingLevel>, proposed: map<string, real>,
                     maluses: map<string, LevelRecord>, year: int): (r: map<string, LevelRecord>)
    ensures r.Keys == maluses.Keys
  {
    map k | k in maluses ::
      match FindLevel(ls, k)
      case None => maluses[k]
      case Some(l) => RecordFor(l, proposed, maluses[k], year)
  }

  /** Validation keeps every record's `cumulated` equal to the sum of its history. */
  lemma ValidatedConsistent(levels: seq<FundingLevel>, proposed: map<string, real>,
                            maluses: map<string, LevelRecord>, year: int)
    requires Consistent(maluses)
    ensures Consistent(Validated(levels, proposed, maluses, year))
  {
    var r := Validated(levels, proposed, maluses, year);
    forall k | k in r ensures r[k].cumulated == SumDeltas(r[k].history) {
      ValidatedAt(levels, proposed, maluses, year, k);
    }
  }

  /** What validation does to one level's record: exactly one entry, for this
      year and with a delta in [-15, 15] of the right sign, is prepended and
      `cumulated` moves by that delta; the project level, levels with mean 0
      and keys without a level keep their record. */
  lemma ValidatedRecord(levels: seq<FundingLevel>, proposed: map<string, real>,
                        maluses: map<string, LevelRecord>, year: int, k: string)
    requires Consistent(maluses) && k in maluses
    ensures var r := Validated(levels, proposed, maluses, year)[k];
            if FindLevel(levels, k).Some? && Validates(FindLevel(levels, k).value) then
              var mean := Mean(FindLevel(levels, k).value);
              && |r.history| == |maluses[k].history| + 1
              && r.history[1..] == maluses[k].history
              && r.history[0].year == year
              && -15 <= r.history[0].delta <= 15
              && (Get(proposed, k) < mean ==> 0 <= r.history[0].delta)
              && (mean <= Get(proposed, k) ==> r.history[0].delta <= 0)
              && r.cumulated == maluses[k].cumulated + r.history[0].delta
            else r == maluses[k]
  {
    ValidatedAt(levels, proposed, maluses, year, k);
    var r := Validated(levels, proposed, maluses, year)[k];
    if FindLevel(levels, k).Some? && Validates(FindLevel(levels, k).value) {
      assert r.history[1..] == maluses[k].history;
    }
  }

  lemma FindLevelAppend(ls: seq<FundingLevel>, x: FundingLevel, k: string)
    ensures FindLevel(ls + [x], k) == if FindLevel(ls, k).Some? then FindLevel(ls, k)
                                     else if x.key == k then Some(x) else None
    decreases |ls|
  {
    if ls == [] {
      assert [x][1..] == [];
    } else {
      assert (ls + [x])[1..] == ls[1..] + [x];
      FindLevelAppend(ls[1..], x, k);
    }
  }

  // ---------- sums ----------

  /** `state.proposedAmount[key] || 0`. */
  function Get(m: map<string, real>, k: string): real {
    if k in m then m[k] else 0.0
  }

  function SumAt(ks: seq<string>, m: map<string, real>): real
    decreases |ks|
  {
    if ks == [] then 0.0 else SumAt(ks[..|ks| - 1], m) + Get(m, ks[|ks| - 1])
  }

  predicate Distinct(ks: seq<string>) {
    forall i, j :: 0 <= i < j < |ks| ==> ks[i] != ks[j]
  }

  function SetOf(ks: seq<string>): set<string> {
    set k | k in ks
  }

  lemma {:induction false} SumAtConcat(a: seq<string>, b: seq<string>, m: map<string, real>)
    ensures SumAt(a + b, m) == SumAt(a, m) + SumAt(b, m)
    decreases |b|
  {
    if b == [] {
      assert a + b == a;
    } else {
      assert (a + b)[..|a + b| - 1] == a + b[..|b| - 1];
      assert (a + b)[|a + b| - 1] == b[|b| - 1];
      SumAtConcat(a, b[..|b| - 1], m);
    }
  }

  /** Sums agree where the maps agree on the summed keys. */
  lemma {:induction false} SumAtPointwise(ks: seq<string>, m: map<string, real>, n: map<string, real>)
    requires forall k :: k in ks ==> Get(m, k) == Get(n, k)
    ensures SumAt(ks, m) == SumAt(ks, n)
    decreases |ks|
  {
    if ks != [] {
      SumAtPointwise(ks[..|ks| - 1], m, n);
    }
  }

  /** Changing the amount of one key that occurs once among the summed keys
      moves the sum by the change. */
  lemma {:induction false} SumAtUpdate(ks: seq<string>, m: map<string, real>, k: string, v: real)
    requires Distinct(ks) && k in ks
    ensures SumAt(ks, m[k := v]) == SumAt(ks, m) + (v - Get(m, k))
    decreases |ks|
  {
    var init := ks[..|ks| - 1];
    if ks[|ks| - 1] == k {
      SumAtPointwise(init, m[k := v], m);
    } else {
      SumAtUpdate(init, m, k, v);
    }
  }

  /** Dropping the element at `j` from a duplicate-free list keeps it
      duplicate-free and drops exactly that key. */
  lemma RemoveAtKeys(b: seq<string>, j: nat)
    requires Distinct(b) && j < |b|
    ensures Distinct(b[..j] + b[j + 1..])
    ensures SetOf(b[..j] + b[j + 1..]) == SetOf(b) - {b[j]}
  {
    var b' := b[..j] + b[j + 1..];
    forall p, q | 0 <= p < q < |b'| ensures b'[p] != b'[q] {
      var p0 := if p < j then p else p + 1;
      var q0 := if q < j then q else q + 1;
      assert b'[p] == b[p0] && b'[q] == b[q0];
    }
    forall y ensures y in SetOf(b') <==> y in SetOf(b) && y != b[j] {
      if y in SetOf(b') {
        var t :| 0 <= t < |b'| && b'[t] == y;
        var t0 := if t < j then t else t + 1;
        assert b[t0] == y;
      }
      if y in SetOf(b) && y != b[j] {
        var t :| 0 <= t < |b| && b[t] == y;
        if t < j { assert b'[t] == y; } else { assert b'[t - 1] == y; }
      }
    }
  }

  /** Dropping the element at `j` drops its amount from the sum. */
  lemma RemoveAtSum(b: seq<string>, j: nat, m: map<string, real>)
    requires j < |b|
    ensures SumAt(b, m) == SumAt(b[..j] + b[j + 1..], m) + Get(m, b[j])
  {
    var front, back := b[..j], b[j + 1..];
    assert b == front + [b[j]] + back;
    SumAtConcat(front + [b[j]], back, m);
    SumAtConcat(front, [b[j]], m);
    SumAtConcat(front, back, m);
    assert SumAt([b[j]], m) == Get(m, b[j]) by {
      assert [b[j]][..0] == [];
    }
  }

  /** Two duplicate-free key lists with the same keys have the same sum. */
  lemma {:induction false} SumAtPermutation(a: seq<string>, b: seq<string>, m: map<string, real>)
    requires Distinct(a) && Distinct(b) && SetOf(a) == SetOf(b)
    ensures SumAt(a, m) == SumAt(b, m)
    decreases |a|
  {
    assert forall i :: 0 <= i < |b| ==> b[i] in SetOf(b);
    if a != [] {
      var n := |a| - 1;
      var x := a[n];
      assert x in SetOf(b);
      var j :| 0 <= j < |b| && b[j] == x;
      RemoveAtKeys(a, n);
      RemoveAtSum(a, n, m);
      RemoveAtKeys(b, j);
      RemoveAtSum(b, j, m);
      assert a[..n] + a[n + 1..] == a[..n];
      SumAtPermutation(a[..n], b[..j] + b[j + 1..], m);
    }
  }

  // ---------- slider and totals ----------

  /** `Math.round(mean * (1 + pct / 100))`, the amount proposed at a slider position. */
  function SliderAmount(mean: real, pct: int): int {
    Round(mean * (1.0 + pct as real / 100.0))
  }

  /** For a level with a non-negative mean, an amount proposed from any
      allowed slider position lies between the rounded amounts at -15% and at
      the cap. */
  lemma SliderAmountWithinCap(mean: real, pct: int, cap: int)
    requires 0.0 <= mean && -15 <= pct <= cap
    ensures SliderAmount(mean, -15) <= SliderAmount(mean, pct) <= SliderAmount(mean, cap)
  {
    SliderAmountMonotone(mean, -15, pct);
    SliderAmountMonotone(mean, pct, cap);
  }

  lemma SliderAmountMonotone(mean: real, lo: int, hi: int)
    requires 0.0 <= mean && lo <= hi
    ensures SliderAmount(mean, lo) <= SliderAmount(mean, hi)
  {
    var a, b := 1.0 + lo as real / 100.0, 1.0 + hi as real / 100.0;
    assert a <= b;
    assert mean * a <= mean * b;
    RoundMonotone(mean * a, mean * b);
  }

  /** The funding message for a rounded total: funded exactly when it reaches
      the cost, otherwise the positive difference is still to find. */
  function StatusFor(totalAllocated: int, cost: real): (s: FundingStatus)
    requires cost > 0.0
    ensures s.Funded? <==> totalAllocated as real >= cost
    ensures s.Shortfall? ==> s.missing > 0.0 && s.missing + totalAllocated as real == cost
    ensures s.percent == Round(totalAllocated as real / cost * 100.0)
  {
    var percent := Round(totalAllocated as real / cost * 100.0);
    if totalAllocated as real >= cost then Funded(percent)
    else Shortfall(cost - totalAllocated as real, percent)
  }

  // ---------- auto-fill ----------

  /** `order.map(k => levels.find(...)).filter(Boolean)`, by key: the keys of
      `order` that name a level, in `order`'s order. */
  function PresentKeys(order: seq<string>, levels: seq<FundingLevel>): (r: seq<string>)
    ensures forall k :: k in r <==> k in order && FindLevel(levels, k).Some?
    ensures |r| <= |order|
    decreases |order|
  {
    if order == [] then []
    else
      var init := PresentKeys(order[..|order| - 1], levels);
      var k := order[|order| - 1];
      assert forall x :: x in order <==> x in order[..|order| - 1] || x == k by {
        assert order == order[..|order| - 1] + [k];
      }
      if FindLevel(levels, k).Some? then init + [k] else init
  }

  lemma {:induction false} PresentKeysDistinct(order: seq<string>, levels: seq<FundingLevel>)
    requires Distinct(order)
    ensures Distinct(PresentKeys(order, levels))
    decreases |order|
  {
    if order != [] {
      var init := order[..|order| - 1];
      PresentKeysDistinct(init, levels);
      var k := order[|order| - 1];
      forall i | 0 <= i < |init| ensures init[i] != k {
      }
    }
  }

  /** Inserting a key into a list sorted by decreasing mean, after every key
      of greater or equal mean (so equal means keep their order). */
  function InsertByMean(levels: seq<FundingLevel>, k: string, s: seq<string>): (r: seq<string>)
    ensures multiset(r) == multiset(s) + multiset{k}
    ensures forall x :: x in r <==> x == k || x in s
    decreases |s|
  {
    if s == [] then [k]
    else if MeanOf(levels, k) > MeanOf(levels, s[0]) then [k] + s
    else
      assert s == [s[0]] + s[1..];
      [s[0]] + InsertByMean(levels, k, s[1..])
  }

  /** The stable sort of `sorted` by decreasing mean. */
  function SortByMean(levels: seq<FundingLevel>, s: seq<string>): (r: seq<string>)
    ensures multiset(r) == multiset(s)
    decreases |s|
  {
    if s == [] then []
    else
      assert s == s[..|s| - 1] + [s[|s| - 1]];
      InsertByMean(levels, s[|s| - 1], SortByMean(levels, s[..|s| - 1]))
  }

  ghost predicate SortedByMean(levels: seq<FundingLevel>, s: seq<string>) {
    forall i, j :: 0 <= i < j < |s| ==> MeanOf(levels, s[i]) >= MeanOf(levels, s[j])
  }

  lemma {:induction false} InsertByMeanSorted(levels: seq<FundingLevel>, k: string, s: seq<string>)
    requires SortedByMean(levels, s)
    ensures SortedByMean(levels, InsertByMean(levels, k, s))
    decreases |s|
  {
    if s != [] && MeanOf(levels, k) <= MeanOf(levels, s[0]) {
      var t := InsertByMean(levels, k, s[1..]);
      InsertByMeanSorted(levels, k, s[1..]);
      forall j | 0 <= j < |t| ensures MeanOf(levels, s[0]) >= MeanOf(levels, t[j]) {
        if t[j] != k {
          SortedHeadBound(levels, s, t[j]);
        }
      }
      ConsSortedByMean(levels, s[0], t);
    }
  }

  lemma SortedHeadBound(levels: seq<FundingLevel>, s: seq<string>, x: string)
    requires SortedByMean(levels, s) && s != [] && x in s[1..]
    ensures MeanOf(levels, s[0]) >= MeanOf(levels, x)
  {
    var m :| 0 <= m < |s[1..]| && s[1..][m] == x;
    assert s[m + 1] == x;
  }

  lemma ConsSortedByMean(levels: seq<FundingLevel>, x: string, t: seq<string>)
    requires SortedByMean(levels, t)
    requires forall j :: 0 <= j < |t| ==> MeanOf(levels, x) >= MeanOf(levels, t[j])
    ensures SortedByMean(levels, [x] + t)
  {
    var r := [x] + t;
    forall i, j | 0 <= i < j < |r| ensures MeanOf(levels, r[i]) >= MeanOf(levels, r[j]) {
      assert r[j] == t[j - 1];
      if i > 0 {
        assert r[i] == t[i - 1];
      }
    }
  }

  /** The walk order is by decreasing mean and holds the same keys. */
  lemma {:induction false} SortByMeanSorted(levels: seq<FundingLevel>, s: seq<string>)
    ensures SortedByMean(levels, SortByMean(levels, s))
    ensures Distinct(s) ==> Distinct(SortByMean(levels, s))
    decreases |s|
  {
    if s != [] {
      var init := s[..|s| - 1];
      SortByMeanSorted(levels, init);
      InsertByMeanSorted(levels, s[|s| - 1], SortByMean(levels, init));
      if Distinct(s) {
        DistinctByMultiset(s);
        DistinctByMultiset(SortByMean(levels, s));
      }
    }
  }

  /** Being duplicate-free depends only on the multiset of keys. */
  lemma {:induction false} DistinctByMultiset(s: seq<string>)
    ensures Distinct(s) <==> forall k :: multiset(s)[k] <= 1
    decreases |s|
  {
    if s != [] {
      var init := s[..|s| - 1];
      var x := s[|s| - 1];
      assert s == init + [x];
      DistinctByMultiset(init);
      if Distinct(s) {
        assert Distinct(init);
        assert x !in init;
      }
      if forall k :: multiset(s)[k] <= 1 {
        assert forall k :: multiset(init)[k] <= 1 by {
          forall k ensures multiset(init)[k] <= 1 {
            assert multiset(s)[k] == multiset(init)[k] + multiset([x])[k];
          }
        }
        assert multiset(s)[x] == multiset(init)[x] + 1;
        assert x !in init;
        forall i, j | 0 <= i < j < |s| ensures s[i] != s[j] {
          if j == |s| - 1 {
            assert s[i] in init;
          }
        }
      }
    }
  }

  /** The keys `autoFill` walks, in walking order. */
  function WalkKeys(levels: seq<FundingLevel>): seq<string> {
    SortByMean(levels, PresentKeys(AutoFillOrder, levels))
  }

  lemma AutoFillOrderDistinct()
    ensures Distinct(AutoFillOrder)
  {
    forall i, j | 0 <= i < j < |AutoFillOrder| ensures AutoFillOrder[i] != AutoFillOrder[j] {
      var a, b := AutoFillOrder[i], AutoFillOrder[j];
      assert |a| != |b| || a[0] != b[0] || a[4] != b[4];
    }
  }

  /** The walk keys are duplicate-free, sorted by decreasing mean, and are
      exactly the keys of `AutoFillOrder` that name a level. */
  lemma WalkKeysFacts(levels: seq<FundingLevel>)
    ensures Distinct(WalkKeys(levels))
    ensures SortedByMean(levels, WalkKeys(levels))
    ensures forall k :: k in WalkKeys(levels) <==> k in AutoFillOrder && FindLevel(levels, k).Some?
  {
    AutoFillOrderDistinct();
    var present := PresentKeys(AutoFillOrder, levels);
    PresentKeysDistinct(AutoFillOrder, levels);
    SortByMeanSorted(levels, present);
    forall k ensures k in WalkKeys(levels) <==> k in present {
      assert k in WalkKeys(levels) <==> k in multiset(WalkKeys(levels));
    }
  }

  function ZeroOn(keys: set<string>): map<string, real> {
    map k | k in keys :: 0.0
  }

  function SumMeans(levels: seq<FundingLevel>, ks: seq<string>): real
    decreases |ks|
  {
    if ks == [] then 0.0 else SumMeans(levels, ks[..|ks| - 1]) + MeanOf(levels, ks[|ks| - 1])
  }

  /** After the seeding loop: every walked key at its mean. */
  function Seeded(levels: seq<FundingLevel>, ks: seq<string>, m: map<string, real>): (r: map<string, real>)
    ensures r.Keys == m.Keys + SetOf(ks)
  {
    map k | k in m.Keys + SetOf(ks) :: if k in ks then MeanOf(levels, k) else m[k]
  }

  /** After the scaling loop: every walked key multiplied by `f`. */
  function Scaled(ks: seq<string>, m: map<string, real>, f: real): (r: map<string, real>)
    ensures r.Keys == m.Keys
  {
    map k | k in m :: if k in ks then m[k] * f else m[k]
  }

  /** The amount a level is proposed at its cap, `mean * (1 + cap / 100)`. */
  function MaxAmount(levels: seq<FundingLevel>, maluses: map<string, LevelRecord>, k: string): real {
    MeanOf(levels, k) * (1.0 + Cap(levels, maluses, k) as real / 100.0)
  }

  /** One step of the walk: nothing once the cost is covered; otherwise the
      level takes `min(maxAmt - current, remaining)` (negative when the level
      already stands above its cap amount, which hands the excess back to
      `remaining`). */
  function WalkStep(levels: seq<FundingLevel>, maluses: map<string, LevelRecord>, k: string, f: Fill): Fill {
    if f.remaining <= 0.0 then f
    else
      var current := Get(f.proposed, k);
      var add := MinR(MaxAmount(levels, maluses, k) - current, f.remaining);
      Fill(f.proposed[k := current + add], f.remaining - add)
  }

  function Walk(levels: seq<FundingLevel>, maluses: map<string, LevelRecord>, ks: seq<string>, f: Fill): Fill
    decreases |ks|
  {
    if ks == [] then f else WalkStep(levels, maluses, ks[|ks| - 1], Walk(levels, maluses, ks[..|ks| - 1], f))
  }

  /** Seeding and, when the means alone exceed the cost, scaling down. */
  function Start(levels: seq<FundingLevel>, ks: seq<string>, keys: set<string>, cost: real): Fill
    requires cost > 0.0
  {
    var seeded := Seeded(levels, ks, ZeroOn(keys));
    var remaining := cost - SumMeans(levels, ks);
    if remaining < 0.0 then Fill(Scaled(ks, seeded, cost / (cost - remaining)), 0.0)
    else Fill(seeded, remaining)
  }

  /** The amounts and the remainder `autoFill` ends with, for proposed
      amounts over the key set `keys` beforehand. */
  function Plan(levels: seq<FundingLevel>, maluses: map<string, LevelRecord>, cost: real, keys: set<string>): Fill
    requires cost > 0.0
  {
    var ks := WalkKeys(levels);
    Walk(levels, maluses, ks, Start(levels, ks, keys, cost))
  }

  /** The slider position derived from a final amount: `(amount / mean - 1) * 100`
      (0 for a mean of 0) clamped into [-15, cap]. */
  function SliderFor(levels: seq<FundingLevel>, maluses: map<string, LevelRecord>, k: string, proposed: map<string, real>): real {
    var mean := MeanOf(levels, k);
    var p := if mean > 0.0 then (Get(proposed, k) / mean - 1.0) * 100.0 else 0.0;
    Clamp(p, SliderMin as real, Cap(levels, maluses, k) as real)
  }

  function Sliders(levels: seq<FundingLevel>, maluses: map<string, LevelRecord>, ks: seq<string>,
                   proposed: map<string, real>, pct: map<string, real>): (r: map<string, real>)
    ensures r.Keys == pct.Keys + SetOf(ks)
  {
    map k | k in pct.Keys + SetOf(ks) :: if k in ks then SliderFor(levels, maluses, k, proposed) else pct[k]
  }

  lemma {:induction false} WalkIdle(levels: seq<FundingLevel>, maluses: map<string, LevelRecord>, ks: seq<string>, f: Fill)
    requires f.remaining <= 0.0
    ensures Walk(levels, maluses, ks, f) == f
    decreases |ks|
  {
    if ks != [] {
      WalkIdle(levels, maluses, ks[..|ks| - 1], f);
    }
  }

  /** Once the cost is covered the walk changes nothing more (the early `break`). */
  lemma {:induction false} WalkSettled(levels: seq<FundingLevel>, maluses: map<string, LevelRecord>, ks: seq<string>, f: Fill, i: nat)
    requires i <= |ks| && (i == |ks| || Walk(levels, maluses, ks[..i], f).remaining <= 0.0)
    ensures Walk(levels, maluses, ks, f) == Walk(levels, maluses, ks[..i], f)
    decreases |ks| - i
  {
    if i < |ks| {
      var next := ks[..i + 1];
      assert next[..i] == ks[..i];
      WalkSettled(levels, maluses, ks, f, i + 1);
    } else {
      assert ks[..i] == ks;
    }
  }

  /** One step moves exactly what it adds from `remaining` to the summed
      amounts, never takes `remaining` below zero, and keeps the key set when
      the stepped key is already present. */
  lemma StepConserves(levels: seq<FundingLevel>, maluses: map<string, LevelRecord>,
                      w: seq<string>, k: string, f: Fill)
    requires Distinct(w) && k in w
    ensures var g := WalkStep(levels, maluses, k, f);
            && SumAt(w, g.proposed) + g.remaining == SumAt(w, f.proposed) + f.remaining
            && (f.remaining >= 0.0 ==> g.remaining >= 0.0)
            && (k in f.proposed ==> g.proposed.Keys == f.proposed.Keys)
  {
    if f.remaining > 0.0 {
      var current := Get(f.proposed, k);
      var add := MinR(MaxAmount(levels, maluses, k) - current, f.remaining);
      SumAtUpdate(w, f.proposed, k, current + add);
    }
  }

  /** Over the whole walk, what the proposed amounts gain `remaining` loses,
      `remaining` stays non-negative, and no key is added. */
  lemma {:induction false} WalkConserves(levels: seq<FundingLevel>, maluses: map<string, LevelRecord>,
                                         w: seq<string>, ks: seq<string>, f: Fill)
    requires Distinct(w) && forall k :: k in ks ==> k in w
    ensures SumAt(w, Walk(levels, maluses, ks, f).proposed) + Walk(levels, maluses, ks, f).remaining
            == SumAt(w, f.proposed) + f.remaining
    ensures f.remaining >= 0.0 ==> Walk(levels, maluses, ks, f).remaining >= 0.0
    ensures (forall k :: k in ks ==> k in f.proposed) ==> Walk(levels, maluses, ks, f).proposed.Keys == f.proposed.Keys
    decreases |ks|
  {
    if ks != [] {
      var init := ks[..|ks| - 1];
      assert forall k :: k in init ==> k in ks;
      WalkConserves(levels, maluses, w, init, f);
      StepConserves(levels, maluses, w, ks[|ks| - 1], Walk(levels, maluses, init, f));
    }
  }

  /** The sum of a list of amounts, added from the last one back like `SumAt`. */
  function Total(vs: seq<real>): real
    decreases |vs|
  {
    if vs == [] then 0.0 else Total(vs[..|vs| - 1]) + vs[|vs| - 1]
  }

  /** The amounts of `m` at the keys `ks`, in order. */
  function ValuesAt(ks: seq<string>, m: map<string, real>): (vs: seq<real>)
    ensures |vs| == |ks|
    ensures forall i :: 0 <= i < |ks| ==> vs[i] == Get(m, ks[i])
  {
    seq(|ks|, i requires 0 <= i < |ks| => Get(m, ks[i]))
  }

  /** Every amount of `vs` times `f`. */
  function Times(vs: seq<real>, f: real): (ws: seq<real>)
    ensures |ws| == |vs|
    ensures forall i :: 0 <= i < |vs| ==> ws[i] == vs[i] * f
  {
    seq(|vs|, i requires 0 <= i < |vs| => vs[i] * f)
  }

  /** Summing along `ks` is summing the amounts found there. */
  lemma {:induction false} SumAtTotal(ks: seq<string>, m: map<string, real>)
    ensures SumAt(ks, m) == Total(ValuesAt(ks, m))
    decreases |ks|
  {
    if ks != [] {
      var init := ks[..|ks| - 1];
      SumAtTotal(init, m);
      assert ValuesAt(ks, m)[..|ks| - 1] == ValuesAt(init, m);
    }
  }

  /** `x + y` is `(a + b) * f` when `x` and `y` are `a * f` and `b * f`. */
  lemma AddScaled(a: real, b: real, x: real, y: real, f: real)
    requires x == a * f && y == b * f
    ensures x + y == (a + b) * f
  {
  }

  lemma TimesPrefix(vs: seq<real>, f: real, n: nat)
    requires n <= |vs|
    ensures Times(vs, f)[..n] == Times(vs[..n], f)
  {
    forall i | 0 <= i < n ensures Times(vs, f)[..n][i] == Times(vs[..n], f)[i] {
      assert vs[..n][i] == vs[i];
    }
  }

  /** Scaling every amount by `f` scales the total by `f`. */
  lemma {:induction false} TotalTimes(vs: seq<real>, f: real)
    ensures Total(Times(vs, f)) == Total(vs) * f
    decreases |vs|
  {
    if vs != [] {
      var n := |vs| - 1;
      TotalTimes(vs[..n], f);
      TimesPrefix(vs, f, n);
      AddScaled(Total(vs[..n]), vs[n], Total(Times(vs[..n], f)), Times(vs, f)[n], f);
    }
  }

  /** The amounts `Scaled` leaves at the keys `ks` are the old ones times `f`. */
  lemma ValuesScaled(ks: seq<string>, m: map<string, real>, f: real)
    ensures ValuesAt(ks, Scaled(ks, m, f)) == Times(ValuesAt(ks, m), f)
  {
    forall i | 0 <= i < |ks| ensures ValuesAt(ks, Scaled(ks, m, f))[i] == Times(ValuesAt(ks, m), f)[i] {
      ScaledGet(ks, m, f, i);
    }
  }

  /** Scaling the amounts at `ks` by `f` scales their sum by `f`. */
  lemma SumAtScaled(ks: seq<string>, m: map<string, real>, f: real)
    ensures SumAt(ks, Scaled(ks, m, f)) == SumAt(ks, m) * f
  {
    SumAtTotal(ks, Scaled(ks, m, f));
    SumAtTotal(ks, m);
    ValuesScaled(ks, m, f);
    TotalTimes(ValuesAt(ks, m), f);
  }

  /** Scaling by cost / total amounts that sum to total makes them sum to cost. */
  lemma ScaledSumIsCost(ks: seq<string>, m: map<string, real>, cost: real, total: real)
    requires 0.0 < cost < total && SumAt(ks, m) == total
    ensures SumAt(ks, Scaled(ks, m, cost / total)) == cost
  {
    var f := cost / total;
    SumAtScaled(ks, m, f);
    ScaleFactor(cost, total, SumAt(ks, m), f);
  }

  /** Amounts equal to the means sum to the sum of the means. */
  lemma {:induction false} SumAtMeans(levels: seq<FundingLevel>, ks: seq<string>, m: map<string, real>)
    requires forall i :: 0 <= i < |ks| ==> Get(m, ks[i]) == MeanOf(levels, ks[i])
    ensures SumAt(ks, m) == SumMeans(levels, ks)
    decreases |ks|
  {
    if ks != [] {
      var init := ks[..|ks| - 1];
      assert forall i :: 0 <= i < |init| ==> init[i] == ks[i];
      SumAtMeans(levels, init, m);
    }
  }

  /** The scale factor `totalNeeded / (totalNeeded - remaining)` is cost over
      the sum of the means, and scaling that sum by it gives the cost. */
  lemma ScaleFactor(cost: real, total: real, s: real, f: real)
    requires 0.0 < cost < total && s == total && f == cost / total
    ensures cost / (cost - (cost - total)) == f
    ensures s * f == cost
  {
  }

  lemma SeededGet(levels: seq<FundingLevel>, ks: seq<string>, m: map<string, real>, i: nat)
    requires i < |ks|
    ensures Get(Seeded(levels, ks, m), ks[i]) == MeanOf(levels, ks[i])
  {
    assert ks[i] in SetOf(ks);
  }

  lemma ScaledGet(ks: seq<string>, m: map<string, real>, f: real, i: nat)
    requires i < |ks|
    ensures Get(Scaled(ks, m, f), ks[i]) == Get(m, ks[i]) * f
  {
  }

  /** When the means exceed the cost, seeding ends with every walked level
      scaled by cost / (sum of the means) and nothing left to find. */
  lemma StartScaled(levels: seq<FundingLevel>, ks: seq<string>, keys: set<string>, cost: real)
    requires 0.0 < cost < SumMeans(levels, ks)
    ensures Start(levels, ks, keys, cost)
            == Fill(Scaled(ks, Seeded(levels, ks, ZeroOn(keys)), cost / SumMeans(levels, ks)), 0.0)
  {
    var total := SumMeans(levels, ks);
    ScaleFactor(cost, total, total, cost / total);
  }

  /** Seeding and scaling leave the cost split between the walked levels and
      `remaining`, with `remaining` non-negative and zero exactly when the
      means reach the cost. */
  lemma StartConserves(levels: seq<FundingLevel>, ks: seq<string>, keys: set<string>, cost: real)
    requires cost > 0.0
    ensures var st := Start(levels, ks, keys, cost);
            && SumAt(ks, st.proposed) + st.remaining == cost
            && st.remaining >= 0.0
            && st.proposed.Keys == keys + SetOf(ks)
            && (st.remaining == 0.0 <==> SumMeans(levels, ks) >= cost)
  {
    var seeded := Seeded(levels, ks, ZeroOn(keys));
    var total := SumMeans(levels, ks);
    forall i | 0 <= i < |ks| ensures Get(seeded, ks[i]) == MeanOf(levels, ks[i]) {
      SeededGet(levels, ks, ZeroOn(keys), i);
    }
    SumAtMeans(levels, ks, seeded);
    if total > cost {
      StartScaled(levels, ks, keys, cost);
      ScaledSumIsCost(ks, seeded, cost, total);
    }
  }

  /** When the means do not exceed the cost, each walked level starts at its mean. */
  lemma StartAtMean(levels: seq<FundingLevel>, ks: seq<string>, keys: set<string>, cost: real, i: nat)
    requires 0.0 < cost && i < |ks| && SumMeans(levels, ks) <= cost
    ensures Get(Start(levels, ks, keys, cost).proposed, ks[i]) == MeanOf(levels, ks[i])
  {
    SeededGet(levels, ks, ZeroOn(keys), i);
  }

  /** `autoFill` conserves the cost: the walked levels' amounts plus what is
      left to find always make the project cost, nothing is left negative,
      and the key set only gains the walked keys. */
  lemma PlanConserves(levels: seq<FundingLevel>, maluses: map<string, LevelRecord>, cost: real, keys: set<string>)
    requires cost > 0.0
    ensures var ks := WalkKeys(levels);
            var p := Plan(levels, maluses, cost, keys);
            && SumAt(ks, p.proposed) + p.remaining == cost
            && p.remaining >= 0.0
            && p.proposed.Keys == keys + SetOf(ks)
  {
    var ks := WalkKeys(levels);
    WalkKeysFacts(levels);
    StartConserves(levels, ks, keys, cost);
    WalkConserves(levels, maluses, ks, ks, Start(levels, ks, keys, cost));
  }

  /** A walk over duplicate-free keys that ends with something left to find
      ran every step with a positive remainder and left every key it walked
      at its cap amount. */
  lemma {:induction false} WalkExhausted(levels: seq<FundingLevel>, maluses: map<string, LevelRecord>,
                                         ks: seq<string>, f: Fill)
    requires Distinct(ks) && Walk(levels, maluses, ks, f).remaining > 0.0
    ensures f.remaining > 0.0
    ensures forall k :: k in ks ==> Get(Walk(levels, maluses, ks, f).proposed, k) == MaxAmount(levels, maluses, k)
    decreases |ks|
  {
    if ks != [] {
      var init, last := ks[..|ks| - 1], ks[|ks| - 1];
      var g := Walk(levels, maluses, init, f);
      var h := Walk(levels, maluses, ks, f);
      assert h == WalkStep(levels, maluses, last, g);
      assert g.remaining > 0.0;
      assert Distinct(init);
      WalkExhausted(levels, maluses, init, f);
      var add := MinR(MaxAmount(levels, maluses, last) - Get(g.proposed, last), g.remaining);
      assert add == MaxAmount(levels, maluses, last) - Get(g.proposed, last);
      forall k | k in ks ensures Get(h.proposed, k) == MaxAmount(levels, maluses, k) {
        if k != last {
          assert k in init;
        }
      }
    }
  }

  /** `autoFill` warns only when no other split was possible: if something
      is left to find, every walked level stands at its cap amount and those
      amounts add up to less than the project cost. */
  lemma PlanShortfallAtCaps(levels: seq<FundingLevel>, maluses: map<string, LevelRecord>, cost: real, keys: set<string>)
    requires cost > 0.0 && Plan(levels, maluses, cost, keys).remaining > 0.0
    ensures var p := Plan(levels, maluses, cost, keys);
            && (forall k :: k in WalkKeys(levels) ==> Get(p.proposed, k) == MaxAmount(levels, maluses, k))
            && SumAt(WalkKeys(levels), p.proposed) < cost
  {
    var ks := WalkKeys(levels);
    WalkKeysFacts(levels);
    PlanConserves(levels, maluses, cost, keys);
    WalkExhausted(levels, maluses, ks, Start(levels, ks, keys, cost));
  }

  /** When the means alone exceed the cost, `autoFill` scales every walked
      level down by the same factor so that they sum to the cost exactly,
      and the walk adds nothing. */
  lemma PlanScalesDown(levels: seq<FundingLevel>, maluses: map<string, LevelRecord>, cost: real, keys: set<string>)
    requires 0.0 < cost < SumMeans(levels, WalkKeys(levels))
    ensures var p := Plan(levels, maluses, cost, keys);
            var ks := WalkKeys(levels);
            && p.proposed == Scaled(ks, Seeded(levels, ks, ZeroOn(keys)), cost / SumMeans(levels, ks))
            && p.remaining == 0.0
            && SumAt(WalkKeys(levels), p.proposed) == cost
  {
    var ks := WalkKeys(levels);
    StartConserves(levels, ks, keys, cost);
    StartScaled(levels, ks, keys, cost);
    WalkIdle(levels, maluses, ks, Start(levels, ks, keys, cost));
  }

  /** The walked keys are the level keys, when every level key is one
      `autoFill` knows. */
  lemma WalkKeysAreLevelKeys(levels: seq<FundingLevel>)
    requires forall l :: l in levels ==> l.key in AutoFillOrder
    ensures SetOf(WalkKeys(levels)) == SetOf(KeySeq(levels)) == KeySet(levels)
  {
    WalkKeysFacts(levels);
    forall k ensures k in SetOf(KeySeq(levels)) <==> k in KeySet(levels) {
      if k in KeySet(levels) {
        var l :| l in levels && l.key == k;
        var i :| 0 <= i < |levels| && levels[i] == l;
        assert KeySeq(levels)[i] == k;
      }
    }
    forall k ensures k in SetOf(WalkKeys(levels)) <==> k in KeySet(levels) {
      if k in KeySet(levels) {
        var l :| l in levels && l.key == k;
        assert FindLevel(levels, k).Some?;
      }
    }
  }

  /** With no amount left to find, `autoFill` has proposed exactly the
      project cost over all levels; when something is left, the levels sum to
      less than the cost by exactly that much. */
  lemma PlanCoversCost(levels: seq<FundingLevel>, maluses: map<string, LevelRecord>, cost: real, keys: set<string>)
    requires cost > 0.0 && DistinctKeys(levels)
    requires forall l :: l in levels ==> l.key in AutoFillOrder
    ensures var p := Plan(levels, maluses, cost, keys);
            SumAt(KeySeq(levels), p.proposed) == cost - p.remaining
  {
    PlanConserves(levels, maluses, cost, keys);
    WalkKeysFacts(levels);
    WalkKeysAreLevelKeys(levels);
    SumAtPermutation(WalkKeys(levels), KeySeq(levels), Plan(levels, maluses, cost, keys).proposed);
  }

  /** For a whole-euro cost, an auto-fill that leaves nothing to find makes
      the project funded at 100%. */
  lemma PlanFundsProject(levels: seq<FundingLevel>, maluses: map<string, LevelRecord>, cost: nat, keys: set<string>)
    requires cost > 0 && DistinctKeys(levels)
    requires forall l :: l in levels ==> l.key in AutoFillOrder
    requires Plan(levels, maluses, cost as real, keys).remaining == 0.0
    ensures StatusFor(Round(SumAt(KeySeq(levels), Plan(levels, maluses, cost as real, keys).proposed)), cost as real) == Funded(100)
  {
    PlanCoversCost(levels, maluses, cost as real, keys);
    RoundOfInteger(cost);
    StatusAtCost(cost);
  }

  /** A rounded total equal to a whole-euro cost is funded at 100%. */
  lemma StatusAtCost(cost: nat)
    requires cost > 0
    ensures StatusFor(cost, cost as real) == Funded(100)
  {
    assert cost as real / cost as real == 1.0;
    RoundOfInteger(100);
  }

  /** `autoFill` is idempotent: running it again from its own result gives
      the same amounts, remainder and sliders. */
  lemma AutoFillIdempotent(levels: seq<FundingLevel>, maluses: map<string, LevelRecord>, cost: real,
                           keys: set<string>, pct: map<string, real>)
    requires cost > 0.0
    ensures var ks := WalkKeys(levels);
            var p := Plan(levels, maluses, cost, keys);
            var s := Sliders(levels, maluses, ks, p.proposed, pct);
            && Plan(levels, maluses, cost, p.proposed.Keys) == p
            && Sliders(levels, maluses, ks, p.proposed, s) == s
  {
    var ks := WalkKeys(levels);
    PlanConserves(levels, maluses, cost, keys);
    StartIgnoresAmounts(levels, ks, keys, cost);
    SlidersIdempotent(levels, maluses, ks, Plan(levels, maluses, cost, keys).proposed, pct);
  }

  /** Seeding starts from zero on every key, so adding the walked keys to
      the key set changes nothing. */
  lemma StartIgnoresAmounts(levels: seq<FundingLevel>, ks: seq<string>, keys: set<string>, cost: real)
    requires cost > 0.0
    ensures Start(levels, ks, keys + SetOf(ks), cost) == Start(levels, ks, keys, cost)
  {
    assert Seeded(levels, ks, ZeroOn(keys + SetOf(ks))) == Seeded(levels, ks, ZeroOn(keys));
  }

  /** Re-deriving the sliders from the same amounts gives the same sliders. */
  lemma SlidersIdempotent(levels: seq<FundingLevel>, maluses: map<string, LevelRecord>, ks: seq<string>,
                          proposed: map<string, real>, pct: map<string, real>)
    ensures var s := Sliders(levels, maluses, ks, proposed, pct);
            Sliders(levels, maluses, ks, proposed, s) == s
  {
  }

  /** Every slider `autoFill` sets lies in [-15, cap]; for a level with a
      positive mean it is the amount's deviation from the mean whenever that
      is within range; a level with mean 0 gets clamp(0, -15, cap), which is
      0 unless its cap has gone negative. */
  lemma SlidersInRange(levels: seq<FundingLevel>, maluses: map<string, LevelRecord>, ks: seq<string>,
                       proposed: map<string, real>, pct: map<string, real>, k: string)
    requires k in ks
    ensures var s := Sliders(levels, maluses, ks, proposed, pct)[k];
            var cap := Cap(levels, maluses, k) as real;
            var mean := MeanOf(levels, k);
            && -15.0 <= s <= cap
            && (mean > 0.0 && -15.0 <= (Get(proposed, k) / mean - 1.0) * 100.0 <= cap ==>
                  s == (Get(proposed, k) / mean - 1.0) * 100.0)
            && (mean <= 0.0 ==> s == if cap < 0.0 then cap else 0.0)
  {
  }

  /** The sliders keep every key they had and move only the walked ones. */
  lemma SlidersFrame(levels: seq<FundingLevel>, maluses: map<string, LevelRecord>, ks: seq<string>,
                     proposed: map<string, real>, pct: map<string, real>, k: string)
    requires k in pct && k !in ks
    ensures Sliders(levels, maluses, ks, proposed, pct)[k] == pct[k]
  {
  }

  // ---------- validation, step by step ----------

  lemma ValidatedAt(ls: seq<FundingLevel>, proposed: map<string, real>, maluses: map<string, LevelRecord>, year: int, k: string)
    requires k in maluses
    ensures Validated(ls, proposed, maluses, year)[k]
            == match FindLevel(ls, k) case None => maluses[k] case Some(l) => RecordFor(l, proposed, maluses[k], year)
  {
    match FindLevel(ls, k)
    case None =>
    case Some(l) => assert l.key == k;
  }

  lemma ValidatedSnocAt(ls: seq<FundingLevel>, x: FundingLevel, proposed: map<string, real>,
                        maluses: map<string, LevelRecord>, year: int, k: string)
    requires x.key !in KeySet(ls) && x.key in maluses && k in maluses
    ensures Validated(ls + [x], proposed, maluses, year)[k]
            == Validated(ls, proposed, maluses, year)[x.key := RecordFor(x, proposed, maluses[x.key], year)][k]
  {
    FindLevelAppend(ls, x, k);
    ValidatedAt(ls + [x], proposed, maluses, year, k);
    ValidatedAt(ls, proposed, maluses, year, k);
    if k == x.key {
      assert FindLevel(ls, k).None?;
    }
  }

  lemma ValidatedSnoc(ls: seq<FundingLevel>, x: FundingLevel, proposed: map<string, real>,
                      maluses: map<string, LevelRecord>, year: int)
    requires x.key !in KeySet(ls) && x.key in maluses
    ensures Validated(ls + [x], proposed, maluses, year)
            == Validated(ls, proposed, maluses, year)[x.key := RecordFor(x, proposed, maluses[x.key], year)]
  {
    forall k | k in maluses
      ensures Validated(ls + [x], proposed, maluses, year)[k]
              == Validated(ls, proposed, maluses, year)[x.key := RecordFor(x, proposed, maluses[x.key], year)][k]
    {
      ValidatedSnocAt(ls, x, proposed, maluses, year, k);
    }
  }

  // ---------- the auto-fill phases ----------

  /** `{ key: 0 }` over the current keys, then each walked level set to its
      mean while `remaining` drops by it. */
  method SeedMeans(levels: seq<FundingLevel>, ks: seq<string>, keys: set<string>, cost: real)
    returns (prop: map<string, real>, remaining: real)
    ensures prop == Seeded(levels, ks, ZeroOn(keys))
    ensures remaining == cost - SumMeans(levels, ks)
  {
    prop := ZeroOn(keys);
    remaining := cost;
    var i := 0;
    while i < |ks|
      invariant 0 <= i <= |ks|
      invariant prop == Seeded(levels, ks[..i], ZeroOn(keys))
      invariant remaining == cost - SumMeans(levels, ks[..i])
    {
      var mean := MeanOf(levels, ks[i]);
      assert ks[..i + 1] == ks[..i] + [ks[i]];
      assert ks[..i + 1][..i] == ks[..i];
      SeededSnoc(levels, ks[..i], ks[i], ZeroOn(keys));
      prop := prop[ks[i] := mean];
      remaining := remaining - mean;
      i := i + 1;
    }
    assert ks[..|ks|] == ks;
  }

  /** Seeding, then scaling every walked level down by `cost / totalNeeded`
      when the means alone exceed the cost. */
  method StartFill(levels: seq<FundingLevel>, ks: seq<string>, keys: set<string>, cost: real) returns (f: Fill)
    requires cost > 0.0 && Distinct(ks)
    ensures f == Start(levels, ks, keys, cost)
  {
    var prop, rem := SeedMeans(levels, ks, keys, cost);
    if rem < 0.0 {
      var scale := cost / (cost - rem);
      prop := ScaleDown(ks, prop, scale);
      rem := 0.0;
    }
    f := Fill(prop, rem);
  }

  lemma SeededSnoc(levels: seq<FundingLevel>, ks: seq<string>, k: string, m: map<string, real>)
    ensures Seeded(levels, ks + [k], m) == Seeded(levels, ks, m)[k := MeanOf(levels, k)]
  {
    assert SetOf(ks + [k]) == SetOf(ks) + {k};
  }

  lemma ScaledSnoc(ks: seq<string>, k: string, m: map<string, real>, f: real, v: real)
    requires k !in ks && k in m && v == Scaled(ks, m, f)[k] * f
    ensures Scaled(ks, m, f)[k] == m[k]
    ensures Scaled(ks + [k], m, f) == Scaled(ks, m, f)[k := v]
  {
    var a, b := Scaled(ks + [k], m, f), Scaled(ks, m, f)[k := v];
    forall x | x in m ensures a[x] == b[x] {
      assert x in ks + [k] <==> x in ks || x == k;
    }
  }

  /** Every walked level multiplied by `scale`. */
  method ScaleDown(ks: seq<string>, m: map<string, real>, scale: real) returns (r: map<string, real>)
    requires Distinct(ks) && SetOf(ks) <= m.Keys
    ensures r == Scaled(ks, m, scale)
  {
    r := m;
    var i := 0;
    while i < |ks|
      invariant 0 <= i <= |ks|
      invariant r == Scaled(ks[..i], m, scale)
    {
      assert ks[i] in SetOf(ks);
      assert ks[i] !in ks[..i];
      assert ks[..i + 1] == ks[..i] + [ks[i]];
      var scaled := r[ks[i]] * scale;
      ScaledSnoc(ks[..i], ks[i], m, scale, scaled);
      r := r[ks[i] := scaled];
      i := i + 1;
    }
    assert ks[..|ks|] == ks;
  }

  /** One more key of the walk, taken while something is left to find. */
  lemma WalkSnoc(levels: seq<FundingLevel>, maluses: map<string, LevelRecord>, ks: seq<string>, i: nat, start: Fill,
                 prop: map<string, real>, remaining: real, add: real)
    requires i < |ks| && Fill(prop, remaining) == Walk(levels, maluses, ks[..i], start) && remaining > 0.0
    requires add == MinR(MaxAmount(levels, maluses, ks[i]) - Get(prop, ks[i]), remaining)
    ensures Walk(levels, maluses, ks[..i + 1], start) == Fill(prop[ks[i] := Get(prop, ks[i]) + add], remaining - add)
  {
    assert ks[..i + 1][..i] == ks[..i];
  }

  /** The walk: levels in order, each raised toward its cap amount until
      nothing is left to find, then `break`. */
  method WalkUp(levels: seq<FundingLevel>, maluses: map<string, LevelRecord>, ks: seq<string>, start: Fill)
    returns (f: Fill)
    ensures f == Walk(levels, maluses, ks, start)
  {
    var prop, remaining := start.proposed, start.remaining;
    var i := 0;
    while i < |ks|
      invariant 0 <= i <= |ks|
      invariant Fill(prop, remaining) == Walk(levels, maluses, ks[..i], start)
    {
      if remaining <= 0.0 {
        break;
      }
      var key := ks[i];
      var maxAmt := MaxAmount(levels, maluses, key);
      var current := Get(prop, key);
      var extra := maxAmt - current;
      var add := MinR(extra, remaining);
      WalkSnoc(levels, maluses, ks, i, start, prop, remaining, add);
      prop := prop[key := current + add];
      remaining := remaining - add;
      i := i + 1;
    }
    WalkSettled(levels, maluses, ks, start, i);
    f := Fill(prop, remaining);
  }

  lemma SlidersSnoc(levels: seq<FundingLevel>, maluses: map<string, LevelRecord>, ks: seq<string>, k: string,
                    proposed: map<string, real>, pct: map<string, real>, v: real)
    requires v == SliderFor(levels, maluses, k, proposed)
    ensures Sliders(levels, maluses, ks + [k], proposed, pct) == Sliders(levels, maluses, ks, proposed, pct)[k := v]
  {
    var a, b := Sliders(levels, maluses, ks + [k], proposed, pct), Sliders(levels, maluses, ks, proposed, pct)[k := v];
    assert SetOf(ks + [k]) == SetOf(ks) + {k};
    forall x | x in a ensures a[x] == b[x] {
      SlidersSnocAt(levels, maluses, ks, k, proposed, pct, v, x);
    }
  }

  lemma SlidersSnocAt(levels: seq<FundingLevel>, maluses: map<string, LevelRecord>, ks: seq<string>, k: string,
                      proposed: map<string, real>, pct: map<string, real>, v: real, x: string)
    requires v == SliderFor(levels, maluses, k, proposed)
    requires x in pct || x in ks + [k]
    ensures x in Sliders(levels, maluses, ks + [k], proposed, pct)
    ensures Sliders(levels, maluses, ks + [k], proposed, pct)[x] == Sliders(levels, maluses, ks, proposed, pct)[k := v][x]
  {
    assert x in ks + [k] <==> x in ks || x == k;
    assert x in ks + [k] ==> x in SetOf(ks + [k]);
    assert x in ks ==> x in SetOf(ks);
  }

  /** The slider of every walked level recomputed from its final amount. */
  method DeriveSliders(levels: seq<FundingLevel>, maluses: map<string, LevelRecord>, ks: seq<string>,
                       proposed: map<string, real>, pct: map<string, real>) returns (r: map<string, real>)
    ensures r == Sliders(levels, maluses, ks, proposed, pct)
  {
    r := pct;
    var i := 0;
    while i < |ks|
      invariant 0 <= i <= |ks|
      invariant r == Sliders(levels, maluses, ks[..i], proposed, pct)
    {
      var key := ks[i];
      var v := SliderFor(levels, maluses, key, proposed);
      assert ks[..i + 1] == ks[..i] + [key];
      SlidersSnoc(levels, maluses, ks[..i], key, proposed, pct, v);
      r := r[key := v];
      i := i + 1;
    }
    assert ks[..|ks|] == ks;
  }

  /** `Math.round(mean)` per level key: the amounts proposed with every slider at 0. */
  function MeanAmounts(levels: seq<FundingLevel>): (r: map<string, real>)
    ensures r.Keys == KeySet(levels)
  {
    map k | k in KeySet(levels) :: SliderAmount(MeanOf(levels, k), 0) as real
  }

  lemma MeanAmountsAt(ls: seq<FundingLevel>, x: FundingLevel, k: string, v: real)
    requires x.key !in KeySet(ls) && k in KeySet(ls + [x]) && v == SliderAmount(Mean(x), 0) as real
    ensures MeanAmounts(ls + [x])[k] == MeanAmounts(ls)[x.key := v][k]
  {
    FindLevelAppend(ls, x, k);
    if k != x.key {
      assert k in KeySet(ls) by {
        var l :| l in ls + [x] && l.key == k;
        assert l in ls;
      }
    } else {
      assert forall l :: l in ls ==> l.key != k;
    }
  }

  lemma MeanAmountsSnoc(ls: seq<FundingLevel>, x: FundingLevel, v: real)
    requires x.key !in KeySet(ls) && v == SliderAmount(Mean(x), 0) as real
    ensures MeanAmounts(ls + [x]) == MeanAmounts(ls)[x.key := v]
  {
    KeySetSnoc(ls, x);
    forall k | k in KeySet(ls + [x])
      ensures MeanAmounts(ls + [x])[k] == MeanAmounts(ls)[x.key := v][k]
    {
      MeanAmountsAt(ls, x, k, v);
    }
  }

  lemma KeySetSnoc(ls: seq<FundingLevel>, x: FundingLevel)
    ensures KeySet(ls + [x]) == KeySet(ls) + {x.key}
  {
  }

  lemma ZeroOnSnoc(ls: seq<FundingLevel>, x: FundingLevel)
    ensures ZeroOn(KeySet(ls + [x])) == ZeroOn(KeySet(ls))[x.key := 0.0]
  {
    KeySetSnoc(ls, x);
  }

  lemma KeySetPrefix(levels: seq<FundingLevel>, i: nat)
    requires DistinctKeys(levels) && i < |levels|
    ensures levels[i].key !in KeySet(levels[..i])
    ensures levels[..i + 1] == levels[..i] + [levels[i]]
  {
    assert levels[..i + 1] == levels[..i] + [levels[i]];
  }

  lemma WalkKeysInLevels(levels: seq<FundingLevel>)
    ensures SetOf(WalkKeys(levels)) <= KeySet(levels)
  {
    WalkKeysFacts(levels);
    forall k | k in SetOf(WalkKeys(levels)) ensures k in KeySet(levels) {
      assert FindLevel(levels, k).Some?;
    }
  }

  /** The phases of `autoFill` put together give `Plan`, over the level keys. */
  lemma AutoFillResult(levels: seq<FundingLevel>, maluses: map<string, LevelRecord>, cost: real, keys: set<string>,
                       pct: map<string, real>, start: Fill, f: Fill, s: map<string, real>)
    requires cost > 0.0 && keys == KeySet(levels) && pct.Keys == KeySet(levels)
    requires start == Start(levels, WalkKeys(levels), keys, cost)
    requires f == Walk(levels, maluses, WalkKeys(levels), start)
    requires s == Sliders(levels, maluses, WalkKeys(levels), f.proposed, pct)
    ensures f == Plan(levels, maluses, cost, keys)
    ensures f.proposed.Keys == KeySet(levels) && s.Keys == KeySet(levels)
    ensures SumAt(WalkKeys(levels), f.proposed) + f.remaining == cost && f.remaining >= 0.0
  {
    PlanConserves(levels, maluses, cost, keys);
    WalkKeysInLevels(levels);
  }

  /** The three phases of `autoFill` in turn: seeding and scaling, the walk,
      and re-deriving the walked sliders. */
  method AutoFillPhases(levels: seq<FundingLevel>, maluses: map<string, LevelRecord>, cost: real,
                        keys: set<string>, pct: map<string, real>)
    returns (proposed: map<string, real>, sliders: map<string, real>, remaining: real)
    requires cost > 0.0 && keys == KeySet(levels) && pct.Keys == KeySet(levels)
    ensures Fill(proposed, remaining) == Plan(levels, maluses, cost, keys)
    ensures sliders == Sliders(levels, maluses, WalkKeys(levels), proposed, pct)
    ensures proposed.Keys == KeySet(levels) && sliders.Keys == KeySet(levels)
    ensures SumAt(WalkKeys(levels), proposed) + remaining == cost && remaining >= 0.0
  {
    var ks := WalkKeys(levels);
    WalkKeysFacts(levels);
    var start := StartFill(levels, ks, keys, cost);
    var f := WalkUp(levels, maluses, ks, start);
    sliders := DeriveSliders(levels, maluses, ks, f.proposed, pct);
    AutoFillResult(levels, maluses, cost, keys, pct, start, f, sliders);
    proposed, remaining := f.proposed, f.remaining;
  }

  /** One level of the validation loop: giving level `i` its `RecordFor`
      extends the validation from the first `i` levels to the first `i + 1`. */
  lemma ValidateStep(levels: seq<FundingLevel>, i: nat, proposed: map<string, real>,
                     maluses: map<string, LevelRecord>, year: int, before: map<string, LevelRecord>)
    requires DistinctKeys(levels) && i < |levels| && maluses.Keys == KeySet(levels)
    requires before == Validated(levels[..i], proposed, maluses, year)
    ensures levels[i].key in before
    ensures before[levels[i].key := RecordFor(levels[i], proposed, before[levels[i].key], year)]
            == Validated(levels[..i + 1], proposed, maluses, year)
  {
    var l := levels[i];
    KeySetPrefix(levels, i);
    ValidatedAt(levels[..i], proposed, maluses, year, l.key);
    ValidatedSnoc(levels[..i], l, proposed, maluses, year);
  }

  /** Validating over no levels changes no record. */
  lemma ValidatedNothing(proposed: map<string, real>, maluses: map<string, LevelRecord>, year: int)
    ensures Validated([], proposed, maluses, year) == maluses
  {
  }

  /** The loop of `validateAllocation` over the levels, on the records. */
  method ValidateRecords(levels: seq<FundingLevel>, proposed: map<string, real>,
                         maluses: map<string, LevelRecord>, year: int) returns (m: map<string, LevelRecord>)
    requires DistinctKeys(levels) && maluses.Keys == KeySet(levels) && Consistent(maluses)
    ensures m == Validated(levels, proposed, maluses, year)
    ensures m.Keys == maluses.Keys && Consistent(m)
  {
    ValidatedConsistent(levels, proposed, maluses, year);
    m := maluses;
    ValidatedNothing(proposed, maluses, year);
    assert levels[..0] == [];
    var i := 0;
    while i < |levels|
      invariant 0 <= i <= |levels|
      invariant m == Validated(levels[..i], proposed, maluses, year)
    {
      var l := levels[i];
      ValidateStep(levels, i, proposed, maluses, year, m);
      var rec := m[l.key];
      if l.key != ProjectLevelKey {
        var mean := Mean(l);
        var req := Get(proposed, l.key);
        if mean > 0.0 {
          var delta := ValidationDelta(mean, req);
          rec := Recorded(rec, HistoryEntry(year, delta));
        }
      }
      m := m[l.key := rec];
      i := i + 1;
    }
    assert levels[..|levels|] == levels;
  }

  /** The computation of `updateTotalsOverview`: the proposed amounts summed
      over the levels in order, rounded, and the funding status against the cost. */
  method TotalsOf(levels: seq<FundingLevel>, proposed: map<string, real>, cost: real)
    returns (totalAllocated: int, status: FundingStatus)
    requires cost > 0.0
    ensures totalAllocated == Round(SumAt(KeySeq(levels), proposed))
    ensures status == StatusFor(totalAllocated, cost)
  {
    var keys := KeySeq(levels);
    var sumProposed := 0.0;
    var i := 0;
    while i < |levels|
      invariant 0 <= i <= |levels|
      invariant sumProposed == SumAt(keys[..i], proposed)
    {
      assert keys[..i + 1][..i] == keys[..i];
      sumProposed := sumProposed + Get(proposed, levels[i].key);
      i := i + 1;
    }
    assert keys[..|levels|] == keys;
    totalAllocated := Round(sumProposed);
    var percent := Round(totalAllocated as real / cost * 100.0);
    if totalAllocated as real >= cost {
      status := Funded(percent);
    } else {
      status := Shortfall(cost - totalAllocated as real, percent);
    }
  }

  /** The owner dashboard's state: the levels and the project cost, the
      bonus/malus record per level, the slider position and the proposed
      amount per level key. */
  class Allocator {
    const levels: seq<FundingLevel>
    const projectCost: real
    var maluses: map<string, LevelRecord>
    var sliders: map<string, real>
    var proposed: map<string, real>

    ghost predicate Valid()
      reads this
    {
      && DistinctKeys(levels) && projectCost > 0.0
      && maluses.Keys == KeySet(levels) && Consistent(maluses)
      && sliders.Keys == KeySet(levels) && proposed.Keys == KeySet(levels)
    }

    /** The initial state: one record per level from the base bonus/malus
        figures, every slider at 0 and every level proposing its rounded mean. */
    constructor (levels: seq<FundingLevel>, projectCost: real, base: map<string, int>, year: int)
      requires DistinctKeys(levels) && projectCost > 0.0
      ensures Valid()
      ensures this.levels == levels && this.projectCost == projectCost
      ensures maluses == InitialRecords(levels, base, year)
      ensures sliders == ZeroOn(KeySet(levels))
      ensures proposed == MeanAmounts(levels)
    {
      this.levels := levels;
      this.projectCost := projectCost;
      maluses := InitialRecords(levels, base, year);
      var s: map<string, real> := map[];
      var p: map<string, real> := map[];
      var i := 0;
      while i < |levels|
        invariant 0 <= i <= |levels|
        invariant s == ZeroOn(KeySet(levels[..i]))
        invariant p == MeanAmounts(levels[..i])
      {
        KeySetPrefix(levels, i);
        var v := SliderAmount(Mean(levels[i]), 0) as real;
        MeanAmountsSnoc(levels[..i], levels[i], v);
        ZeroOnSnoc(levels[..i], levels[i]);
        s := s[levels[i].key := 0.0];
        p := p[levels[i].key := v];
        i := i + 1;
      }
      assert levels[..|levels|] == levels;
      sliders := s;
      proposed := p;
    }

    /** Moving level `i`'s slider to `pct` (an integer in [-15, cap]) records
        the position and proposes `Math.round(mean * (1 + pct / 100))`. */
    method SetSliderPercent(i: nat, pct: int)
      requires Valid() && i < |levels|
      requires SliderMin <= pct <= Cap(levels, maluses, levels[i].key)
      modifies this`sliders, this`proposed
      ensures Valid()
      ensures sliders == old(sliders)[levels[i].key := pct as real]
      ensures proposed == old(proposed)[levels[i].key := SliderAmount(Mean(levels[i]), pct) as real]
    {
      var key := levels[i].key;
      sliders := sliders[key := pct as real];
      var amount := SliderAmount(Mean(levels[i]), pct);
      proposed := proposed[key := amount as real];
    }

    /** `updateTotalsOverview`: the rounded sum of the proposed amounts over
        the levels and the funding message; validating is enabled exactly
        when the project is funded. */
    method TotalsOverview() returns (totalAllocated: int, status: FundingStatus)
      requires Valid()
      ensures totalAllocated == Round(SumAt(KeySeq(levels), proposed))
      ensures status == StatusFor(totalAllocated, projectCost)
      ensures status.Funded? <==> totalAllocated as real >= projectCost
    {
      totalAllocated, status := TotalsOf(levels, proposed, projectCost);
    }

    /** `autoFill`: the amounts and remainder are those of `Plan`, the walked
        sliders are re-derived from the amounts, the records are untouched,
        and a warning is raised exactly when something is left to find. */
    method AutoFill() returns (remaining: real, warn: bool)
      requires Valid()
      modifies this`proposed, this`sliders
      ensures Valid()
      ensures Fill(proposed, remaining) == Plan(levels, maluses, projectCost, old(proposed).Keys)
      ensures sliders == Sliders(levels, maluses, WalkKeys(levels), proposed, old(sliders))
      ensures warn <==> remaining > 0.0
      ensures warn ==> forall k :: k in WalkKeys(levels) ==> Get(proposed, k) == MaxAmount(levels, maluses, k)
      ensures SumAt(WalkKeys(levels), proposed) + remaining == projectCost && remaining >= 0.0
    {
      var p, s;
      p, s, remaining := AutoFillPhases(levels, maluses, projectCost, proposed.Keys, sliders);
      if remaining > 0.0 {
        PlanShortfallAtCaps(levels, maluses, projectCost, proposed.Keys);
      }
      proposed, sliders := p, s;
      warn := remaining > 0.0;
    }

    /** `validateAllocation`: each level other than the project with a
        positive mean gets this year's delta prepended to its history and its
        cumulated total recomputed; the sliders and amounts are untouched. */
    method ValidateAllocation(year: int)
      requires Valid()
      modifies this`maluses
      ensures Valid()
      ensures maluses == Validated(levels, proposed, old(maluses), year)
    {
      maluses := ValidateRecords(levels, proposed, maluses, year);
    }
  }
}
