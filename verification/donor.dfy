/** The donor dashboard (donateurs/script.js): a donation amount split in whole
    percents across the territorial levels and the projects the donor picked,
    the check that gates submission, the equal-share auto-fill, the history
    of submitted donations, the project search and the receipt lines. */
module Donor {
  import opened Basics
  import opened Text

  /** A territorial level: its key, label, the number of projects it counts
      (shown only), and the slider's minimum, maximum and default percent. */
  datatype Level = Level(key: string, name: string, projects: nat, min: int, max: int, default: int)

  /** A project of the searchable catalogue. */
  datatype CatalogueProject = CatalogueProject(id: nat, title: string, location: string, kind: string, budget: real, raised: real)

  /** A project the donor targets, with its percent and its euro amount. */
  datatype SelectedProject = SelectedProject(id: nat, title: string, pct: int, amount: int)

  /** One key of a record's breakdown (a level key or `proj_<id>`) and its percent. */
  datatype Share = Share(key: string, pct: int)

  datatype Target = Target(id: nat, pct: int, amount: int)

  /** A submitted donation, kept most recent first in the history. */
  datatype DonationRecord = DonationRecord(id: string, date: string, amount: real, breakdown: seq<Share>, targets: seq<Target>)

  /** The status line under the total: complete, so many percent missing, or so
      many percent too many; the euro figure is that percent of the amount. */
  datatype PercentMessage = Complete | Missing(pct: int, euros: int) | Overload(pct: int, euros: int)

  const TerritorialLevels: seq<Level> := [
    Level("commune", "Ma commune", 4, 5, 75, 20),
    Level("commu", "Ma communauté de communes", 23, 5, 75, 20),
    Level("dept", "Mon département", 188, 5, 75, 20),
    Level("region", "Ma région", 478, 5, 75, 20),
    Level("country", "Mon pays", 5786, 5, 75, 20)
  ]

  const SampleProjects: seq<CatalogueProject> := [
    CatalogueProject(1, "MJC - Atelier théâtre", "Grenoble", "mjc", 3800.0, 3200.0),
    CatalogueProject(2, "Théâtre municipal - Création", "Nantes", "theatre", 6500.0, 4200.0),
    CatalogueProject(3, "École de musique - Matériel", "Lyon", "musique", 3800.0, 3200.0),
    CatalogueProject(4, "Renovation patrimoine - Chapelle", "Bordeaux", "patrimoine", 12000.0, 7500.0),
    CatalogueProject(5, "Festival local - scène", "Le Mans", "musique", 9000.0, 6300.0)
  ]

  const NewProjectPct: int := 5
  const ProjectKeyPrefix: string := "proj_"

  // ---------- levels ----------

  function LevelKeys(levels: seq<Level>): set<string> {
    set l | l in levels :: l.key
  }

  predicate DistinctLevelKeys(levels: seq<Level>) {
    forall i, j :: 0 <= i < j < |levels| ==> levels[i].key != levels[j].key
  }

  predicate IsProjectKey(k: string) {
    |ProjectKeyPrefix| <= |k| && k[..|ProjectKeyPrefix|] == ProjectKeyPrefix
  }

  /** Level keys are distinct, none looks like a project key, and every
      default lies within its slider's range. */
  predicate WellFormedLevels(levels: seq<Level>) {
    && DistinctLevelKeys(levels)
    && (forall i :: 0 <= i < |levels| ==> !IsProjectKey(levels[i].key))
    && (forall i :: 0 <= i < |levels| ==> levels[i].min <= levels[i].default <= levels[i].max)
  }

  lemma TerritorialLevelsWellFormed()
    ensures WellFormedLevels(TerritorialLevels)
  {
    forall i | 0 <= i < |TerritorialLevels| ensures !IsProjectKey(TerritorialLevels[i].key) {
      var k := TerritorialLevels[i].key;
      assert k[0] != 'p';
      if |ProjectKeyPrefix| <= |k| {
        assert k[..|ProjectKeyPrefix|][0] == k[0];
      }
    }
    forall i, j | 0 <= i < j < |TerritorialLevels| ensures TerritorialLevels[i].key != TerritorialLevels[j].key {
      var a, b := TerritorialLevels[i].key, TerritorialLevels[j].key;
      assert |a| != |b| || a[0] != b[0] || a[2] != b[2];
    }
  }

  /** The default percent of the first level with key `k`. */
  function DefaultOf(levels: seq<Level>, k: string): int {
    if levels == [] then 0
    else if levels[0].key == k then levels[0].default
    else DefaultOf(levels[1..], k)
  }

  /** The sliders as they are before any move and after a submission: every
      level at its default. */
  function Defaults(levels: seq<Level>): (m: map<string, int>)
    ensures m.Keys == LevelKeys(levels)
  {
    map k | k in LevelKeys(levels) :: DefaultOf(levels, k)
  }

  lemma DefaultOfLevel(levels: seq<Level>, i: nat)
    requires DistinctLevelKeys(levels) && i < |levels|
    ensures DefaultOf(levels, levels[i].key) == levels[i].default
  {
    if i > 0 {
      DefaultOfLevel(levels[1..], i - 1);
    }
  }

  /** `slidersState[key] || 0`. */
  function Pct(sliders: map<string, int>, k: string): int {
    if k in sliders then sliders[k] else 0
  }

  /** `Math.round(pct / 100 * amount)`, the euro amount of a percent. */
  function AmountFor(pct: int, amount: real): (r: int)
    ensures pct == 0 ==> r == 0
    ensures pct == 100 ==> r == Round(amount)
    ensures 0 <= pct && 0.0 <= amount ==> 0 <= r
  {
    Round(pct as real / 100.0 * amount)
  }

  // ---------- summary ----------

  function LevelPctSum(levels: seq<Level>, sliders: map<string, int>): int
    decreases |levels|
  {
    if levels == [] then 0
    else LevelPctSum(levels[..|levels| - 1], sliders) + Pct(sliders, levels[|levels| - 1].key)
  }

  function ProjectPctSum(selected: seq<SelectedProject>): int
    decreases |selected|
  {
    if selected == [] then 0
    else ProjectPctSum(selected[..|selected| - 1]) + selected[|selected| - 1].pct
  }

  /** The total percent shown in the summary: every level plus every project. */
  function TotalPct(levels: seq<Level>, sliders: map<string, int>, selected: seq<SelectedProject>): int {
    LevelPctSum(levels, sliders) + ProjectPctSum(selected)
  }

  /** Every territorial level is at or above its minimum. */
  predicate MinimaMet(levels: seq<Level>, sliders: map<string, int>) {
    forall i :: 0 <= i < |levels| ==> Pct(sliders, levels[i].key) >= levels[i].min
  }

  function MessageFor(totalPct: int, amount: real): (m: PercentMessage)
    ensures m.Complete? <==> totalPct == 100
    ensures m.Missing? <==> totalPct < 100
    ensures m.Missing? ==> m.pct > 0 && m.pct + totalPct == 100 && m.euros == AmountFor(m.pct, amount)
    ensures m.Overload? ==> m.pct > 0 && totalPct - m.pct == 100 && m.euros == AmountFor(m.pct, amount)
  {
    if totalPct == 100 then Complete
    else if totalPct < 100 then Missing(100 - totalPct, AmountFor(100 - totalPct, amount))
    else Overload(totalPct - 100, AmountFor(totalPct - 100, amount))
  }

  // ---------- auto-fill ----------

  /** `Math.floor(100 / n)`: the largest whole percent that n items can all get. */
  function EqualShare(n: nat): (share: int)
    requires n > 0
    ensures 0 <= share && share * n <= 100 < (share + 1) * n
  {
    100 / n
  }

  /** With the five territorial levels and nothing else selected, auto-fill
      gives every level 20%. */
  lemma FiveLevelsGetTwenty()
    ensures EqualShare(|TerritorialLevels| + 0) == 20
  {
  }

  lemma {:induction false} LevelPctSumUniform(levels: seq<Level>, sliders: map<string, int>, share: int)
    requires forall k :: k in LevelKeys(levels) ==> k in sliders && sliders[k] == share
    ensures LevelPctSum(levels, sliders) == |levels| * share
    decreases |levels|
  {
    if levels != [] {
      var init, last := levels[..|levels| - 1], levels[|levels| - 1];
      assert forall k :: k in LevelKeys(init) ==> k in LevelKeys(levels) by {
        forall k | k in LevelKeys(init) ensures k in LevelKeys(levels) {
          var l :| l in init && l.key == k;
          assert l in levels;
        }
      }
      assert Pct(sliders, last.key) == share by {
        assert last in levels;
      }
      LevelPctSumUniform(init, sliders, share);
      MulSucc(|init|, share);
    }
  }

  lemma MulSucc(n: int, s: int)
    ensures (n + 1) * s == n * s + s
  {
  }

  lemma {:induction false} ProjectPctSumUniform(selected: seq<SelectedProject>, share: int)
    requires forall j :: 0 <= j < |selected| ==> selected[j].pct == share
    ensures ProjectPctSum(selected) == |selected| * share
    decreases |selected|
  {
    if selected != [] {
      ProjectPctSumUniform(selected[..|selected| - 1], share);
      MulSucc(|selected| - 1, share);
    }
  }

  /** After an auto-fill every item holds the equal share, so the total is
      N times it: at most 100, and short of 100 by less than N (the remainder
      of the division is not handed out). */
  lemma AutoFilledTotal(levels: seq<Level>, sliders: map<string, int>, selected: seq<SelectedProject>)
    requires |levels| + |selected| > 0
    requires forall k :: k in LevelKeys(levels) ==> k in sliders && sliders[k] == EqualShare(|levels| + |selected|)
    requires forall j :: 0 <= j < |selected| ==> selected[j].pct == EqualShare(|levels| + |selected|)
    ensures TotalPct(levels, sliders, selected) == (|levels| + |selected|) * EqualShare(|levels| + |selected|)
    ensures 100 - (|levels| + |selected|) < TotalPct(levels, sliders, selected) <= 100
  {
    var n := |levels| + |selected|;
    var share := EqualShare(n);
    LevelPctSumUniform(levels, sliders, share);
    ProjectPctSumUniform(selected, share);
    assert |levels| * share + |selected| * share == n * share;
  }

  // ---------- selection ----------

  predicate IsSelected(selected: seq<SelectedProject>, id: nat) {
    exists j :: 0 <= j < |selected| && selected[j].id == id
  }

  predicate UniqueIds(selected: seq<SelectedProject>) {
    forall i, j :: 0 <= i < j < |selected| ==> selected[i].id != selected[j].id
  }

  /** `sampleProjects.find(x => x.id === id)`: the first catalogue entry with that id. */
  function FindProject(catalogue: seq<CatalogueProject>, id: nat): (r: Option<CatalogueProject>)
    ensures r.Some? ==> r.value in catalogue && r.value.id == id
    ensures r.Some? ==> exists i :: 0 <= i < |catalogue| && catalogue[i] == r.value
                                    && forall j :: 0 <= j < i ==> catalogue[j].id != id
    ensures r.None? ==> forall p :: p in catalogue ==> p.id != id
  {
    if catalogue == [] then None
    else if catalogue[0].id == id then Some(catalogue[0])
    else
      var r := FindProject(catalogue[1..], id);
      if r.Some? then
        var i :| 0 <= i < |catalogue| - 1 && catalogue[1..][i] == r.value
                 && forall j :: 0 <= j < i ==> catalogue[1..][j].id != id;
        assert forall j :: 0 <= j < i + 1 ==> catalogue[j].id != id by {
          forall j | 0 <= j < i + 1 ensures catalogue[j].id != id {
            if j > 0 { assert catalogue[j] == catalogue[1..][j - 1]; }
          }
        }
        r
      else r
  }

  /** `selectedProjects.filter(s => s.id !== id)`. */
  function WithoutProject(selected: seq<SelectedProject>, id: nat): (r: seq<SelectedProject>)
    ensures |r| <= |selected|
  {
    if selected == [] then []
    else (if selected[0].id == id then [] else [selected[0]]) + WithoutProject(selected[1..], id)
  }

  /** The filter keeps exactly the entries with another id. */
  lemma {:induction false} WithoutProjectMembers(selected: seq<SelectedProject>, id: nat)
    ensures forall s :: s in WithoutProject(selected, id) <==> s in selected && s.id != id
  {
    if selected != [] {
      WithoutProjectMembers(selected[1..], id);
      assert forall s :: s in selected <==> s == selected[0] || s in selected[1..] by {
        assert selected == [selected[0]] + selected[1..];
      }
    }
  }

  /** Removing an id that is not selected changes nothing. */
  lemma {:induction false} RemoveAbsent(selected: seq<SelectedProject>, id: nat)
    requires !IsSelected(selected, id)
    ensures WithoutProject(selected, id) == selected
  {
    if selected != [] {
      forall j | 0 <= j < |selected[1..]| ensures selected[1..][j].id != id {
        assert selected[1..][j] == selected[j + 1];
      }
      RemoveAbsent(selected[1..], id);
    }
  }

  lemma UniqueIdsTail(selected: seq<SelectedProject>)
    requires UniqueIds(selected) && selected != []
    ensures UniqueIds(selected[1..])
    ensures forall i :: 0 <= i < |selected[1..]| ==> selected[1..][i].id != selected[0].id
  {
    var tail := selected[1..];
    forall a, b | 0 <= a < b < |tail| ensures tail[a].id != tail[b].id {
      assert tail[a] == selected[a + 1] && tail[b] == selected[b + 1];
    }
    forall i | 0 <= i < |tail| ensures tail[i].id != selected[0].id {
      assert tail[i] == selected[i + 1];
    }
  }

  /** With unique ids, removing the id held at position `j` drops exactly that
      entry and keeps the others in their order. */
  lemma {:induction false} RemoveDropsOne(selected: seq<SelectedProject>, id: nat, j: nat)
    requires UniqueIds(selected) && j < |selected| && selected[j].id == id
    ensures WithoutProject(selected, id) == selected[..j] + selected[j + 1..]
  {
    var tail := selected[1..];
    if j == 0 {
      assert !IsSelected(tail, id) by {
        UniqueIdsTail(selected);
      }
      RemoveAbsent(tail, id);
      assert selected[..0] + selected[1..] == tail;
    } else {
      assert UniqueIds(tail) && tail[j - 1].id == id && selected[0].id != id by {
        UniqueIdsTail(selected);
      }
      RemoveDropsOne(tail, id, j - 1);
      KeepHead(selected, id);
      SpliceTail(selected, j);
    }
  }

  lemma KeepHead(selected: seq<SelectedProject>, id: nat)
    requires selected != [] && selected[0].id != id
    ensures WithoutProject(selected, id) == [selected[0]] + WithoutProject(selected[1..], id)
  {
  }

  lemma SpliceTail<T>(s: seq<T>, j: nat)
    requires 0 < j < |s|
    ensures s[..j] + s[j + 1..] == [s[0]] + (s[1..][..j - 1] + s[1..][j..])
  {
    assert s[..j] == [s[0]] + s[1..][..j - 1];
    assert s[j + 1..] == s[1..][j..];
  }

  /** Removing keeps the selected ids unique. */
  lemma {:induction false} RemoveKeepsUnique(selected: seq<SelectedProject>, id: nat)
    requires UniqueIds(selected)
    ensures UniqueIds(WithoutProject(selected, id))
  {
    if selected != [] {
      var tail := selected[1..];
      UniqueIdsTail(selected);
      RemoveKeepsUnique(tail, id);
      WithoutProjectMembers(tail, id);
      var rest := WithoutProject(tail, id);
      if selected[0].id != id {
        var r := [selected[0]] + rest;
        forall a, b | 0 <= a < b < |r| ensures r[a].id != r[b].id {
          if a == 0 {
            assert r[b] == rest[b - 1] && rest[b - 1] in tail;
            var i :| 0 <= i < |tail| && tail[i] == rest[b - 1];
          } else {
            assert r[a] == rest[a - 1] && r[b] == rest[b - 1];
          }
        }
      }
    }
  }

  // ---------- submission ----------

  function LevelShares(levels: seq<Level>, sliders: map<string, int>): (r: seq<Share>)
    ensures |r| == |levels|
    decreases |levels|
  {
    if levels == [] then []
    else LevelShares(levels[..|levels| - 1], sliders) + [Share(levels[|levels| - 1].key, Pct(sliders, levels[|levels| - 1].key))]
  }

  function ProjectKey(id: nat): string {
    ProjectKeyPrefix + NatToString(id)
  }

  function ProjectShares(selected: seq<SelectedProject>): (r: seq<Share>)
    ensures |r| == |selected|
    decreases |selected|
  {
    if selected == [] then []
    else ProjectShares(selected[..|selected| - 1]) + [Share(ProjectKey(selected[|selected| - 1].id), selected[|selected| - 1].pct)]
  }

  /** Entry `i` of the level part is level `i`'s key and percent. */
  lemma {:induction false} LevelSharesAt(levels: seq<Level>, sliders: map<string, int>)
    ensures forall i :: 0 <= i < |levels| ==> LevelShares(levels, sliders)[i] == Share(levels[i].key, Pct(sliders, levels[i].key))
    decreases |levels|
  {
    if levels != [] {
      var init := levels[..|levels| - 1];
      LevelSharesAt(init, sliders);
      assert forall i :: 0 <= i < |init| ==> init[i] == levels[i];
    }
  }

  /** Entry `j` of the project part is `proj_<id>` and the percent of project `j`. */
  lemma {:induction false} ProjectSharesAt(selected: seq<SelectedProject>)
    ensures forall j :: 0 <= j < |selected| ==> ProjectShares(selected)[j] == Share(ProjectKey(selected[j].id), selected[j].pct)
    decreases |selected|
  {
    if selected != [] {
      var init := selected[..|selected| - 1];
      ProjectSharesAt(init);
      assert forall j :: 0 <= j < |init| ==> init[j] == selected[j];
    }
  }

  function TargetOf(s: SelectedProject): Target {
    Target(s.id, s.pct, s.amount)
  }

  /** The record `submitDonation` prepends: id `d<n+1>` for a history of n
      records, the amount, the level percents then the `proj_<id>` percents,
      and one target per selected project. */
  function Snapshot(levels: seq<Level>, sliders: map<string, int>, selected: seq<SelectedProject>,
                    amount: real, historyLength: nat, date: string): DonationRecord
  {
    DonationRecord("d" + NatToString(historyLength + 1), date, amount,
                   LevelShares(levels, sliders) + ProjectShares(selected),
                   seq(|selected|, j requires 0 <= j < |selected| => TargetOf(selected[j])))
  }

  function ShareSum(b: seq<Share>): int
    decreases |b|
  {
    if b == [] then 0 else ShareSum(b[..|b| - 1]) + b[|b| - 1].pct
  }

  lemma {:induction false} ShareSumConcat(a: seq<Share>, b: seq<Share>)
    ensures ShareSum(a + b) == ShareSum(a) + ShareSum(b)
    decreases |b|
  {
    if b != [] {
      assert (a + b)[..|a + b| - 1] == a + b[..|b| - 1];
      assert (a + b)[|a + b| - 1] == b[|b| - 1];
      ShareSumConcat(a, b[..|b| - 1]);
    } else {
      assert a + b == a;
    }
  }

  lemma {:induction false} LevelSharesSum(levels: seq<Level>, sliders: map<string, int>)
    ensures ShareSum(LevelShares(levels, sliders)) == LevelPctSum(levels, sliders)
    decreases |levels|
  {
    if levels != [] {
      var init := levels[..|levels| - 1];
      LevelSharesSum(init, sliders);
      assert LevelShares(levels, sliders)[..|levels| - 1] == LevelShares(init, sliders);
    }
  }

  lemma {:induction false} ProjectSharesSum(selected: seq<SelectedProject>)
    ensures ShareSum(ProjectShares(selected)) == ProjectPctSum(selected)
    decreases |selected|
  {
    if selected != [] {
      var init := selected[..|selected| - 1];
      ProjectSharesSum(init);
      assert ProjectShares(selected)[..|selected| - 1] == ProjectShares(init);
    }
  }

  /** The percents of a snapshot's breakdown add up to the summary's total,
      so a record submitted from a valid state sums to 100. */
  lemma SnapshotBreakdownSum(levels: seq<Level>, sliders: map<string, int>, selected: seq<SelectedProject>,
                             amount: real, n: nat, date: string)
    ensures ShareSum(Snapshot(levels, sliders, selected, amount, n, date).breakdown) == TotalPct(levels, sliders, selected)
  {
    ShareSumConcat(LevelShares(levels, sliders), ProjectShares(selected));
    LevelSharesSum(levels, sliders);
    ProjectSharesSum(selected);
  }

  lemma ProjectKeyIsProjectKey(id: nat)
    ensures IsProjectKey(ProjectKey(id))
  {
    assert ProjectKey(id)[..|ProjectKeyPrefix|] == ProjectKeyPrefix;
  }

  lemma ProjectKeyInjective(a: nat, b: nat)
    requires ProjectKey(a) == ProjectKey(b)
    ensures a == b
  {
    assert NatToString(a) == ProjectKey(a)[|ProjectKeyPrefix|..];
    assert NatToString(b) == ProjectKey(b)[|ProjectKeyPrefix|..];
    NatToStringInjective(a, b);
  }

  /** The breakdown written as a JavaScript object loses nothing: its keys are
      pairwise distinct when the levels are well formed and the selected ids
      unique, so one entry per level and per project survives. */
  lemma SnapshotKeysDistinct(levels: seq<Level>, sliders: map<string, int>, selected: seq<SelectedProject>,
                             amount: real, n: nat, date: string)
    requires WellFormedLevels(levels) && UniqueIds(selected)
    ensures var b := Snapshot(levels, sliders, selected, amount, n, date).breakdown;
            |b| == |levels| + |selected| &&
            forall i, j :: 0 <= i < j < |b| ==> b[i].key != b[j].key
  {
    var ls := LevelShares(levels, sliders);
    var ps := ProjectShares(selected);
    LevelSharesAt(levels, sliders);
    ProjectSharesAt(selected);
    var b := ls + ps;
    forall i, j | 0 <= i < j < |b| ensures b[i].key != b[j].key {
      if j < |ls| {
        assert b[i].key == levels[i].key && b[j].key == levels[j].key;
      } else if i < |ls| {
        assert b[j].key == ProjectKey(selected[j - |ls|].id);
        ProjectKeyIsProjectKey(selected[j - |ls|].id);
        assert b[i].key == levels[i].key;
      } else {
        if b[i].key == b[j].key {
          ProjectKeyInjective(selected[i - |ls|].id, selected[j - |ls|].id);
        }
      }
    }
  }

  // ---------- receipts ----------

  /** A receipt line: a label, a percent and the rounded euro amount that
      `fmt` displays (its `fr-FR` number formatting is not modelled). */
  datatype ReceiptLine = ReceiptLine(name: string, pct: int, euros: int)

  datatype Receipt = Receipt(reference: string, date: string, amount: int,
                             allocation: seq<ReceiptLine>, targeted: seq<ReceiptLine>)

  function RecordLines(b: seq<Share>, amount: real): seq<ReceiptLine>
    decreases |b|
  {
    if b == [] then []
    else RecordLines(b[..|b| - 1], amount)
         + (if b[|b| - 1].pct == 0 then [] else [ReceiptLine(b[|b| - 1].key, b[|b| - 1].pct, AmountFor(b[|b| - 1].pct, amount))])
  }

  /** Receipt lines are taken entry by entry, so the lines of a concatenation
      are the lines of each part in turn: stored order is kept. */
  lemma {:induction false} RecordLinesConcat(a: seq<Share>, b: seq<Share>, amount: real)
    ensures RecordLines(a + b, amount) == RecordLines(a, amount) + RecordLines(b, amount)
    decreases |b|
  {
    if b != [] {
      assert (a + b)[..|a + b| - 1] == a + b[..|b| - 1];
      assert (a + b)[|a + b| - 1] == b[|b| - 1];
      RecordLinesConcat(a, b[..|b| - 1], amount);
    } else {
      assert a + b == a;
    }
  }

  /** Exactly the non-zero entries of a breakdown get a line. */
  lemma {:induction false} RecordLinesSkipZero(b: seq<Share>, amount: real)
    ensures |RecordLines(b, amount)| <= |b|
    ensures forall l :: l in RecordLines(b, amount) ==>
              l.pct != 0 && Share(l.name, l.pct) in b && l.euros == AmountFor(l.pct, amount)
    ensures forall s :: s in b && s.pct != 0 ==> ReceiptLine(s.key, s.pct, AmountFor(s.pct, amount)) in RecordLines(b, amount)
    ensures (forall i :: 0 <= i < |b| ==> b[i].pct == 0) ==> RecordLines(b, amount) == []
    decreases |b|
  {
    if b != [] {
      var init := b[..|b| - 1];
      RecordLinesSkipZero(init, amount);
      forall l | l in RecordLines(b, amount)
        ensures l.pct != 0 && Share(l.name, l.pct) in b && l.euros == AmountFor(l.pct, amount)
      {
        if l in RecordLines(init, amount) {
          assert Share(l.name, l.pct) in init;
        }
      }
      forall s | s in b && s.pct != 0
        ensures ReceiptLine(s.key, s.pct, AmountFor(s.pct, amount)) in RecordLines(b, amount)
      {
        if s != b[|b| - 1] {
          assert s in init;
        }
      }
      if forall i :: 0 <= i < |b| ==> b[i].pct == 0 {
        assert b[|b| - 1].pct == 0;
      }
    }
  }

  /** `downloadReceiptFromRecord`: the record's id, date and amount, then one
      line per non-zero breakdown entry, in stored order. */
  function RecordReceipt(d: DonationRecord): Receipt {
    Receipt(d.id, d.date, Round(d.amount), RecordLines(d.breakdown, d.amount), [])
  }

  /** `previewReceipt`: built from the unsaved state; every level gets a line,
      zero percents included, then one line per selected project. The
      reference (from `Date.now()`) and the date are parameters. */
  function PreviewReceipt(levels: seq<Level>, sliders: map<string, int>, selected: seq<SelectedProject>,
                          amount: real, reference: string, date: string): Receipt
  {
    Receipt("r-" + reference, date, Round(amount),
            seq(|levels|, i requires 0 <= i < |levels| =>
              ReceiptLine(levels[i].name, Pct(sliders, levels[i].key), AmountFor(Pct(sliders, levels[i].key), amount))),
            seq(|selected|, j requires 0 <= j < |selected| =>
              ReceiptLine(selected[j].title, selected[j].pct, AmountFor(selected[j].pct, amount))))
  }

  /** A preview of the state just submitted lists at least the lines the
      stored record's receipt lists for the levels: the record receipt drops
      the zero-percent levels the preview keeps. */
  lemma PreviewCoversRecord(levels: seq<Level>, sliders: map<string, int>, selected: seq<SelectedProject>,
                            amount: real, n: nat, date: string, reference: string)
    ensures |RecordReceipt(Snapshot(levels, sliders, selected, amount, n, date)).allocation|
            <= |PreviewReceipt(levels, sliders, selected, amount, reference, date).allocation|
               + |PreviewReceipt(levels, sliders, selected, amount, reference, date).targeted|
  {
    RecordLinesSkipZero(LevelShares(levels, sliders) + ProjectShares(selected), amount);
  }

  /** The preview of a state and the receipt of the record submitted from it
      agree line by line: preview line `i` (levels, then projects) carries
      the percent and euro amount of breakdown entry `i`; a non-zero entry
      reappears on the record's receipt under its key, and a zero-percent
      level, which the preview still lists, gets no line there. */
  lemma PreviewMatchesRecord(levels: seq<Level>, sliders: map<string, int>, selected: seq<SelectedProject>,
                             amount: real, n: nat, date: string, reference: string, i: nat)
    requires WellFormedLevels(levels) && UniqueIds(selected)
    requires i < |levels| + |selected|
    ensures var p := PreviewReceipt(levels, sliders, selected, amount, reference, date);
            var d := Snapshot(levels, sliders, selected, amount, n, date);
            var lines := p.allocation + p.targeted;
            && |lines| == |d.breakdown|
            && lines[i].pct == d.breakdown[i].pct
            && lines[i].euros == AmountFor(d.breakdown[i].pct, d.amount)
            && (d.breakdown[i].pct != 0 ==>
                  ReceiptLine(d.breakdown[i].key, lines[i].pct, lines[i].euros) in RecordReceipt(d).allocation)
            && (d.breakdown[i].pct == 0 ==>
                  forall l :: l in RecordReceipt(d).allocation ==> l.name != d.breakdown[i].key)
  {
    var p := PreviewReceipt(levels, sliders, selected, amount, reference, date);
    var d := Snapshot(levels, sliders, selected, amount, n, date);
    var b := d.breakdown;
    LevelSharesAt(levels, sliders);
    ProjectSharesAt(selected);
    SnapshotKeysDistinct(levels, sliders, selected, amount, n, date);
    RecordLinesSkipZero(b, amount);
    var lines := p.allocation + p.targeted;
    if i < |levels| {
      assert lines[i] == p.allocation[i];
      assert b[i] == LevelShares(levels, sliders)[i];
    } else {
      assert lines[i] == p.targeted[i - |levels|];
      assert b[i] == ProjectShares(selected)[i - |levels|];
    }
    assert b[i] in b;
  }

  // ---------- search ----------

  function SearchText(p: CatalogueProject): string {
    p.title + " " + p.location + " " + p.kind
  }

  /** The filter of `renderProjectResults`: a non-empty type must equal the
      project's; an empty trimmed query accepts; otherwise the lower-cased
      query must occur in the lower-cased "title location type". */
  predicate Matches(p: CatalogueProject, query: string, kind: string) {
    var q := ToLower(Trim(query));
    (kind == [] || p.kind == kind) && (q == [] || Includes(ToLower(SearchText(p)), q))
  }

  /** `sampleProjects.filter(...)`: the matching projects, in catalogue order. */
  function Search(catalogue: seq<CatalogueProject>, query: string, kind: string): (r: seq<CatalogueProject>)
    ensures |r| <= |catalogue|
    decreases |catalogue|
  {
    if catalogue == [] then []
    else (if Matches(catalogue[0], query, kind) then [catalogue[0]] else []) + Search(catalogue[1..], query, kind)
  }

  /** The results are exactly the catalogue entries that match. */
  lemma {:induction false} SearchMembers(catalogue: seq<CatalogueProject>, query: string, kind: string)
    ensures forall p :: p in Search(catalogue, query, kind) <==> p in catalogue && Matches(p, query, kind)
    decreases |catalogue|
  {
    if catalogue != [] {
      SearchMembers(catalogue[1..], query, kind);
      assert forall p :: p in catalogue <==> p == catalogue[0] || p in catalogue[1..] by {
        assert catalogue == [catalogue[0]] + catalogue[1..];
      }
    }
  }

  /** Filtering works entry by entry, so catalogue order is kept. */
  lemma {:induction false} SearchConcat(a: seq<CatalogueProject>, b: seq<CatalogueProject>, query: string, kind: string)
    ensures Search(a + b, query, kind) == Search(a, query, kind) + Search(b, query, kind)
    decreases |a|
  {
    if a != [] {
      var x, rest := a[0], a[1..];
      assert a == [x] + rest;
      assert a + b == [x] + (rest + b);
      SearchCons(x, rest, query, kind);
      SearchCons(x, rest + b, query, kind);
      SearchConcat(rest, b, query, kind);
      var h := Search([x], query, kind);
      assert h + (Search(rest, query, kind) + Search(b, query, kind))
          == (h + Search(rest, query, kind)) + Search(b, query, kind);
    } else {
      assert a + b == b;
    }
  }

  lemma SearchCons(x: CatalogueProject, rest: seq<CatalogueProject>, query: string, kind: string)
    ensures Search([x] + rest, query, kind) == Search([x], query, kind) + Search(rest, query, kind)
  {
    assert ([x] + rest)[1..] == rest;
    assert [x][1..] == [];
  }

  /** With no type filter and a blank query the whole catalogue is listed. */
  lemma {:induction false} SearchBlankListsAll(catalogue: seq<CatalogueProject>, query: string)
    requires Trim(query) == []
    ensures Search(catalogue, query, []) == catalogue
    decreases |catalogue|
  {
    if catalogue != [] {
      SearchBlankListsAll(catalogue[1..], query);
    }
  }

  /** The query is compared case-insensitively: a query and its lower-cased
      form select the same projects. */
  lemma MatchesIgnoresQueryCase(p: CatalogueProject, query: string, kind: string)
    ensures Matches(p, ToLower(query), kind) == Matches(p, query, kind)
  {
    TrimLowerCommute(query);
    ToLowerIdempotent(Trim(query));
  }

  lemma LowerCharWhitespace(c: char)
    ensures IsJsWhitespace(LowerChar(c)) == IsJsWhitespace(c)
  {
  }

  lemma {:induction false} LeadingSpaceLower(s: string)
    ensures LeadingSpace(ToLower(s)) == LeadingSpace(s)
    decreases |s|
  {
    if |s| > 0 {
      LowerCharWhitespace(s[0]);
      assert ToLower(s)[1..] == ToLower(s[1..]);
      LeadingSpaceLower(s[1..]);
    }
  }

  lemma {:induction false} TrailingSpaceLower(s: string)
    ensures TrailingSpace(ToLower(s)) == TrailingSpace(s)
    decreases |s|
  {
    if |s| > 0 {
      LowerCharWhitespace(s[|s| - 1]);
      assert ToLower(s)[..|s| - 1] == ToLower(s[..|s| - 1]);
      TrailingSpaceLower(s[..|s| - 1]);
    }
  }

  lemma ToLowerSlices(s: string, n: nat)
    requires n <= |s|
    ensures ToLower(s)[n..] == ToLower(s[n..])
    ensures ToLower(s)[..n] == ToLower(s[..n])
  {
  }

  lemma TrimLowerCommute(s: string)
    ensures Trim(ToLower(s)) == ToLower(Trim(s))
  {
    var n := LeadingSpace(s);
    var t := s[n..];
    LeadingSpaceLower(s);
    ToLowerSlices(s, n);
    TrailingSpaceLower(t);
    ToLowerSlices(t, |t| - TrailingSpace(t));
  }

  // ---------- the dashboard's state ----------

  /** The globals of the donor page: `slidersState` (level key to percent),
      `selectedProjects`, `currentAmount` and `donationsHistory`, over a fixed
      list of levels and a fixed catalogue. */
  class Dashboard {
    const levels: seq<Level>
    const catalogue: seq<CatalogueProject>
    var sliders: map<string, int>
    var selected: seq<SelectedProject>
    var amount: real
    var history: seq<DonationRecord>

    /** What every handler keeps: one slider per level, an amount of at least
        1, each project selected once and from the catalogue, and each
        project's euro amount in step with its percent. */
    ghost predicate Valid()
      reads this
    {
      && WellFormedLevels(levels)
      && sliders.Keys == LevelKeys(levels)
      && amount >= 1.0
      && UniqueIds(selected)
      && (forall j :: 0 <= j < |selected| ==> FindProject(catalogue, selected[j].id).Some?)
      && (forall j :: 0 <= j < |selected| ==> selected[j].amount == AmountFor(selected[j].pct, amount))
    }

    /** `init`: every level at its default and no project; the starting
        amount of 120 is replaced at once by `onAmountChange` on the amount
        field's initial content `initialInput`. */
    constructor (levels: seq<Level>, catalogue: seq<CatalogueProject>, history: seq<DonationRecord>,
                 initialInput: Option<real>)
      requires WellFormedLevels(levels)
      ensures Valid()
      ensures this.levels == levels && this.catalogue == catalogue && this.history == history
      ensures sliders == Defaults(levels) && selected == [] && amount == CoercedAmount(initialInput)
    {
      this.levels := levels;
      this.catalogue := catalogue;
      this.history := history;
      sliders := Defaults(levels);
      selected := [];
      amount := CoercedAmount(initialInput);
    }

    /** `onAmountChange`: the parsed input (None for a non-numeric one)
        becomes the amount, raised to 1 when below; percents stay, every
        project's euro amount follows, and the net cost after the tax
        reduction is returned for display. */
    method SetAmount(input: Option<real>) returns (net: int)
      requires Valid()
      modifies this
      ensures Valid()
      ensures amount == CoercedAmount(input)
      ensures net == NetCost(amount)
      ensures sliders == old(sliders) && history == old(history)
      ensures |selected| == |old(selected)|
      ensures forall j :: 0 <= j < |selected| ==>
                selected[j] == old(selected[j]).(amount := AmountFor(old(selected[j]).pct, amount))
    {
      var v := if input.Some? then input.value else 0.0;
      if v < 1.0 {
        v := 1.0;
      }
      amount := v;
      net := NetCost(v);
      var sel := selected;
      var i := 0;
      while i < |sel|
        invariant 0 <= i <= |sel| == |old(selected)|
        invariant forall j :: 0 <= j < i ==> sel[j] == old(selected[j]).(amount := AmountFor(old(selected[j]).pct, v))
        invariant forall j :: i <= j < |sel| ==> sel[j] == old(selected[j])
      {
        sel := sel[i := sel[i].(amount := AmountFor(sel[i].pct, v))];
        i := i + 1;
      }
      selected := sel;
    }

    /** `onTerritoryChange` for the slider of level `i`, whose range is the
        level's [min, max]. */
    method SetLevelPercent(i: nat, pct: int)
      requires Valid() && i < |levels|
      requires levels[i].min <= pct <= levels[i].max
      modifies this
      ensures Valid()
      ensures sliders == old(sliders)[levels[i].key := pct]
      ensures selected == old(selected) && amount == old(amount) && history == old(history)
    {
      sliders := sliders[levels[i].key := pct];
    }

    /** The slider of selected project `j` (range [5, 75]): its percent and
        euro amount change, nothing else. */
    method SetProjectPercent(j: nat, pct: int)
      requires Valid() && j < |selected|
      requires 5 <= pct <= 75
      modifies this
      ensures Valid()
      ensures selected == old(selected)[j := old(selected[j]).(pct := pct, amount := AmountFor(pct, amount))]
      ensures sliders == old(sliders) && amount == old(amount) && history == old(history)
    {
      selected := selected[j := selected[j].(pct := pct, amount := AmountFor(pct, amount))];
    }

    /** `addProjectById`: a no-op for an id already selected or not in the
        catalogue; otherwise one entry at 5% is appended. */
    method AddProject(id: nat)
      requires Valid()
      modifies this
      ensures Valid()
      ensures IsSelected(old(selected), id) || FindProject(catalogue, id).None? ==> selected == old(selected)
      ensures !IsSelected(old(selected), id) && FindProject(catalogue, id).Some? ==>
                selected == old(selected) + [SelectedProject(id, FindProject(catalogue, id).value.title,
                                                             NewProjectPct, AmountFor(NewProjectPct, amount))]
      ensures sliders == old(sliders) && amount == old(amount) && history == old(history)
    {
      if IsSelected(selected, id) {
        return;
      }
      var p := FindProject(catalogue, id);
      if p.None? {
        return;
      }
      selected := selected + [SelectedProject(p.value.id, p.value.title, NewProjectPct, AmountFor(NewProjectPct, amount))];
    }

    /** `removeSelectedProject`. */
    method RemoveProject(id: nat)
      requires Valid()
      modifies this
      ensures Valid()
      ensures selected == WithoutProject(old(selected), id)
      ensures sliders == old(sliders) && amount == old(amount) && history == old(history)
    {
      RemoveKeepsUnique(selected, id);
      WithoutProjectMembers(selected, id);
      selected := WithoutProject(selected, id);
      forall j | 0 <= j < |selected|
        ensures FindProject(catalogue, selected[j].id).Some?
        ensures selected[j].amount == AmountFor(selected[j].pct, amount)
      {
        assert selected[j] in old(selected);
      }
    }

    /** The `#autoFill` handler: with N levels plus projects, every level and
        every project gets floor(100 / N); nothing when N is 0. */
    method AutoFill()
      requires Valid()
      modifies this
      ensures Valid()
      ensures |levels| + |old(selected)| == 0 ==> selected == old(selected) && sliders == old(sliders)
      ensures |levels| + |old(selected)| > 0 ==>
                var share := EqualShare(|levels| + |old(selected)|);
                && sliders.Keys == old(sliders).Keys
                && (forall k :: k in sliders ==> sliders[k] == share)
                && |selected| == |old(selected)|
                && (forall j :: 0 <= j < |selected| ==>
                      selected[j] == old(selected[j]).(pct := share, amount := AmountFor(share, amount)))
      ensures amount == old(amount) && history == old(history)
    {
      var n := |levels| + |selected|;
      if n == 0 {
        return;
      }
      var share := EqualShare(n);
      sliders, selected := ShareEqually(levels, sliders, selected, share, amount);
    }

    /** `updateSummary`, as a query: the total percent, its euro amount, the
        message, and whether the submit button is enabled. (Its refresh of
        every project's euro amount changes nothing here, since `Valid`
        keeps those in step.) */
    method Summary() returns (totalPct: int, totalAmount: int, message: PercentMessage, canSubmit: bool)
      requires Valid()
      ensures totalPct == TotalPct(levels, sliders, selected)
      ensures totalAmount == AmountFor(totalPct, amount)
      ensures message == MessageFor(totalPct, amount)
      ensures canSubmit <==> totalPct == 100 && MinimaMet(levels, sliders)
    {
      totalPct, totalAmount, message, canSubmit := SummaryOf(levels, sliders, selected, amount);
    }

    /** `submitDonation` on `date`: the snapshot is prepended to the history,
        then the selection is emptied and every level goes back to its
        default; the amount stays. It is not gated on the summary: only the
        disabled button prevents an invalid submission. */
    method Submit(date: string)
      requires Valid()
      modifies this
      ensures Valid()
      ensures history == [Snapshot(levels, old(sliders), old(selected), old(amount), |old(history)|, date)] + old(history)
      ensures selected == [] && sliders == Defaults(levels) && amount == old(amount)
    {
      var breakdown := Breakdown(levels, sliders, selected);
      var sel := selected;
      var targets := seq(|sel|, m requires 0 <= m < |sel| => TargetOf(sel[m]));
      var record := DonationRecord("d" + NatToString(|history| + 1), date, amount, breakdown, targets);
      history := [record] + history;
      selected := [];
      sliders := ResetSliders(levels, sliders);
    }
  }

  /** The two loops of the `#autoFill` handler: every level's slider, then
      every selected project, set to `share` (each project's euro amount
      recomputed from it). */
  method ShareEqually(levels: seq<Level>, sliders: map<string, int>, selected: seq<SelectedProject>,
                      share: int, amount: real)
    returns (pcts: map<string, int>, sel: seq<SelectedProject>)
    requires sliders.Keys == LevelKeys(levels)
    ensures pcts.Keys == sliders.Keys && forall k :: k in pcts ==> pcts[k] == share
    ensures |sel| == |selected|
    ensures forall j :: 0 <= j < |sel| ==> sel[j] == selected[j].(pct := share, amount := AmountFor(share, amount))
  {
    pcts := sliders;
    var i := 0;
    while i < |levels|
      invariant 0 <= i <= |levels|
      invariant pcts.Keys == sliders.Keys
      invariant forall k :: k in pcts ==> pcts[k] == (if k in LevelKeys(levels[..i]) then share else sliders[k])
    {
      assert LevelKeys(levels[..i + 1]) == LevelKeys(levels[..i]) + {levels[i].key} by {
        assert levels[..i + 1] == levels[..i] + [levels[i]];
      }
      pcts := pcts[levels[i].key := share];
      i := i + 1;
    }
    assert levels[..i] == levels;
    sel := selected;
    var j := 0;
    while j < |sel|
      invariant 0 <= j <= |sel| == |selected|
      invariant forall m :: 0 <= m < j ==> sel[m] == selected[m].(pct := share, amount := AmountFor(share, amount))
      invariant forall m :: j <= m < |sel| ==> sel[m] == selected[m]
    {
      sel := sel[j := sel[j].(pct := share, amount := AmountFor(share, amount))];
      j := j + 1;
    }
  }

  /** The computation of `updateSummary`: the percent total over the levels
      then the selected projects, its euro amount and message, and whether
      the submit button is enabled. */
  method SummaryOf(levels: seq<Level>, sliders: map<string, int>, selected: seq<SelectedProject>, amount: real)
    returns (totalPct: int, totalAmount: int, message: PercentMessage, canSubmit: bool)
    ensures totalPct == TotalPct(levels, sliders, selected)
    ensures totalAmount == AmountFor(totalPct, amount)
    ensures message == MessageFor(totalPct, amount)
    ensures canSubmit <==> totalPct == 100 && MinimaMet(levels, sliders)
  {
    totalPct := 0;
    var i := 0;
    while i < |levels|
      invariant 0 <= i <= |levels|
      invariant totalPct == LevelPctSum(levels[..i], sliders)
    {
      assert levels[..i + 1][..i] == levels[..i];
      totalPct := totalPct + Pct(sliders, levels[i].key);
      i := i + 1;
    }
    assert levels[..i] == levels;
    var j := 0;
    while j < |selected|
      invariant 0 <= j <= |selected|
      invariant totalPct == LevelPctSum(levels, sliders) + ProjectPctSum(selected[..j])
    {
      assert selected[..j + 1][..j] == selected[..j];
      totalPct := totalPct + selected[j].pct;
      j := j + 1;
    }
    assert selected[..j] == selected;
    totalAmount := AmountFor(totalPct, amount);
    message := MessageFor(totalPct, amount);
    canSubmit := totalPct == 100;
    i := 0;
    while i < |levels|
      invariant 0 <= i <= |levels|
      invariant canSubmit <==> totalPct == 100 && forall m :: 0 <= m < i ==> Pct(sliders, levels[m].key) >= levels[m].min
    {
      if Pct(sliders, levels[i].key) < levels[i].min {
        canSubmit := false;
      }
      i := i + 1;
    }
  }

  /** The breakdown object `submitDonation` builds: each level's percent in
      level order, then `proj_<id>` for each selected project in selection
      order. */
  method Breakdown(levels: seq<Level>, sliders: map<string, int>, selected: seq<SelectedProject>) returns (breakdown: seq<Share>)
    ensures breakdown == LevelShares(levels, sliders) + ProjectShares(selected)
  {
    breakdown := [];
    var i := 0;
    while i < |levels|
      invariant 0 <= i <= |levels|
      invariant breakdown == LevelShares(levels[..i], sliders)
    {
      assert levels[..i + 1][..i] == levels[..i];
      breakdown := breakdown + [Share(levels[i].key, Pct(sliders, levels[i].key))];
      i := i + 1;
    }
    assert levels[..i] == levels;
    var j := 0;
    while j < |selected|
      invariant 0 <= j <= |selected|
      invariant breakdown == LevelShares(levels, sliders) + ProjectShares(selected[..j])
    {
      var share := Share(ProjectKey(selected[j].id), selected[j].pct);
      assert selected[..j + 1][..j] == selected[..j];
      breakdown := breakdown + [share];
      j := j + 1;
    }
    assert selected[..j] == selected;
  }

  /** The reset loop of `submitDonation`: each level, in order, goes back to
      its default. */
  method ResetSliders(levels: seq<Level>, sliders: map<string, int>) returns (r: map<string, int>)
    requires DistinctLevelKeys(levels) && sliders.Keys == LevelKeys(levels)
    ensures r == Defaults(levels)
  {
    r := sliders;
    var i := 0;
    while i < |levels|
      invariant 0 <= i <= |levels|
      invariant r.Keys == LevelKeys(levels)
      invariant forall m :: 0 <= m < i ==> r[levels[m].key] == levels[m].default
    {
      r := r[levels[i].key := levels[i].default];
      i := i + 1;
    }
    forall k | k in LevelKeys(levels) ensures r[k] == DefaultOf(levels, k) {
      var m :| 0 <= m < |levels| && levels[m].key == k;
      DefaultOfLevel(levels, m);
    }
  }

  /** The tax reduction on a donation: 66% of it. */
  const TaxReductionPct: int := 66

  /** The net cost displayed for a donation, `Math.round(v * (1 - 0.66))`,
      with the factor taken exactly. */
  function NetCost(amount: real): int {
    Round(amount * (1.0 - TaxReductionPct as real / 100.0))
  }

  /** The net cost of a non-negative donation is never negative and never
      more than the rounded donation; a larger donation never costs less. */
  lemma NetCostBounds(amount: real, larger: real)
    requires 0.0 <= amount <= larger
    ensures 0 <= NetCost(amount) <= Round(amount)
    ensures NetCost(amount) <= NetCost(larger)
  {
    var f := 1.0 - TaxReductionPct as real / 100.0;
    assert 0.0 <= amount * f <= amount;
    assert amount * f <= larger * f;
    RoundMonotone(0.0, amount * f);
    RoundMonotone(amount * f, amount);
    RoundMonotone(amount * f, larger * f);
  }

  /** `parseFloat(input) || 0`, then raised to 1 when below 1. */
  function CoercedAmount(input: Option<real>): (v: real)
    ensures v >= 1.0
    ensures input.Some? && input.value >= 1.0 ==> v == input.value
    ensures input.None? || input.value < 1.0 ==> v == 1.0
  {
    if input.Some? && input.value >= 1.0 then input.value else 1.0
  }
}
