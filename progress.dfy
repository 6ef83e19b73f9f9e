/** The progress page: the metrics computed from the stored history, the
    eight weekly score buckets, the latest assessment of each skill and the
    locally generated achievements. Instants are milliseconds; the current
    instant, the local time-zone offset and the unlock timestamp are
    parameters. */
module ProgressTracker {
  import opened Base
  import opened Types
  import opened Text

  /** One day in milliseconds. */
  const Day: int := 86400000

  /** The sum of the overall scores. */
  function TotalScore(rows: seq<HistoryEntry>): int
  {
    if rows == [] then 0 else rows[0].overallScore + TotalScore(rows[1..])
  }

  /** `Math.round(s / n)` for a positive `n`: the nearest integer, halves
      rounded up. */
  function RoundDiv(s: int, n: int): (r: int)
    requires n > 0
    ensures n * (2 * r - 1) <= 2 * s < n * (2 * r + 1)
  {
    (2 * s + n) / (2 * n)
  }

  /** `averageScore`: the rounded mean of the overall scores, 0 without
      assessments. */
  function AverageScore(rows: seq<HistoryEntry>): (avg: int)
    ensures rows == [] ==> avg == 0
    ensures rows != [] ==> |rows| * (2 * avg - 1) <= 2 * TotalScore(rows) < |rows| * (2 * avg + 1)
  {
    if rows == [] then 0 else RoundDiv(TotalScore(rows), |rows|)
  }

  predicate ScoresWithin(rows: seq<HistoryEntry>, lo: int, hi: int)
  {
    forall i :: 0 <= i < |rows| ==> lo <= rows[i].overallScore <= hi
  }

  lemma {:induction false} TotalScoreBounds(rows: seq<HistoryEntry>, lo: int, hi: int)
    requires ScoresWithin(rows, lo, hi)
    ensures |rows| * lo <= TotalScore(rows) <= |rows| * hi
  {
    if rows != [] {
      var n := |rows| - 1;
      TotalScoreBounds(rows[1..], lo, hi);
      assert n * lo <= TotalScore(rows[1..]) <= n * hi;
      assert lo <= rows[0].overallScore <= hi;
      assert (n + 1) * lo == n * lo + lo && (n + 1) * hi == n * hi + hi;
    }
  }

  /** The average of scores between `lo` and `hi` lies between them too. */
  lemma AverageScoreBounds(rows: seq<HistoryEntry>, lo: int, hi: int)
    requires rows != [] && ScoresWithin(rows, lo, hi)
    ensures lo <= AverageScore(rows) <= hi
  {
    TotalScoreBounds(rows, lo, hi);
    var n, avg := |rows|, AverageScore(rows);
    var total := TotalScore(rows);
    assert 2 * total < n * (2 * avg + 1) && n * (2 * avg - 1) <= 2 * total;
    assert n * lo <= total <= n * hi;
    if avg < lo {
      MulMonotone(n, 2 * avg + 1, 2 * lo - 1);
      Distribute(n, lo);
    } else if avg > hi {
      MulMonotone(n, 2 * hi + 1, 2 * avg - 1);
      Distribute(n, hi);
    }
  }

  lemma Distribute(n: int, x: int)
    ensures n * (2 * x - 1) == 2 * (n * x) - n && n * (2 * x + 1) == 2 * (n * x) + n
  {
  }

  lemma MulMonotone(n: nat, a: int, b: int)
    requires a <= b
    ensures n * a <= n * b
  {
  }

  /** A skill assessment row; a missing level is `None`. */
  datatype SkillRow = SkillRow(skillName: string, currentLevel: Option<int>, targetLevel: Option<int>, createdAt: int)

  /** A level in a numeric comparison: a missing one compares as 0. */
  function Compared(level: Option<int>): int
  {
    if level.Some? then level.value else 0
  }

  predicate Improved(sa: SkillRow)
  {
    Compared(sa.currentLevel) >= Compared(sa.targetLevel)
  }

  /** `skillsImproved`: the rows whose current level reaches the target. */
  function SkillsImproved(rows: seq<SkillRow>): (n: nat)
    ensures n <= |rows|
    ensures n == 0 <==> forall i :: 0 <= i < |rows| ==> !Improved(rows[i])
    ensures n == |rows| <==> forall i :: 0 <= i < |rows| ==> Improved(rows[i])
    ensures n == |set i | 0 <= i < |rows| && Improved(rows[i])|
  {
    FilterCount(rows, Improved);
    assert Passing(rows, Improved) == set i | 0 <= i < |rows| && Improved(rows[i]);
    FilterKeepsSome(rows, Improved);
    FilterKeepsAll(rows, Improved);
    |Filter(rows, Improved)|
  }

  /** A learning-progress row: the list of completed resources may be missing. */
  datatype ProgressRow = ProgressRow(completedResources: Option<seq<string>>)

  /** `completed_resources?.length || 0`. */
  function CompletedCount(p: ProgressRow): nat
  {
    if p.completedResources.Some? then |p.completedResources.value| else 0
  }

  /** `completedResources`: the completed resources over all rows, a missing
      list counting as none. */
  function CompletedResources(rows: seq<ProgressRow>): (n: nat)
    ensures n == 0 <==> forall i :: 0 <= i < |rows| ==> CompletedCount(rows[i]) == 0
    ensures forall i :: 0 <= i < |rows| ==> CompletedCount(rows[i]) <= n
  {
    if rows == [] then 0
    else
      var rest := CompletedResources(rows[1..]);
      assert forall i :: 1 <= i < |rows| ==> rows[i] == rows[1..][i - 1];
      CompletedCount(rows[0]) + rest
  }

  /** The local calendar day of an instant, for a time zone `offset`
      milliseconds ahead of UTC. */
  function DayOf(t: int, offset: int): int
  {
    (t + offset) / Day
  }

  function IsRecent(now: int): HistoryEntry -> bool
  {
    (e: HistoryEntry) => e.createdAt >= now - 30 * Day
  }

  function Days(rows: seq<HistoryEntry>, offset: int): (ds: seq<int>)
    ensures |ds| == |rows|
    ensures forall i :: 0 <= i < |rows| ==> ds[i] == DayOf(rows[i].createdAt, offset)
  {
    seq(|rows|, i requires 0 <= i < |rows| => DayOf(rows[i].createdAt, offset))
  }

  /** `learningStreak`: the number of distinct local days on which an
      assessment was made during the last thirty days. It never exceeds the
      number of those assessments, and is 0 only when there are none. */
  function LearningStreak(rows: seq<HistoryEntry>, now: int, offset: int): (n: nat)
    ensures n <= |Filter(rows, IsRecent(now))|
    ensures n == 0 <==> forall i :: 0 <= i < |rows| ==> rows[i].createdAt < now - 30 * Day
  {
    var recent := Filter(rows, IsRecent(now));
    var days := Days(recent, offset);
    ElementsCard(days);
    FilterKeepsSome(rows, IsRecent(now));
    assert |days| > 0 ==> days[0] in Elements(days);
    |Elements(days)|
  }

  /** `timeSpent`: `Math.floor(totalAssessments * 2.5)` hours. */
  function TimeSpent(totalAssessments: nat): (hours: nat)
    ensures 2 * hours <= 5 * totalAssessments < 2 * hours + 2
  {
    5 * totalAssessments / 2
  }

  /** The label of the bucket `i` weeks back. */
  function WeekLabel(i: nat): (w: string)
    ensures |w| > 1 && w[0] == 'W'
  {
    "W" + (if i == 0 then "Now" else NatToString(i))
  }

  /** The eight labels are pairwise different. */
  lemma WeekLabelsDistinct(i: nat, j: nat)
    requires i != j
    ensures WeekLabel(i) != WeekLabel(j)
  {
    if i != 0 && j != 0 {
      NatToStringValue(i);
      NatToStringValue(j);
      assert WeekLabel(i)[1..] == NatToString(i);
      assert WeekLabel(j)[1..] == NatToString(j);
    } else if i == 0 {
      assert IsDigit(WeekLabel(j)[1]);
    } else {
      assert IsDigit(WeekLabel(i)[1]);
    }
  }

  /** The window of the bucket `i` weeks back, as written: it starts exactly
      `7 * i` days before now and ends six days after its start, both ends
      included. */
  function InWeek(now: int, i: nat): HistoryEntry -> bool
  {
    (e: HistoryEntry) => now - 7 * i * Day <= e.createdAt <= now - 7 * i * Day + 6 * Day
  }

  datatype WeekScore = WeekScore(week: string, score: int)

  function WeekEntry(rows: seq<HistoryEntry>, now: int, i: nat): WeekScore
  {
    WeekScore(WeekLabel(i), AverageScore(Filter(rows, InWeek(now, i))))
  }

  /** `generateWeeklyProgressFromData`: eight buckets, oldest first, from
      seven weeks back to the current one; an empty window scores 0. */
  function WeeklyProgress(rows: seq<HistoryEntry>, now: int): (weeks: seq<WeekScore>)
    ensures |weeks| == 8
    ensures forall k :: 0 <= k < 8 ==> weeks[k].week == WeekLabel(7 - k)
    ensures weeks[7].week == "WNow"
    ensures forall k :: 0 <= k < 8 && Filter(rows, InWeek(now, 7 - k)) == [] ==> weeks[k].score == 0
  {
    seq(8, k requires 0 <= k < 8 => WeekEntry(rows, now, 7 - k))
  }

  method GenerateWeeklyProgress(rows: seq<HistoryEntry>, now: int) returns (weeks: seq<WeekScore>)
    ensures weeks == WeeklyProgress(rows, now)
  {
    weeks := [];
    var i := 7;
    while i >= 0
      invariant -1 <= i <= 7
      invariant weeks == WeeklyProgress(rows, now)[..7 - i]
    {
      var weekAssessments := Filter(rows, InWeek(now, i));
      var avgScore := if |weekAssessments| > 0 then RoundDiv(TotalScore(weekAssessments), |weekAssessments|) else 0;
      weeks := weeks + [WeekScore(WeekLabel(i), avgScore)];
      i := i - 1;
    }
  }

  /** With every score between `lo` and `hi`, every bucket scores between
      them too, or 0 when it is empty. */
  lemma WeeklyScoresBounded(rows: seq<HistoryEntry>, now: int, lo: int, hi: int)
    requires ScoresWithin(rows, lo, hi)
    ensures forall k :: 0 <= k < 8 ==>
      WeeklyProgress(rows, now)[k].score == 0 || lo <= WeeklyProgress(rows, now)[k].score <= hi
  {
    forall k | 0 <= k < 8
      ensures WeeklyProgress(rows, now)[k].score == 0 || lo <= WeeklyProgress(rows, now)[k].score <= hi
    {
      var week := Filter(rows, InWeek(now, 7 - k));
      if week != [] {
        forall j | 0 <= j < |week| ensures lo <= week[j].overallScore <= hi {
          SubsequenceMember(week, rows, j);
        }
        AverageScoreBounds(week, lo, hi);
      }
    }
  }

  /** As written, no window holds an instant of the last day before now:
      the current bucket lies after now and each earlier one stops a day
      short of the next. */
  lemma WeekWindowsMissLastDay(now: int, e: HistoryEntry)
    requires now - Day < e.createdAt < now
    ensures forall i: nat :: i < 8 ==> !InWeek(now, i)(e)
  {
  }

  /** An assessment made half a day ago leaves every bucket at 0. */
  lemma WeeklyProgressMissesRecentAssessment(now: int, e: HistoryEntry)
    requires e.createdAt == now - Day / 2
    ensures forall k :: 0 <= k < 8 ==> WeeklyProgress([e], now)[k].score == 0
  {
    forall i: nat | i < 8 ensures Filter([e], InWeek(now, i)) == [] {
      assert !InWeek(now, i)(e);
    }
  }

  /** The evidently intended window of the bucket `i` weeks back: the seven
      days ending `7 * i` days before now, the end included. */
  function InTrailingWeek(now: int, i: nat): HistoryEntry -> bool
  {
    (e: HistoryEntry) => now - 7 * (i + 1) * Day < e.createdAt <= now - 7 * i * Day
  }

  function TrailingWeekEntry(rows: seq<HistoryEntry>, now: int, i: nat): WeekScore
  {
    WeekScore(WeekLabel(i), AverageScore(Filter(rows, InTrailingWeek(now, i))))
  }

  /** The weekly buckets over the trailing windows. */
  function TrailingWeeklyProgress(rows: seq<HistoryEntry>, now: int): (weeks: seq<WeekScore>)
    ensures |weeks| == 8
    ensures forall k :: 0 <= k < 8 ==> weeks[k].week == WeekLabel(7 - k)
  {
    seq(8, k requires 0 <= k < 8 => TrailingWeekEntry(rows, now, 7 - k))
  }

  /** The trailing windows partition the last eight weeks: every instant in
      them lies in exactly one window, and no instant outside them in any. */
  lemma TrailingWeeksPartition(now: int, e: HistoryEntry)
    ensures now - 56 * Day < e.createdAt <= now ==>
      exists i: nat :: i < 8 && InTrailingWeek(now, i)(e)
    ensures forall i: nat, j: nat :: InTrailingWeek(now, i)(e) && InTrailingWeek(now, j)(e) ==> i == j
    ensures !(now - 56 * Day < e.createdAt <= now) ==> forall i: nat :: i < 8 ==> !InTrailingWeek(now, i)(e)
  {
    if now - 56 * Day < e.createdAt <= now {
      var i := (now - e.createdAt) / (7 * Day);
      assert InTrailingWeek(now, i)(e);
    }
    forall i: nat, j: nat | InTrailingWeek(now, i)(e) && InTrailingWeek(now, j)(e) ensures i == j {
    }
  }

  /** Over the trailing windows an assessment of the last day lands in the
      current bucket. */
  lemma TrailingWeeklyProgressCountsRecentAssessment(now: int, e: HistoryEntry)
    requires now - Day < e.createdAt <= now
    ensures TrailingWeeklyProgress([e], now)[7].score == e.overallScore
  {
    assert Filter([e], InTrailingWeek(now, 0)) == [e];
    assert TotalScore([e]) == e.overallScore;
  }

  /** One entry of the skill progress list. */
  datatype SkillProgress = SkillProgress(skill: string, currentLevel: int, targetLevel: int, progress: real)

  /** `level || fallback`: a missing or zero level takes the fallback. */
  function LevelOr(level: Option<int>, fallback: int): (l: int)
    ensures (level.None? || level.value == 0) ==> l == fallback
    ensures level.Some? && level.value != 0 ==> l == level.value
  {
    if level.Some? && level.value != 0 then level.value else fallback
  }

  /** The skill map: names in first-insertion order, and the row kept for each. */
  datatype SkillMap = SkillMap(keys: seq<string>, latest: map<string, SkillRow>)

  /** One `forEach` step: a new name is appended; a known name is replaced
      only by a strictly later row. */
  function Record(m: SkillMap, sa: SkillRow): SkillMap
  {
    if sa.skillName !in m.latest then SkillMap(m.keys + [sa.skillName], m.latest[sa.skillName := sa])
    else if sa.createdAt > m.latest[sa.skillName].createdAt then SkillMap(m.keys, m.latest[sa.skillName := sa])
    else m
  }

  /** The skill map after all rows, in order. */
  function LatestBySkill(rows: seq<SkillRow>): (m: SkillMap)
    ensures forall k :: k in m.keys <==> k in m.latest
  {
    if rows == [] then SkillMap([], map[]) else Record(LatestBySkill(rows[..|rows| - 1]), rows[|rows| - 1])
  }

  /** The kept row of `name` is the first of its rows with the latest
      creation instant. */
  predicate KeptIsLatest(rows: seq<SkillRow>, name: string, kept: SkillRow)
  {
    exists j :: 0 <= j < |rows| && rows[j] == kept && kept.skillName == name
      && (forall i :: 0 <= i < |rows| && rows[i].skillName == name ==> rows[i].createdAt <= kept.createdAt)
      && (forall i :: 0 <= i < j && rows[i].skillName == name ==> rows[i].createdAt < kept.createdAt)
  }

  /** The map has one key per skill name seen, each once. */
  lemma {:induction false} LatestBySkillKeys(rows: seq<SkillRow>)
    ensures Distinct(LatestBySkill(rows).keys)
    ensures forall k :: k in LatestBySkill(rows).keys <==> exists i :: 0 <= i < |rows| && rows[i].skillName == k
  {
    if rows != [] {
      var prefix := rows[..|rows| - 1];
      LatestBySkillKeys(prefix);
      var m := LatestBySkill(rows);
      assert forall i :: 0 <= i < |prefix| ==> prefix[i] == rows[i];
      forall k | k in m.keys ensures exists i :: 0 <= i < |rows| && rows[i].skillName == k {
        if k in LatestBySkill(prefix).keys {
          var i :| 0 <= i < |prefix| && prefix[i].skillName == k;
          assert rows[i].skillName == k;
        } else {
          assert rows[|rows| - 1].skillName == k;
        }
      }
      forall k | exists i :: 0 <= i < |rows| && rows[i].skillName == k ensures k in m.keys {
        var i :| 0 <= i < |rows| && rows[i].skillName == k;
        if i < |prefix| {
          assert prefix[i].skillName == k;
        }
      }
    }
  }

  /** Name `a` occurs in `rows` before the first occurrence of `b`. */
  ghost predicate FirstSeenBefore(rows: seq<SkillRow>, a: string, b: string)
  {
    exists p :: 0 <= p < |rows| && rows[p].skillName == a && forall q :: 0 <= q <= p ==> rows[q].skillName != b
  }

  /** The keys are in first-seen order: a key listed before another was
      seen before the other's first row. */
  lemma {:induction false} LatestBySkillKeysOrder(rows: seq<SkillRow>)
    ensures forall i, j :: 0 <= i < j < |LatestBySkill(rows).keys| ==>
      FirstSeenBefore(rows, LatestBySkill(rows).keys[i], LatestBySkill(rows).keys[j])
  {
    if rows != [] {
      var prefix, sa := rows[..|rows| - 1], rows[|rows| - 1];
      LatestBySkillKeysOrder(prefix);
      LatestBySkillKeys(prefix);
      var before, keys := LatestBySkill(prefix).keys, LatestBySkill(rows).keys;
      assert keys == if sa.skillName in before then before else before + [sa.skillName];
      forall i, j | 0 <= i < j < |keys| ensures FirstSeenBefore(rows, keys[i], keys[j]) {
        OrderStep(prefix, sa, rows, before, i, j);
      }
    }
  }

  /** One step of `LatestBySkillKeysOrder`: a pair of keys after one more row. */
  lemma OrderStep(prefix: seq<SkillRow>, sa: SkillRow, rows: seq<SkillRow>, before: seq<string>, i: int, j: int)
    requires rows == prefix + [sa]
    requires forall k :: k in before <==> exists q :: 0 <= q < |prefix| && prefix[q].skillName == k
    requires forall i', j' :: 0 <= i' < j' < |before| ==> FirstSeenBefore(prefix, before[i'], before[j'])
    requires var keys := if sa.skillName in before then before else before + [sa.skillName];
      0 <= i < j < |keys|
    ensures var keys := if sa.skillName in before then before else before + [sa.skillName];
      FirstSeenBefore(rows, keys[i], keys[j])
  {
    var keys := if sa.skillName in before then before else before + [sa.skillName];
    var a, b := keys[i], keys[j];
    assert a == before[i];
    if j < |before| {
      assert FirstSeenBefore(prefix, a, b);
      var p :| 0 <= p < |prefix| && prefix[p].skillName == a && forall q :: 0 <= q <= p ==> prefix[q].skillName != b;
      assert rows[p] == prefix[p];
      assert forall q :: 0 <= q <= p ==> rows[q] == prefix[q];
    } else {
      assert b == sa.skillName && b !in before;
      assert a in before;
      var p :| 0 <= p < |prefix| && prefix[p].skillName == a;
      assert rows[p] == prefix[p];
      assert forall q :: 0 <= q <= p ==> rows[q] == prefix[q] && prefix[q].skillName != b;
    }
  }

  /** The map keeps for each name the first of its latest rows. */
  lemma {:induction false} LatestBySkillKept(rows: seq<SkillRow>)
    ensures forall k :: k in LatestBySkill(rows).latest ==> KeptIsLatest(rows, k, LatestBySkill(rows).latest[k])
  {
    if rows != [] {
      var prefix, sa := rows[..|rows| - 1], rows[|rows| - 1];
      assert rows == prefix + [sa];
      LatestBySkillKept(prefix);
      LatestBySkillKeys(prefix);
      forall i | 0 <= i < |prefix| ensures prefix[i].skillName in LatestBySkill(prefix).latest {
        assert prefix[i].skillName in LatestBySkill(prefix).keys;
      }
      assert LatestBySkill(rows) == Record(LatestBySkill(prefix), sa);
      forall k | k in LatestBySkill(rows).latest ensures KeptIsLatest(rows, k, LatestBySkill(rows).latest[k]) {
        KeptAfterRecord(prefix, sa, LatestBySkill(prefix), k);
      }
    }
  }

  /** One step of `LatestBySkillKept`: a name's kept row once one more row
      is recorded. */
  lemma KeptAfterRecord(prefix: seq<SkillRow>, sa: SkillRow, before: SkillMap, k: string)
    requires forall n :: n in before.latest ==> KeptIsLatest(prefix, n, before.latest[n])
    requires forall i :: 0 <= i < |prefix| ==> prefix[i].skillName in before.latest
    requires k in Record(before, sa).latest
    ensures KeptIsLatest(prefix + [sa], k, Record(before, sa).latest[k])
  {
    var m := Record(before, sa);
    if k in before.latest && (k != sa.skillName || sa.createdAt <= before.latest[k].createdAt) {
      assert m.latest[k] == before.latest[k];
      KeptWhenUnchanged(prefix, sa, before.latest[k], k);
    } else {
      assert k == sa.skillName && m.latest[k] == sa;
      KeptWhenReplaced(prefix, sa);
    }
  }

  lemma KeptWhenUnchanged(prefix: seq<SkillRow>, sa: SkillRow, kept: SkillRow, k: string)
    requires KeptIsLatest(prefix, k, kept)
    requires k != sa.skillName || sa.createdAt <= kept.createdAt
    ensures KeptIsLatest(prefix + [sa], k, kept)
  {
    var rows := prefix + [sa];
    var j :| 0 <= j < |prefix| && prefix[j] == kept && kept.skillName == k
      && (forall i :: 0 <= i < |prefix| && prefix[i].skillName == k ==> prefix[i].createdAt <= kept.createdAt)
      && (forall i :: 0 <= i < j && prefix[i].skillName == k ==> prefix[i].createdAt < kept.createdAt);
    assert forall i :: 0 <= i < |prefix| ==> rows[i] == prefix[i];
    assert rows[j] == kept;
  }

  lemma KeptWhenReplaced(prefix: seq<SkillRow>, sa: SkillRow)
    requires forall i :: 0 <= i < |prefix| && prefix[i].skillName == sa.skillName ==> prefix[i].createdAt < sa.createdAt
    ensures KeptIsLatest(prefix + [sa], sa.skillName, sa)
  {
    var rows := prefix + [sa];
    assert forall i :: 0 <= i < |prefix| ==> rows[i] == prefix[i];
    assert rows[|prefix|] == sa;
  }

  /** The progress entry of a kept row. */
  function ProgressOf(sa: SkillRow): (p: SkillProgress)
    ensures p.skill == sa.skillName && p.currentLevel != 0 && p.targetLevel != 0
    ensures p.progress == (p.currentLevel as real / p.targetLevel as real) * 100.0
  {
    var current := LevelOr(sa.currentLevel, 1);
    var target := LevelOr(sa.targetLevel, 5);
    SkillProgress(sa.skillName, current, target, (current as real / target as real) * 100.0)
  }

  /** A row at or above its positive target shows at least 100 percent. */
  lemma ProgressReachesTarget(sa: SkillRow)
    requires 0 < ProgressOf(sa).targetLevel <= ProgressOf(sa).currentLevel
    ensures ProgressOf(sa).progress >= 100.0
  {
    var p := ProgressOf(sa);
    var c, t := p.currentLevel as real, p.targetLevel as real;
    assert c / t >= 1.0 by {
      assert c / t * t == c;
    }
  }

  /** The list shown: one entry per key, in key order. */
  function SkillProgressList(m: SkillMap): (ps: seq<SkillProgress>)
    requires forall k :: k in m.keys ==> k in m.latest
    ensures |ps| == |m.keys|
    ensures forall i :: 0 <= i < |ps| ==> ps[i] == ProgressOf(m.latest[m.keys[i]])
  {
    seq(|m.keys|, i requires 0 <= i < |m.keys| => ProgressOf(m.latest[m.keys[i]]))
  }

  /** The `forEach` over the rows of `generateSkillProgressFromData`: a
      name not yet in the map is added at the end, a known one is replaced
      only by a strictly later row. */
  method CollectLatest(rows: seq<SkillRow>) returns (skillMap: SkillMap)
    ensures skillMap == LatestBySkill(rows)
  {
    skillMap := SkillMap([], map[]);
    for k := 0 to |rows|
      invariant skillMap == LatestBySkill(rows[..k])
    {
      assert LatestBySkill(rows[..k + 1]) == Record(LatestBySkill(rows[..k]), rows[k]) by {
        assert rows[..k + 1][..k] == rows[..k];
      }
      var sa := rows[k];
      var known := sa.skillName in skillMap.latest;
      if !known || sa.createdAt > skillMap.latest[sa.skillName].createdAt {
        var keys := if known then skillMap.keys else skillMap.keys + [sa.skillName];
        skillMap := SkillMap(keys, skillMap.latest[sa.skillName := sa]);
      }
    }
    assert rows[..|rows|] == rows;
  }

  /** `generateSkillProgressFromData`: the entries of the collected map, in
      key order. */
  method GenerateSkillProgress(rows: seq<SkillRow>) returns (progress: seq<SkillProgress>)
    ensures progress == SkillProgressList(LatestBySkill(rows))
  {
    var skillMap := CollectLatest(rows);
    progress := SkillProgressList(skillMap);
  }

  /** An entry is built from the first of the latest rows of its skill. */
  predicate ShowsLatest(rows: seq<SkillRow>, p: SkillProgress)
  {
    exists j :: 0 <= j < |rows| && KeptIsLatest(rows, p.skill, rows[j]) && p == ProgressOf(rows[j])
  }

  /** The shown skills are distinct, and each entry is built from the first
      of the latest rows of its skill. */
  lemma SkillProgressShowsLatest(rows: seq<SkillRow>)
    ensures forall i, j :: 0 <= i < j < |SkillProgressList(LatestBySkill(rows))| ==>
      SkillProgressList(LatestBySkill(rows))[i].skill != SkillProgressList(LatestBySkill(rows))[j].skill
    ensures forall i :: 0 <= i < |SkillProgressList(LatestBySkill(rows))| ==>
      ShowsLatest(rows, SkillProgressList(LatestBySkill(rows))[i])
  {
    LatestBySkillKeys(rows);
    LatestBySkillKept(rows);
    var m := LatestBySkill(rows);
    var ps := SkillProgressList(m);
    forall i | 0 <= i < |ps|
      ensures ps[i].skill == m.keys[i] && KeptIsLatest(rows, ps[i].skill, m.latest[m.keys[i]])
        && ps[i] == ProgressOf(m.latest[m.keys[i]])
    {
      var kept := m.latest[m.keys[i]];
      assert KeptIsLatest(rows, m.keys[i], kept);
    }
    forall i | 0 <= i < |ps| ensures ShowsLatest(rows, ps[i]) {
      var kept := m.latest[m.keys[i]];
      var j :| 0 <= j < |rows| && rows[j] == kept && kept.skillName == m.keys[i]
        && (forall n :: 0 <= n < |rows| && rows[n].skillName == m.keys[i] ==> rows[n].createdAt <= kept.createdAt)
        && (forall n :: 0 <= n < j && rows[n].skillName == m.keys[i] ==> rows[n].createdAt < kept.createdAt);
      assert KeptIsLatest(rows, ps[i].skill, rows[j]) && ps[i] == ProgressOf(rows[j]);
    }
    forall i, j | 0 <= i < j < |ps| ensures ps[i].skill != ps[j].skill {
      assert m.keys[i] != m.keys[j];
    }
  }

  /** `Achievement.category`. */
  datatype Category = AssessmentCategory | LearningCategory | StreakCategory | SkillCategory

  datatype Achievement = Achievement(id: string, title: string, category: Category, unlockedAt: string)

  const FirstAssessmentId: string := "first-assessment"
  const AssessmentExplorerId: string := "assessment-explorer"
  const HighAchieverId: string := "high-achiever"
  const LearningStreakId: string := "learning-streak"

  function FirstSteps(unlockedAt: string): Achievement
  {
    Achievement(FirstAssessmentId, "First Steps", AssessmentCategory, unlockedAt)
  }

  function AssessmentExplorer(unlockedAt: string): Achievement
  {
    Achievement(AssessmentExplorerId, "Assessment Explorer", AssessmentCategory, unlockedAt)
  }

  function HighAchiever(unlockedAt: string): Achievement
  {
    Achievement(HighAchieverId, "High Achiever", SkillCategory, unlockedAt)
  }

  function StreakAchievement(unlockedAt: string): Achievement
  {
    Achievement(LearningStreakId, "Learning Streak", StreakCategory, unlockedAt)
  }

  /** The achievements unlocked by a number of assessments and an average score. */
  function Achievements(assessments: int, avgScore: int, unlockedAt: string): (r: seq<Achievement>)
  {
    (if assessments >= 1 then [FirstSteps(unlockedAt)] else [])
    + (if assessments >= 5 then [AssessmentExplorer(unlockedAt)] else [])
    + (if avgScore >= 80 then [HighAchiever(unlockedAt)] else [])
    + [StreakAchievement(unlockedAt)]
  }

  predicate Unlocked(r: seq<Achievement>, id: string)
  {
    exists i :: 0 <= i < |r| && r[i].id == id
  }

  /** `generateAchievements` lists one to four achievements, the streak one
      always and last, all unlocked at the given instant. */
  lemma AchievementsShape(assessments: int, avgScore: int, unlockedAt: string)
    ensures var r := Achievements(assessments, avgScore, unlockedAt);
      1 <= |r| <= 4 && r[|r| - 1].id == LearningStreakId
      && (forall i :: 0 <= i < |r| ==> r[i].unlockedAt == unlockedAt)
  {
  }

  /** Each conditional achievement is listed exactly when its condition holds. */
  lemma {:induction false} AchievementsUnlocked(assessments: int, avgScore: int, unlockedAt: string)
    ensures var r := Achievements(assessments, avgScore, unlockedAt);
      (Unlocked(r, FirstAssessmentId) <==> assessments >= 1)
      && (Unlocked(r, AssessmentExplorerId) <==> assessments >= 5)
      && (Unlocked(r, HighAchieverId) <==> avgScore >= 80)
  {
    var r := Achievements(assessments, avgScore, unlockedAt);
    var a := if assessments >= 1 then [FirstSteps(unlockedAt)] else [];
    var b := if assessments >= 5 then [AssessmentExplorer(unlockedAt)] else [];
    var c := if avgScore >= 80 then [HighAchiever(unlockedAt)] else [];
    assert r == a + b + c + [StreakAchievement(unlockedAt)];
    assert forall i :: 0 <= i < |r| ==> r[i] in a || r[i] in b || r[i] in c || r[i] == StreakAchievement(unlockedAt);
    if assessments >= 1 { assert r[0].id == FirstAssessmentId; }
    if assessments >= 5 { assert r[|a|].id == AssessmentExplorerId; }
    if avgScore >= 80 { assert r[|a| + |b|].id == HighAchieverId; }
  }

  /** No achievement is listed twice. */
  lemma AchievementsDistinct(assessments: int, avgScore: int, unlockedAt: string)
    ensures var r := Achievements(assessments, avgScore, unlockedAt);
      forall i, j :: 0 <= i < j < |r| ==> r[i].id != r[j].id
  {
    var r := Achievements(assessments, avgScore, unlockedAt);
    var ids := [FirstAssessmentId, AssessmentExplorerId, HighAchieverId, LearningStreakId];
    assert forall i, j :: 0 <= i < j < |ids| ==> ids[i] != ids[j];
    assert forall i :: 0 <= i < |r| ==> r[i].id in ids;
  }

  method GenerateAchievements(assessments: int, avgScore: int, unlockedAt: string) returns (achievements: seq<Achievement>)
    ensures achievements == Achievements(assessments, avgScore, unlockedAt)
  {
    achievements := [];
    if assessments >= 1 {
      achievements := achievements + [FirstSteps(unlockedAt)];
    }
    if assessments >= 5 {
      achievements := achievements + [AssessmentExplorer(unlockedAt)];
    }
    if avgScore >= 80 {
      achievements := achievements + [HighAchiever(unlockedAt)];
    }
    achievements := achievements + [StreakAchievement(unlockedAt)];
  }
}
