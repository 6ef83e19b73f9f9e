/** The dashboard: the summary cards over the stored assessment history (the
    average score is `ProgressTracker.AverageScore`), the score colour, the
    title shown for a career id and the colour of a stored readiness. The
    history is a parameter, newest first. */
module Dashboard {
  import opened Base
  import opened Types
  import Results
  import AIAssessment

  /** The colour family of a score or a readiness badge. */
  datatype Hue = Green | Yellow | Red

  function HueName(h: Hue): string
  {
    match h
    case Green => "green"
    case Yellow => "yellow"
    case Red => "red"
  }

  /** The family of `getScoreColor`: green from 80, yellow from 60, red below. */
  function ScoreHue(score: int): (h: Hue)
    ensures h == Green <==> score >= 80
    ensures h == Yellow <==> 60 <= score < 80
    ensures h == Red <==> score < 60
  {
    if score >= 80 then Green else if score >= 60 then Yellow else Red
  }

  /** `getScoreColor`: the family at shade 400 in dark mode, 600 otherwise. */
  function ScoreColor(score: int, isDarkMode: bool): (c: string)
    ensures score >= 80 ==> c == (if isDarkMode then "text-green-400" else "text-green-600")
    ensures 60 <= score < 80 ==> c == (if isDarkMode then "text-yellow-400" else "text-yellow-600")
    ensures score < 60 ==> c == (if isDarkMode then "text-red-400" else "text-red-600")
    ensures |c| == 9 + |HueName(ScoreHue(score))|
  {
    "text-" + HueName(ScoreHue(score)) + (if isDarkMode then "-400" else "-600")
  }

  /** Two scores get the same colour exactly when they fall in the same band. */
  lemma ScoreColorBands(a: int, b: int, isDarkMode: bool)
    ensures ScoreColor(a, isDarkMode) == ScoreColor(b, isDarkMode) <==> ScoreHue(a) == ScoreHue(b)
  {
    if ScoreColor(a, isDarkMode) == ScoreColor(b, isDarkMode) {
      assert |HueName(ScoreHue(a))| == |HueName(ScoreHue(b))|;
    }
  }

  /** The score colour follows the readiness the results page shows for the
      same score. */
  lemma ScoreHueIsReadiness(score: int)
    ensures ScoreHue(score) == Green <==> Results.DisplayedReadiness(score) == HighReadiness
    ensures ScoreHue(score) == Yellow <==> Results.DisplayedReadiness(score) == MediumReadiness
    ensures ScoreHue(score) == Red <==> Results.DisplayedReadiness(score) == LowReadiness
  {
  }

  /** The badge colour of a stored readiness: green for 'High', yellow for
      'Medium', red for anything else. */
  function ReadinessHue(level: string): (h: Hue)
    ensures h == Green <==> level == "High"
    ensures h == Yellow <==> level == "Medium"
  {
    if level == "High" then Green else if level == "Medium" then Yellow else Red
  }

  /** A level stored as the one the score implies is coloured like the score. */
  lemma ReadinessHueMatchesScore(score: int)
    ensures ReadinessHue(ReadinessName(Results.DisplayedReadiness(score))) == ScoreHue(score)
  {
  }

  /** The two colours of a row can disagree: the mock AI result of a career
      without skills, drawn with 0.99, scores green but its stored 'Medium'
      is yellow. */
  lemma StoredReadinessHueDisagrees(career: Career)
    requires career.skills == []
    ensures var r := AIAssessment.CompleteAssessment(career, [], 0.99);
      ScoreHue(r.overallScore) == Green && ReadinessHue(ReadinessName(r.readinessLevel)) == Yellow
  {
    Results.StoredReadinessIgnored(career);
  }

  predicate IsAI(e: HistoryEntry) { e.kind == AI }

  predicate IsStandard(e: HistoryEntry) { e.kind == Standard }

  /** The 'AI Assessments' card. */
  function AICount(rows: seq<HistoryEntry>): (n: nat)
    ensures n <= |rows|
    ensures n == 0 <==> forall i :: 0 <= i < |rows| ==> rows[i].kind == Standard
    ensures n == |set i | 0 <= i < |rows| && rows[i].kind == AI|
  {
    FilterCount(rows, IsAI);
    assert Passing(rows, IsAI) == set i | 0 <= i < |rows| && rows[i].kind == AI;
    FilterKeepsSome(rows, IsAI);
    |Filter(rows, IsAI)|
  }

  /** Every assessment is either an AI one or a standard one. */
  lemma AICountComplement(rows: seq<HistoryEntry>)
    ensures AICount(rows) + |Filter(rows, IsStandard)| == |rows|
  {
    FilterComplementLength(rows, IsAI, IsStandard);
  }

  /** The 'Last Assessment' card: the first row, none for an empty history. */
  function LastAssessment(rows: seq<HistoryEntry>): (last: Option<HistoryEntry>)
    ensures last.None? <==> rows == []
    ensures last.Some? ==> last.value in rows && last.value == rows[0]
  {
    if rows == [] then None else Some(rows[0])
  }

  /** `s.replace(c, d)` for one-character strings: only the first `c` changes. */
  function ReplaceFirst(s: string, c: char, d: char): (r: string)
    ensures |r| == |s|
    ensures c !in s ==> r == s
  {
    if s == [] then []
    else if s[0] == c then [d] + s[1..]
    else [s[0]] + ReplaceFirst(s[1..], c, d)
  }

  /** With the first `c` at `k`, replacing changes position `k` and nothing else. */
  lemma {:induction false} ReplaceFirstAt(s: string, c: char, d: char, k: nat)
    requires k < |s| && s[k] == c && c !in s[..k]
    ensures ReplaceFirst(s, c, d) == s[..k] + [d] + s[k + 1..]
  {
    if k > 0 {
      assert s[0] in s[..k];
      assert s[1..][..k - 1] == s[1..k];
      ReplaceFirstAt(s[1..], c, d, k - 1);
      assert s[..k] == [s[0]] + s[1..k];
    }
  }

  /** A character that `\w` matches. */
  predicate IsWordChar(c: char)
  {
    'a' <= c <= 'z' || 'A' <= c <= 'Z' || '0' <= c <= '9' || c == '_'
  }

  /** `toUpperCase` of a word character: only the lower-case letters change. */
  function Upper(c: char): (u: char)
    ensures IsWordChar(c) ==> IsWordChar(u)
    ensures !('a' <= u <= 'z')
  {
    if 'a' <= c <= 'z' then (c as int - 32) as char else c
  }

  /** Position `i` starts a word: a word character after a non-word one or
      at the very start. */
  predicate StartsWord(s: string, i: int)
    requires 0 <= i < |s|
  {
    IsWordChar(s[i]) && (i == 0 || !IsWordChar(s[i - 1]))
  }

  /** `s.replace(/\b\w/g, l => l.toUpperCase())`: the first character of each word in upper case. */
  function TitleCase(s: string): (r: string)
    ensures |r| == |s|
    ensures forall i :: 0 <= i < |s| ==> (IsWordChar(r[i]) <==> IsWordChar(s[i]))
    ensures forall i :: 0 <= i < |s| && !StartsWord(s, i) ==> r[i] == s[i]
    ensures forall i :: 0 <= i < |s| && StartsWord(s, i) ==> r[i] == Upper(s[i])
  {
    seq(|s|, i requires 0 <= i < |s| => if StartsWord(s, i) then Upper(s[i]) else s[i])
  }

  /** Title-casing twice is title-casing once. */
  lemma TitleCaseIdempotent(s: string)
    ensures TitleCase(TitleCase(s)) == TitleCase(s)
  {
    var t := TitleCase(s);
    forall i | 0 <= i < |s| ensures TitleCase(t)[i] == t[i] {
      assert StartsWord(t, i) <==> StartsWord(s, i);
    }
  }

  /** The title of a history row: the first '-' becomes a space, then each word is capitalised. */
  function CareerTitle(careerPath: string): (title: string)
    ensures |title| == |careerPath|
  {
    TitleCase(ReplaceFirst(careerPath, '-', ' '))
  }

  predicate IsLowerWord(w: string)
  {
    |w| > 0 && forall i :: 0 <= i < |w| ==> 'a' <= w[i] <= 'z'
  }

  /** A two-word id reads as the two words, capitalised, with a space. */
  lemma CareerTitleOfTwoWords(x: char, xs: string, y: char, ys: string)
    requires IsLowerWord([x] + xs) && IsLowerWord([y] + ys)
    ensures CareerTitle([x] + xs + "-" + [y] + ys) == [Upper(x)] + xs + " " + [Upper(y)] + ys
  {
    var a, b := [x] + xs, [y] + ys;
    var s := a + "-" + b;
    assert s == [x] + xs + "-" + [y] + ys;
    assert '-' !in a;
    assert s[|a|] == '-' && s[..|a|] == a;
    ReplaceFirstAt(s, '-', ' ', |a|);
    var spaced := ReplaceFirst(s, '-', ' ');
    assert spaced == a + " " + b;
    var expected := [Upper(x)] + xs + " " + [Upper(y)] + ys;
    var t := CareerTitle(s);
    forall i | 0 <= i < |s| ensures t[i] == expected[i] {
      if i < |a| {
        assert spaced[i] == a[i];
      } else if i > |a| {
        assert spaced[i] == b[i - |a| - 1];
      }
    }
  }
}
