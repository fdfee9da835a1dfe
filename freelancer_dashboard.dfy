/** The freelancer's dashboard (FreelancerDashboard.tsx): the average match
    percentage, the "your skill" marks on a project's technologies, the
    availability label and the stat counters. */
module FreelancerDashboard {
  import opened Wrappers
  import opened Entities
  import opened Seqs
  import opened Rounding
  import opened Matching

  /** `matches.reduce((sum, m) => sum + m.matchPercentage, 0)`; a NaN score
      makes the sum NaN. */
  function SumScores(ms: seq<ProjectMatch>): (r: Score)
    ensures r.NaN? <==> exists i :: 0 <= i < |ms| && ms[i].matchPercentage.NaN?
  {
    if ms == [] then Percent(0)
    else
      var rest := SumScores(ms[1..]);
      assert forall i :: 1 <= i < |ms| ==> ms[i] == ms[1..][i - 1];
      match (ms[0].matchPercentage, rest)
      case (Percent(a), Percent(b)) => Percent(a + b)
      case _ => NaN
  }

  /** The "Avg Match" figure: 0 without matches, otherwise the sum divided
      by the count and rounded (half up). */
  function AverageMatch(ms: seq<ProjectMatch>): (r: Score)
    ensures |ms| == 0 ==> r == Percent(0)
    ensures r.NaN? <==> exists i :: 0 <= i < |ms| && ms[i].matchPercentage.NaN?
    ensures |ms| > 0 && r.Percent? ==>
      (2 * r.value - 1) * |ms| <= 2 * SumScores(ms).value < (2 * r.value + 1) * |ms|
  {
    if |ms| == 0 then Percent(0)
    else
      match SumScores(ms)
      case NaN => NaN
      case Percent(s) => Percent(RoundDiv(s, |ms|))
  }

  /** With whole scores between lo and hi, the sum lies between |ms| * lo and
      |ms| * hi. */
  lemma {:induction false} SumScoresBetween(ms: seq<ProjectMatch>, lo: nat, hi: nat)
    requires forall i :: 0 <= i < |ms| ==>
      ms[i].matchPercentage.Percent? && lo <= ms[i].matchPercentage.value <= hi
    ensures SumScores(ms).Percent?
    ensures lo * |ms| <= SumScores(ms).value <= hi * |ms|
  {
    if ms != [] {
      var tail := ms[1..];
      assert forall i :: 0 <= i < |tail| ==> tail[i] == ms[i + 1];
      SumScoresBetween(tail, lo, hi);
      var v := ms[0].matchPercentage.value;
      var rest := SumScores(tail).value;
      assert SumScores(ms) == Percent(v + rest);
      MulSucc(lo, |tail|);
      MulSucc(hi, |tail|);
    }
  }

  lemma MulSucc(a: nat, n: nat)
    ensures a * (n + 1) == a * n + a
  {
  }

  /** The average of whole scores between lo and hi (in particular between
      their minimum and maximum) is itself between lo and hi. */
  lemma {:induction false} AverageMatchBetween(ms: seq<ProjectMatch>, lo: nat, hi: nat)
    requires |ms| > 0
    requires forall i :: 0 <= i < |ms| ==>
      ms[i].matchPercentage.Percent? && lo <= ms[i].matchPercentage.value <= hi
    ensures AverageMatch(ms).Percent?
    ensures lo <= AverageMatch(ms).value <= hi
  {
    SumScoresBetween(ms, lo, hi);
    RoundDivBetween(SumScores(ms).value, |ms|, lo, hi);
  }

  /** For the matches the session shows a freelancer, the average is a whole
      percentage from 50 to 100 (0 when there are none). */
  lemma {:induction false} DashboardAverageRange(profile: ProfileData, projects: seq<Project>, user: Option<User>)
    requires |FindMatchingProjects(Some(profile), projects, user)| > 0
    ensures var avg := AverageMatch(FindMatchingProjects(Some(profile), projects, user));
      avg.Percent? && 50 <= avg.value <= 100
  {
    var ms := FindMatchingProjects(Some(profile), projects, user);
    assert forall i :: 0 <= i < |ms| ==> ms[i] in ms;
    AverageMatchBetween(ms, 50, 100);
  }

  /** `profile.technologies.includes(tech)` for each required technology. */
  function SkillMarks(required: seq<string>, skills: seq<string>): (marks: seq<bool>)
    ensures |marks| == |required|
    ensures forall i :: 0 <= i < |marks| ==> (marks[i] <==> required[i] in skills)
  {
    seq(|required|, i requires 0 <= i < |required| => required[i] in skills)
  }

  /** The number of marked chips. */
  function Marked(marks: seq<bool>): nat {
    if marks == [] then 0 else (if marks[0] then 1 else 0) + Marked(marks[1..])
  }

  /** The marked chips are exactly the overlap that the match score counts. */
  lemma {:induction false} MarkedIsMatchCount(required: seq<string>, skills: seq<string>)
    ensures Marked(SkillMarks(required, skills)) == MatchCount(required, skills)
  {
    if required != [] {
      MarkedIsMatchCount(required[1..], skills);
      var marks := SkillMarks(required, skills);
      assert marks[1..] == SkillMarks(required[1..], skills);
      assert Filter(required, t => t in skills)
          == (if required[0] in skills then [required[0]] else []) + Filter(required[1..], t => t in skills);
    }
  }

  /** The position of the first '-', or |s| when there is none. */
  function FirstDash(s: string): (k: nat)
    ensures k <= |s|
    ensures '-' !in s[..k]
    ensures k < |s| <==> '-' in s
    ensures k < |s| ==> s[k] == '-'
  {
    var k := DashFrom(s, 0);
    assert forall c :: c in s[..k] ==> c != '-';
    k
  }

  /** The index of the first '-' at or after `i`, or |s| when there is none. */
  function DashFrom(s: string, i: nat): (k: nat)
    requires i <= |s|
    ensures i <= k <= |s|
    ensures forall j :: i <= j < k ==> s[j] != '-'
    ensures k < |s| ==> s[k] == '-'
    decreases |s| - i
  {
    if i == |s| then i
    else if s[i] == '-' then i
    else DashFrom(s, i + 1)
  }

  /** `s.replace('-', ' ')` with a string pattern: only the first '-' is
      replaced, everything else is kept. */
  function ReplaceFirstDash(s: string): (r: string)
    ensures |r| == |s|
    ensures '-' !in s ==> r == s
    ensures '-' in s ==> r == s[..FirstDash(s)] + " " + s[FirstDash(s) + 1..]
  {
    var k := FirstDash(s);
    if k == |s| then s else s[..k] + " " + s[k + 1..]
  }

  /** A '-' at k with none before it is the first one. */
  lemma FirstDashAt(s: string, k: nat)
    requires k < |s| && s[k] == '-' && '-' !in s[..k]
    ensures FirstDash(s) == k
  {
  }

  /** The label of a name made of two words joined by one '-'. */
  lemma {:induction false} ReplaceJoinedWords(left: string, right: string)
    requires '-' !in left
    ensures ReplaceFirstDash(left + "-" + right) == left + " " + right
  {
    var s := left + "-" + right;
    assert s[..|left|] == left;
    assert s[|left| + 1..] == right;
    FirstDashAt(s, |left|);
  }

  /** The availability shown under the profile. */
  function AvailabilityLabel(a: Availability): (s: string)
    ensures a == FullTime ==> s == "full time"
    ensures a == PartTime ==> s == "part time"
    ensures a == Contract ==> s == "contract"
  {
    match a
    case FullTime => FullTimeLabel(); ReplaceFirstDash(AvailabilityName(a))
    case PartTime => PartTimeLabel(); ReplaceFirstDash(AvailabilityName(a))
    case Contract => ReplaceFirstDash(AvailabilityName(a))
  }

  /** The two hyphenated names read with a space. */
  lemma FullTimeLabel()
    ensures ReplaceFirstDash("full-time") == "full time"
  {
  }

  lemma PartTimeLabel()
    ensures ReplaceFirstDash("part-time") == "part time"
  {
  }

  datatype Stats = Stats(projectMatches: nat, skills: nat, averageMatch: Score)

  /** The three stat cards. */
  function DashboardStats(profile: ProfileData, ms: seq<ProjectMatch>): (st: Stats)
    ensures st.projectMatches == |ms| && st.skills == |profile.technologies|
    ensures st.averageMatch == AverageMatch(ms)
  {
    Stats(|ms|, |profile.technologies|, AverageMatch(ms))
  }
}
