/** The matching engine of the client application (App.tsx).

    Client side: a freelancer qualifies for a project with n required
    technologies when at least ceil(n * 0.5) of them occur among the
    freelancer's technologies.

    Freelancer side: a project scores round(count / n * 100) percent
    against the freelancer's profile, projects scoring at least 50 are
    kept, and they are stably sorted by score, highest first. A project
    with no technologies scores NaN and is never kept.

    The two thresholds are different rules; they agree for n <= 100 and
    first disagree at n = 101. */
module Matching {
  import opened Wrappers
  import opened Entities
  import opened Seqs
  import opened Rounding

  /** Number of entries of `required` found in `candidate`; a required
      technology listed twice counts twice. */
  function MatchCount(required: seq<string>, candidate: seq<string>): (c: nat)
    ensures c <= |required|
    ensures c == 0 <==> forall t :: t in required ==> t !in candidate
    ensures c == |required| <==> forall t :: t in required ==> t in candidate
  {
    var found := Filter(required, t => t in candidate);
    FilterKeepsAll(required, t => t in candidate);
    assert forall t :: t in required ==> exists i :: 0 <= i < |required| && required[i] == t;
    assert |found| > 0 ==> found[0] in found;
    |found|
  }

  /** Math.ceil(n * 0.5): the least whole number that is at least half of n. */
  function HalfCeil(n: nat): (h: nat)
    ensures n <= 2 * h <= n + 1
  {
    (n + 1) / 2
  }

  /** The client-side rule: enough required technologies are covered. */
  function MeetsClientThreshold(required: seq<string>, candidate: seq<string>): (ok: bool)
    ensures ok <==> 2 * MatchCount(required, candidate) >= |required|
  {
    MatchCount(required, candidate) >= HalfCeil(|required|)
  }

  /** The freelancers of `pool` that qualify for a project requiring `required`,
      in pool order, each as many times as the pool holds it. */
  function FindMatchingFreelancers(pool: seq<Freelancer>, required: seq<string>): (r: seq<Freelancer>)
    ensures forall f :: f in r <==> f in pool && MeetsClientThreshold(required, f.technologies)
    ensures forall f {:trigger multiset(r)[f]} :: multiset(r)[f] == if MeetsClientThreshold(required, f.technologies) then multiset(pool)[f] else 0
    ensures Subsequence(r, pool)
  {
    FilterIsSubsequence(pool, (f: Freelancer) => MeetsClientThreshold(required, f.technologies));
    forall f: Freelancer
      ensures multiset(Filter(pool, (f: Freelancer) => MeetsClientThreshold(required, f.technologies)))[f]
           == if MeetsClientThreshold(required, f.technologies) then multiset(pool)[f] else 0
    {
      FilterMultiset(pool, (f: Freelancer) => MeetsClientThreshold(required, f.technologies), f);
    }
    Filter(pool, (f: Freelancer) => MeetsClientThreshold(required, f.technologies))
  }

  /** With no required technology, every freelancer of the pool qualifies. */
  lemma EmptyRequirementMatchesAll(pool: seq<Freelancer>)
    ensures FindMatchingFreelancers(pool, []) == pool
  {
    FilterAll(pool, (f: Freelancer) => MeetsClientThreshold([], f.technologies));
  }

  /** Math.round(count / n * 100): NaN when n is zero (0 / 0), otherwise the
      nearest whole percentage, halves rounded up. */
  function MatchPercentage(required: seq<string>, candidate: seq<string>): (s: Score)
    ensures s.NaN? <==> |required| == 0
    ensures s.Percent? ==> s.value <= 100
    ensures s.Percent? ==>
      (2 * s.value - 1) * |required| <= 200 * MatchCount(required, candidate) < (2 * s.value + 1) * |required|
  {
    var n := |required|;
    var c := MatchCount(required, candidate);
    if n == 0 then NaN
    else
      RoundDivBetween(100 * c, n, 0, 100);
      Percent(RoundDiv(100 * c, n))
  }

  /** The freelancer-side rule: `matchPercentage >= 50`, false for NaN. */
  function MeetsFreelancerThreshold(s: Score): (ok: bool)
    ensures s.NaN? ==> !ok
    ensures s.Percent? ==> (ok <==> s.value >= 50)
  {
    s.Percent? && s.value >= 50
  }

  /** The freelancer-side rule in integer terms: 200 * count >= 99 * n. */
  lemma {:induction false} FreelancerThresholdIff(required: seq<string>, candidate: seq<string>)
    requires |required| > 0
    ensures MeetsFreelancerThreshold(MatchPercentage(required, candidate))
        <==> 200 * MatchCount(required, candidate) >= 99 * |required|
  {
    RoundDivAtLeast(100 * MatchCount(required, candidate), |required|, 50);
  }

  /** For one to a hundred required technologies the two rules agree. */
  lemma {:induction false} ThresholdsAgreeUpTo100(required: seq<string>, candidate: seq<string>)
    requires 1 <= |required| <= 100
    ensures MeetsClientThreshold(required, candidate)
        <==> MeetsFreelancerThreshold(MatchPercentage(required, candidate))
  {
    FreelancerThresholdIff(required, candidate);
  }

  /** From 101 required technologies on, an odd requirement count n with
      n / 2 (rounded down) of them covered passes the freelancer-side rule
      (the percentage rounds to 50) but fails the client-side rule. */
  lemma {:induction false} ThresholdsDisagreeFrom101(required: seq<string>, candidate: seq<string>)
    requires |required| >= 101 && |required| % 2 == 1
    requires MatchCount(required, candidate) == |required| / 2
    ensures !MeetsClientThreshold(required, candidate)
    ensures MeetsFreelancerThreshold(MatchPercentage(required, candidate))
  {
    FreelancerThresholdIff(required, candidate);
  }

  /** `user?.email || ''`. */
  function ClientEmail(user: Option<User>): (e: string)
    ensures user.None? ==> e == ""
    ensures user.Some? ==> e == user.value.email
  {
    if user.Some? then user.value.email else ""
  }

  /** The read-model row for one project, scored against the freelancer's
      technologies. */
  function ToProjectMatch(p: Project, skills: seq<string>, clientEmail: string): (m: ProjectMatch)
    ensures m.id == p.id && m.title == p.title && m.description == p.description
    ensures m.budget == p.budget && m.technologies == p.technologies && m.postedDate == p.postedDate
    ensures m.clientName == "Client" && m.clientEmail == clientEmail
    ensures m.matchPercentage == MatchPercentage(p.technologies, skills)
    ensures m.matchPercentage.NaN? <==> |m.technologies| == 0
    ensures m.matchPercentage.Percent? ==> m.matchPercentage.value <= 100
  {
    ProjectMatch(p.id, p.title, p.description, p.budget, p.technologies, p.postedDate,
                 "Client", clientEmail, MatchPercentage(p.technologies, skills))
  }

  /** `projects.map(...)`. */
  function ScoreProjects(projects: seq<Project>, skills: seq<string>, clientEmail: string): (r: seq<ProjectMatch>)
    ensures |r| == |projects|
    ensures forall i :: 0 <= i < |r| ==> r[i] == ToProjectMatch(projects[i], skills, clientEmail)
  {
    seq(|projects|, i requires 0 <= i < |projects| => ToProjectMatch(projects[i], skills, clientEmail))
  }

  /** `.filter((match) => match.matchPercentage >= 50)`. */
  function Qualifying(ms: seq<ProjectMatch>): (r: seq<ProjectMatch>)
    ensures forall m :: m in r <==> m in ms && MeetsFreelancerThreshold(m.matchPercentage)
    ensures Subsequence(r, ms)
  {
    FilterIsSubsequence(ms, (m: ProjectMatch) => MeetsFreelancerThreshold(m.matchPercentage));
    Filter(ms, (m: ProjectMatch) => MeetsFreelancerThreshold(m.matchPercentage))
  }

  /** Lists with the same multiset have the same members. */
  lemma SameMembers(a: seq<ProjectMatch>, b: seq<ProjectMatch>)
    requires multiset(a) == multiset(b)
    ensures forall m :: m in a <==> m in b
  {
    forall m ensures m in a <==> m in b {
      assert m in a <==> m in multiset(a);
      assert m in b <==> m in multiset(b);
    }
  }

  /** The sort key; every kept match has a whole percentage. */
  function Key(m: ProjectMatch): nat {
    match m.matchPercentage
    case Percent(v) => v
    case NaN => 0
  }

  ghost predicate Descending(s: seq<ProjectMatch>) {
    forall i, j :: 0 <= i < j < |s| ==> Key(s[i]) >= Key(s[j])
  }

  /** Places `m` before the first element whose key is not greater. */
  function InsertByMatch(m: ProjectMatch, s: seq<ProjectMatch>): (r: seq<ProjectMatch>)
    ensures multiset(r) == multiset(s) + multiset{m}
  {
    if s == [] then [m]
    else if Key(m) >= Key(s[0]) then [m] + s
    else
      assert s == [s[0]] + s[1..];
      [s[0]] + InsertByMatch(m, s[1..])
  }

  lemma {:induction false} InsertByMatchBounded(m: ProjectMatch, s: seq<ProjectMatch>, b: nat)
    requires Key(m) <= b
    requires forall i :: 0 <= i < |s| ==> Key(s[i]) <= b
    ensures forall i :: 0 <= i < |InsertByMatch(m, s)| ==> Key(InsertByMatch(m, s)[i]) <= b
  {
    if s != [] && Key(m) < Key(s[0]) {
      InsertByMatchBounded(m, s[1..], b);
    }
  }

  lemma {:induction false} InsertByMatchDescending(m: ProjectMatch, s: seq<ProjectMatch>)
    requires Descending(s)
    ensures Descending(InsertByMatch(m, s))
  {
    if s != [] && Key(m) < Key(s[0]) {
      var t := InsertByMatch(m, s[1..]);
      InsertByMatchDescending(m, s[1..]);
      InsertByMatchBounded(m, s[1..], Key(s[0]));
      var r := [s[0]] + t;
      forall i, j | 0 <= i < j < |r| ensures Key(r[i]) >= Key(r[j]) {
        assert r[j] == t[j - 1];
        if i > 0 {
          assert r[i] == t[i - 1];
        }
      }
    }
  }

  /** `.sort((a, b) => b.matchPercentage - a.matchPercentage)`: a stable sort,
      highest score first. */
  function SortByMatch(s: seq<ProjectMatch>): (r: seq<ProjectMatch>)
    ensures multiset(r) == multiset(s)
    ensures Descending(r)
  {
    if s == [] then []
    else
      var t := SortByMatch(s[1..]);
      InsertByMatchDescending(s[0], t);
      assert s == [s[0]] + s[1..];
      InsertByMatch(s[0], t)
  }

  /** The elements of `s` with key `k`, in order. */
  function WithKey(s: seq<ProjectMatch>, k: nat): seq<ProjectMatch> {
    if s == [] then []
    else (if Key(s[0]) == k then [s[0]] else []) + WithKey(s[1..], k)
  }

  lemma WithKeyCons(x: ProjectMatch, s: seq<ProjectMatch>, k: nat)
    ensures WithKey([x] + s, k) == (if Key(x) == k then [x] else []) + WithKey(s, k)
  {
    assert ([x] + s)[0] == x;
    assert ([x] + s)[1..] == s;
  }

  lemma {:induction false} InsertWithKey(m: ProjectMatch, s: seq<ProjectMatch>, k: nat)
    ensures WithKey(InsertByMatch(m, s), k) == (if Key(m) == k then [m] else []) + WithKey(s, k)
  {
    if s == [] {
      WithKeyCons(m, [], k);
    } else if Key(m) >= Key(s[0]) {
      assert InsertByMatch(m, s) == [m] + s;
      WithKeyCons(m, s, k);
    } else {
      var t := InsertByMatch(m, s[1..]);
      assert InsertByMatch(m, s) == [s[0]] + t;
      InsertWithKey(m, s[1..], k);
      WithKeyCons(s[0], t, k);
      assert s == [s[0]] + s[1..];
      WithKeyCons(s[0], s[1..], k);
      SwapEmpty(Key(m) == k, m, Key(s[0]) == k, s[0], WithKey(s[1..], k));
    }
  }

  /** Two optional singletons of which at least one is empty commute. */
  lemma SwapEmpty(b1: bool, x: ProjectMatch, b2: bool, y: ProjectMatch, rest: seq<ProjectMatch>)
    requires !(b1 && b2)
    ensures (if b2 then [y] else []) + ((if b1 then [x] else []) + rest)
         == (if b1 then [x] else []) + ((if b2 then [y] else []) + rest)
  {
  }

  /** The sort is stable: among matches with the same score, the original
      order is kept. */
  lemma {:induction false} SortByMatchStable(s: seq<ProjectMatch>, k: nat)
    ensures WithKey(SortByMatch(s), k) == WithKey(s, k)
  {
    if s != [] {
      SortByMatchStable(s[1..], k);
      InsertWithKey(s[0], SortByMatch(s[1..]), k);
    }
  }

  /** The projects matching a freelancer's profile, best first. Empty when
      the freelancer has no profile. */
  function FindMatchingProjects(profile: Option<ProfileData>, projects: seq<Project>, user: Option<User>)
    : (r: seq<ProjectMatch>)
    ensures profile.None? ==> r == []
    ensures Descending(r)
    ensures forall m :: m in r ==>
      m.matchPercentage.Percent? && 50 <= m.matchPercentage.value <= 100 && |m.technologies| > 0
    ensures profile.Some? ==> forall m :: m in r <==>
      exists i :: 0 <= i < |projects| && m == ToProjectMatch(projects[i], profile.value.technologies, ClientEmail(user))
                                       && MeetsFreelancerThreshold(m.matchPercentage)
  {
    if profile.None? then []
    else
      var scored := ScoreProjects(projects, profile.value.technologies, ClientEmail(user));
      var kept := Qualifying(scored);
      var r := SortByMatch(kept);
      SameMembers(r, kept);
      r
  }

  /** Filtering at 50% keeps every row whose score is 50 or more, so the
      rows with such a score are the same before and after the filter. */
  lemma {:induction false} QualifyingWithKey(ms: seq<ProjectMatch>, k: nat)
    requires k >= 50
    ensures WithKey(Qualifying(ms), k) == WithKey(ms, k)
  {
    if ms != [] {
      QualifyingWithKey(ms[1..], k);
      assert ms == [ms[0]] + ms[1..];
      WithKeyCons(ms[0], ms[1..], k);
      var p := (m: ProjectMatch) => MeetsFreelancerThreshold(m.matchPercentage);
      if p(ms[0]) {
        assert Qualifying(ms) == [ms[0]] + Qualifying(ms[1..]);
        WithKeyCons(ms[0], Qualifying(ms[1..]), k);
      } else {
        assert Qualifying(ms) == Qualifying(ms[1..]);
        assert Key(ms[0]) < 50;
      }
    }
  }

  /** Matches with equal scores appear in the order of the project list. */
  lemma {:induction false} FindMatchingProjectsStable(profile: ProfileData, projects: seq<Project>, user: Option<User>, k: nat)
    requires k >= 50
    ensures WithKey(FindMatchingProjects(Some(profile), projects, user), k)
         == WithKey(ScoreProjects(projects, profile.technologies, ClientEmail(user)), k)
  {
    var scored := ScoreProjects(projects, profile.technologies, ClientEmail(user));
    SortByMatchStable(Qualifying(scored), k);
    QualifyingWithKey(scored, k);
  }
}
