/** The client's dashboard (ClientDashboard.tsx): the stat cards and the
    empty-state prompt. */
module ClientDashboard {
  import opened Wrappers
  import opened Entities

  /** `p.matches?.length || 0`. */
  function MatchLen(p: Project): nat {
    if p.matches.Some? then |p.matches.value| else 0
  }

  /** The reference sum of match counts, first project first. */
  function SumMatches(projects: seq<Project>): nat {
    if projects == [] then 0 else MatchLen(projects[0]) + SumMatches(projects[1..])
  }

  /** `projects.reduce((sum, p) => sum + ..., acc)`: a left fold, which
      adds acc to the reference sum. */
  function FoldMatches(acc: nat, projects: seq<Project>): (r: nat)
    ensures r == acc + SumMatches(projects)
    decreases projects
  {
    if projects == [] then acc else FoldMatches(acc + MatchLen(projects[0]), projects[1..])
  }

  /** The "Total Matches" figure. */
  function TotalMatches(projects: seq<Project>): (total: nat)
    ensures total == SumMatches(projects)
    ensures projects == [] ==> total == 0
  {
    FoldMatches(0, projects)
  }

  lemma {:induction false} SumMatchesConcat(a: seq<Project>, b: seq<Project>)
    ensures SumMatches(a + b) == SumMatches(a) + SumMatches(b)
  {
    if a == [] {
      assert a + b == b;
    } else {
      assert (a + b)[0] == a[0];
      assert (a + b)[1..] == a[1..] + b;
      SumMatchesConcat(a[1..], b);
    }
  }

  /** Posting a project (which goes first) raises the total by exactly its
      own match count. */
  lemma {:induction false} PrependAddsMatches(p: Project, projects: seq<Project>)
    ensures TotalMatches([p] + projects) == MatchLen(p) + TotalMatches(projects)
  {
    assert ([p] + projects)[1..] == projects;
  }

  /** The total does not depend on the order of the projects: any
      rearrangement of the same projects has the same total. */
  lemma {:induction false} TotalMatchesOrderFree(a: seq<Project>, b: seq<Project>)
    requires multiset(a) == multiset(b)
    ensures TotalMatches(a) == TotalMatches(b)
    decreases |a|
  {
    if a == [] {
      assert |b| == |multiset(b)| == 0;
    } else {
      assert a[0] in multiset(b);
      var j :| 0 <= j < |b| && b[j] == a[0];
      var rest := b[..j] + b[j + 1..];
      assert b == b[..j] + [b[j]] + b[j + 1..];
      assert a == [a[0]] + a[1..];
      assert multiset(a[1..]) == multiset(a) - multiset{a[0]};
      assert multiset(rest) == multiset(b) - multiset{b[j]};
      TotalMatchesOrderFree(a[1..], rest);
      SumMatchesConcat([a[0]], a[1..]);
      SumMatchesConcat(b[..j] + [b[j]], b[j + 1..]);
      SumMatchesConcat(b[..j], [b[j]]);
      SumMatchesConcat(b[..j], b[j + 1..]);
    }
  }

  /** The total is bounded by the projects' match lists: zero exactly when
      no project has a match. */
  lemma {:induction false} TotalMatchesZero(projects: seq<Project>)
    ensures TotalMatches(projects) == 0 <==> forall i :: 0 <= i < |projects| ==> MatchLen(projects[i]) == 0
  {
    if projects != [] {
      TotalMatchesZero(projects[1..]);
      assert forall i :: 1 <= i < |projects| ==> projects[i] == projects[1..][i - 1];
    }
  }

  datatype Stats = Stats(activeProjects: nat, totalMatches: nat, thisMonth: nat, showEmptyPrompt: bool)

  /** The three stat cards and whether the "No projects yet" prompt shows. */
  function DashboardStats(projects: seq<Project>): (st: Stats)
    ensures st.activeProjects == |projects| && st.thisMonth == |projects|
    ensures st.totalMatches == SumMatches(projects)
    ensures st.showEmptyPrompt <==> projects == []
  {
    Stats(|projects|, TotalMatches(projects), |projects|, |projects| == 0)
  }
}
