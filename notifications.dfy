/** Notification derivation and dismissal in the client application
    (App.tsx): one notification per matched freelancer, newest first,
    removed by id. */
module Notifications {
  import opened Entities
  import opened Seqs

  /** `${projectId}-${freelancerId}`. */
  function NotificationId(projectId: string, freelancerId: string): (id: string)
    ensures |id| == |projectId| + 1 + |freelancerId|
    ensures id[..|projectId|] == projectId && id[|projectId|] == '-' && id[|projectId| + 1..] == freelancerId
  {
    projectId + "-" + freelancerId
  }

  /** When project ids contain no '-', the notification id determines both
      the project id and the freelancer id: the first '-' marks where the
      project id ends. */
  lemma NotificationIdInjective(p1: string, p2: string, f1: string, f2: string)
    requires '-' !in p1 && '-' !in p2
    requires NotificationId(p1, f1) == NotificationId(p2, f2)
    ensures p1 == p2 && f1 == f2
  {
    var id := NotificationId(p1, f1);
    assert |p1| == |p2|;
    assert p1 == id[..|p1|] == p2;
  }

  /** `matchedFreelancers.map(...)`: one notification per matched freelancer,
      in match order, each pointing at the new project. */
  function DeriveNotifications(project: Project, matched: seq<Freelancer>, at: int): (r: seq<Notification>)
    ensures |r| == |matched|
    ensures forall i :: 0 <= i < |r| ==>
      r[i].id == NotificationId(project.id, matched[i].id) && r[i].projectId == project.id &&
      r[i].projectTitle == project.title && r[i].freelancer == matched[i] && r[i].timestamp == at
  {
    seq(|matched|, i requires 0 <= i < |matched| =>
      Notification(NotificationId(project.id, matched[i].id), project.id, project.title, matched[i], at))
  }

  /** For one '-'-free project id, different freelancer ids give different
      notification ids. */
  lemma NotificationIdsApart(p: string, f1: string, f2: string)
    requires '-' !in p && f1 != f2
    ensures NotificationId(p, f1) != NotificationId(p, f2)
  {
    if NotificationId(p, f1) == NotificationId(p, f2) {
      NotificationIdInjective(p, p, f1, f2);
    }
  }

  /** A project id without '-' and matched freelancers with distinct ids
      give notifications with distinct ids. */
  lemma DerivedIdsDistinct(project: Project, matched: seq<Freelancer>, at: int)
    requires '-' !in project.id
    requires DistinctBy(matched, (f: Freelancer) => f.id)
    ensures DistinctBy(DeriveNotifications(project, matched, at), (n: Notification) => n.id)
  {
    var r := DeriveNotifications(project, matched, at);
    forall i, j | 0 <= i < j < |r|
      ensures r[i].id != r[j].id
    {
      NotificationIdsApart(project.id, matched[i].id, matched[j].id);
    }
  }

  /** `prev.filter((n) => n.id !== notificationId)`. */
  function Dismiss(ns: seq<Notification>, id: string): (r: seq<Notification>)
    ensures forall n :: n in r <==> n in ns && n.id != id
    ensures Subsequence(r, ns)
  {
    FilterIsSubsequence(ns, (n: Notification) => n.id != id);
    Filter(ns, (n: Notification) => n.id != id)
  }

  /** Dismissing the same id twice is the same as dismissing it once. */
  lemma DismissIdempotent(ns: seq<Notification>, id: string)
    ensures Dismiss(Dismiss(ns, id), id) == Dismiss(ns, id)
  {
    FilterIdempotent(ns, (n: Notification) => n.id != id);
  }

  /** Dismissing an id no notification carries changes nothing. */
  lemma DismissAbsent(ns: seq<Notification>, id: string)
    requires forall i :: 0 <= i < |ns| ==> ns[i].id != id
    ensures Dismiss(ns, id) == ns
  {
    FilterAll(ns, (n: Notification) => n.id != id);
  }

  /** Dismissal acts on the newest and the older notifications separately. */
  lemma DismissConcat(newer: seq<Notification>, older: seq<Notification>, id: string)
    ensures Dismiss(newer + older, id) == Dismiss(newer, id) + Dismiss(older, id)
  {
    FilterConcat(newer, older, (n: Notification) => n.id != id);
  }

  /** Dismissing the id of the one notification that carries it removes
      exactly that notification. */
  lemma DismissAround(before: seq<Notification>, n: Notification, after: seq<Notification>)
    requires forall i :: 0 <= i < |before| ==> before[i].id != n.id
    requires forall i :: 0 <= i < |after| ==> after[i].id != n.id
    ensures Dismiss(before + [n] + after, n.id) == before + after
  {
    FilterRemovesOne(before, n, after, (m: Notification) => m.id != n.id);
  }

  /** With distinct ids, dismissing the id of entry k removes exactly that
      entry and keeps the others in order. */
  lemma DismissUnique(ns: seq<Notification>, k: nat)
    requires k < |ns|
    requires DistinctBy(ns, (n: Notification) => n.id)
    ensures Dismiss(ns, ns[k].id) == ns[..k] + ns[k + 1..]
  {
    var before, after := ns[..k], ns[k + 1..];
    assert forall i :: 0 <= i < |before| ==> before[i] == ns[i];
    assert forall i :: 0 <= i < |after| ==> after[i] == ns[k + 1 + i];
    assert ns == before + [ns[k]] + after;
    DismissAround(before, ns[k], after);
  }
}
