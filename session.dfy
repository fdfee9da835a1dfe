/** The session state of the client application (App.tsx) and the actions
    that change it: posting a project (which matches it against the
    freelancer pool and notifies the client of every match), dismissing a
    notification, saving a freelancer profile, signing in and logging out.
    The browser store's entries that these actions read or write (the
    signed-in user, the profiles, the known users and the project list) are
    fields of the session beside the in-memory state, so that a list the
    screen shows and the list the store keeps can differ, as they do after a
    logout. */
module Session {
  import opened Wrappers
  import opened Entities
  import opened Matching
  import opened Notifications
  import opened LocalStore
  import Decimal
  import opened Seqs

  /** The project built from the form's input at clock reading `now`
      (`Date.now().toString()` as id), with its matches attached. */
  function NewProject(input: ProjectInput, now: nat, pool: seq<Freelancer>): (p: Project)
    ensures p.id == Decimal.Show(now) && p.postedDate == now
    ensures p.title == input.title && p.description == input.description
    ensures p.budget == input.budget && p.technologies == input.technologies
    ensures p.matches == Some(FindMatchingFreelancers(pool, input.technologies))
    ensures forall f :: f in p.matches.value <==> f in pool && MeetsClientThreshold(input.technologies, f.technologies)
  {
    Project(Decimal.Show(now), input.title, input.description, input.budget, input.technologies, now,
            Some(FindMatchingFreelancers(pool, input.technologies)))
  }

  /** A new project's id is all digits, so when the matched freelancers'
      ids are distinct, its notifications' ids are distinct too and each
      one can be dismissed on its own (`Notifications.DismissUnique`). */
  lemma NewProjectNotificationIdsDistinct(input: ProjectInput, now: nat, pool: seq<Freelancer>, at: int)
    requires DistinctBy(FindMatchingFreelancers(pool, input.technologies), (f: Freelancer) => f.id)
    ensures var p := NewProject(input, now, pool);
      DistinctBy(DeriveNotifications(p, p.matches.value, at), (n: Notification) => n.id)
  {
    var p := NewProject(input, now, pool);
    assert forall i :: 0 <= i < |p.id| ==> Decimal.IsDigit(p.id[i]);
    DerivedIdsDistinct(p, p.matches.value, at);
  }

  /** The stored profile a freelancer's session loads, if any. */
  function StoredProfileOf(user: Option<User>, profiles: map<string, ProfileData>): (r: Option<ProfileData>)
    ensures r.Some? <==> user.Some? && user.value.userType == FreelancerAccount && user.value.id in profiles
    ensures r.Some? ==> r.value == profiles[user.value.id]
  {
    if user.Some? && user.value.userType == FreelancerAccount && user.value.id in profiles
    then Some(profiles[user.value.id])
    else None
  }

  class AppSession {
    var user: Option<User>
    var projects: seq<Project>
    /** The project list as last written to the store. */
    var storedProjects: seq<Project>
    /** The signed-in user as the store keeps it. */
    var storedUser: Option<User>
    var notifications: seq<Notification>
    var freelancerProfile: Option<ProfileData>
    /** Stored profiles by user id, and their keys in insertion order. */
    var profiles: map<string, ProfileData>
    var profileOrder: seq<string>
    /** The stored list of known users (name and email lookup). */
    var users: seq<User>
    /** The built-in sample freelancers. */
    const samples: seq<Freelancer>

    ghost predicate Valid()
      reads this`profileOrder, this`profiles
    {
      OrderedKeys(profileOrder, profiles)
    }

    /** Start-up: the stored user, profiles, users and projects are loaded,
        and a freelancer's own profile is picked up. The stored entries
        themselves stay as they were. */
    constructor (storedUser: Option<User>, storedProfiles: map<string, ProfileData>, storedOrder: seq<string>,
                 storedUsers: seq<User>, storedProjects: seq<Project>)
      requires OrderedKeys(storedOrder, storedProfiles)
      ensures Valid()
      ensures user == storedUser && projects == storedProjects && notifications == []
      ensures this.storedUser == storedUser && this.storedProjects == storedProjects
      ensures profiles == storedProfiles && profileOrder == storedOrder && users == storedUsers
      ensures freelancerProfile == StoredProfileOf(storedUser, storedProfiles)
      ensures samples == MockFreelancers
    {
      samples := MockFreelancers;
      user := storedUser;
      this.storedUser := storedUser;
      projects := storedProjects;
      this.storedProjects := storedProjects;
      notifications := [];
      profiles := storedProfiles;
      profileOrder := storedOrder;
      users := storedUsers;
      freelancerProfile := StoredProfileOf(storedUser, storedProfiles);
    }

    /** `allFreelancers`: registered freelancers first, then the samples. */
    function FreelancerPool(): (r: seq<Freelancer>)
      reads this`profileOrder, this`profiles, this`users
      requires Valid()
      ensures |r| == |profileOrder| + |samples|
      ensures r[..|profileOrder|] == RegisteredFreelancers(profileOrder, profiles, users)
      ensures r[|profileOrder|..] == samples
    {
      Pool(profileOrder, profiles, users, samples)
    }

    /** `findMatchingProjects()` over the session's projects. */
    function MatchingProjects(): (r: seq<ProjectMatch>)
      reads this
      ensures freelancerProfile.None? ==> r == []
      ensures Descending(r)
      ensures forall m :: m in r ==> m.matchPercentage.Percent? && 50 <= m.matchPercentage.value <= 100
      ensures freelancerProfile.Some? ==> forall m :: m in r <==>
        exists i :: 0 <= i < |projects| && m == ToProjectMatch(projects[i], freelancerProfile.value.technologies, ClientEmail(user))
                                         && MeetsFreelancerThreshold(m.matchPercentage)
    {
      FindMatchingProjects(freelancerProfile, projects, user)
    }

    /** `handleCreateProject`: without a signed-in user nothing happens;
        otherwise the new project goes first, carrying its matches, the
        whole in-memory list overwrites the stored one, and one notification
        per match goes ahead of the earlier notifications. */
    method CreateProject(input: ProjectInput, now: nat, notifiedAt: int)
      requires Valid()
      modifies this`projects, this`storedProjects, this`notifications
      ensures Valid()
      ensures old(user).None? ==>
        projects == old(projects) && storedProjects == old(storedProjects) && notifications == old(notifications)
      ensures old(user).Some? ==>
        var p := NewProject(input, now, old(FreelancerPool()));
        projects == [p] + old(projects) && storedProjects == projects &&
        notifications == DeriveNotifications(p, p.matches.value, notifiedAt) + old(notifications)
    {
      if user.None? {
        return;
      }
      var pool := FreelancerPool();
      var p := NewProject(input, now, pool);
      var updated := [p] + projects;
      var derived := DeriveNotifications(p, p.matches.value, notifiedAt);
      projects, storedProjects, notifications := updated, updated, derived + notifications;
    }

    /** `handleDismissNotification`. */
    method DismissNotification(id: string)
      requires Valid()
      modifies this`notifications
      ensures Valid()
      ensures notifications == Dismiss(old(notifications), id)
    {
      notifications := Dismiss(notifications, id);
    }

    /** `handleSaveFreelancerProfile`: the session's profile and the stored
        entry for the signed-in user are overwritten; nothing without a user. */
    method SaveFreelancerProfile(p: ProfileData)
      requires Valid()
      modifies this
      ensures Valid()
      ensures old(user).None? ==> unchanged(this)
      ensures old(user).Some? ==>
        freelancerProfile == Some(p) &&
        (profileOrder, profiles) == PutProfile(old(profileOrder), old(profiles), old(user).value.id, p)
      ensures old(user).Some? ==> forall k :: k in old(profiles) && k != old(user).value.id ==>
        k in profiles && profiles[k] == old(profiles)[k]
      ensures user == old(user) && projects == old(projects) && notifications == old(notifications)
      ensures users == old(users) && storedUser == old(storedUser) && storedProjects == old(storedProjects)
    {
      if user.None? {
        return;
      }
      freelancerProfile := Some(p);
      var stored := PutProfile(profileOrder, profiles, user.value.id, p);
      profileOrder, profiles := stored.0, stored.1;
    }

    /** A successful login or registration response: the user is signed in,
        recorded in the known-users list and in the store, and a freelancer's
        stored profile is loaded. A failed one (an alert) changes nothing. */
    method ApplyAuthResponse(r: Result<User, string>)
      requires Valid()
      modifies this
      ensures Valid()
      ensures r.Err? ==> unchanged(this)
      ensures r.Ok? ==> user == Some(r.value) && storedUser == user && users == UpsertUser(old(users), r.value)
      ensures r.Ok? ==>
        freelancerProfile == (if StoredProfileOf(user, profiles).Some? then StoredProfileOf(user, profiles)
                              else old(freelancerProfile))
      ensures projects == old(projects) && storedProjects == old(storedProjects) && notifications == old(notifications)
      ensures profiles == old(profiles) && profileOrder == old(profileOrder)
    {
      if r.Err? {
        return;
      }
      user := Some(r.value);
      storedUser := user;
      users := UpsertUser(users, r.value);
      var stored := StoredProfileOf(user, profiles);
      if stored.Some? {
        freelancerProfile := stored;
      }
    }

    /** `handleLogout`: the session is cleared and the stored user removed;
        the stored projects, profiles and known users stay, so the next
        start-up shows the stored projects again. */
    method Logout()
      requires Valid()
      modifies this
      ensures Valid()
      ensures user == None && freelancerProfile == None && projects == [] && notifications == []
      ensures storedUser == None && storedProjects == old(storedProjects)
      ensures profiles == old(profiles) && profileOrder == old(profileOrder) && users == old(users)
    {
      user := None;
      storedUser := None;
      freelancerProfile := None;
      projects := [];
      notifications := [];
    }
  }
}
