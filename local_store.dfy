/** The browser-side store of the client application (App.tsx): the list
    of known users, the map from user id to freelancer profile, and the
    freelancer pool derived from them ahead of the built-in sample
    freelancers. JSON encoding is not modelled; the stored values are
    Dafny values. The profiles object's key order (the order
    Object.entries reports) is kept as a sequence of keys in insertion
    order. */
module LocalStore {
  import opened Wrappers
  import opened Entities
  import opened Seqs

  /** `users.findIndex((x) => x.id === id)`. */
  function FindIndex(users: seq<User>, id: string): (i: int)
    ensures -1 <= i < |users|
    ensures i == -1 <==> forall j :: 0 <= j < |users| ==> users[j].id != id
    ensures i >= 0 ==> users[i].id == id && forall j :: 0 <= j < i ==> users[j].id != id
  {
    if users == [] then -1
    else if users[0].id == id then 0
    else
      var k := FindIndex(users[1..], id);
      if k == -1 then -1 else k + 1
  }

  /** `storedUsers.find((x) => x.id === id)`: the first user with that id. */
  function FindUser(users: seq<User>, id: string): (r: Option<User>)
    ensures r.None? <==> forall j :: 0 <= j < |users| ==> users[j].id != id
    ensures r.Some? ==> r.value == users[FindIndex(users, id)]
  {
    var i := FindIndex(users, id);
    if i >= 0 then Some(users[i]) else None
  }

  /** `upsertLocalUser`: replace the first entry with the same id, or append. */
  function UpsertUser(users: seq<User>, u: User): (r: seq<User>)
    ensures FindIndex(users, u.id) >= 0 ==>
      |r| == |users| && r[FindIndex(users, u.id)] == u &&
      forall j :: 0 <= j < |users| && j != FindIndex(users, u.id) ==> r[j] == users[j]
    ensures FindIndex(users, u.id) == -1 ==> r == users + [u]
  {
    var i := FindIndex(users, u.id);
    if i >= 0 then users[i := u] else users + [u]
  }


  /** After an upsert, looking the id up finds exactly the upserted user. */
  lemma UpsertThenFind(users: seq<User>, u: User)
    ensures FindUser(UpsertUser(users, u), u.id) == Some(u)
  {
    var r := UpsertUser(users, u);
    var i := FindIndex(users, u.id);
    if i == -1 {
      assert r[|users|] == u;
      assert forall j :: 0 <= j < |users| ==> r[j] == users[j];
    } else {
      assert forall j :: 0 <= j < i ==> r[j] == users[j];
    }
  }

  /** Upserting never creates a second entry for an id. */
  lemma UpsertKeepsIdsDistinct(users: seq<User>, u: User)
    requires DistinctBy(users, (v: User) => v.id)
    ensures DistinctBy(UpsertUser(users, u), (v: User) => v.id)
  {
    var r := UpsertUser(users, u);
    var i := FindIndex(users, u.id);
    if i == -1 {
      assert forall j :: 0 <= j < |users| ==> r[j] == users[j];
    }
  }

  /** The profile map's keys, each once, in insertion order. */
  ghost predicate OrderedKeys(order: seq<string>, profiles: map<string, ProfileData>) {
    Distinct(order) &&
    (forall k :: k in profiles <==> k in order)
  }

  /** `storedProfiles[id] = profileData`: an existing key keeps its place, a
      new key goes last. */
  function PutProfile(order: seq<string>, profiles: map<string, ProfileData>, id: string, p: ProfileData)
    : (r: (seq<string>, map<string, ProfileData>))
    ensures r.1 == profiles[id := p]
    ensures OrderedKeys(order, profiles) ==> OrderedKeys(r.0, r.1)
    ensures id in order ==> r.0 == order
    ensures id !in order ==> r.0 == order + [id]
  {
    if id in order then (order, profiles[id := p]) else (order + [id], profiles[id := p])
  }

  /** Saving the same profile twice stores the same as saving it once. */
  lemma PutProfileIdempotent(order: seq<string>, profiles: map<string, ProfileData>, id: string, p: ProfileData)
    ensures var once := PutProfile(order, profiles, id, p);
            PutProfile(once.0, once.1, id, p) == once
  {
    var once := PutProfile(order, profiles, id, p);
    assert id in once.0 by {
      if id !in order {
        assert once.0[|order|] == id;
      }
    }
    assert once.1[id := p] == once.1;
  }

  const Placeholder := "https://via.placeholder.com/150"

  /** The pool entry for one stored profile. */
  function ToFreelancer(id: string, profile: ProfileData, user: Option<User>): (f: Freelancer)
    ensures f.id == id && f.title == profile.title && f.technologies == profile.technologies
    ensures f.hourlyRate == profile.hourlyRate && f.experience == profile.experience
    ensures f.name == "Unknown" <==> user.None? || user.value.name in {"", "Unknown"}
    ensures user.Some? && user.value.name != "" ==> f.name == user.value.name
    ensures f.email == (if user.Some? then user.value.email else "")
    ensures f.avatar == Placeholder <==> profile.avatar in {None, Some(""), Some(Placeholder)}
    ensures profile.avatar.Some? && profile.avatar.value != "" ==> f.avatar == profile.avatar.value
  {
    Freelancer(
      id,
      if user.Some? && user.value.name != "" then user.value.name else "Unknown",
      if user.Some? then user.value.email else "",
      profile.title,
      profile.technologies,
      profile.hourlyRate,
      profile.experience,
      if profile.avatar.Some? && profile.avatar.value != "" then profile.avatar.value else Placeholder)
  }

  /** `Object.entries(storedProfiles).map(...)`: one freelancer per stored
      profile, in key order, named after the stored user with that id. */
  function RegisteredFreelancers(order: seq<string>, profiles: map<string, ProfileData>, users: seq<User>)
    : (r: seq<Freelancer>)
    requires forall i :: 0 <= i < |order| ==> order[i] in profiles
    ensures |r| == |order|
    ensures forall i :: 0 <= i < |r| ==>
      r[i] == ToFreelancer(order[i], profiles[order[i]], FindUser(users, order[i]))
  {
    seq(|order|, i requires 0 <= i < |order| => ToFreelancer(order[i], profiles[order[i]], FindUser(users, order[i])))
  }

  /** The built-in sample freelancers, listed after the registered ones. */
  const MockFreelancers: seq<Freelancer> := [
    Freelancer("1", "Ankita", "sarah.j@example.com", "Full Stack Developer",
      ["React", "Node.js", "TypeScript", "MongoDB"], 85, 5,
      "https://images.unsplash.com/photo-1494790108377-be9c29b29330?w=150&h=150&fit=crop"),
    Freelancer("2", "Raj", "mchen@example.com", "Backend Specialist",
      ["Python", "Django", "PostgreSQL", "AWS"], 95, 7,
      "https://images.unsplash.com/photo-1507003211169-0a1dd7228f2d?w=150&h=150&fit=crop"),
    Freelancer("3", "Shyamala", "emily.r@example.com", "React Developer",
      ["React", "Next.js", "TypeScript", "GraphQL"], 80, 4,
      "https://images.unsplash.com/photo-1438761681033-6461ffad8d80?w=150&h=150&fit=crop"),
    Freelancer("4", "Akhil", "david.kim@example.com", "DevOps Engineer",
      ["AWS", "Docker", "Node.js", "Python"], 100, 6,
      "https://images.unsplash.com/photo-1500648767791-00dcc994a43e?w=150&h=150&fit=crop"),
    Freelancer("5", "Shreyank", "lisa.a@example.com", "Frontend Developer",
      ["Vue.js", "TypeScript", "GraphQL"], 75, 3,
      "https://images.unsplash.com/photo-1487412720507-e7ab37603c6f?w=150&h=150&fit=crop"),
    Freelancer("6", "Saurabh", "jwilson@example.com", "Full Stack Engineer",
      ["React", "Node.js", "PostgreSQL", "Docker"], 90, 5,
      "https://images.unsplash.com/photo-1472099645785-5658abf4ff4e?w=150&h=150&fit=crop")
  ]

  /** `[...registeredFreelancers, ...mockFreelancers]`, with the samples
      passed in. */
  function Pool(order: seq<string>, profiles: map<string, ProfileData>, users: seq<User>, samples: seq<Freelancer>)
    : (r: seq<Freelancer>)
    requires forall i :: 0 <= i < |order| ==> order[i] in profiles
    ensures |r| == |order| + |samples|
    ensures r[..|order|] == RegisteredFreelancers(order, profiles, users)
    ensures r[|order|..] == samples
  {
    var reg := RegisteredFreelancers(order, profiles, users);
    assert (reg + samples)[..|order|] == reg;
    reg + samples
  }
}
