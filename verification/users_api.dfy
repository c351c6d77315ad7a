/**
 * /api/users (src/app/api/users/route.ts): GET lists the agents and the other real users,
 * creating the four agent accounts the first time none exists; PATCH edits the caller's
 * own profile or presence.
 */
module UsersApi {
  import opened Common
  import opened Wire
  import opened Store
  import Agents

  // ------------------------------------------------------------------------ GET

  /** One entry of the `users` array. Real users carry no `personality`. */
  datatype UserView = UserView(
    id: UserId,
    name: string,
    email: string,
    avatar: Option<string>,
    isOnline: bool,
    lastSeen: Time,
    isAgent: bool,
    personality: Option<string>)

  /** `User.find({ isAgent: true })`, in natural order. */
  function AgentsOf(us: seq<UserDoc>): (r: seq<UserDoc>)
    ensures forall x :: x in r <==> x in us && x.isAgent
    ensures |r| <= |us|
    decreases |us|
  {
    if us == [] then []
    else
      assert us == [us[0]] + us[1..];
      (if us[0].isAgent then [us[0]] else []) + AgentsOf(us[1..])
  }

  /** `User.find({ _id: { $ne: u }, isAgent: false })`, in natural order. */
  function OthersOf(us: seq<UserDoc>, u: UserId): (r: seq<UserDoc>)
    ensures forall x :: x in r <==> x in us && !x.isAgent && x.id != u
    decreases |us|
  {
    if us == [] then []
    else
      assert us == [us[0]] + us[1..];
      (if !us[0].isAgent && us[0].id != u then [us[0]] else []) + OthersOf(us[1..], u)
  }

  /** An agent's entry: shown online whatever is stored. */
  function AgentView(a: UserDoc): UserView {
    UserView(a.id, a.name, a.email, OrNull(a.avatar), true, a.lastSeen, true, a.personality)
  }

  function RealView(r: UserDoc): UserView {
    UserView(r.id, r.name, r.email, OrNull(r.avatar), r.isOnline, r.lastSeen, false, None)
  }

  /** `formattedUsers`: the agents, then the real users. */
  function Listing(agents: seq<UserDoc>, others: seq<UserDoc>): (r: seq<UserView>)
    ensures |r| == |agents| + |others|
    ensures forall i :: 0 <= i < |agents| ==> r[i] == AgentView(agents[i])
    ensures forall i :: 0 <= i < |others| ==> r[|agents| + i] == RealView(others[i])
  {
    seq(|agents|, i requires 0 <= i < |agents| => AgentView(agents[i]))
      + seq(|others|, i requires 0 <= i < |others| => RealView(others[i]))
  }

  /**
   * `avatar || null`: an entry's avatar is null exactly when the stored avatar is absent
   * or empty, and otherwise the stored one, for agents and real users alike.
   */
  lemma ListingAvatars(agents: seq<UserDoc>, others: seq<UserDoc>, i: nat)
    requires i < |agents| + |others|
    ensures var x := if i < |agents| then agents[i] else others[i - |agents|];
      var v := Listing(agents, others)[i];
      && (v.avatar.None? <==> x.avatar.None? || x.avatar.value == "")
      && (v.avatar.Some? ==> v.avatar == x.avatar)
  {
    if i >= |agents| {
      assert Listing(agents, others)[|agents| + (i - |agents|)] == RealView(others[i - |agents|]);
    }
  }

  /** The account created for one agent profile: hashed 'agent-password', online, agent. */
  function SeedUser(p: Agents.AgentProfile, id: UserId, now: Time): UserDoc {
    UserDoc(id, p.email, Bcrypt("agent-password", 12), p.name, None, true, Some(p.personality),
            None, None, true, now, now, now)
  }

  /** The first `n` agent accounts, in `agentProfiles` order. */
  function Seeded(ids: seq<UserId>, n: nat, now: Time): (r: seq<UserDoc>)
    requires n <= |Agents.AgentProfiles| && n <= |ids|
    ensures |r| == n
  {
    seq(n, i requires 0 <= i < n => SeedUser(Agents.AgentProfiles[i], ids[i], now))
  }

  /** Some agent profile's email is already taken, so seeding stops with a duplicate-key error. */
  predicate SeedingClashes(us: seq<UserDoc>) {
    exists i :: 0 <= i < |Agents.AgentProfiles| && EmailTaken(us, Agents.AgentProfiles[i].email)
  }

  /**
   * The seeding loop: one `User.create` per profile, in order. A taken email throws and
   * ends the loop, keeping the accounts already created.
   */
  method SeedAgents(db: Db, ids: seq<UserId>, now: Time) returns (ok: bool)
    requires db.Valid()
    requires |ids| == |Agents.AgentProfiles|
    requires forall i, j :: 0 <= i < j < |ids| ==> ids[i] != ids[j]
    requires forall i :: 0 <= i < |ids| ==> !db.HasUserId(ids[i])
    modifies db`users
    ensures db.Valid()
    ensures ok <==> !SeedingClashes(old(db.users))
    ensures ok ==> db.users == old(db.users) + Seeded(ids, 4, now)
    ensures !ok ==> exists n :: (0 <= n < 4 && db.users == old(db.users) + Seeded(ids, n, now)
      && EmailTaken(old(db.users), Agents.AgentProfiles[n].email)
      && forall k :: 0 <= k < n ==> !EmailTaken(old(db.users), Agents.AgentProfiles[k].email))
  {
    var i := 0;
    while i < |Agents.AgentProfiles|
      invariant 0 <= i <= 4
      invariant db.Valid()
      invariant db.users == old(db.users) + Seeded(ids, i, now)
      invariant forall k :: i <= k < 4 ==> !db.HasUserId(ids[k])
      invariant forall k :: 0 <= k < i ==> !EmailTaken(old(db.users), Agents.AgentProfiles[k].email)
    {
      ok := db.InsertUser(SeedUser(Agents.AgentProfiles[i], ids[i], now));
      if !ok {
        SeedClashIsOld(old(db.users), ids, i, now);
        return;
      }
      if EmailTaken(old(db.users), Agents.AgentProfiles[i].email) {
        TakenStaysTaken(old(db.users), Seeded(ids, i, now), Agents.AgentProfiles[i].email);
        assert false;
      }
      assert Seeded(ids, i + 1, now) == Seeded(ids, i, now) + [SeedUser(Agents.AgentProfiles[i], ids[i], now)];
      i := i + 1;
    }
    ok := true;
  }

  /**
   * GET: 401 without a session. When some agent exists, the store is untouched and the
   * reply lists the agents, then every non-agent other than the caller. When none does,
   * the four agent accounts are created one by one first; an agent email already held by
   * a real user aborts with 500, keeping the accounts created before it.
   */
  method Get(db: Db, session: Option<UserId>, ids: seq<UserId>, now: Time) returns (reply: Reply<seq<UserView>>)
    requires db.Valid()
    requires |ids| == |Agents.AgentProfiles|
    requires forall i, j :: 0 <= i < j < |ids| ==> ids[i] != ids[j]
    requires forall i :: 0 <= i < |ids| ==> !db.HasUserId(ids[i])
    modifies db`users
    ensures db.Valid()
    ensures session.None? ==> reply == Fail(401, "Unauthorized") && unchanged(db)
    ensures session.Some? && AgentsOf(old(db.users)) != [] ==>
      unchanged(db) && reply == Ok(200, Listing(AgentsOf(db.users), OthersOf(db.users, session.value)))
    ensures session.Some? && AgentsOf(old(db.users)) == [] && !SeedingClashes(old(db.users)) ==>
      && db.users == old(db.users) + Seeded(ids, 4, now)
      && reply == Ok(200, Listing(AgentsOf(db.users), OthersOf(old(db.users), session.value)))
    ensures session.Some? && AgentsOf(old(db.users)) == [] && SeedingClashes(old(db.users)) ==>
      && reply == Fail(500, "Internal server error")
      && exists n :: (0 <= n < 4 && db.users == old(db.users) + Seeded(ids, n, now)
           && EmailTaken(old(db.users), Agents.AgentProfiles[n].email)
           && forall k :: 0 <= k < n ==> !EmailTaken(old(db.users), Agents.AgentProfiles[k].email))
  {
    if session.None? {
      return Fail(401, "Unauthorized");
    }
    var u := session.value;
    var realUsers := OthersOf(db.users, u);
    var agents := AgentsOf(db.users);
    if agents == [] {
      var ok := SeedAgents(db, ids, now);
      if !ok {
        return Fail(500, "Internal server error");
      }
      agents := AgentsOf(db.users);
    }
    reply := Ok(200, Listing(agents, realUsers));
  }

  /** An email taken in a collection stays taken when documents are added after it. */
  lemma TakenStaysTaken(us: seq<UserDoc>, more: seq<UserDoc>, email: string)
    requires EmailTaken(us, email)
    ensures EmailTaken(us + more, email)
  {
    var k :| 0 <= k < |us| && us[k].email == email;
    assert (us + more)[k] == us[k];
  }

  /** Profile `i` clashes with the store plus the accounts seeded before it only through an older account. */
  lemma SeedClashIsOld(us: seq<UserDoc>, ids: seq<UserId>, i: nat, now: Time)
    requires i < |Agents.AgentProfiles| && i <= |ids|
    requires EmailTaken(us + Seeded(ids, i, now), Agents.AgentProfiles[i].email)
    ensures EmailTaken(us, Agents.AgentProfiles[i].email)
  {
    Agents.ProfileEmailsDistinct();
    var all := us + Seeded(ids, i, now);
    var k :| 0 <= k < |all| && all[k].email == Agents.AgentProfiles[i].email;
    if k >= |us| {
      assert false;
    }
    assert us[k] == all[k];
  }

  /** Agent filtering distributes over concatenation. */
  lemma {:induction false} AgentsOfAppend(a: seq<UserDoc>, b: seq<UserDoc>)
    ensures AgentsOf(a + b) == AgentsOf(a) + AgentsOf(b)
    decreases |a|
  {
    if a == [] {
      assert a + b == b;
    } else {
      assert (a + b)[1..] == a[1..] + b;
      AgentsOfAppend(a[1..], b);
    }
  }

  /** Real-user filtering distributes over concatenation. */
  lemma {:induction false} OthersOfAppend(a: seq<UserDoc>, b: seq<UserDoc>, u: UserId)
    ensures OthersOf(a + b, u) == OthersOf(a, u) + OthersOf(b, u)
    decreases |a|
  {
    if a == [] {
      assert a + b == b;
    } else {
      assert (a + b)[1..] == a[1..] + b;
      OthersOfAppend(a[1..], b, u);
    }
  }

  /** Agent filtering keeps a list of agents whole. */
  lemma {:induction false} AgentsOfAgents(s: seq<UserDoc>)
    requires forall i :: 0 <= i < |s| ==> s[i].isAgent
    ensures AgentsOf(s) == s
    decreases |s|
  {
    if s != [] {
      AgentsOfAgents(s[1..]);
      assert s == [s[0]] + s[1..];
    }
  }

  /** Every seeded account is an agent account built from its profile. */
  lemma SeededAccounts(ids: seq<UserId>, now: Time)
    requires |ids| == |Agents.AgentProfiles|
    ensures forall i :: 0 <= i < 4 ==>
      var x := Seeded(ids, 4, now)[i];
      x.isAgent && x.isOnline && x.name == Agents.AgentProfiles[i].name && x.email == Agents.AgentProfiles[i].email
      && x.personality == Some(Agents.AgentProfiles[i].personality)
  {
  }

  /** Real-user filtering drops a list of agents entirely. */
  lemma {:induction false} OthersOfAgents(s: seq<UserDoc>, u: UserId)
    requires forall i :: 0 <= i < |s| ==> s[i].isAgent
    ensures OthersOf(s, u) == []
    decreases |s|
  {
    if s != [] {
      OthersOfAgents(s[1..], u);
    }
  }

  /**
   * Seeding happens once: after the four accounts are created on a store without agents,
   * the agents the listing shows are exactly those four, and the next GET finds agents and
   * creates nothing; the real users listed are unaffected.
   */
  lemma SeedingHappensOnce(us: seq<UserDoc>, ids: seq<UserId>, now: Time, u: UserId)
    requires |ids| == |Agents.AgentProfiles| && AgentsOf(us) == []
    ensures AgentsOf(us + Seeded(ids, 4, now)) == Seeded(ids, 4, now) != []
    ensures OthersOf(us + Seeded(ids, 4, now), u) == OthersOf(us, u)
  {
    var seeded := Seeded(ids, 4, now);
    assert forall i :: 0 <= i < |seeded| ==> seeded[i].isAgent;
    AgentsOfAppend(us, seeded);
    AgentsOfAgents(seeded);
    OthersOfAppend(us, seeded, u);
    OthersOfAgents(seeded, u);
    assert seeded[0] in seeded;
  }

  /** The first GET on a store without agents lists the four seeded agents first, in profile order, online. */
  lemma SeededListing(us: seq<UserDoc>, ids: seq<UserId>, now: Time, u: UserId)
    requires |ids| == |Agents.AgentProfiles| && AgentsOf(us) == []
    ensures var r := Listing(AgentsOf(us + Seeded(ids, 4, now)), OthersOf(us, u));
      |r| >= 4 && forall i :: 0 <= i < 4 ==>
      var v := r[i];
      v.name == Agents.AgentProfiles[i].name && v.email == Agents.AgentProfiles[i].email
      && v.personality == Some(Agents.AgentProfiles[i].personality) && v.isAgent && v.isOnline
  {
    SeedingHappensOnce(us, ids, now, u);
    SeededAccounts(ids, now);
  }

  /** Entry `i` of the listing: an agent's entry up to the number of agents, a real user's after. */
  lemma ListingAt(agents: seq<UserDoc>, others: seq<UserDoc>, i: nat)
    requires i < |agents| + |others|
    ensures var v := Listing(agents, others)[i];
      && (i < |agents| ==> v.isAgent && v.isOnline)
      && (i >= |agents| ==> !v.isAgent && v.id == others[i - |agents|].id)
  {
    if i >= |agents| {
      assert Listing(agents, others)[|agents| + (i - |agents|)] == RealView(others[i - |agents|]);
    }
  }

  /**
   * The listing puts every agent before every real user, shows every agent online, and
   * leaves out the caller unless the caller is an agent.
   */
  lemma ListingShape(us: seq<UserDoc>, u: UserId)
    ensures var r := Listing(AgentsOf(us), OthersOf(us, u));
      && (forall i, j :: 0 <= i < |r| && 0 <= j < |r| && r[i].isAgent && !r[j].isAgent ==> i < j)
      && (forall i :: 0 <= i < |r| && r[i].isAgent ==> r[i].isOnline)
      && (forall i :: 0 <= i < |r| && !r[i].isAgent ==> r[i].id != u)
  {
    var agents, others := AgentsOf(us), OthersOf(us, u);
    var r := Listing(agents, others);
    forall i | 0 <= i < |r| ensures (r[i].isAgent <==> i < |agents|) && (r[i].isAgent ==> r[i].isOnline) && (!r[i].isAgent ==> r[i].id != u) {
      ListingAt(agents, others, i);
      if i >= |agents| {
        assert others[i - |agents|] in others;
      }
    }
  }

  /** Every agent and every real user other than the caller is listed. */
  lemma ListingComplete(us: seq<UserDoc>, u: UserId)
    ensures var r := Listing(AgentsOf(us), OthersOf(us, u));
      && (forall x :: x in us && !x.isAgent && x.id != u ==> RealView(x) in r)
      && (forall x :: x in us && x.isAgent ==> AgentView(x) in r)
  {
    var agents, others := AgentsOf(us), OthersOf(us, u);
    var r := Listing(agents, others);
    forall x | x in us && !x.isAgent && x.id != u ensures RealView(x) in r {
      var k :| 0 <= k < |others| && others[k] == x;
      assert r[|agents| + k] == RealView(x);
    }
    forall x | x in us && x.isAgent ensures AgentView(x) in r {
      var k :| 0 <= k < |agents| && agents[k] == x;
      assert r[k] == AgentView(x);
    }
  }

  // ---------------------------------------------------------------------- PATCH

  /** A JSON body field: left out, `null`, or a value. */
  datatype Field<T> = Unset | Null | Set(value: T)

  /** The fields PATCH reads from the body; a field that is left out is not touched. */
  datatype ProfileEdit = ProfileEdit(
    name: Option<string>,
    avatar: Field<string>,
    location: Field<Location>,
    deviceInfo: Field<DeviceInfo>,
    isOnline: Option<bool>)

  /** A nullable document field after `$set` of a body field. */
  function Assigned<T>(f: Field<T>, current: Option<T>): (r: Option<T>)
    ensures f.Unset? ==> r == current
    ensures f.Null? ==> r.None?
    ensures f.Set? ==> r == Some(f.value)
  {
    match f
    case Unset => current
    case Null => None
    case Set(v) => Some(v)
  }

  /**
   * The user after `findByIdAndUpdate(u, updateData)`: the schema's `trim` setter runs on
   * the new name, no validator runs (an all-blank name is stored as ""), `lastSeen` is
   * stamped only together with `isOnline`, and `updatedAt` always.
   */
  function Edited(x: UserDoc, e: ProfileEdit, now: Time): (r: UserDoc)
    ensures r.id == x.id && r.email == x.email && r.password == x.password && r.isAgent == x.isAgent
    ensures r.personality == x.personality && r.createdAt == x.createdAt && r.updatedAt == now
    ensures e.name.Some? ==> r.name == Trim(e.name.value) && !(r.name != [] && IsSpace(r.name[0]))
    ensures e.name.None? ==> r.name == x.name
    ensures e.isOnline.Some? ==> r.isOnline == e.isOnline.value && r.lastSeen == now
    ensures e.isOnline.None? ==> r.isOnline == x.isOnline && r.lastSeen == x.lastSeen
    ensures r.avatar == Assigned(e.avatar, x.avatar)
    ensures r.location == Assigned(e.location, x.location)
    ensures r.deviceInfo == Assigned(e.deviceInfo, x.deviceInfo)
  {
    assert e.name.Some? ==> !(Trim(e.name.value) != [] && IsSpace(Trim(e.name.value)[0])) by {
      if e.name.Some? { TrimEnds(e.name.value); }
    }
    x.(name := if e.name.Some? then Trim(e.name.value) else x.name,
       avatar := Assigned(e.avatar, x.avatar),
       location := Assigned(e.location, x.location),
       deviceInfo := Assigned(e.deviceInfo, x.deviceInfo),
       isOnline := if e.isOnline.Some? then e.isOnline.value else x.isOnline,
       lastSeen := if e.isOnline.Some? then now else x.lastSeen,
       updatedAt := now)
  }

  /** The collection after the update: the caller's record is edited, every other record kept. */
  function EditedUsers(us: seq<UserDoc>, u: UserId, e: ProfileEdit, now: Time): (r: seq<UserDoc>)
    ensures |r| == |us|
    ensures forall i :: 0 <= i < |us| && us[i].id != u ==> r[i] == us[i]
    ensures forall i :: 0 <= i < |us| && us[i].id == u ==> r[i] == Edited(us[i], e, now)
  {
    seq(|us|, i requires 0 <= i < |us| => if us[i].id == u then Edited(us[i], e, now) else us[i])
  }

  /** Repeating the same edit at the same time changes nothing more. */
  lemma EditIdempotent(x: UserDoc, e: ProfileEdit, now: Time)
    ensures Edited(Edited(x, e, now), e, now) == Edited(x, e, now)
  {
    if e.name.Some? {
      TrimIdempotent(e.name.value);
    }
  }

  /** A presence-only request (the client's online/offline report) keeps the whole profile. */
  lemma PresenceEditKeepsProfile(x: UserDoc, online: bool, now: Time)
    ensures var r := Edited(x, ProfileEdit(None, Unset, Unset, Unset, Some(online)), now);
      && r == x.(isOnline := online, lastSeen := now, updatedAt := now)
  {
  }

  /** The edit never touches an id or an email, so both stay unique. */
  lemma EditKeepsUnique(us: seq<UserDoc>, u: UserId, e: ProfileEdit, now: Time)
    requires UniqueUsers(us)
    ensures UniqueUsers(EditedUsers(us, u, e, now))
  {
  }

  /** The `user` of the reply: the selected fields of the updated record; the avatar is not defaulted to null. */
  datatype ProfileView = ProfileView(id: UserId, name: string, email: string, avatar: Option<string>, isOnline: bool, lastSeen: Time)

  function ProfileOf(x: Option<UserDoc>): Option<ProfileView> {
    if x.None? then None
    else Some(ProfileView(x.value.id, x.value.name, x.value.email, x.value.avatar, x.value.isOnline, x.value.lastSeen))
  }

  /**
   * PATCH: 401 without a session; otherwise the caller's record is edited and returned,
   * or `user: null` with status 200 when the session names no stored user.
   */
  method Patch(db: Db, session: Option<UserId>, e: ProfileEdit, now: Time) returns (reply: Reply<Option<ProfileView>>)
    requires db.Valid()
    modifies db`users
    ensures db.Valid()
    ensures session.None? ==> reply == Fail(401, "Unauthorized") && unchanged(db)
    ensures session.Some? ==>
      && db.users == EditedUsers(old(db.users), session.value, e, now)
      && reply == Ok(200, ProfileOf(FindUser(db.users, session.value)))
      && (reply.body.Some? <==> old(db.HasUserId(session.value)))
  {
    if session.None? {
      return Fail(401, "Unauthorized");
    }
    var u := session.value;
    EditKeepsUnique(db.users, u, e, now);
    db.users := EditedUsers(db.users, u, e, now);
    reply := Ok(200, ProfileOf(FindUser(db.users, u)));
    if reply.body.Some? {
      var k :| 0 <= k < |db.users| && db.users[k].id == u;
      assert old(db.users)[k].id == u;
    }
  }
}
