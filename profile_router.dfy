/** The `profile` router: reading and updating a profile, following and unfollowing, and
    the short follower and following lists of a profile page. */
module ProfileRouter {
  import opened Common
  import opened Store

  /** `get`: the user with that username, if any. */
  function GetProfile(t: Tables, username: string): (r: Option<User>)
    ensures r.Some? ==> r.value in t.users && r.value.username == Some(username)
    ensures r.None? ==> forall i :: 0 <= i < |t.users| ==> t.users[i].username != Some(username)
  {
    match UsernameIndex(t.users, username)
    case None => None
    case Some(k) => Some(t.users[k])
  }

  // ---------------------------------------------------------------------------------
  // Following
  // ---------------------------------------------------------------------------------

  predicate UserExists(users: seq<User>, id: UserId) {
    UserIndex(users, id).Some?
  }

  /** The decision of `followUser` for session user `me`: the target must exist, must not
      be `me`, and must not be followed yet. */
  function FollowOutcome(t: Tables, me: UserId, target: UserId): (r: Result<Follow>)
    ensures r.Ok? <==> UserExists(t.users, target) && target != me && Follow(me, target) !in t.follows
    ensures r.Ok? ==> r.value == Follow(me, target)
    ensures !UserExists(t.users, target) ==> r == Err(NotFound, "Target user not found")
    ensures UserExists(t.users, target) && target == me ==> r == Err(BadRequest, "Cannot follow yourself")
    ensures UserExists(t.users, target) && target != me && Follow(me, target) in t.follows ==>
      r == Err(BadRequest, "Already following this user")
  {
    if !UserExists(t.users, target) then Err(NotFound, "Target user not found")
    else if target == me then Err(BadRequest, "Cannot follow yourself")
    else if Follow(me, target) in t.follows then Err(BadRequest, "Already following this user")
    else Ok(Follow(me, target))
  }

  /** The decision of `unfollowUser`: the pair must exist. */
  function UnfollowOutcome(t: Tables, me: UserId, target: UserId): (r: Result<Follow>)
    ensures r.Ok? <==> Follow(me, target) in t.follows
    ensures r.Ok? ==> r.value == Follow(me, target)
    ensures r.Err? ==> r == Err(NotFound, "Not following this user")
  {
    if Follow(me, target) in t.follows then Ok(Follow(me, target)) else Err(NotFound, "Not following this user")
  }

  /** Nobody follows themselves. */
  predicate NoSelfFollows(follows: set<Follow>) {
    forall f :: f in follows ==> f.followerId != f.followingId
  }

  /** `followUser`: on success exactly the pair (me, target) is added. */
  method FollowUser(db: Database, me: UserId, target: UserId) returns (r: Result<Follow>)
    requires db.Valid()
    modifies db
    ensures db.Valid()
    ensures r == FollowOutcome(old(db.State()), me, target)
    ensures r.Ok? ==> db.State() == old(db.State()).(follows := old(db.follows) + {Follow(me, target)})
    ensures r.Err? ==> db.State() == old(db.State())
    ensures NoSelfFollows(old(db.follows)) ==> NoSelfFollows(db.follows)
  {
    if UserIndex(db.users, target).None? {
      return Err(NotFound, "Target user not found");
    }
    if target == me {
      return Err(BadRequest, "Cannot follow yourself");
    }
    if Follow(me, target) in db.follows {
      return Err(BadRequest, "Already following this user");
    }
    db.follows := db.follows + {Follow(me, target)};
    r := Ok(Follow(me, target));
  }

  /** `unfollowUser`: on success exactly the pair (me, target) is removed. */
  method UnfollowUser(db: Database, me: UserId, target: UserId) returns (r: Result<Follow>)
    requires db.Valid()
    modifies db
    ensures db.Valid()
    ensures r == UnfollowOutcome(old(db.State()), me, target)
    ensures r.Ok? ==> db.State() == old(db.State()).(follows := old(db.follows) - {Follow(me, target)})
    ensures r.Err? ==> db.State() == old(db.State())
    ensures NoSelfFollows(old(db.follows)) ==> NoSelfFollows(db.follows)
  {
    if Follow(me, target) !in db.follows {
      return Err(NotFound, "Not following this user");
    }
    db.follows := db.follows - {Follow(me, target)};
    r := Ok(Follow(me, target));
  }

  /** A successful follow can always be undone, and undoing it restores the follow table;
      following twice in a row fails the second time. */
  lemma FollowThenUnfollowRestores(t: Tables, me: UserId, target: UserId)
    requires FollowOutcome(t, me, target).Ok?
    ensures var after := t.(follows := t.follows + {Follow(me, target)});
      && UnfollowOutcome(after, me, target).Ok?
      && after.follows - {Follow(me, target)} == t.follows
      && FollowOutcome(after, me, target) == Err(BadRequest, "Already following this user")
  {
  }

  // ---------------------------------------------------------------------------------
  // Follower lists
  // ---------------------------------------------------------------------------------

  /** The users that follow `id`, in table order. */
  function FollowersOf(t: Tables, id: UserId): (r: seq<User>)
    ensures forall i :: 0 <= i < |r| ==> r[i] in t.users && Follow(r[i].id, id) in t.follows
    ensures forall i :: 0 <= i < |t.users| && Follow(t.users[i].id, id) in t.follows ==> t.users[i] in r
  {
    Filter(t.users, (u: User) => Follow(u.id, id) in t.follows)
  }

  /** The users that `id` follows, in table order. */
  function FollowingsOf(t: Tables, id: UserId): (r: seq<User>)
    ensures forall i :: 0 <= i < |r| ==> r[i] in t.users && Follow(id, r[i].id) in t.follows
    ensures forall i :: 0 <= i < |t.users| && Follow(id, t.users[i].id) in t.follows ==> t.users[i] in r
  {
    Filter(t.users, (u: User) => Follow(id, u.id) in t.follows)
  }

  function Min(a: int, b: int): int {
    if a <= b then a else b
  }

  function Take3(s: seq<User>): (r: seq<User>)
    ensures |r| == Min(3, |s|) && r <= s
  {
    if |s| <= 3 then s else s[..3]
  }

  /** `getLastFollowers`: nothing for an unknown username; otherwise at most three of the
      profile's followers, all of them when there are three or fewer. */
  function GetLastFollowers(t: Tables, username: string): (r: seq<User>)
    ensures UsernameIndex(t.users, username).None? ==> r == []
    ensures UsernameIndex(t.users, username).Some? ==>
      var followers := FollowersOf(t, t.users[UsernameIndex(t.users, username).value].id);
      |r| == Min(3, |followers|) && r <= followers
  {
    match UsernameIndex(t.users, username)
    case None => []
    case Some(k) => Take3(FollowersOf(t, t.users[k].id))
  }

  /** `getLastFollowings`: the same for the users the profile follows. */
  function GetLastFollowings(t: Tables, username: string): (r: seq<User>)
    ensures UsernameIndex(t.users, username).None? ==> r == []
    ensures UsernameIndex(t.users, username).Some? ==>
      var followings := FollowingsOf(t, t.users[UsernameIndex(t.users, username).value].id);
      |r| == Min(3, |followings|) && r <= followings
  {
    match UsernameIndex(t.users, username)
    case None => []
    case Some(k) => Take3(FollowingsOf(t, t.users[k].id))
  }

  /** What the short follower list promises whatever order the database returns it in: at
      most three users, all followers of the profile, and all of them when there are three
      or fewer. */
  predicate ShortFollowerList(t: Tables, profileId: UserId, r: seq<User>) {
    && |r| <= 3
    && (forall i :: 0 <= i < |r| ==> Follow(r[i].id, profileId) in t.follows)
    && |r| == Min(3, |FollowersOf(t, profileId)|)
  }

  lemma GetLastFollowersIsShortList(t: Tables, username: string)
    requires UsernameIndex(t.users, username).Some?
    ensures var profile := t.users[UsernameIndex(t.users, username).value];
      ShortFollowerList(t, profile.id, GetLastFollowers(t, username))
  {
    var profile := t.users[UsernameIndex(t.users, username).value];
    var r := GetLastFollowers(t, username);
    var followers := FollowersOf(t, profile.id);
    forall i | 0 <= i < |r| ensures Follow(r[i].id, profile.id) in t.follows {
      assert r[i] == followers[i];
    }
  }

  // ---------------------------------------------------------------------------------
  // Profile update
  // ---------------------------------------------------------------------------------

  /** The input of `update`; the last three fields may be left out. */
  datatype ProfileInput = ProfileInput(
    id: UserId,
    name: string,
    email: string,
    biography: Option<string>,
    country: Option<string>,
    institution: Option<string>)

  predicate AtMost(s: Option<string>, n: nat) {
    s.None? || |s.value| <= n
  }

  /** The input schema; `isEmail` is the email format check. */
  predicate ProfileInputOk(input: ProfileInput, isEmail: string -> bool) {
    && |input.name| <= 32
    && |input.email| <= 32 && isEmail(input.email)
    && AtMost(input.biography, 255)
    && AtMost(input.country, 32)
    && AtMost(input.institution, 32)
  }

  /** A field that is left out keeps its stored value. */
  function Overwrite(stored: Option<string>, given: Option<string>): Option<string> {
    if given.Some? then given else stored
  }

  function UpdatedUser(u: User, input: ProfileInput): User {
    u.(name := Some(input.name), email := Some(input.email),
       biography := Overwrite(u.biography, input.biography),
       country := Overwrite(u.country, input.country),
       institution := Overwrite(u.institution, input.institution))
  }

  /** Rewriting a user's profile fields keeps ids and usernames, so the tables stay well
      formed. */
  lemma UpdatedUserKeepsWellFormed(t: Tables, k: nat, input: ProfileInput)
    requires WellFormed(t) && k < |t.users|
    ensures WellFormed(t.(users := t.users[k := UpdatedUser(t.users[k], input)]))
  {
    var users' := t.users[k := UpdatedUser(t.users[k], input)];
    assert forall i :: 0 <= i < |users'| ==> users'[i].id == t.users[i].id && users'[i].username == t.users[i].username;
  }

  /** `update`: the input schema, then the profile must exist and be the session user's
      own; the error thrown for that is a plain Error, which reaches the client as an
      internal server error. Only the given fields change, and only that user. */
  method Update(db: Database, me: UserId, input: ProfileInput, isEmail: string -> bool) returns (r: Result<User>)
    requires db.Valid()
    modifies db
    ensures db.Valid()
    ensures !ProfileInputOk(input, isEmail) ==> r == Err(BadRequest, InvalidInput)
    ensures ProfileInputOk(input, isEmail) && (UserIndex(old(db.users), input.id).None? || input.id != me) ==>
      r == Err(InternalServerError, "Not authorized to update this profile")
    ensures ProfileInputOk(input, isEmail) && input.id == me && UserIndex(old(db.users), me).Some? ==> r.Ok?
    ensures r.Err? ==> db.State() == old(db.State())
    ensures r.Ok? ==>
      && ProfileInputOk(input, isEmail) && input.id == me && UserIndex(old(db.users), me).Some?
      && var k := UserIndex(old(db.users), me).value;
         && r.value == UpdatedUser(old(db.users)[k], input)
         && db.State() == old(db.State()).(users := old(db.users)[k := r.value])
  {
    if !ProfileInputOk(input, isEmail) {
      return Err(BadRequest, InvalidInput);
    }
    var k := UserIndex(db.users, input.id);
    if k.None? || db.users[k.value].id != me {
      return Err(InternalServerError, "Not authorized to update this profile");
    }
    var updated := UpdatedUser(db.users[k.value], input);
    UpdatedUserKeepsWellFormed(db.State(), k.value, input);
    db.users := db.users[k.value := updated];
    r := Ok(updated);
  }

  /** Sending the same update twice leaves the user as after the first. */
  lemma UpdateIdempotent(u: User, input: ProfileInput)
    ensures UpdatedUser(UpdatedUser(u, input), input) == UpdatedUser(u, input)
    ensures UpdatedUser(u, input).id == u.id && UpdatedUser(u, input).username == u.username
      && UpdatedUser(u, input).role == u.role
  {
  }
}
