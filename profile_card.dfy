/** The profile card: the editable copy of a profile, saving and cancelling it, and the
    follow button, whose state comes from the short follower list of the profile. */
module ProfileCard {
  import opened Common
  import opened Store
  import ProfileRouter

  /** The form copy of a profile: every field is a string, a missing value shows as "". */
  datatype EditedProfile = EditedProfile(
    id: UserId,
    name: string,
    email: string,
    biography: string,
    country: string,
    institution: string)

  /** The copy made from the stored profile, with `null` replaced by "". */
  function FromProfile(p: User): (e: EditedProfile)
    ensures e.id == p.id
    ensures e.name == p.name.GetOr("") && e.email == p.email.GetOr("")
    ensures e.biography == p.biography.GetOr("") && e.country == p.country.GetOr("")
    ensures e.institution == p.institution.GetOr("")
  {
    EditedProfile(p.id, p.name.GetOr(""), p.email.GetOr(""), p.biography.GetOr(""),
                  p.country.GetOr(""), p.institution.GetOr(""))
  }

  /** The inputs of the card, by their `name` attribute. */
  datatype Field = NameField | BiographyField | CountryField | InstitutionField

  function FieldValue(e: EditedProfile, f: Field): string {
    match f
    case NameField => e.name
    case BiographyField => e.biography
    case CountryField => e.country
    case InstitutionField => e.institution
  }

  /** `{ ...prev, [name]: value }`: the named field takes the value, every other field,
      id and email included, keeps its own. */
  function WithField(e: EditedProfile, f: Field, v: string): (r: EditedProfile)
    ensures FieldValue(r, f) == v
    ensures forall g :: g != f ==> FieldValue(r, g) == FieldValue(e, g)
    ensures r.id == e.id && r.email == e.email
  {
    match f
    case NameField => e.(name := v)
    case BiographyField => e.(biography := v)
    case CountryField => e.(country := v)
    case InstitutionField => e.(institution := v)
  }

  /** The characters `String.prototype.trim` removes that this model distinguishes. */
  predicate IsWhitespace(c: char) {
    c == ' ' || c == '\t' || c == '\n' || c == '\r' || c == '\U{B}' || c == '\U{C}'
  }

  /** `!s.trim()`: the string is empty once surrounding whitespace is removed. */
  predicate IsBlank(s: string) {
    forall i :: 0 <= i < |s| ==> IsWhitespace(s[i])
  }

  /** The update request built from the form: all six fields, each sent as given. */
  function Payload(e: EditedProfile): (p: ProfileRouter.ProfileInput)
    ensures p.id == e.id && p.name == e.name && p.email == e.email
    ensures p.biography == Some(e.biography) && p.country == Some(e.country)
    ensures p.institution == Some(e.institution)
  {
    ProfileRouter.ProfileInput(e.id, e.name, e.email, Some(e.biography), Some(e.country), Some(e.institution))
  }

  /** Saving a form nobody edited shows the same card again: the stored profile changes only
      in that missing optional fields now hold "". The name and email become present. */
  lemma SaveUneditedShowsSameCard(u: User)
    ensures var saved := ProfileRouter.UpdatedUser(u, Payload(FromProfile(u)));
      && FromProfile(saved) == FromProfile(u)
      && saved.biography == Some(u.biography.GetOr(""))
      && saved.name == Some(u.name.GetOr(""))
  {
  }

  /** A follow request the card sends. */
  datatype FollowCall = FollowCall(target: UserId) | UnfollowCall(target: UserId)

  /** The following status as the card computes it: the short follower list is fetched only
      when the profile has a username and somebody is signed in, and the status is whether
      the signed-in user is in that list. */
  function FollowingStatus(profile: User, session: Option<UserId>, lastFollowers: seq<User>): (b: bool)
    ensures b <==>
      && profile.username.Some? && profile.username.value != "" && session.Some?
      && exists i :: 0 <= i < |lastFollowers| && lastFollowers[i].id == session.value
  {
    && profile.username.Some? && profile.username.value != "" && session.Some?
    && FirstIndex(lastFollowers, (u: User) => u.id == session.value).Some?
  }

  /** The call the button makes for a given status. */
  function ToggleCall(following: bool, target: UserId): FollowCall {
    if following then UnfollowCall(target) else FollowCall(target)
  }

  /** The outcome on the server of a call made by `me`. */
  function CallOutcome(t: Tables, me: UserId, call: FollowCall): Result<Follow> {
    match call
    case FollowCall(target) => ProfileRouter.FollowOutcome(t, me, target)
    case UnfollowCall(target) => ProfileRouter.UnfollowOutcome(t, me, target)
  }

  class Card {
    const profile: User
    const session: Option<UserId>
    var isEditing: bool
    var edited: EditedProfile
    /** The update requests sent, oldest first. */
    var updates: seq<ProfileRouter.ProfileInput>
    /** The follow and unfollow requests sent, oldest first. */
    var followCalls: seq<FollowCall>
    /** The error toasts shown, oldest first. */
    var errors: seq<string>

    constructor (profile: User, session: Option<UserId>)
      ensures this.profile == profile && this.session == session
      ensures !isEditing && edited == FromProfile(profile)
      ensures updates == [] && followCalls == [] && errors == []
    {
      this.profile := profile;
      this.session := session;
      isEditing := false;
      edited := FromProfile(profile);
      updates := [];
      followCalls := [];
      errors := [];
    }

    /** The "Edit Profile" button. */
    method StartEditing()
      modifies this
      ensures isEditing
      ensures edited == old(edited) && updates == old(updates)
      ensures followCalls == old(followCalls) && errors == old(errors)
    {
      isEditing := true;
    }

    /** `handleInputChange`: only the named field changes. */
    method HandleInputChange(f: Field, v: string)
      modifies this
      ensures edited == WithField(old(edited), f, v)
      ensures isEditing == old(isEditing) && updates == old(updates)
      ensures followCalls == old(followCalls) && errors == old(errors)
    {
      edited := WithField(edited, f, v);
    }

    /** `handleSave`: a blank name is refused with an error and sends nothing; otherwise the
        form is sent as it is. Edit mode ends only when the update succeeds. */
    method HandleSave()
      modifies this
      ensures IsBlank(old(edited.name)) ==> updates == old(updates) && errors == old(errors) + ["Name is required"]
      ensures !IsBlank(old(edited.name)) ==> updates == old(updates) + [Payload(old(edited))] && errors == old(errors)
      ensures isEditing == old(isEditing) && edited == old(edited) && followCalls == old(followCalls)
    {
      if IsBlankName(edited.name) {
        errors := errors + ["Name is required"];
        return;
      }
      updates := updates + [Payload(edited)];
    }

    /** `handleCancel`: the form goes back to the stored profile and edit mode ends. */
    method HandleCancel()
      modifies this
      ensures edited == FromProfile(profile) && !isEditing
      ensures updates == old(updates) && followCalls == old(followCalls) && errors == old(errors)
    {
      edited := FromProfile(profile);
      isEditing := false;
    }

    /** The update mutation's success callback: edit mode ends. */
    method OnUpdateSuccess()
      modifies this
      ensures !isEditing
      ensures edited == old(edited) && updates == old(updates)
      ensures followCalls == old(followCalls) && errors == old(errors)
    {
      isEditing := false;
    }

    /** The update mutation's error callback: edit mode stays on with the form as it was. */
    method OnUpdateError(message: string)
      modifies this
      ensures errors == old(errors) + ["Failed to update profile"]
      ensures isEditing == old(isEditing) && edited == old(edited)
      ensures updates == old(updates) && followCalls == old(followCalls)
    {
      errors := errors + ["Failed to update profile"];
    }

    /** `handleFollowToggle`, given the short follower list the card last fetched: unfollow
        when the card believes the user follows the profile, follow otherwise. The button
        exists only for a signed-in user looking at somebody else's card. */
    method HandleFollowToggle(lastFollowers: seq<User>)
      requires session.Some? && session.value != profile.id
      modifies this
      ensures followCalls == old(followCalls) + [ToggleCall(FollowingStatus(profile, session, lastFollowers), profile.id)]
      ensures isEditing == old(isEditing) && edited == old(edited)
      ensures updates == old(updates) && errors == old(errors)
    {
      var following := FollowingStatus(profile, session, lastFollowers);
      if following {
        followCalls := followCalls + [UnfollowCall(profile.id)];
      } else {
        followCalls := followCalls + [FollowCall(profile.id)];
      }
    }
  }

  /** `handleSave`'s test, a character at a time. */
  function IsBlankName(s: string): (b: bool)
    ensures b <==> IsBlank(s)
  {
    if s == [] then true else IsWhitespace(s[0]) && IsBlankName(s[1..])
  }

  /** Whenever the card shows "Unfollow" the user really does follow the profile: the short
      list holds only followers. */
  lemma UnfollowIsSound(t: Tables, username: string, profile: User, me: UserId)
    requires UsernameIndex(t.users, username).Some?
    requires profile == t.users[UsernameIndex(t.users, username).value]
    requires FollowingStatus(profile, Some(me), ProfileRouter.GetLastFollowers(t, username))
    ensures Follow(me, profile.id) in t.follows
    ensures CallOutcome(t, me, ToggleCall(true, profile.id)).Ok?
  {
    var r := ProfileRouter.GetLastFollowers(t, username);
    ProfileRouter.GetLastFollowersIsShortList(t, username);
    var i :| 0 <= i < |r| && r[i].id == me;
  }

  // ---------------------------------------------------------------------------------
  // The follow button and a fourth follower
  // ---------------------------------------------------------------------------------

  function Person(id: UserId): User {
    User(id, Some(id), None, None, None, None, None, USER)
  }

  /** Four users follow "t", the signed-in user "me" being the fourth in table order. */
  function FourFollowers(): Tables {
    Tables([Person("a"), Person("b"), Person("c"), Person("me"), Person("t")],
           {Follow("a", "t"), Follow("b", "t"), Follow("c", "t"), Follow("me", "t")},
           {}, [], map[], 0)
  }

  /** As written: "me" follows "t", but the short list holds only three followers and not
      "me", so the card shows "Follow" and the request it sends fails with "Already following
      this user". The user cannot unfollow from the card. */
  lemma FourthFollowerSeesFollow()
    ensures Follow("me", "t") in FourFollowers().follows
    ensures var t := FourFollowers();
      var shown := ProfileRouter.GetLastFollowers(t, "t");
      && !FollowingStatus(Person("t"), Some("me"), shown)
      && ToggleCall(FollowingStatus(Person("t"), Some("me"), shown), "t") == FollowCall("t")
      && CallOutcome(t, "me", FollowCall("t")) == Err(BadRequest, "Already following this user")
  {
    FourFollowersList();
    var t := FourFollowers();
    assert UsernameIndex(t.users, "t") == Some(4) by {
      UsernameOfT();
    }
    assert ProfileRouter.UserExists(t.users, "t") by {
      assert t.users[4].id == "t";
    }
  }

  /** The same defect whatever order the database returns the short list in: once a
      profile has more than three followers, some follower is missing from any list of three
      of them, sees "Follow" on the card, and the request it sends fails with "Already
      following this user". */
  lemma SomeFollowerSeesFollow(t: Tables, profile: User, shown: seq<User>)
    requires WellFormed(t) && profile in t.users
    requires profile.username.Some? && profile.username.value != ""
    requires Follow(profile.id, profile.id) !in t.follows
    requires ProfileRouter.ShortFollowerList(t, profile.id, shown)
    requires |ProfileRouter.FollowersOf(t, profile.id)| > 3
    ensures exists f ::
      && f in ProfileRouter.FollowersOf(t, profile.id)
      && !FollowingStatus(profile, Some(f.id), shown)
      && CallOutcome(t, f.id, ToggleCall(false, profile.id)) == Err(BadRequest, "Already following this user")
  {
    var followers := ProfileRouter.FollowersOf(t, profile.id);
    FollowersHaveDistinctIds(t, profile.id);
    assert |shown| == 3;
    var ids := {shown[0].id, shown[1].id, shown[2].id};
    var j := if followers[0].id !in ids then 0 else if followers[1].id !in ids then 1
             else if followers[2].id !in ids then 2 else 3;
    var f := followers[j];
    assert f.id !in ids;
    assert forall i :: 0 <= i < |shown| ==> shown[i].id != f.id;
    assert ProfileRouter.UserExists(t.users, profile.id) by {
      var k :| 0 <= k < |t.users| && t.users[k] == profile;
      assert t.users[k].id == profile.id;
    }
    assert f in followers;
  }

  /** The followers of a profile, like the users, have pairwise distinct ids. */
  lemma FollowersHaveDistinctIds(t: Tables, id: UserId)
    requires WellFormed(t)
    ensures var followers := ProfileRouter.FollowersOf(t, id);
      forall a, b :: 0 <= a < b < |followers| ==> followers[a].id != followers[b].id
  {
    var p := (u: User) => Follow(u.id, id) in t.follows;
    var followers := ProfileRouter.FollowersOf(t, id);
    assert followers == Filter(t.users, p);
    FilterKeepsNoDuplicates(t.users, p);
    forall a, b | 0 <= a < b < |followers| ensures followers[a].id != followers[b].id {
      var i :| 0 <= i < |t.users| && t.users[i] == followers[a];
      var k :| 0 <= k < |t.users| && t.users[k] == followers[b];
      assert i != k;
    }
  }

  lemma UsernameOfT()
    ensures UsernameIndex(FourFollowers().users, "t") == Some(4)
  {
    var users := FourFollowers().users;
    assert forall i :: 0 <= i < 4 ==> users[i].username != Some("t");
    assert users[4].username == Some("t");
  }

  /** The followers of "t" in table order, and the three of them the card is given. */
  lemma FourFollowersList()
    ensures ProfileRouter.GetLastFollowers(FourFollowers(), "t") == [Person("a"), Person("b"), Person("c")]
  {
    FourFollowersAll();
    UsernameOfT();
  }

  lemma FourFollowersAll()
    ensures ProfileRouter.FollowersOf(FourFollowers(), "t") == [Person("a"), Person("b"), Person("c"), Person("me")]
  {
    var t := FourFollowers();
    var p := (u: User) => Follow(u.id, "t") in t.follows;
    assert p(t.users[0]) && p(t.users[1]) && p(t.users[2]) && p(t.users[3]);
    assert !p(t.users[4]);
    FirstFourKept(t.users, p);
  }

  /** Filtering five elements of which only the last fails keeps the first four. */
  lemma FirstFourKept(s: seq<User>, p: User -> bool)
    requires |s| == 5 && p(s[0]) && p(s[1]) && p(s[2]) && p(s[3]) && !p(s[4])
    ensures Filter(s, p) == s[..4]
  {
    assert s[4..][1..] == [];
    assert Filter(s[4..], p) == [];
    assert s[3..][1..] == s[4..];
    assert Filter(s[3..], p) == [s[3]];
    assert s[2..][1..] == s[3..];
    assert Filter(s[2..], p) == [s[2], s[3]];
    assert s[1..][1..] == s[2..];
    assert Filter(s[1..], p) == [s[1], s[2], s[3]];
  }

  /** Corrected: the status is read from the follows table itself (whether the pair
      (me, profile) exists), not from a list capped at three. */
  function FollowingStatusFromTable(t: Tables, profileId: UserId, session: Option<UserId>): (b: bool)
    ensures b <==> session.Some? && Follow(session.value, profileId) in t.follows
  {
    session.Some? && Follow(session.value, profileId) in t.follows
  }

  /** With the corrected status, the button's request succeeds for every other user's
      existing profile, whatever the number of followers. */
  lemma CorrectedToggleSucceeds(t: Tables, profileId: UserId, me: UserId)
    requires ProfileRouter.UserExists(t.users, profileId) && profileId != me
    ensures CallOutcome(t, me, ToggleCall(FollowingStatusFromTable(t, profileId, Some(me)), profileId)).Ok?
  {
  }

  /** The corrected status agrees with the card's whenever the profile has at most three
      followers and the card's list holds them all. */
  lemma CorrectedAgreesOnShortLists(t: Tables, profile: User, me: UserId, lastFollowers: seq<User>)
    requires profile.username.Some? && profile.username.value != ""
    requires forall i :: 0 <= i < |lastFollowers| ==> Follow(lastFollowers[i].id, profile.id) in t.follows
    requires forall i :: 0 <= i < |t.users| && Follow(t.users[i].id, profile.id) in t.follows ==> t.users[i] in lastFollowers
    requires ProfileRouter.UserExists(t.users, me)
    ensures FollowingStatus(profile, Some(me), lastFollowers) == FollowingStatusFromTable(t, profile.id, Some(me))
  {
    var k := UserIndex(t.users, me).value;
    if Follow(me, profile.id) in t.follows {
      assert t.users[k] in lastFollowers;
      var j :| 0 <= j < |lastFollowers| && lastFollowers[j] == t.users[k];
    }
  }
}
