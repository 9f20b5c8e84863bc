/** The store's `user` slice: the identity of the signed-in user, changed by three reducers.
    `Reduce` is the reducer as a function of the old record and the dispatched action; the
    class `UserStore` is the slice as the reducers run it, assigning into the state in place. */
module UserSlice {

  /** The user record. An empty `uid` means nobody is signed in. */
  datatype User = User(uid: string, photoUrl: string, displayName: string)

  /** The payload of `updateUserProfile`: the two fields it overwrites. */
  datatype Profile = Profile(displayName: string, photoUrl: string)

  /** The actions the slice handles. */
  datatype UserAction =
    | Login(payload: User)
    | Logout
    | UpdateUserProfile(profile: Profile)

  /** The record of the initial state, to which `logout` returns. */
  const InitialUser: User := User("", "", "")

  /** The new user record after one action: `login` installs its payload, `logout` the
      initial record, and `updateUserProfile` replaces the two profile fields only. */
  function Reduce(user: User, action: UserAction): (r: User)
    ensures action.Login? ==> r == action.payload
    ensures action.Logout? ==> r == InitialUser
    ensures action.UpdateUserProfile? ==>
              r.uid == user.uid && r.displayName == action.profile.displayName &&
              r.photoUrl == action.profile.photoUrl
  {
    match action
    case Login(payload) => payload
    case Logout => InitialUser
    case UpdateUserProfile(profile) => user.(displayName := profile.displayName, photoUrl := profile.photoUrl)
  }

  /** The user record after the store has handled `actions` in dispatch order: the last
      action is reduced onto the record the earlier ones reached. */
  function Run(user: User, actions: seq<UserAction>): (r: User)
    ensures actions == [] ==> r == user
    ensures actions != [] ==> r == Reduce(Run(user, actions[..|actions| - 1]), actions[|actions| - 1])
    decreases |actions|
  {
    if actions == [] then user
    else
      var rest := actions[1..];
      assert rest != [] ==> actions[..|actions| - 1][1..] == rest[..|rest| - 1];
      Run(Reduce(user, actions[0]), rest)
  }

  /** The `uid` after `actions`, read off the most recent `login` or `logout` among them:
      a `login` leaves its payload's `uid`, a `logout` leaves the empty one, and without
      either the starting `uid` stays. */
  function SessionUid(startUid: string, actions: seq<UserAction>): (uid: string)
    decreases |actions|
  {
    if actions == [] then startUid
    else
      match actions[|actions| - 1]
      case Login(payload) => payload.uid
      case Logout => ""
      case UpdateUserProfile(_) => SessionUid(startUid, actions[..|actions| - 1])
  }

  /** Only `login` and `logout` move the `uid`: after any sequence of actions it is the one
      the most recent of them left, whatever profile updates came in between. */
  lemma {:induction false} RunUid(user: User, actions: seq<UserAction>)
    ensures Run(user, actions).uid == SessionUid(user.uid, actions)
    decreases |actions|
  {
    if actions != [] {
      RunUid(user, actions[..|actions| - 1]);
    }
  }

  /** `logout` forgets everything: it yields the initial record from any state, so a second
      `logout` changes nothing. */
  lemma LogoutIdempotent(user: User)
    ensures Reduce(user, Logout) == InitialUser
    ensures Reduce(Reduce(user, Logout), Logout) == Reduce(user, Logout)
  {
  }

  /** `login` forgets the previous record: whatever came before, the result is the payload. */
  lemma LoginReplaces(user: User, before: UserAction, payload: User)
    ensures Reduce(Reduce(user, before), Login(payload)) == Reduce(user, Login(payload)) == payload
  {
  }

  /** `updateUserProfile` keeps the `uid`, takes both profile fields from the payload, and
      applying it twice with the same payload is the same as applying it once. */
  lemma UpdateUserProfileIdempotent(user: User, profile: Profile)
    ensures Reduce(user, UpdateUserProfile(profile)).uid == user.uid
    ensures Reduce(user, UpdateUserProfile(profile)).displayName == profile.displayName
    ensures Reduce(user, UpdateUserProfile(profile)).photoUrl == profile.photoUrl
    ensures Reduce(Reduce(user, UpdateUserProfile(profile)), UpdateUserProfile(profile))
         == Reduce(user, UpdateUserProfile(profile))
  {
  }

  /** The slice as the store holds it: one mutable user record. */
  class UserStore {

    var user: User

    /** The slice starts from the initial state: every field empty. */
    constructor ()
      ensures user == InitialUser
      ensures user.uid == "" && user.photoUrl == "" && user.displayName == ""
    {
      user := InitialUser;
    }

    /** `login`: the record becomes exactly the payload. */
    method Login(payload: User)
      modifies this
      ensures user == payload
      ensures user == Reduce(old(user), UserAction.Login(payload))
    {
      user := payload;
    }

    /** `logout`: the record returns to the initial one, whatever it was. */
    method Logout()
      modifies this
      ensures user == InitialUser
      ensures user == Reduce(old(user), UserAction.Logout)
    {
      user := InitialUser;
    }

    /** `updateUserProfile`: the display name and photo URL come from the payload, the `uid`
        stays. */
    method UpdateUserProfile(profile: Profile)
      modifies this
      ensures user.displayName == profile.displayName && user.photoUrl == profile.photoUrl
      ensures user.uid == old(user.uid)
      ensures user == Reduce(old(user), UserAction.UpdateUserProfile(profile))
    {
      user := user.(displayName := profile.displayName);
      user := user.(photoUrl := profile.photoUrl);
    }

    /** `selectUser`: the stored record, read without changing the store. */
    method SelectUser() returns (selected: User)
      ensures selected == user
    {
      selected := user;
    }
  }
}
