/** The root component: it keeps the user slice in step with the authentication service's
    session callback, and shows the feed to a signed-in user and the sign-in screen otherwise. */
module App {

  import opened Wrappers
  import opened UserSlice

  /** The user the session callback reports. */
  datatype AuthUser = AuthUser(uid: string, photoURL: string, displayName: string)

  /** The two screens the root component can render. */
  datatype View = Feed | AuthScreen

  /** The rendered screen: the feed exactly when the stored `uid` is non-empty. */
  function ChooseView(user: User): (view: View)
    ensures view == Feed <==> user.uid != ""
    ensures view == AuthScreen <==> user.uid == ""
  {
    if user.uid != "" then Feed else AuthScreen
  }

  /** The session callback: no user dispatches `logout` and returns; a user dispatches
      `login` with its three fields copied. Exactly one action is dispatched either way. */
  method OnAuthStateChanged(store: UserStore, authUser: Option<AuthUser>) returns (dispatched: seq<UserAction>)
    modifies store
    ensures |dispatched| == 1
    ensures authUser.None? ==> dispatched == [Logout]
    ensures authUser.Some? ==>
              dispatched == [Login(User(authUser.value.uid, authUser.value.photoURL, authUser.value.displayName))]
    ensures store.user == Reduce(old(store.user), dispatched[0])
    ensures ChooseView(store.user) == (if authUser.Some? && authUser.value.uid != "" then Feed else AuthScreen)
  {
    if authUser.None? {
      store.Logout();
      dispatched := [Logout];
      return;
    }
    if authUser.Some? {
      var payload := User(authUser.value.uid, authUser.value.photoURL, authUser.value.displayName);
      store.Login(payload);
      dispatched := [Login(payload)];
    }
  }

  /** After `logout` the sign-in screen is shown, whatever the state was. */
  lemma LogoutShowsAuth(user: User)
    ensures ChooseView(Reduce(user, Logout)) == AuthScreen
  {
  }

  /** A profile update never switches the screen. */
  lemma ProfileUpdateKeepsView(user: User, profile: Profile)
    ensures ChooseView(Reduce(user, UpdateUserProfile(profile))) == ChooseView(user)
  {
  }

  /** After any sequence of actions the feed is shown exactly when the most recent `login`
      or `logout` among them left a non-empty `uid`; in particular, when that was a `logout`
      the sign-in screen is shown. */
  lemma {:induction false} ViewAfterActions(user: User, actions: seq<UserAction>)
    ensures ChooseView(Run(user, actions)) == (if SessionUid(user.uid, actions) != "" then Feed else AuthScreen)
    ensures actions != [] && actions[|actions| - 1] == Logout ==> ChooseView(Run(user, actions)) == AuthScreen
  {
    RunUid(user, actions);
  }
}
