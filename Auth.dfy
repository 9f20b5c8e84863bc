/** The sign-in / registration screen: its form state, the rule that enables its submit
    button, and its handlers. The backend calls it makes are returned as requests; what the
    backend answers is given as parameters. */
module Auth {

  import opened Wrappers
  import opened Backend
  import opened FileKeys
  import opened UserSlice

  /** The shortest password the submit button accepts. */
  const MinPasswordLength: nat := 6

  /** The submit button's `disabled` flag. In sign-in mode it needs an email and a password
      of at least six characters; in register mode also a username and an avatar image. */
  function SubmitDisabled(isLogin: bool, email: string, password: string, username: string,
                          avatarImage: Option<File>): (disabled: bool)
    ensures !disabled <==>
              email != "" && |password| >= MinPasswordLength &&
              (!isLogin ==> username != "" && avatarImage.Some?)
  {
    if isLogin then email == "" || |password| < MinPasswordLength
    else username == "" || avatarImage.None? || email == "" || |password| < MinPasswordLength
  }

  /** Register mode asks for more than sign-in mode: a form that can register can also sign
      in, and with a username and an avatar the two modes agree. */
  lemma RegisterStricterThanSignIn(email: string, password: string, username: string, avatarImage: Option<File>)
    ensures !SubmitDisabled(false, email, password, username, avatarImage) ==>
            !SubmitDisabled(true, email, password, username, avatarImage)
    ensures username != "" && avatarImage.Some? ==>
            SubmitDisabled(false, email, password, username, avatarImage) ==
            SubmitDisabled(true, email, password, username, avatarImage)
  {
  }

  /** What the backend answers during registration: whether the account was created,
      whether the avatar upload went through, the avatar's download URL (None when fetching
      it failed) and whether the profile update went through. A failed step throws, and
      the handler stops there. */
  datatype SignUpReplies = SignUpReplies(
    accountCreated: bool,
    avatarStored: bool,
    downloadUrl: Option<string>,
    profileUpdated: bool)

  /** The screen's state, one field per state hook. */
  class AuthForm {

    var email: string
    var password: string
    var username: string
    var avatarImage: Option<File>
    var isLogin: bool
    var isModalOpen: bool
    var emailToResetPassword: string

    /** Empty fields, no avatar, sign-in mode, the reset dialog closed. */
    constructor ()
      ensures email == "" && password == "" && username == "" && avatarImage == None
      ensures isLogin && !isModalOpen && emailToResetPassword == ""
    {
      email, password, username := "", "", "";
      avatarImage := None;
      isLogin, isModalOpen := true, false;
      emailToResetPassword := "";
    }

    /** Choosing files: the first one becomes the avatar; an empty choice changes nothing. */
    method OnChangeImage(files: seq<File>)
      modifies this`avatarImage
      ensures avatarImage == if |files| > 0 then Some(files[0]) else old(avatarImage)
    {
      if |files| > 0 {
        avatarImage := Some(files[0]);
      }
    }

    /** The mode link flips between sign-in and register mode. */
    method ToggleMode()
      modifies this`isLogin
      ensures isLogin == !old(isLogin)
    {
      isLogin := !isLogin;
    }

    /** "Forgot password?" opens the reset dialog. */
    method OpenResetModal()
      modifies this`isModalOpen
      ensures isModalOpen
    {
      isModalOpen := true;
    }

    /** Dismissing the reset dialog closes it. */
    method CloseResetModal()
      modifies this`isModalOpen
      ensures !isModalOpen
    {
      isModalOpen := false;
    }

    /** Sends the reset email to the typed address. The dialog closes only when the send
        succeeds; the typed address is cleared in every case. */
    method SendEmailToResetPassword(sent: bool) returns (requests: seq<Request>)
      modifies this`isModalOpen, this`emailToResetPassword
      ensures requests == [SendPasswordResetEmail(old(emailToResetPassword))]
      ensures emailToResetPassword == ""
      ensures isModalOpen == (old(isModalOpen) && !sent)
    {
      requests := [SendPasswordResetEmail(emailToResetPassword)];
      if sent {
        isModalOpen := false;
      }
      emailToResetPassword := "";
    }

    /** Signs in with the typed email and password. */
    method SignInWithEmail() returns (requests: seq<Request>)
      ensures requests == [Request.SignInWithEmail(email, password)]
    {
      requests := [Request.SignInWithEmail(email, password)];
    }

    /** Registers: creates the account; uploads the avatar, if one is chosen, under a random
        name in the avatars folder and fetches its URL; sets the account's profile; and
        finally dispatches `updateUserProfile` with the same name and photo URL. Without an
        avatar the photo URL is the empty string. A failed step ends the handler. */
    method SignUpWithEmail(store: UserStore, draws: seq<nat>, replies: SignUpReplies)
      returns (requests: seq<Request>, dispatched: Option<Profile>)
      requires |draws| == KeyLength
      modifies store
      ensures |requests| >= 1 && requests[0] == CreateUserWithEmail(email, password)
      ensures !replies.accountCreated ==> requests == [CreateUserWithEmail(email, password)]
      ensures avatarImage.None? && replies.accountCreated ==>
                requests == [CreateUserWithEmail(email, password), UpdateProfile(username, "")]
      ensures avatarImage.Some? && replies.accountCreated ==>
                var path := UploadPath(AvatarFolder, draws, avatarImage.value);
                requests == [CreateUserWithEmail(email, password), PutObject(path, avatarImage.value)] +
                            (if !replies.avatarStored then []
                             else [GetDownloadUrl(path)] +
                                  (if replies.downloadUrl.None? then []
                                   else [UpdateProfile(username, replies.downloadUrl.value)]))
      ensures dispatched.Some? <==>
                replies.accountCreated && replies.profileUpdated &&
                (avatarImage.Some? ==> replies.avatarStored && replies.downloadUrl.Some?)
      ensures dispatched.Some? ==>
                dispatched.value.displayName == username &&
                dispatched.value.photoUrl == (if avatarImage.None? then "" else replies.downloadUrl.value) &&
                requests[|requests| - 1] == UpdateProfile(dispatched.value.displayName, dispatched.value.photoUrl)
      ensures store.user == if dispatched.Some? then Reduce(old(store.user), UpdateUserProfile(dispatched.value))
                            else old(store.user)
    {
      requests := [CreateUserWithEmail(email, password)];
      dispatched := None;
      if !replies.accountCreated {
        return;
      }
      var url := "";
      if avatarImage.Some? {
        var fileName := FileName(RandomChars(draws), avatarImage.value.name);
        requests := requests + [PutObject(StoragePath(AvatarFolder, fileName), avatarImage.value)];
        if !replies.avatarStored {
          return;
        }
        requests := requests + [GetDownloadUrl(StoragePath(AvatarFolder, fileName))];
        if replies.downloadUrl.None? {
          return;
        }
        url := replies.downloadUrl.value;
      }
      requests := requests + [UpdateProfile(username, url)];
      if !replies.profileUpdated {
        return;
      }
      var profile := Profile(username, url);
      store.UpdateUserProfile(profile);
      dispatched := Some(profile);
    }

    /** The submit button's click, which can only happen while the button is enabled: sign in
        in sign-in mode, register otherwise. Registering from the button always uploads an
        avatar, since register mode enables the button only with one chosen, and stops at the
        first step that fails. Only a registration whose every step succeeds dispatches, and
        then with the username and the avatar's download URL in place of the empty default. */
    method Submit(store: UserStore, draws: seq<nat>, replies: SignUpReplies)
      returns (requests: seq<Request>, dispatched: Option<Profile>)
      requires !SubmitDisabled(isLogin, email, password, username, avatarImage)
      requires |draws| == KeyLength
      modifies store
      ensures isLogin ==> requests == [Request.SignInWithEmail(email, password)] && dispatched.None?
      ensures store.user == if dispatched.Some? then Reduce(old(store.user), UpdateUserProfile(dispatched.value))
                            else old(store.user)
      ensures !isLogin ==>
                (dispatched.Some? <==>
                   replies.accountCreated && replies.avatarStored && replies.downloadUrl.Some? && replies.profileUpdated)
      ensures !isLogin && dispatched.Some? ==> dispatched.value == Profile(username, replies.downloadUrl.value)
      ensures !isLogin ==>
                var path := UploadPath(AvatarFolder, draws, avatarImage.value);
                requests == [CreateUserWithEmail(email, password)] +
                            (if !replies.accountCreated then []
                             else [PutObject(path, avatarImage.value)] +
                                  (if !replies.avatarStored then []
                                   else [GetDownloadUrl(path)] +
                                        (if replies.downloadUrl.None? then []
                                         else [UpdateProfile(username, replies.downloadUrl.value)])))
    {
      if isLogin {
        requests := SignInWithEmail();
        dispatched := None;
      } else {
        requests, dispatched := SignUpWithEmail(store, draws, replies);
      }
    }
  }

  /** Following the mode link twice returns the screen to the mode it was in. */
  method ToggleModeTwice(form: AuthForm)
    modifies form`isLogin
    ensures form.isLogin == old(form.isLogin)
  {
    form.ToggleMode();
    form.ToggleMode();
  }
}
