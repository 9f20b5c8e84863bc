# Social-feed client: session state, form rules and upload names

This project models the part of a small social-feed web client that holds logic of its own.
Everything else in the client calls a hosted backend that handles authentication, object
storage and a document store. The model covers four source files:

- `src/features/userSlice.ts`: the store's user slice. One `{uid, photoUrl, displayName}`
  record is changed by three reducers: `login`, `logout` and `updateUserProfile`.
  `UserSlice.Reduce` is the reducer as a function of the record and the action.
  `UserSlice.UserStore` is a class holding the record, with one method per reducer and one
  for `selectUser`. `Run` applies a sequence of dispatched actions in order.
- `src/App.tsx`: the session callback, which dispatches `logout` for no user and `login`
  with three copied fields for a user. Also the screen choice: the feed when `uid` is
  non-empty, the sign-in screen otherwise.
- `src/components/Auth.tsx`: the sign-in and registration screen as the class
  `Auth.AuthForm`, one field per state hook. It covers the submit button's enabling rule,
  the image picker, the mode toggle, the reset dialog and the password-reset handler. It
  also covers the sign-in and registration handlers.
- `src/components/TweetInput.tsx`: the composer as the class `TweetInput.TweetComposer`. It
  covers the Tweet button's rule, the image picker and `sendTweet`.

Both upload paths name the stored object the same way. Sixteen random draws are each mapped
to `S[n % 62]` over a 62-character alphanumeric alphabet. Then `_` and the original file name
are appended, and the result is placed under the folder `avatars` or `images`. The module
`FileKeys` defines this once, and both components use it.

Backend calls are not executed. Each handler returns the calls it makes, in order, as a
sequence of `Backend.Request` values. What the backend answers (success or failure, a download
URL) is a parameter of the handler. In the sign-up handler and in `sendTweet` without an
image, a failed awaited call ends the handler, as the uncaught rejection does in the source.
The password-reset handler catches the rejection and goes on to clear the typed address.
The random source `crypto.getRandomValues` is also a parameter:
a sequence of natural numbers.

In `sendTweet` without an image, the form is reset only after the post write resolves
(`src/components/TweetInput.tsx:53-63`). If the write rejects, the handler stops before the
reset. With an image, the reset happens at once, and the post is written later by the
upload's completion callback.

## Model

| member | source | states |
|---|---|---|
| `UserSlice.Reduce` | src/features/userSlice.ts:21-30 | `login` installs its payload, `logout` the initial record, `updateUserProfile` keeps `uid` and takes both profile fields from its payload |
| `UserSlice.Run` | src/features/userSlice.ts:17-32 | actions are handled in dispatch order: the last one is reduced onto the record the earlier ones reached; no actions leave the record as it was |
| `UserSlice.UserStore.constructor` | src/features/userSlice.ts:9-15 | the initial record has `uid`, `photoUrl` and `displayName` all empty |
| `UserSlice.UserStore.Login` | src/features/userSlice.ts:21-23 | after `login` the record is exactly the payload, all three fields replaced |
| `UserSlice.UserStore.Logout` | src/features/userSlice.ts:24-26 | after `logout` the record is the initial empty one, whatever it was before |
| `UserSlice.UserStore.UpdateUserProfile` | src/features/userSlice.ts:27-30 | `displayName` and `photoUrl` come from the payload; `uid` keeps its old value |
| `UserSlice.UserStore.SelectUser` | src/features/userSlice.ts:36 | returns the stored record; it has no modifies clause, so the store is unchanged |
| `UserSlice.LogoutIdempotent` | src/features/userSlice.ts:24-26 | `logout` yields the initial record from any state, so a second `logout` changes nothing |
| `UserSlice.LoginReplaces` | src/features/userSlice.ts:21-23 | `login` forgets the previous record: whatever action came before, the result is the payload |
| `UserSlice.UpdateUserProfileIdempotent` | src/features/userSlice.ts:27-30 | the update keeps `uid`, sets both profile fields, and applying it twice with one payload equals applying it once |
| `UserSlice.RunUid` | src/features/userSlice.ts:21-30 | after any action sequence, `uid` is the one left by the most recent `login` or `logout`; profile updates never move it |
| `App.ChooseView` | src/App.tsx:38-44 | the feed is rendered exactly when `uid` is non-empty, and the sign-in screen exactly when it is empty |
| `App.OnAuthStateChanged` | src/App.tsx:14-31 | exactly one action is dispatched: `logout` for no user, `login` with `uid`, `photoURL` and `displayName` copied for a user; afterwards the feed shows exactly when a user with non-empty `uid` was reported |
| `App.LogoutShowsAuth` | src/App.tsx:38-44 | after `logout` the sign-in screen is shown, from any prior state |
| `App.ProfileUpdateKeepsView` | src/App.tsx:38-44 | a profile update never switches between feed and sign-in screen |
| `App.ViewAfterActions` | src/App.tsx:38-44 | after any action sequence the feed shows exactly when the latest `login`/`logout` left a non-empty `uid`; a sequence ending in `logout` shows the sign-in screen |
| `Auth.SubmitDisabled` | src/components/Auth.tsx:233-237 | the button is enabled exactly when email is non-empty and the password has at least 6 characters, plus, in register mode, a non-empty username and a chosen avatar |
| `Auth.RegisterStricterThanSignIn` | src/components/Auth.tsx:233-237 | a form that may register may also sign in; with a username and an avatar the two modes agree |
| `Auth.AuthForm.constructor` | src/components/Auth.tsx:86-92 | empty fields, no avatar, sign-in mode, reset dialog closed, empty reset address |
| `Auth.AuthForm.OnChangeImage` | src/components/Auth.tsx:94-99 | the first chosen file becomes the avatar; an empty choice leaves it unchanged; no other field changes |
| `Auth.AuthForm.ToggleMode` | src/components/Auth.tsx:258-263 | the mode flips; no other field changes |
| `Auth.ToggleModeTwice` | src/components/Auth.tsx:260 | toggling twice restores the original mode |
| `Auth.AuthForm.OpenResetModal` | src/components/Auth.tsx:250-253 | "Forgot password?" opens the reset dialog and changes nothing else |
| `Auth.AuthForm.CloseResetModal` | src/components/Auth.tsx:276 | dismissing the dialog closes it and changes nothing else |
| `Auth.AuthForm.SendEmailToResetPassword` | src/components/Auth.tsx:136-144 | the reset is requested for the typed address; the address is cleared in every case; the dialog closes only when the send succeeds |
| `Auth.AuthForm.SignInWithEmail` | src/components/Auth.tsx:101-103 | one sign-in request with the typed email and password |
| `Auth.AuthForm.SignUpWithEmail` | src/components/Auth.tsx:104-130 | the whole request log, case by case: account creation first and alone if it fails; without an avatar, then the profile update with the username and `''`; with one, the upload to a random `avatars` path, then the download URL of that same path if the upload succeeded, then the profile update with that URL if it came back. `updateUserProfile` is dispatched exactly when every step succeeds, with the name and photo URL of the profile update request; the handler's own dispatch is the only change it makes to the store |
| `Auth.AuthForm.Submit` | src/components/Auth.tsx:227-247 | an enabled button signs in (no dispatch, store unchanged) or registers; registering sends account creation, then the upload of the chosen avatar if the account exists, then the URL fetch if the upload succeeded, then the profile update with that URL if it came back, and nothing else; a registration dispatches exactly when the account, the avatar upload, its download URL and the profile update all succeed, and then dispatches the username with the avatar's download URL (never the `''` default); the store changes only by that dispatch |
| `FileKeys.RandomChars` | src/components/Auth.tsx:108-112 | one character per draw; character i is `S[n_i mod 62]` |
| `FileKeys.RandomCharsAlphanumeric` | src/components/Auth.tsx:108-112 | every character of a key is a letter or a digit |
| `FileKeys.RandomCharsDetermineResidues` | src/components/Auth.tsx:110-111 | two draw sequences with the same key have the same length and agree on every draw modulo 62 |
| `FileKeys.DrawsFor` | src/components/Auth.tsx:108-112 | every alphanumeric string is the key of some draws: one draw below 62 per character, mapped back to exactly that string |
| `FileKeys.AlphabetLayout` | src/components/Auth.tsx:108 | the 62-character alphabet is `a`-`z`, then `A`-`Z`, then `0`-`9` |
| `FileKeys.AlphabetIsAlphanumeric` | src/components/Auth.tsx:108 | every alphabet character is alphanumeric, and every alphanumeric character is in the alphabet |
| `FileKeys.AlphabetDistinct` | src/components/Auth.tsx:108 | no character occurs twice in the alphabet |
| `FileKeys.IndexOf` | src/components/Auth.tsx:108 | each alphanumeric character sits at some position below 62 |
| `FileKeys.FileNameRoundTrip` | src/components/Auth.tsx:113 | `key + '_' + name` splits back into the 16-character key and the name; every name that splits is rebuilt from its parts |
| `FileKeys.FileName` | src/components/Auth.tsx:113 | the stored name is the key, then `_`, then the original file name, and nothing else |
| `FileKeys.StoragePath` | src/components/TweetInput.tsx:31 | an object path is the folder, then `/`, then the object's name, and nothing else |
| `FileKeys.UploadPath` | src/components/Auth.tsx:113-117 | the upload path is the folder, `/`, one alphanumeric character per draw, `_` and the original name; with 16 draws its file name splits back into that key and the original name |
| `TweetInput.SendDisabled` | src/components/TweetInput.tsx:100-108 | the Tweet button is disabled exactly when the message is empty |
| `TweetInput.TweetComposer.constructor` | src/components/TweetInput.tsx:13-14 | empty message, no image |
| `TweetInput.TweetComposer.OnChangeImage` | src/components/TweetInput.tsx:16-21 | the first chosen file becomes the image; an empty choice leaves it unchanged |
| `TweetInput.TweetComposer.SendTweet` | src/components/TweetInput.tsx:22-64 | it runs only while the Tweet button is enabled, so no post with empty text is ever written; every written post carries the user's photo URL, display name and the message as sent. Without an image the post has `image = ''` and the form resets once the write succeeds. With an image it is uploaded to and fetched from the same random `images` path; the post's image is the download URL; the form resets at once |

## Left out

- Backend SDK calls are not modelled: email sign-in and sign-up, popup sign-in, the
  password-reset email, storage `put` and `getDownloadURL`, Firestore `add` and
  `serverTimestamp`. Each call becomes a recorded `Request`, and its outcome is a parameter.
- Google popup sign-in (`src/components/Auth.tsx:132-134`) is left out. It is one SDK call
  that changes no client state; its errors only raise an alert.
- The post's server timestamp is left out of `Backend.Post`. The backend assigns it.
- `crypto.getRandomValues` is a parameter: a sequence of `KeyLength` naturals. The model does
  not bound the draws to 32 bits. The key depends only on each draw modulo 62, so the bound
  changes nothing proved here.
- Upload progress callbacks and event-loop ordering are left out. With an image, the post is
  written asynchronously after the form reset. `SendTweet` returns the requests that the
  completion callback issues, and the captured message, without modelling when they happen.
- Storage references: `ref('folder').child(name)` and the template path `folder/name` are
  taken to name the same object. `StoragePath` models both as one string.
- The authentication service may report `null` for `photoURL` or `displayName`. The source
  copies such a `null` into the store unchanged. The model's fields are strings, so this
  case is not modelled.
- `Auth.AuthForm.SignUpWithEmail` assumes a created account always carries a user. The source
  skips the profile update when `authUser.user` is null (optional chaining), then still
  dispatches. This case is not modelled.
- `Auth.AuthForm.SignUpWithEmail`: the contract covers only the handler's own dispatch. Creating
  the account also signs the new user in, and the session callback (`src/App.tsx:14-31`) then
  dispatches `login` while the handler is still running. That interleaved `login` is not
  modelled, so from a signed-out store the model ends with an empty `uid`, where the program
  shows the feed.
- `Auth.SubmitDisabled` counts password length in characters. JavaScript's `length` counts
  UTF-16 code units, so the two differ for characters outside the Basic Multilingual Plane.
- Text-field `onChange` handlers only copy the input's value into a state field. The model's
  class fields stand for that state and are assigned directly.
- Resetting the file input's DOM value (`e.target.value = ''`) is left out. It only lets
  the same file be chosen again.
- Alerts, styling, the modal's CSS position, JSX layout and the feed component are left out.
- React hook lifecycle (subscribing and unsubscribing the session callback) and Redux store
  wiring are left out. The reducers' in-place writes are modelled on a class field. Each
  dispatched action takes effect before the next one.
