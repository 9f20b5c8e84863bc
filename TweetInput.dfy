/** The post composer: a message field, an optional image, and the handler that writes the
    post to the `posts` collection. The backend calls it makes are returned as requests; what
    the backend answers is given as parameters. */
module TweetInput {

  import opened Wrappers
  import opened Backend
  import opened FileKeys
  import opened UserSlice

  /** The Tweet button's `disabled` flag: set exactly when the message is empty. */
  function SendDisabled(tweetMsg: string): (disabled: bool)
    ensures disabled <==> |tweetMsg| == 0
  {
    tweetMsg == ""
  }

  /** What the backend answers while a post is sent: whether the image upload completed,
      the image's download URL (None when fetching it failed), and whether the write of a
      post without an image went through. */
  datatype TweetReplies = TweetReplies(imageStored: bool, downloadUrl: Option<string>, postAdded: bool)

  /** The composer's state, one field per state hook. */
  class TweetComposer {

    var tweetMsg: string
    var tweetImage: Option<File>

    /** An empty message and no image. */
    constructor ()
      ensures tweetMsg == "" && tweetImage == None
    {
      tweetMsg, tweetImage := "", None;
    }

    /** Choosing files: the first one becomes the post's image; an empty choice changes nothing. */
    method OnChangeImage(files: seq<File>)
      modifies this`tweetImage
      ensures tweetImage == if |files| > 0 then Some(files[0]) else old(tweetImage)
    {
      if |files| > 0 {
        tweetImage := Some(files[0]);
      }
    }

    /** Sends the post as the user selected from the store. The form submits only through the
        Tweet button, so the message is never empty when this runs. Without an image the post is
        written with an empty image, and the form is reset once that write succeeds. With an
        image, the image is uploaded under a random name in the images folder and the form is
        reset straight away; when the upload completes, the image's URL is fetched and the
        post is written with it. Every post written carries the user's photo URL and display
        name and the message as it was when sent. */
    method SendTweet(store: UserStore, draws: seq<nat>, replies: TweetReplies) returns (requests: seq<Request>)
      requires !SendDisabled(tweetMsg)
      requires |draws| == KeyLength
      modifies this
      ensures forall r :: r in requests && r.AddPost? ==>
                r.post.avatar == store.user.photoUrl && r.post.text == old(tweetMsg) &&
                r.post.username == store.user.displayName
      ensures forall r :: r in requests && r.AddPost? ==> r.post.text != ""
      ensures old(tweetImage).None? ==>
                requests == [AddPost(Post(store.user.photoUrl, "", old(tweetMsg), store.user.displayName))]
      ensures old(tweetImage).None? && !replies.postAdded ==>
                tweetMsg == old(tweetMsg) && tweetImage == old(tweetImage)
      ensures old(tweetImage).Some? ==>
                var path := UploadPath(ImageFolder, draws, old(tweetImage).value);
                1 <= |requests| <= 3 &&
                requests[0] == PutObject(path, old(tweetImage).value) &&
                (|requests| >= 2 <==> replies.imageStored) &&
                (|requests| >= 2 ==> requests[1] == GetDownloadUrl(path)) &&
                (|requests| == 3 <==> replies.imageStored && replies.downloadUrl.Some?) &&
                (|requests| == 3 ==> requests[2].AddPost? && requests[2].post.image == replies.downloadUrl.value)
      ensures old(tweetImage).Some? || replies.postAdded ==> tweetMsg == "" && tweetImage == None
    {
      var user := store.SelectUser();
      if tweetImage.Some? {
        var fileName := FileName(RandomChars(draws), tweetImage.value.name);
        requests := [PutObject(StoragePath(ImageFolder, fileName), tweetImage.value)];
        // What the upload's completion callback does, with the message it captured.
        if replies.imageStored {
          requests := requests + [GetDownloadUrl(StoragePath(ImageFolder, fileName))];
          if replies.downloadUrl.Some? {
            var url := replies.downloadUrl.value;
            requests := requests + [AddPost(Post(user.photoUrl, url, tweetMsg, user.displayName))];
          }
        }
      } else {
        requests := [AddPost(Post(user.photoUrl, "", tweetMsg, user.displayName))];
        if !replies.postAdded {
          return;
        }
      }
      tweetMsg := "";
      tweetImage := None;
    }
  }
}
