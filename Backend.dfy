/** The values the client hands to the hosted backend. The backend itself (authentication,
    object storage, document store) is not modelled: each call is recorded as a `Request`,
    and what the call answers is a parameter of the operation that issues it. */
module Backend {

  /** A file chosen in a file input. Only its name reaches the client's logic. */
  datatype File = File(name: string)

  /** A document written to the `posts` collection. The server-assigned timestamp is not
      part of the model. */
  datatype Post = Post(avatar: string, image: string, text: string, username: string)

  /** One call into the backend SDK, with the arguments the client passes. */
  datatype Request =
    | SignInWithEmail(email: string, password: string)
    | CreateUserWithEmail(email: string, password: string)
    | PutObject(path: string, file: File)
    | GetDownloadUrl(path: string)
    | UpdateProfile(displayName: string, photoUrl: string)
    | SendPasswordResetEmail(email: string)
    | AddPost(post: Post)
}
