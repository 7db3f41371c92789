/** Values shared by the client and the server side of the chat subsystem. */
module Domain {

  datatype Option<T> = None | Some(value: T)

  /** JavaScript truthiness of an optional string: `undefined`, `null` and "" are all falsy. */
  predicate Truthy(o: Option<string>)
  {
    o.Some? && o.value != ""
  }

  /** A stored user record; the password hash never leaves the server. */
  datatype User = User(id: string, email: string, fullName: string, profilePic: string, password: string)

  /** The public identity of a user: the client's `IUser`, the server's request identity. */
  datatype PublicUser = PublicUser(id: string, email: string, fullName: string, profilePic: string)

  /** A user record with its password field stripped (`select("-password")`). */
  function Sanitize(u: User): PublicUser
  {
    PublicUser(u.id, u.email, u.fullName, u.profilePic)
  }

  /** The body of a send request: an optional text and an optional image. */
  datatype Payload = Payload(text: Option<string>, image: Option<string>)

  /** The server's content rule: at least one of text and image is truthy. */
  predicate HasContent(p: Payload)
  {
    Truthy(p.text) || Truthy(p.image)
  }

  /** A file picked in a browser file input: its MIME type and size in bytes. */
  datatype FileInfo = FileInfo(mimeType: string, size: nat)

  predicate StartsWith(s: string, prefix: string)
  {
    |prefix| <= |s| && s[..|prefix|] == prefix
  }

  /** `file.type.startsWith("image/")`. */
  predicate IsImageType(f: FileInfo)
  {
    StartsWith(f.mimeType, "image/")
  }

  predicate Distinct<T(==)>(s: seq<T>)
  {
    forall i, j :: 0 <= i < j < |s| ==> s[i] != s[j]
  }

  /** The store's `_id` uniqueness. */
  predicate UniqueIds(users: seq<User>)
  {
    forall i, j :: 0 <= i < j < |users| ==> users[i].id != users[j].id
  }
}
