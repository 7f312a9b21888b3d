/** The User document: the three required strings, a status with a default,
    and the list of the user's posts. */
module UserModel {
  import opened Common

  /** The status a user document gets when none is supplied. */
  const DefaultStatus := "I am new!"

  datatype User = User(email: string, password: string, name: string, status: string, posts: seq<PostId>)

  /** Builds the document Mongoose would save. `required` on a String path
      rejects a missing value and the empty string alike (both are "" here),
      so the save fails unless email, password and name are all non-empty.
      No uniqueness is declared on any path. */
  function NewUser(email: string, password: string, name: string, status: Option<string>): (r: Option<User>)
    ensures r.Some? <==> email != "" && password != "" && name != ""
    ensures r.Some? ==> r.value.email == email && r.value.password == password && r.value.name == name
    ensures r.Some? && status.None? ==> r.value.status == DefaultStatus
    ensures r.Some? && status.Some? ==> r.value.status == status.value
    ensures r.Some? ==> r.value.posts == []
  {
    if email == "" || password == "" || name == "" then None
    else Some(User(email, password, name, if status.Some? then status.value else DefaultStatus, []))
  }
}
