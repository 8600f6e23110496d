/** The user record each route module keeps in its in-memory array, and the
    two lookups the routes perform on such an array. */
module Users {
  import opened Js
  import Bcrypt

  /** `{id, name, email, password}`, where `password` holds the hash. */
  datatype User = User(id: string, name: string, email: string, password: Bcrypt.Digest)

  /** `{id, name, email}`: what a response reveals about a user. */
  datatype PublicUser = PublicUser(id: string, name: string, email: string)

  function Profile(u: User): PublicUser
  {
    PublicUser(u.id, u.name, u.email)
  }

  /** `users.find(u => u.email === email)`. */
  function FindByEmail(users: seq<User>, email: string): (r: Option<User>)
    ensures r.None? <==> forall i :: 0 <= i < |users| ==> users[i].email != email
    ensures r.Some? ==> exists k :: 0 <= k < |users| && users[k] == r.value && r.value.email == email &&
                                   forall j :: 0 <= j < k ==> users[j].email != email
  {
    Find(users, (u: User) => u.email == email)
  }

  /** `users.find(u => u.id === id)`. */
  function FindById(users: seq<User>, id: string): (r: Option<User>)
    ensures r.None? <==> forall i :: 0 <= i < |users| ==> users[i].id != id
    ensures r.Some? ==> exists k :: 0 <= k < |users| && users[k] == r.value && r.value.id == id &&
                                   forall j :: 0 <= j < k ==> users[j].id != id
  {
    Find(users, (u: User) => u.id == id)
  }

  /** At most one record per email. */
  predicate UniqueEmails(users: seq<User>)
  {
    forall i, j :: 0 <= i < j < |users| ==> users[i].email != users[j].email
  }
}
