/** The user document's merge (db/users.go `UpdateUserFields`): every non-empty field of the new
    user overwrites the old one. Password hashing and MongoDB access are not part of this model. */
module DbUsers {
  import opened Mongo

  datatype User = User(id: ObjectId, username: string, password: string, email: string)

  /** The new value when it is not Go's zero value, else the old one. */
  function Pick<T(==)>(prev: T, upd: T, zero: T): T {
    if upd != zero then upd else prev
  }

  /** `UpdateUserFields`: a non-empty username, password or email and a non-zero id replace the old
      ones; empty ones keep them. */
  function UpdateUserFields(prev: User, upd: User): (r: User)
    ensures r.id == (if upd.id != ZeroId then upd.id else prev.id)
    ensures r.username == (if upd.username != "" then upd.username else prev.username)
    ensures r.password == (if upd.password != "" then upd.password else prev.password)
    ensures r.email == (if upd.email != "" then upd.email else prev.email)
  {
    User(Pick(prev.id, upd.id, ZeroId), Pick(prev.username, upd.username, ""),
         Pick(prev.password, upd.password, ""), Pick(prev.email, upd.email, ""))
  }

  const EmptyUser := User(ZeroId, "", "", "")

  /** An all-empty update changes nothing. */
  lemma EmptyUpdateIsIdentity(prev: User)
    ensures UpdateUserFields(prev, EmptyUser) == prev
  {
  }

  /** Applying the same update twice is applying it once. */
  lemma UpdateIsIdempotent(prev: User, upd: User)
    ensures UpdateUserFields(UpdateUserFields(prev, upd), upd) == UpdateUserFields(prev, upd)
  {
  }

  /** The merge never clears a field: what was set stays set. */
  lemma UpdateNeverClears(prev: User, upd: User)
    ensures var r := UpdateUserFields(prev, upd);
            && (prev.id != ZeroId ==> r.id != ZeroId)
            && (prev.username != "" ==> r.username != "")
            && (prev.password != "" ==> r.password != "")
            && (prev.email != "" ==> r.email != "")
  {
  }
}
