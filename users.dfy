/** The caller a protected handler sees as `req.user`: the record the
    authentication middleware found under the token's id, or `null`. */
module Users {
  import opened Common
  import opened TutorSchema
  import opened StudentSchema

  datatype User =
    | StudentUser(id: Id, student: Student)
    | TutorUser(id: Id, tutor: Tutor)
    | AdminUser(id: Id, admin: Admin)

  /** `req.user.role`: none of the three record schemas declares a `role`
      field, so it is `undefined` for every caller. */
  function Role(u: User): Option<string>
  {
    None
  }

  /** `req.user._id`, with `None` for a `null` user. */
  function CallerId(caller: Option<User>): Option<Id>
  {
    if caller.Some? then Some(caller.value.id) else None
  }
}
