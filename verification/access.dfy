/** The vocabulary shared by the collections' access rules: who is calling,
    what a relationship field holds, and what an access rule answers. */
module Access {
  import opened Outcomes

  /** The `role` select of the users collection. */
  datatype Role = Admin | Farmer | Customer

  /** The stored value of a role option. */
  function RoleValue(r: Role): string {
    match r
    case Admin => "admin"
    case Farmer => "farmer"
    case Customer => "customer"
  }

  /** The role a stored option value denotes, if it is one of the three options. */
  function ParseRole(s: string): (r: Option<Role>)
    ensures r.Some? ==> RoleValue(r.value) == s
    ensures s in {"admin", "farmer", "customer"} <==> r.Some?
  {
    if s == "admin" then Some(Admin)
    else if s == "farmer" then Some(Farmer)
    else if s == "customer" then Some(Customer)
    else None
  }

  /** Every role survives being stored and read back, and distinct roles are
      stored as distinct values. */
  lemma RoleRoundTrip(r: Role, q: Role)
    ensures ParseRole(RoleValue(r)) == Some(r)
    ensures RoleValue(r) == RoleValue(q) ==> r == q
  {
  }

  /** The auth collection a logged-in caller comes from. */
  datatype AuthCollection = Users | Admins

  /** The authenticated caller (`req.user`). Documents of the admins collection
      carry no role; documents of the users collection carry one. */
  datatype Principal = Principal(id: string, collection: AuthCollection, role: Option<Role>)

  /** The shape the two auth collections give their documents. */
  predicate WellFormed(p: Principal) {
    match p.collection
    case Users => p.role.Some?
    case Admins => p.role.None?
  }

  /** A relationship field's value: a bare document id, or the populated
      document (which carries its id). */
  datatype Ref = RefId(id: string) | RefDoc(id: string)

  /** `field === id` for a relationship field and an id string: only a bare id
      can be strictly equal to a string; a populated document never is. */
  predicate RefEquals(field: Option<Ref>, id: string) {
    field == Some(RefId(id))
  }

  /** The JavaScript error raised when an access rule reads a property of
      `undefined`. */
  datatype AccessError = ReadOfUndefined(property: string)

  /** What an access rule answers: refuse, allow on every document, allow on
      the documents whose `user` field equals the given id (a query filter), or
      throw. */
  datatype Decision = Deny | Allow | AllowWhere(userEquals: string) | Throw(error: AccessError)

  /** Whether the decision lets the operation go ahead on at least some document. */
  predicate Grants(d: Decision) {
    d.Allow? || d.AllowWhere?
  }

  /** Whether the decision lets the operation touch a document whose `user`
      field is `owner`. */
  predicate Admits(d: Decision, owner: string) {
    d.Allow? || (d.AllowWhere? && d.userEquals == owner)
  }

  /** A rule returning a plain boolean. */
  function FromBool(b: bool): (d: Decision)
    ensures Grants(d) <==> b
    ensures d.Allow? || d.Deny?
  {
    if b then Allow else Deny
  }

  predicate HasRole(user: Option<Principal>, r: Role) {
    user.Some? && user.value.role == Some(r)
  }

  predicate IsAdminsCollection(user: Option<Principal>) {
    user.Some? && user.value.collection == Admins
  }
}
