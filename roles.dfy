/** User roles and the access decision of the `role_required` decorator. */
module Roles {

  /** The role enumeration; a user row stores the role as the enumeration's string value. */
  datatype Role = Admin | Sales | Manager | Accountant {

    /** The `.value` of the enumeration member. */
    function Value(): (s: string)
      ensures s == "Admin" <==> this == Admin
    {
      match this
      case Admin => "Admin"
      case Sales => "Sales"
      case Manager => "Manager"
      case Accountant => "Accountant"
    }
  }

  /** A user as far as authorisation looks at it: the stored role string is not checked
      against the enumeration. */
  datatype User = User(username: string, role: string)

  /** `User.has_role`: the role itself, or any role at all for an Admin. */
  predicate HasRole(user: User, needed: string)
    ensures user.role == Admin.Value() ==> HasRole(user, needed)
    ensures user.role != Admin.Value() ==> (HasRole(user, needed) <==> needed == user.role)
  {
    user.role == needed || user.role == Admin.Value()
  }

  /** The enumeration's string values are pairwise distinct. */
  lemma ValueInjective(a: Role, b: Role)
    ensures a.Value() == b.Value() <==> a == b
  {
  }


  /** Who is asking: nobody logged in, or a logged-in user. */
  datatype Session = Anonymous | Authenticated(user: User)

  /** What the decorator does with the request: run the view, or abort with an HTTP status. */
  datatype Decision = Allow | Abort(status: int)

  /** The guard of `decorated_view`: 401 without a login; 403 when the role is neither
      listed nor the literal "Admin"; otherwise the view runs. */
  function Authorize(session: Session, roles: seq<string>): (d: Decision)
    ensures d == Abort(401) <==> session.Anonymous?
    ensures d == Allow <==> session.Authenticated? && (session.user.role in roles || session.user.role == "Admin")
    ensures d == Abort(403) <==> session.Authenticated? && session.user.role !in roles && session.user.role != "Admin"
  {
    if session.Anonymous? then Abort(401)
    else if session.user.role !in roles && session.user.role != "Admin" then Abort(403)
    else Allow
  }

  /** The outcome of a guarded view: what it returned, or the status it aborted with. */
  datatype Response<+R> = Ran(result: R) | Aborted(status: int)

  /** `role_required(*roles)(view)(*args)`: the view runs, with the caller's own arguments,
      exactly when the guard allows it; otherwise it is never called. */
  function DecoratedView<A, R>(session: Session, roles: seq<string>, view: A -> R, args: A): (r: Response<R>)
    ensures session.Anonymous? ==> r == Aborted(401)
    ensures r.Ran? <==> Authorize(session, roles) == Allow
    ensures r.Ran? ==> r.result == view(args)
    ensures r.Aborted? ==> r.status in {401, 403}
  {
    match Authorize(session, roles)
    case Allow => Ran(view(args))
    case Abort(status) => Aborted(status)
  }

  /** `any(user.has_role(r) for r in roles)`, the reference the guard is compared with. */
  predicate AnyHasRole(user: User, roles: seq<string>)
    decreases |roles|
  {
    |roles| > 0 && (HasRole(user, roles[0]) || AnyHasRole(user, roles[1..]))
  }

  /** `AnyHasRole` holds for a non-empty list exactly when the role is listed or is Admin. */
  lemma {:induction false} AnyHasRoleIff(user: User, roles: seq<string>)
    requires |roles| > 0
    ensures AnyHasRole(user, roles) <==> user.role in roles || user.role == Admin.Value()
    decreases |roles|
  {
    if |roles| > 1 {
      AnyHasRoleIff(user, roles[1..]);
      assert roles == [roles[0]] + roles[1..];
    }
  }

  /** For a logged-in user and a non-empty role list, the guard allows exactly when
      `has_role` holds for some listed role; with one role it is `has_role` itself. */
  lemma GuardIsDisjunctionOfHasRole(user: User, roles: seq<string>)
    requires |roles| > 0
    ensures Authorize(Authenticated(user), roles) == Allow <==> AnyHasRole(user, roles)
    ensures |roles| == 1 ==> (Authorize(Authenticated(user), roles) == Allow <==> HasRole(user, roles[0]))
  {
    AnyHasRoleIff(user, roles);
  }

  /** With an empty role list the guard still lets an Admin through, although no
      `has_role` disjunct holds: the two authorisation paths differ there. */
  lemma EmptyRoleListAdmitsOnlyAdmin(user: User)
    ensures Authorize(Authenticated(user), []) == Allow <==> user.role == Admin.Value()
    ensures !AnyHasRole(user, [])
  {
  }

  /** Adding roles to the list never turns an allowed request into a denied one. */
  lemma MoreRolesNeverDeny(session: Session, roles: seq<string>, more: seq<string>)
    requires forall r :: r in roles ==> r in more
    requires Authorize(session, roles) == Allow
    ensures Authorize(session, more) == Allow
  {
  }
}
