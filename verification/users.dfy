/** The application's users: their role, the display of their name, and who may see
    which patient's records. */
module Users {
  import opened Wrappers

  datatype UserRole = Therapist | Supervisor | Admin

  /** The stored value of a role. */
  function RoleValue(r: UserRole): string
  {
    match r
    case Therapist => "therapist"
    case Supervisor => "supervisor"
    case Admin => "admin"
  }

  /** `UserRole(value)`: the role of a stored value, or none for an unknown value (the
      enumeration raises ValueError). */
  function RoleOf(value: string): (r: Option<UserRole>)
    ensures r.Some? ==> RoleValue(r.value) == value
    ensures r.None? ==> forall role: UserRole :: RoleValue(role) != value
  {
    if value == "therapist" then Some(Therapist)
    else if value == "supervisor" then Some(Supervisor)
    else if value == "admin" then Some(Admin)
    else None
  }

  /** Reading a stored value back gives the role it was stored from. */
  lemma RoleRoundTrip(r: UserRole)
    ensures RoleOf(RoleValue(r)) == Some(r)
  {
  }

  datatype User = User(id: int, firstName: string, lastName: string, role: UserRole)

  /** `get_full_name`: the first name, one space, the last name. */
  function FullName(firstName: string, lastName: string): (name: string)
    ensures |name| == |firstName| + 1 + |lastName|
    ensures name[..|firstName|] == firstName && name[|firstName|] == ' ' && name[|firstName| + 1..] == lastName
  {
    firstName + " " + lastName
  }

  /** What `has_role` is given: a role's value as a string, or a role. */
  datatype RoleQuery = ByValue(value: string) | ByRole(role: UserRole)

  /** The ValueError of an unknown role value. */
  datatype RoleError = UnknownRole(value: string)

  /** `has_role`: a string is first turned into a role, which fails for an unknown
      value; then the user's role is compared with it. */
  function HasRole(u: User, q: RoleQuery): (r: Result<bool, RoleError>)
    ensures q.ByRole? ==> r == Ok(u.role == q.role)
    ensures q.ByValue? ==> (r.Err? <==> RoleOf(q.value).None?)
    ensures q.ByValue? && r.Ok? ==> (r.value <==> RoleValue(u.role) == q.value)
  {
    match q
    case ByRole(role) => Ok(u.role == role)
    case ByValue(value) =>
      match RoleOf(value)
      case None => Err(UnknownRole(value))
      case Some(role) => Ok(u.role == role)
  }

  /** Asking by value and asking by role agree. */
  lemma HasRoleByValueOrRole(u: User, role: UserRole)
    ensures HasRole(u, ByValue(RoleValue(role))) == HasRole(u, ByRole(role))
  {
    RoleRoundTrip(role);
  }

  /** `can_access_patient`: administrators and supervisors see every patient; a
      therapist sees only the patients assigned to them. */
  predicate CanAccessPatient(u: User, patientTherapistId: int)
  {
    u.role == Admin || u.role == Supervisor || u.id == patientTherapistId
  }

  /** The access rule, role by role. */
  lemma AccessByRole(u: User, patientTherapistId: int)
    ensures u.role != Therapist ==> CanAccessPatient(u, patientTherapistId)
    ensures u.role == Therapist ==> (CanAccessPatient(u, patientTherapistId) <==> u.id == patientTherapistId)
  {
  }

  /** A patient assigned to a therapist is visible to that therapist only among the
      therapists. */
  lemma TherapistsSeeOnlyTheirPatients(a: User, b: User, patientTherapistId: int)
    requires a.role == Therapist && b.role == Therapist && a.id != b.id
    ensures !(CanAccessPatient(a, patientTherapistId) && CanAccessPatient(b, patientTherapistId))
  {
  }
}
