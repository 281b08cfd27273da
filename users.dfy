/** users/models.py: the seven staff roles, the stored role codes and the
    `is_*` predicates. A user is identified by its index in the staff table. */
module Users {
  import opened Common

  datatype Role = Admin | Doctor | Nurse | LabTech | Receptionist | Pharmacist | Cashier

  /** A new user's role when none is given. */
  const DefaultRole: Role := Receptionist

  type UserId = nat

  datatype User = User(role: Role, isActive: bool)

  /** The value stored in the `role` column. */
  function RoleCode(r: Role): string
  {
    match r
    case Admin => "ADMIN"
    case Doctor => "DOCTOR"
    case Nurse => "NURSE"
    case LabTech => "LAB_TECH"
    case Receptionist => "RECEPTIONIST"
    case Pharmacist => "PHARMACIST"
    case Cashier => "CASHIER"
  }

  const AllRoles: seq<Role> := [Admin, Doctor, Nurse, LabTech, Receptionist, Pharmacist, Cashier]

  /** Reads a stored role code back; codes outside the seven choices are rejected. */
  function ParseRole(code: string): (r: Option<Role>)
    ensures r.Some? ==> RoleCode(r.value) == code
    ensures r.None? ==> forall role :: RoleCode(role) != code
  {
    if code == "ADMIN" then Some(Admin)
    else if code == "DOCTOR" then Some(Doctor)
    else if code == "NURSE" then Some(Nurse)
    else if code == "LAB_TECH" then Some(LabTech)
    else if code == "RECEPTIONIST" then Some(Receptionist)
    else if code == "PHARMACIST" then Some(Pharmacist)
    else if code == "CASHIER" then Some(Cashier)
    else None
  }

  lemma RoleCodeRoundTrip(r: Role)
    ensures ParseRole(RoleCode(r)) == Some(r)
  {
  }

  predicate IsAdmin(u: User) { u.role == Admin }
  predicate IsDoctor(u: User) { u.role == Doctor }
  predicate IsNurse(u: User) { u.role == Nurse }
  predicate IsLabTech(u: User) { u.role == LabTech }
  predicate IsReceptionist(u: User) { u.role == Receptionist }
  predicate IsPharmacist(u: User) { u.role == Pharmacist }
  predicate IsCashier(u: User) { u.role == Cashier }

  /** The seven `is_*` properties of a user, in declaration order. */
  function RoleFlags(u: User): seq<bool>
  {
    [IsAdmin(u), IsDoctor(u), IsNurse(u), IsLabTech(u), IsReceptionist(u), IsPharmacist(u), IsCashier(u)]
  }

  function CountTrue(flags: seq<bool>): nat
  {
    if flags == [] then 0 else (if flags[0] then 1 else 0) + CountTrue(flags[1..])
  }

  /** Whatever the role, exactly one of the seven predicates holds, and it is
      the one whose constant equals the role. */
  lemma ExactlyOneRolePredicate(u: User)
    ensures CountTrue(RoleFlags(u)) == 1
    ensures forall k :: 0 <= k < 7 ==> (RoleFlags(u)[k] <==> u.role == AllRoles[k])
  {
    CountSeven(RoleFlags(u));
  }

  /** The count of seven flags, written out. */
  lemma CountSeven(f: seq<bool>)
    requires |f| == 7
    ensures CountTrue(f) == (if f[0] then 1 else 0) + (if f[1] then 1 else 0) + (if f[2] then 1 else 0)
      + (if f[3] then 1 else 0) + (if f[4] then 1 else 0) + (if f[5] then 1 else 0) + (if f[6] then 1 else 0)
  {
    assert CountTrue(f[6..]) == (if f[6] then 1 else 0);
    assert CountTrue(f[5..]) == (if f[5] then 1 else 0) + CountTrue(f[6..]);
    assert CountTrue(f[4..]) == (if f[4] then 1 else 0) + CountTrue(f[5..]);
    assert CountTrue(f[3..]) == (if f[3] then 1 else 0) + CountTrue(f[4..]);
    assert CountTrue(f[2..]) == (if f[2] then 1 else 0) + CountTrue(f[3..]);
    assert CountTrue(f[1..]) == (if f[1] then 1 else 0) + CountTrue(f[2..]);
  }
}
