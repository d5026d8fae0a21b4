/**
 * Staff management: the guards and defaults in front of the staff store, whose queries are
 * not modelled; their answers are function parameters.
 */
module StaffService {
  import opened Wrappers
  import opened Strings
  import opened Model

  /** A staff pin is six bytes long. */
  const PinLength: nat := 6

  const ErrUsernameRequired: string := "staff username is required"
  const ErrSuperuserRole: string := "cannot assign superuser role to staff"
  const ErrPinRequired: string := "valid pin is required"
  const ErrPinLength: string := "invalid pin length"

  function NotFound(msg: string): string {
    "staff member not found: " + msg
  }

  /** Create's guards, in order; None when the staff record passes them all. */
  function CreateError(st: Staff): (e: Option<string>)
    ensures IsBlank(st.username) ==> e == Some(ErrUsernameRequired)
    ensures !IsBlank(st.username) && st.role == RoleSuperuser ==> e == Some(ErrSuperuserRole)
    ensures !IsBlank(st.username) && st.role != RoleSuperuser && st.pin == "" ==> e == Some(ErrPinRequired)
    ensures !IsBlank(st.username) && st.role != RoleSuperuser && st.pin != "" && Utf8Len(st.pin) != PinLength
            ==> e == Some(ErrPinLength)
    ensures e.None? <==> !IsBlank(st.username) && st.role != RoleSuperuser && Utf8Len(st.pin) == PinLength
  {
    if IsBlank(st.username) then Some(ErrUsernameRequired)
    else if st.role == RoleSuperuser then Some(ErrSuperuserRole)
    else if st.pin == "" then Some(ErrPinRequired)
    else if Utf8Len(st.pin) != PinLength then Some(ErrPinLength)
    else None
  }

  /** The record Create hands to the store: role defaulted to chef, restaurant forced, active. */
  function Prepared(restaurantId: int, st: Staff): Staff {
    st.(role := if st.role == "" then RoleChef else st.role, restaurantId := restaurantId, active := true)
  }

  /** Create: a rejected record never reaches the store; an accepted one goes in prepared. */
  function Create(restaurantId: int, st: Staff, insert: Staff -> Result<Staff>): (r: Result<Staff>)
    ensures CreateError(st).Some? ==> r == Err(CreateError(st).value)
    ensures CreateError(st).None? ==> r == insert(Prepared(restaurantId, st))
  {
    match CreateError(st)
    case Some(e) => Err(e)
    case None => insert(Prepared(restaurantId, st))
  }

  /**
   * Whatever the client sent, a record the store receives from Create is an active
   * non-superuser of the path's restaurant with a role, a username and a six-byte pin;
   * everything else comes from the client unchanged.
   */
  lemma PreparedIsWellFormed(restaurantId: int, st: Staff)
    requires CreateError(st).None?
    ensures var p := Prepared(restaurantId, st);
            && !IsBlank(p.username) && Utf8Len(p.pin) == PinLength && p.pin != ""
            && p.role != "" && p.role != RoleSuperuser
            && p.restaurantId == restaurantId && p.active
            && p.id == st.id && p.username == st.username && p.pin == st.pin
            && (st.role != "" ==> p.role == st.role)
  {
  }

  /** An empty role becomes chef. */
  lemma EmptyRoleBecomesChef(restaurantId: int, st: Staff, insert: Staff -> Result<Staff>)
    requires CreateError(st).None? && st.role == ""
    ensures Create(restaurantId, st, insert) == insert(st.(role := RoleChef, restaurantId := restaurantId, active := true))
  {
  }

  /** Update: the superuser role is refused before the member's existence is checked. */
  function Update(restaurantId: int, id: int, st: Staff,
                  getById: (int, int) -> Result<Staff>, update: (int, int, Staff) -> Result<Staff>): (r: Result<Staff>)
    ensures st.role == RoleSuperuser ==> r == Err(ErrSuperuserRole)
    ensures st.role != RoleSuperuser && getById(restaurantId, id).Err?
            ==> r == Err(NotFound(getById(restaurantId, id).msg))
    ensures st.role != RoleSuperuser && getById(restaurantId, id).Ok? ==> r == update(restaurantId, id, st)
  {
    if st.role == RoleSuperuser then Err(ErrSuperuserRole)
    else
      var found := getById(restaurantId, id);
      if found.Err? then Err(NotFound(found.msg))
      else update(restaurantId, id, st)
  }

  /** Neither path ever hands the store a superuser. */
  lemma NoSuperuserReachesStore(restaurantId: int, id: int, st: Staff,
                                getById: (int, int) -> Result<Staff>, insert: Staff -> Result<Staff>,
                                update: (int, int, Staff) -> Result<Staff>)
    requires st.role == RoleSuperuser
    ensures Create(restaurantId, st, insert).Err?
    ensures Update(restaurantId, id, st, getById, update) == Err(ErrSuperuserRole)
  {
  }

  /** Delete: only an existing member of this restaurant is deleted. */
  function Delete(restaurantId: int, id: int, getById: (int, int) -> Result<Staff>, delete: (int, int) -> Outcome)
    : (r: Outcome)
    ensures getById(restaurantId, id).Err? ==> r == Fail(NotFound(getById(restaurantId, id).msg))
    ensures getById(restaurantId, id).Ok? ==> r == delete(restaurantId, id)
  {
    var found := getById(restaurantId, id);
    if found.Err? then Fail(NotFound(found.msg))
    else delete(restaurantId, id)
  }
}
