/**
 * The user store: it holds the signed-in user's record and replaces it
 * with `{ ...state.user, ...userData }` on every update. A record is a
 * map from the user's field names to their values, so a partial update
 * is a map over some of the fields.
 */
module UserStore {
  import opened Wrappers

  /** The fields of the user record. */
  datatype Field = Id | Email | FullName | Gender | BirthDate | ContactNumber | Residence | WorkPlace | Role | LoginStatus | CreatedAt

  datatype UserRole = Admin | Customer

  /** A field's value; a key that is present with the value `undefined` is `Undefined`. */
  datatype Value = Text(text: string) | Date(timestamp: int) | RoleOf(role: Option<UserRole>) | Undefined

  type UserRecord = map<Field, Value>

  /**
   * `state.user ? { ...state.user, ...userData } : userData`: the keys of
   * the update override, every other field of the current user stays.
   */
  function Updated(current: Option<UserRecord>, userData: UserRecord): (r: UserRecord)
    ensures forall f :: f in userData ==> f in r && r[f] == userData[f]
    ensures current.Some? ==> forall f :: f in current.value && f !in userData ==> f in r && r[f] == current.value[f]
    ensures current.Some? ==> r.Keys == current.value.Keys + userData.Keys
    ensures current.None? ==> r == userData
  {
    if current.Some? then current.value + userData else userData
  }

  /** An update with no keys leaves the user as it is. */
  lemma EmptyUpdateKeepsUser(user: UserRecord)
    ensures Updated(Some(user), map[]) == user
  {
  }

  /** Applying an update twice gives the user that applying it once gives. */
  lemma UpdateIsIdempotent(current: Option<UserRecord>, userData: UserRecord)
    ensures Updated(Some(Updated(current, userData)), userData) == Updated(current, userData)
  {
  }

  /** Updates compose: two updates in turn are one update with the later keys winning. */
  lemma UpdatesCompose(current: Option<UserRecord>, first: UserRecord, second: UserRecord)
    ensures Updated(Some(Updated(current, first)), second) == Updated(current, first + second)
  {
  }

  /** The store created by `createUserStore`. */
  class Store {
    var user: Option<UserRecord>

    /** The store starts from exactly the given state. */
    constructor(initState: Option<UserRecord>)
      ensures user == initState
    {
      user := initState;
    }

    /** `updateUser` */
    method UpdateUser(userData: UserRecord)
      modifies this
      ensures user == Some(Updated(old(user), userData))
    {
      user := Some(Updated(user, userData));
    }
  }
}
