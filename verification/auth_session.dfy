/**
 * The client's session (client/src/context/AuthContext.jsx) as a state
 * machine over the React state and the browser's `localStorage`, which is a
 * map from key to string. `JSON.stringify` / `JSON.parse` of the user record
 * are parameters; a parse that throws is `None`.
 */
module AuthSession {
  import opened Wrappers
  import opened Text

  /** The logged-in user's record as the server returns it. */
  datatype UserData = UserData(id: string, name: string, email: string, role: string)

  datatype AuthState = AuthState(user: Option<UserData>, token: Option<string>, role: Option<string>, loading: bool)

  type Storage = map<string, string>

  datatype Session = Session(state: AuthState, storage: Storage)

  const UserKey: string := "jat_user"
  const TokenKey: string := "jat_token"
  const RoleKey: string := "jat_role"

  /** `localStorage.getItem(key)`: the stored string, or null. */
  function GetItem(storage: Storage, key: string): Option<string> {
    if key in storage then Some(storage[key]) else None
  }

  /** The first render: nothing known yet, `loading` set. */
  function Start(storage: Storage): (s: Session)
    ensures s.state.loading && s.state.token.None? && s.state.user.None? && s.state.role.None?
    ensures s.storage == storage
  {
    Session(AuthState(None, None, None, true), storage)
  }

  /** Whether all three saved values are truthy, the restore condition. */
  predicate SavedComplete(storage: Storage) {
    Truthy(GetItem(storage, UserKey)) && Truthy(GetItem(storage, TokenKey)) && Truthy(GetItem(storage, RoleKey))
  }

  /**
   * The mount effect: when all three saved values are truthy, the user is
   * parsed and user, token and role are restored; `loading` then clears in
   * either branch. A parse that throws aborts the effect before `loading`
   * clears. Storage is only read.
   */
  function Restore(s: Session, parse: string -> Option<UserData>): (s': Session)
    ensures s'.storage == s.storage
    ensures !SavedComplete(s.storage) ==> s'.state == s.state.(loading := false)
    ensures SavedComplete(s.storage) && parse(s.storage[UserKey]).None? ==> s' == s
    ensures SavedComplete(s.storage) && parse(s.storage[UserKey]).Some? ==>
              s'.state == AuthState(parse(s.storage[UserKey]), Some(s.storage[TokenKey]),
                                    Some(s.storage[RoleKey]), false)
  {
    if SavedComplete(s.storage) then
      match parse(s.storage[UserKey])
      case None => s
      case Some(u) => Session(AuthState(Some(u), Some(s.storage[TokenKey]), Some(s.storage[RoleKey]), false), s.storage)
    else Session(s.state.(loading := false), s.storage)
  }

  /** `login(userData, jwtToken)`: set the three values and persist them. */
  function Login(s: Session, userData: UserData, jwtToken: string, stringify: UserData -> string): (s': Session)
    ensures s'.state == s.state.(user := Some(userData), token := Some(jwtToken), role := Some(userData.role))
    ensures s'.storage.Keys == s.storage.Keys + {UserKey, TokenKey, RoleKey}
    ensures GetItem(s'.storage, UserKey) == Some(stringify(userData))
    ensures GetItem(s'.storage, TokenKey) == Some(jwtToken)
    ensures GetItem(s'.storage, RoleKey) == Some(userData.role)
    ensures forall k :: k in s.storage && k !in {UserKey, TokenKey, RoleKey} ==> s'.storage[k] == s.storage[k]
  {
    Session(s.state.(user := Some(userData), token := Some(jwtToken), role := Some(userData.role)),
            s.storage[UserKey := stringify(userData)][TokenKey := jwtToken][RoleKey := userData.role])
  }

  /** `logout()`: clear the three values and remove the three keys. */
  function Logout(s: Session): (s': Session)
    ensures s'.state == s.state.(user := None, token := None, role := None)
    ensures s'.storage.Keys == s.storage.Keys - {UserKey, TokenKey, RoleKey}
    ensures forall k :: k in s'.storage ==> s'.storage[k] == s.storage[k]
  {
    Session(s.state.(user := None, token := None, role := None),
            s.storage - {UserKey, TokenKey, RoleKey})
  }

  /** `isAuthenticated: !!token`. */
  predicate IsAuthenticated(state: AuthState) {
    Truthy(state.token)
  }

  /**
   * A reload after login restores the same user, token and role, provided the
   * user record survives its JSON round trip and token and role are non-empty.
   * With an empty token or role, the reload comes back logged out.
   */
  lemma LoginSurvivesReload(s: Session, u: UserData, jwtToken: string,
                            stringify: UserData -> string, parse: string -> Option<UserData>)
    requires stringify(u) != "" && parse(stringify(u)) == Some(u)
    ensures var after := Restore(Start(Login(s, u, jwtToken, stringify).storage), parse).state;
      && (jwtToken != "" && u.role != "" ==>
            after == AuthState(Some(u), Some(jwtToken), Some(u.role), false) && IsAuthenticated(after))
      && (jwtToken == "" || u.role == "" ==> after.token.None? && !IsAuthenticated(after) && !after.loading)
  {
  }

  /** After logout, a reload stays logged out and stops loading. */
  lemma LogoutSurvivesReload(s: Session, parse: string -> Option<UserData>)
    ensures var after := Restore(Start(Logout(s).storage), parse).state;
      after == AuthState(None, None, None, false) && !IsAuthenticated(after)
  {
    assert UserKey !in Logout(s).storage;
  }

  /** Logging out twice is logging out once. */
  lemma LogoutIdempotent(s: Session)
    ensures Logout(Logout(s)) == Logout(s)
  {
  }
}
