/** The `user` slice: the signed-in user record, the session flags and the
    colour theme, updated in place by its reducers and by the settled
    request actions of the user endpoints. */
module UserSlice {
  import opened Common

  /** The user record as the server sends it: field name to value. */
  type User = map<string, Value>

  /** The theme string. The state declares `"light" | "dark"`, but a saved
      value and a `setTheme` payload reach it unchecked, so any string can. */
  type Theme = string

  /** The slice's state record. */
  datatype UserState = UserState(
    user: Option<User>,
    loading: bool,
    error: Option<string>,
    theme: Theme,
    tokenRefreshing: bool,
    successMessage: Option<string>,
    initialized: bool)

  /** The actions the slice answers. A fulfilled action carries the value the
      reducer reads from its payload: `payload.user` for register and
      fetchCurrentUser, `payload.data.user` for login, `payload.user` for
      updateAccount, `payload.avatar` and `payload.history`. A rejected action
      carries `action.payload` (and, for fetchCurrentUser, `action.error.message`). */
  datatype UserAction =
    | Logout
    | ToggleTheme
    | SetTheme(theme: Theme)
    | ClearError
    | MarkInitialized
    | RegisterPending
    | RegisterFulfilled(registered: Option<User>)
    | RegisterRejected(registerError: Option<string>)
    | LoginPending
    | LoginFulfilled(loggedIn: Option<User>)
    | LoginRejected(loginError: Option<string>)
    | FetchCurrentUserPending
    | FetchCurrentUserFulfilled(fetched: Option<User>)
    | FetchCurrentUserRejected(fetchError: Option<string>, errorMessage: Option<string>)
    | UpdateAccountPending
    | UpdateAccountFulfilled(accountFields: User)
    | UpdateAccountRejected(accountError: Option<string>)
    | UpdateAvatarPending
    | UpdateAvatarFulfilled(avatar: Value)
    | UpdateAvatarRejected(avatarError: Option<string>)
    | GetWatchHistoryFulfilled(history: Value)
    | LogoutUserPending
    | LogoutUserFulfilled
    | LogoutUserRejected(logoutError: Option<string>)
    | RefreshAccessTokenPending
    | RefreshAccessTokenFulfilled
    | RefreshAccessTokenRejected

  /** The state before any action; the theme is `getInitialTheme()`. */
  function InitialState(theme: Theme): UserState {
    UserState(None, false, None, theme, false, None, false)
  }

  /** `getInitialTheme`: `"light"` without a window, else a truthy saved
      value as it is, else the colour-scheme preference. */
  function InitialTheme(hasWindow: bool, saved: Option<string>, prefersDark: bool): Theme {
    if !hasWindow then "light"
    else if Truthy(saved) then saved.value
    else if prefersDark then "dark" else "light"
  }

  /** Only a saved value can start the slice on a theme other than light or
      dark, and a saved light or dark always wins over the preference. */
  lemma InitialThemeSources(hasWindow: bool, saved: Option<string>, prefersDark: bool)
    ensures var t := InitialTheme(hasWindow, saved, prefersDark);
      t != "light" && t != "dark" ==> hasWindow && saved == Some(t)
    ensures hasWindow && saved.Some? && saved.value in {"light", "dark"} ==>
      InitialTheme(hasWindow, saved, prefersDark) == saved.value
    ensures hasWindow && !Truthy(saved) ==>
      (InitialTheme(hasWindow, saved, prefersDark) == "dark" <==> prefersDark)
  {
  }

  /** `state.theme === "dark" ? "light" : "dark"`. */
  function Flip(t: Theme): Theme {
    if t == "dark" then "light" else "dark"
  }

  /** `payload || error.message || "Failed to fetch user"`: never empty. */
  function FetchUserErrorMessage(payload: Option<string>, errorMessage: Option<string>): (r: string)
    ensures r != ""
    ensures Truthy(payload) ==> r == payload.value
    ensures !Truthy(payload) && Truthy(errorMessage) ==> r == errorMessage.value
  {
    if Truthy(payload) then payload.value
    else if Truthy(errorMessage) then errorMessage.value
    else "Failed to fetch user"
  }

  /** `{ ...user, ...fields }`, where spreading `null` adds nothing. */
  function Overlay(user: Option<User>, fields: User): User {
    user.GetOr(map[]) + fields
  }

  /** The slice reducer: the state after one action. */
  function Reduce(s: UserState, a: UserAction): UserState {
    match a
    case Logout => s.(user := None, error := None, successMessage := None)
    case ToggleTheme => s.(theme := Flip(s.theme))
    case SetTheme(t) => s.(theme := t)
    case ClearError => s.(error := None)
    case MarkInitialized => s.(initialized := true)
    case RegisterPending => s.(loading := true, error := None, successMessage := None)
    case RegisterFulfilled(u) =>
      s.(loading := false, user := u, successMessage := Some("User registered successfully"))
    case RegisterRejected(e) => s.(loading := false, error := e)
    case LoginPending => s.(loading := true, error := None)
    case LoginFulfilled(u) => s.(loading := false, user := u)
    case LoginRejected(e) => s.(loading := false, error := e)
    case FetchCurrentUserPending => s.(loading := true)
    case FetchCurrentUserFulfilled(u) => s.(loading := false, user := u, initialized := true)
    case FetchCurrentUserRejected(e, m) =>
      s.(loading := false, user := None, initialized := true, error := Some(FetchUserErrorMessage(e, m)))
    case UpdateAccountPending => s.(loading := true)
    case UpdateAccountFulfilled(f) =>
      s.(loading := false, user := Some(Overlay(s.user, f)), successMessage := Some("Account updated successfully"))
    case UpdateAccountRejected(e) => s.(loading := false, error := e)
    case UpdateAvatarPending => s.(loading := true)
    case UpdateAvatarFulfilled(v) =>
      s.(loading := false, user := Some(Overlay(s.user, map["avatar" := v])),
         successMessage := Some("Avatar updated successfully"))
    case UpdateAvatarRejected(e) => s.(loading := false, error := e)
    case GetWatchHistoryFulfilled(h) => s.(user := Some(Overlay(s.user, map["history" := h])))
    case LogoutUserPending => s.(loading := true)
    case LogoutUserFulfilled => s.(loading := false, user := None, successMessage := Some("Logged out successfully"))
    case LogoutUserRejected(e) => s.(loading := false, error := e)
    case RefreshAccessTokenPending => s.(tokenRefreshing := true)
    case RefreshAccessTokenFulfilled => s.(tokenRefreshing := false)
    case RefreshAccessTokenRejected => s.(tokenRefreshing := false)
  }

  /** The state after a sequence of actions, dispatched in order. */
  function ReduceAll(s: UserState, actions: seq<UserAction>): UserState
    decreases |actions|
  {
    if actions == [] then s else ReduceAll(Reduce(s, actions[0]), actions[1..])
  }

  /** The store's copy of the slice, which the reducer updates field by field. */
  class Slice {
    var user: Option<User>
    var loading: bool
    var error: Option<string>
    var theme: Theme
    var tokenRefreshing: bool
    var successMessage: Option<string>
    var initialized: bool

    function State(): UserState
      reads this
    {
      UserState(user, loading, error, theme, tokenRefreshing, successMessage, initialized)
    }

    constructor (initialTheme: Theme)
      ensures State() == InitialState(initialTheme)
      ensures user == None && !loading && error == None && !tokenRefreshing
      ensures successMessage == None && !initialized && theme == initialTheme
    {
      user := None;
      loading := false;
      error := None;
      theme := initialTheme;
      tokenRefreshing := false;
      successMessage := None;
      initialized := false;
    }

    // One method per case reducer; each changes only the fields it names.

    method Logout()
      modifies this`user, this`error, this`successMessage
      ensures State() == Reduce(old(State()), UserAction.Logout)
    {
      user := None;
      error := None;
      successMessage := None;
    }

    method ToggleTheme()
      modifies this`theme
      ensures State() == Reduce(old(State()), UserAction.ToggleTheme)
    {
      theme := if theme == "dark" then "light" else "dark";
    }

    method SetTheme(t: Theme)
      modifies this`theme
      ensures State() == Reduce(old(State()), UserAction.SetTheme(t))
    {
      theme := t;
    }

    method ClearError()
      modifies this`error
      ensures State() == Reduce(old(State()), UserAction.ClearError)
    {
      error := None;
    }

    method MarkInitialized()
      modifies this`initialized
      ensures State() == Reduce(old(State()), UserAction.MarkInitialized)
    {
      initialized := true;
    }

    method RegisterPending()
      modifies this`loading, this`error, this`successMessage
      ensures State() == Reduce(old(State()), UserAction.RegisterPending)
    {
      loading := true;
      error := None;
      successMessage := None;
    }

    method RegisterFulfilled(u: Option<User>)
      modifies this`loading, this`user, this`successMessage
      ensures State() == Reduce(old(State()), UserAction.RegisterFulfilled(u))
    {
      loading := false;
      user := u;
      successMessage := Some("User registered successfully");
    }

    method RegisterRejected(e: Option<string>)
      modifies this`loading, this`error
      ensures State() == Reduce(old(State()), UserAction.RegisterRejected(e))
    {
      loading := false;
      error := e;
    }

    method LoginPending()
      modifies this`loading, this`error
      ensures State() == Reduce(old(State()), UserAction.LoginPending)
    {
      loading := true;
      error := None;
    }

    method LoginFulfilled(u: Option<User>)
      modifies this`loading, this`user
      ensures State() == Reduce(old(State()), UserAction.LoginFulfilled(u))
    {
      loading := false;
      user := u;
    }

    method LoginRejected(e: Option<string>)
      modifies this`loading, this`error
      ensures State() == Reduce(old(State()), UserAction.LoginRejected(e))
    {
      loading := false;
      error := e;
    }

    method FetchCurrentUserPending()
      modifies this`loading
      ensures State() == Reduce(old(State()), UserAction.FetchCurrentUserPending)
    {
      loading := true;
    }

    method FetchCurrentUserFulfilled(u: Option<User>)
      modifies this`loading, this`user, this`initialized
      ensures State() == Reduce(old(State()), UserAction.FetchCurrentUserFulfilled(u))
    {
      loading := false;
      user := u;
      initialized := true;
    }

    method FetchCurrentUserRejected(e: Option<string>, message: Option<string>)
      modifies this`loading, this`user, this`initialized, this`error
      ensures State() == Reduce(old(State()), UserAction.FetchCurrentUserRejected(e, message))
    {
      loading := false;
      user := None;
      initialized := true;
      error := Some(FetchUserErrorMessage(e, message));
    }

    method UpdateAccountPending()
      modifies this`loading
      ensures State() == Reduce(old(State()), UserAction.UpdateAccountPending)
    {
      loading := true;
    }

    method UpdateAccountFulfilled(fields: User)
      modifies this`loading, this`user, this`successMessage
      ensures State() == Reduce(old(State()), UserAction.UpdateAccountFulfilled(fields))
    {
      loading := false;
      user := Some(user.GetOr(map[]) + fields);
      successMessage := Some("Account updated successfully");
    }

    method UpdateAccountRejected(e: Option<string>)
      modifies this`loading, this`error
      ensures State() == Reduce(old(State()), UserAction.UpdateAccountRejected(e))
    {
      loading := false;
      error := e;
    }

    method UpdateAvatarPending()
      modifies this`loading
      ensures State() == Reduce(old(State()), UserAction.UpdateAvatarPending)
    {
      loading := true;
    }

    method UpdateAvatarFulfilled(v: Value)
      modifies this`loading, this`user, this`successMessage
      ensures State() == Reduce(old(State()), UserAction.UpdateAvatarFulfilled(v))
    {
      loading := false;
      user := Some(user.GetOr(map[])["avatar" := v]);
      successMessage := Some("Avatar updated successfully");
      assert user.value == Overlay(old(user), map["avatar" := v]);
    }

    method UpdateAvatarRejected(e: Option<string>)
      modifies this`loading, this`error
      ensures State() == Reduce(old(State()), UserAction.UpdateAvatarRejected(e))
    {
      loading := false;
      error := e;
    }

    method GetWatchHistoryFulfilled(h: Value)
      modifies this`user
      ensures State() == Reduce(old(State()), UserAction.GetWatchHistoryFulfilled(h))
    {
      user := Some(user.GetOr(map[])["history" := h]);
      assert user.value == Overlay(old(user), map["history" := h]);
    }

    method LogoutUserPending()
      modifies this`loading
      ensures State() == Reduce(old(State()), UserAction.LogoutUserPending)
    {
      loading := true;
    }

    method LogoutUserFulfilled()
      modifies this`loading, this`user, this`successMessage
      ensures State() == Reduce(old(State()), UserAction.LogoutUserFulfilled)
    {
      loading := false;
      user := None;
      successMessage := Some("Logged out successfully");
    }

    method LogoutUserRejected(e: Option<string>)
      modifies this`loading, this`error
      ensures State() == Reduce(old(State()), UserAction.LogoutUserRejected(e))
    {
      loading := false;
      error := e;
    }

    method RefreshAccessTokenPending()
      modifies this`tokenRefreshing
      ensures State() == Reduce(old(State()), UserAction.RefreshAccessTokenPending)
    {
      tokenRefreshing := true;
    }

    method RefreshAccessTokenFulfilled()
      modifies this`tokenRefreshing
      ensures State() == Reduce(old(State()), UserAction.RefreshAccessTokenFulfilled)
    {
      tokenRefreshing := false;
    }

    method RefreshAccessTokenRejected()
      modifies this`tokenRefreshing
      ensures State() == Reduce(old(State()), UserAction.RefreshAccessTokenRejected)
    {
      tokenRefreshing := false;
    }
  }

  /** Logging out locally clears the user, the error and the success message
      and keeps every other field. */
  lemma LogoutClearsSession(s: UserState)
    ensures var r := Reduce(s, Logout);
      && r.user == None && r.error == None && r.successMessage == None
      && r.loading == s.loading && r.theme == s.theme
      && r.tokenRefreshing == s.tokenRefreshing && r.initialized == s.initialized
  {
  }

  /** Toggling the theme always changes it and lands on light or dark;
      toggling twice restores a light or dark state, while any other saved
      string comes back as light; setting it stores the payload and nothing
      else. */
  lemma ThemeActions(s: UserState, t: Theme)
    ensures Reduce(s, ToggleTheme).theme != s.theme
    ensures Reduce(s, ToggleTheme).theme in {"light", "dark"}
    ensures s.theme in {"light", "dark"} ==> Reduce(Reduce(s, ToggleTheme), ToggleTheme) == s
    ensures s.theme !in {"light", "dark"} ==>
      Reduce(Reduce(s, ToggleTheme), ToggleTheme) == s.(theme := "light")
    ensures Reduce(s, SetTheme(t)) == s.(theme := t)
  {
  }

  /** The actions that set `initialized`: exactly markInitialized and the two
      settlements of fetchCurrentUser. */
  predicate SetsInitialized(a: UserAction) {
    a.MarkInitialized? || a.FetchCurrentUserFulfilled? || a.FetchCurrentUserRejected?
  }

  /** No action clears `initialized`, and from false it becomes true exactly
      on the actions that set it. */
  lemma InitializedOnlyRises(s: UserState, a: UserAction)
    ensures s.initialized ==> Reduce(s, a).initialized
    ensures !s.initialized ==> (Reduce(s, a).initialized <==> SetsInitialized(a))
  {
  }

  /** Once set, `initialized` stays set whatever is dispatched afterwards. */
  lemma {:induction false} InitializedStaysSet(s: UserState, actions: seq<UserAction>)
    requires s.initialized
    ensures ReduceAll(s, actions).initialized
    decreases |actions|
  {
    if actions != [] {
      InitializedOnlyRises(s, actions[0]);
      InitializedStaysSet(Reduce(s, actions[0]), actions[1..]);
    }
  }

  /** A failed session fetch signs the user out, ends loading, marks the session
      initialized and always records a non-empty error, preferring the
      rejection payload over the thrown error's message. */
  lemma FetchCurrentUserRejectedOutcome(s: UserState, payload: Option<string>, message: Option<string>)
    ensures var r := Reduce(s, FetchCurrentUserRejected(payload, message));
      && r.user == None && !r.loading && r.initialized
      && r.error.Some? && r.error.value != ""
      && (Truthy(payload) ==> r.error == payload)
      && (!Truthy(payload) && Truthy(message) ==> r.error == message)
      && (!Truthy(payload) && !Truthy(message) ==> r.error == Some("Failed to fetch user"))
  {
  }

  /** The pending actions all start loading; register and login also clear the
      error (register the success message too); the others change nothing else. */
  lemma PendingActions(s: UserState)
    ensures Reduce(s, RegisterPending) == s.(loading := true, error := None, successMessage := None)
    ensures Reduce(s, LoginPending) == s.(loading := true, error := None)
    ensures Reduce(s, FetchCurrentUserPending) == s.(loading := true)
    ensures Reduce(s, UpdateAccountPending) == s.(loading := true)
    ensures Reduce(s, UpdateAvatarPending) == s.(loading := true)
    ensures Reduce(s, LogoutUserPending) == s.(loading := true)
  {
  }

  /** Every rejected request other than the session fetch ends loading and
      stores the rejection payload as the error, leaving the user alone. */
  lemma RejectedActions(s: UserState, e: Option<string>)
    ensures Reduce(s, RegisterRejected(e)) == s.(loading := false, error := e)
    ensures Reduce(s, LoginRejected(e)) == s.(loading := false, error := e)
    ensures Reduce(s, UpdateAccountRejected(e)) == s.(loading := false, error := e)
    ensures Reduce(s, UpdateAvatarRejected(e)) == s.(loading := false, error := e)
    ensures Reduce(s, LogoutUserRejected(e)) == s.(loading := false, error := e)
  {
  }

  /** A successful login stores the user and ends loading, but leaves the error
      as it was (only the pending action clears it). */
  lemma LoginFulfilledKeepsError(s: UserState, u: Option<User>)
    ensures Reduce(s, LoginFulfilled(u)) == s.(loading := false, user := u)
  {
  }

  /** Overlaying fields keeps every old field not overwritten, takes every
      new one, and adds no other key; a missing user counts as empty. */
  lemma OverlayFields(user: Option<User>, fields: User)
    ensures Overlay(user, fields).Keys == user.GetOr(map[]).Keys + fields.Keys
    ensures forall k :: k in fields ==> Overlay(user, fields)[k] == fields[k]
    ensures forall k :: k in user.GetOr(map[]) && k !in fields ==>
      Overlay(user, fields)[k] == user.GetOr(map[])[k]
  {
  }

  /** The avatar update changes only the `avatar` field of the user. */
  lemma UpdateAvatarChangesOnlyAvatar(s: UserState, v: Value)
    requires s.user.Some?
    ensures var r := Reduce(s, UpdateAvatarFulfilled(v));
      && r.user.Some? && r.user.value.Keys == s.user.value.Keys + {"avatar"}
      && r.user.value["avatar"] == v
      && (forall k :: k in s.user.value && k != "avatar" ==> r.user.value[k] == s.user.value[k])
      && r.successMessage == Some("Avatar updated successfully") && !r.loading
      && r.error == s.error
  {
  }

  /** The three token-refresh actions change `tokenRefreshing` and nothing else. */
  lemma RefreshTouchesOnlyTokenFlag(s: UserState)
    ensures Reduce(s, RefreshAccessTokenPending) == s.(tokenRefreshing := true)
    ensures Reduce(s, RefreshAccessTokenFulfilled) == s.(tokenRefreshing := false)
    ensures Reduce(s, RefreshAccessTokenRejected) == s.(tokenRefreshing := false)
  {
  }

  predicate IsRefreshAction(a: UserAction) {
    a.RefreshAccessTokenPending? || a.RefreshAccessTokenFulfilled? || a.RefreshAccessTokenRejected?
  }

  /** Any run of token-refresh actions leaves all but `tokenRefreshing` as it was. */
  lemma {:induction false} RefreshRunKeepsSession(s: UserState, actions: seq<UserAction>)
    requires forall i :: 0 <= i < |actions| ==> IsRefreshAction(actions[i])
    ensures ReduceAll(s, actions).(tokenRefreshing := s.tokenRefreshing) == s
    decreases |actions|
  {
    if actions != [] {
      RefreshRunKeepsSession(Reduce(s, actions[0]), actions[1..]);
    }
  }
}
