// The sign-in form of src/components/Login.tsx: login, registration with
// its validation checks in order, and the switch between the two modes.
module Login {
  import opened Types
  import opened LeagueStore
  import opened Strings

  const ALL_FIELDS_REQUIRED: string := "All fields are required"
  const PASSWORDS_DIFFER: string := "Passwords do not match"
  const PASSWORD_TOO_SHORT: string := "Password must be at least 4 characters"
  const USERNAME_TAKEN: string := "Username already exists"
  const INVALID_LOGIN: string := "Invalid username or password"
  const LOGGED_IN: string := "Logged in successfully!"
  const ACCOUNT_CREATED: string := "Account created! Logging you in..."
  const MIN_PASSWORD_LENGTH: int := 4

  /**
   * The checks `handleRegister` makes before calling `register`, first failure wins.
   * The password's length is JavaScript's, in UTF-16 code units.
   */
  function RegistrationError(username: string, email: string, name: string, password: string, confirm: string)
    : (e: Option<string>)
    ensures e == Some(ALL_FIELDS_REQUIRED) <==> username == "" || email == "" || name == "" || password == "" || confirm == ""
    ensures e == Some(PASSWORDS_DIFFER) <==>
      username != "" && email != "" && name != "" && password != "" && confirm != "" && password != confirm
    ensures e == Some(PASSWORD_TOO_SHORT) <==>
      username != "" && email != "" && name != "" && password != "" && password == confirm && Utf16Length(password) < MIN_PASSWORD_LENGTH
    ensures e.None? <==>
      username != "" && email != "" && name != "" && password == confirm && Utf16Length(password) >= MIN_PASSWORD_LENGTH
  {
    if username == "" || email == "" || name == "" || password == "" || confirm == "" then Some(ALL_FIELDS_REQUIRED)
    else if password != confirm then Some(PASSWORDS_DIFFER)
    else if Utf16Length(password) < MIN_PASSWORD_LENGTH then Some(PASSWORD_TOO_SHORT)
    else None
  }

  class LoginForm {
    var isLogin: bool
    var username: string
    var email: string
    var name: string
    var password: string
    var confirmPassword: string
    var error: string
    var success: string

    constructor ()
      ensures isLogin && username == "" && email == "" && name == "" && password == "" && confirmPassword == ""
      ensures error == "" && success == ""
    {
      isLogin := true;
      username, email, name, password, confirmPassword := "", "", "", "", "";
      error, success := "", "";
    }

    /** `handleLogin`: a failure shows the error and clears the password. */
    method HandleLogin(store: League)
      requires store.Valid()
      modifies this`error, this`success, this`password, store`currentUser
      ensures store.Valid()
      ensures LoginAccepts(store.users, store.players, username, old(password)) ==>
        && success == LOGGED_IN && error == "" && password == old(password)
        && store.currentUser == Some(AuthOf(FindPlayer(store.players, username).value))
      ensures !LoginAccepts(store.users, store.players, username, old(password)) ==>
        && error == INVALID_LOGIN && success == "" && password == ""
        && store.currentUser == old(store.currentUser)
    {
      error := "";
      success := "";
      var ok := store.Login(username, password);
      if ok {
        success := LOGGED_IN;
      } else {
        error := INVALID_LOGIN;
        password := "";
      }
    }

    /** `handleRegister`: `register` is called only once every check passes. */
    method HandleRegister(store: League)
      requires store.Valid()
      modifies this`error, this`success, store
      ensures store.Valid()
      ensures var e := RegistrationError(username, email, name, password, confirmPassword);
        e.Some? ==> error == e.value && success == "" && unchanged(store)
      ensures RegistrationError(username, email, name, password, confirmPassword).None? ==>
        if RegisterAccepts(old(store.users), old(store.players), username)
        then success == ACCOUNT_CREATED && error == ""
             && store.players == old(store.players) + [RegisteredPlayer(username, email, name)]
             && store.users == old(store.users)[username := Credential(password, email, name, PlayerId(username))]
             && store.currentUser == Some(AuthUser(PlayerId(username), username, email, false))
        else error == USERNAME_TAKEN && success == "" && unchanged(store)
    ensures success == ACCOUNT_CREATED ==> LoginAccepts(store.users, store.players, username, password)
    ensures store.rounds == old(store.rounds) && store.activeWeeks == old(store.activeWeeks)
    ensures store.cloudWrites == old(store.cloudWrites)
    {
      error := "";
      success := "";
      var invalid := RegistrationError(username, email, name, password, confirmPassword);
      if invalid.Some? {
        error := invalid.value;
        return;
      }
      var ok := store.Register(username, email, name, password);
      if ok {
        RegisterThenLogin(old(store.users), old(store.players), username, email, name, password);
        success := ACCOUNT_CREATED;
      } else {
        error := USERNAME_TAKEN;
      }
    }

    /** The mode switch: flips the mode and clears all five fields and both messages. */
    method ToggleMode()
      modifies this
      ensures isLogin == !old(isLogin)
      ensures username == "" && email == "" && name == "" && password == "" && confirmPassword == ""
      ensures error == "" && success == ""
    {
      isLogin := !isLogin;
      username, email, name, password, confirmPassword := "", "", "", "", "";
      error, success := "", "";
    }
  }

  /** A registration the form lets through, then a login with the same fields, succeeds. */
  lemma RegisteredCanLogIn(users: map<string, Credential>, players: seq<Player>,
                           username: string, email: string, name: string, password: string)
    requires RegistrationError(username, email, name, password, password).None?
    ensures LoginAccepts(users[username := Credential(password, email, name, PlayerId(username))],
                         players + [RegisteredPlayer(username, email, name)], username, password)
  {
    RegisterThenLogin(users, players, username, email, name, password);
  }
}
