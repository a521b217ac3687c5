/**
 * The login screen (Login.jsx). A first-time user chooses a master password,
 * which must have at least 8 characters and match its confirmation; the
 * salt and iteration count used to derive the key are then stored. A
 * returning user's key is derived from the stored salt and iterations. Key
 * derivation is a parameter: None stands for a derivation that throws.
 */
module LoginScreen {
  import opened Wrappers
  import opened Records
  import opened Storage

  /** The key handed to `onLogin`, named by what it was derived from. */
  datatype MasterKey = MasterKey(password: string, salt: string, iterations: int)

  const Iterations := 100000
  const MinPasswordLength := 8

  const TooShort := "Password must be at least 8 characters long"
  const Mismatch := "Passwords do not match"
  const NoSettings := "Settings not found. Please refresh and try again."
  const Failed := "An error occurred. Please try again."

  /** The settings record a first-time login writes: the salt and the iteration count, nothing else. */
  function FirstTimeSettings(salt: string): (s: Settings)
    ensures s.salt == Some(salt) && s.iterations == Iterations
    ensures s.resendFromEmail.None? && s.backupEmail.None?
  {
    Settings(Some(salt), Iterations, None, None)
  }

  /** What a submit ends in: an error message, or the key passed to `onLogin`. */
  datatype Outcome = Rejected(error: string) | LoggedIn(key: MasterKey)

  /**
   * handleSubmit's decision. `derive(password, salt, iterations)` is the key
   * derivation; the stored settings may lack a salt (a record written only
   * by the e-mail settings screen), in which case None is passed.
   */
  function Submit(isFirstTime: bool, password: string, confirmPassword: string, settings: Option<Settings>,
                  salt: string, derive: (string, Option<string>, int) -> Option<MasterKey>): (o: Outcome)
    ensures isFirstTime && |password| < MinPasswordLength ==> o == Rejected(TooShort)
    ensures isFirstTime && |password| >= MinPasswordLength && password != confirmPassword ==> o == Rejected(Mismatch)
    ensures isFirstTime && o.LoggedIn? ==>
      |password| >= MinPasswordLength && password == confirmPassword && derive(password, Some(salt), Iterations) == Some(o.key)
    ensures !isFirstTime && settings.None? ==> o == Rejected(NoSettings)
    ensures !isFirstTime && o.LoggedIn? ==>
      settings.Some? && derive(password, settings.value.salt, settings.value.iterations) == Some(o.key)
    ensures isFirstTime && |password| >= MinPasswordLength && password == confirmPassword ==>
      && (o.LoggedIn? <==> derive(password, Some(salt), Iterations).Some?)
      && (o.Rejected? ==> o.error == Failed)
    ensures !isFirstTime && settings.Some? ==>
      && (o.LoggedIn? <==> derive(password, settings.value.salt, settings.value.iterations).Some?)
      && (o.Rejected? ==> o.error == Failed)
    ensures o.Rejected? ==> o.error in {TooShort, Mismatch, NoSettings, Failed}
  {
    if isFirstTime then
      if |password| < MinPasswordLength then Rejected(TooShort)
      else if password != confirmPassword then Rejected(Mismatch)
      else
        match derive(password, Some(salt), Iterations)
        case Some(key) => LoggedIn(key)
        case None => Rejected(Failed)
    else if settings.None? then Rejected(NoSettings)
    else
      match derive(password, settings.value.salt, settings.value.iterations)
      case Some(key) => LoggedIn(key)
      case None => Rejected(Failed)
  }

  /**
   * A returning user is never asked whether the password is right: with a
   * derivation that does not throw, any two passwords (and any confirmation)
   * both log in.
   */
  lemma ReturningUserPasswordUnchecked(p1: string, p2: string, c1: string, c2: string, settings: Option<Settings>, salt: string,
                                       derive: (string, Option<string>, int) -> Option<MasterKey>)
    requires settings.Some?
    requires forall p :: derive(p, settings.value.salt, settings.value.iterations).Some?
    ensures Submit(false, p1, c1, settings, salt, derive).LoggedIn?
    ensures Submit(false, p2, c2, settings, salt, derive).LoggedIn?
  {
    assert derive(p1, settings.value.salt, settings.value.iterations).Some?;
    assert derive(p2, settings.value.salt, settings.value.iterations).Some?;
  }

  /**
   * The length check comes first: a short password is reported as short
   * whatever the confirmation, so a mismatch is only reported for a password
   * of at least 8 characters.
   */
  lemma LengthCheckedBeforeConfirmation(password: string, confirmPassword: string, settings: Option<Settings>, salt: string,
                                        derive: (string, Option<string>, int) -> Option<MasterKey>)
    ensures Submit(true, password, confirmPassword, settings, salt, derive) == Rejected(Mismatch) ==> |password| >= MinPasswordLength
    ensures |password| < MinPasswordLength ==> Submit(true, password, confirmPassword, settings, salt, derive) == Rejected(TooShort)
  {
  }

  class Login {
    const store: Store
    var password: string
    var confirmPassword: string
    var isFirstTime: bool
    var error: string
    var loading: bool
    /** The keys passed to `onLogin`, oldest first. */
    var loggedIn: seq<MasterKey>

    constructor (store: Store)
      ensures this.store == store
      ensures password == "" && confirmPassword == "" && !isFirstTime && error == "" && !loading && loggedIn == []
    {
      this.store := store;
      password, confirmPassword, isFirstTime, error, loading, loggedIn := "", "", false, "", false, [];
    }

    /** checkInitialization: first time exactly when no settings record exists. */
    method CheckInitialization()
      modifies this
      ensures isFirstTime <==> store.settings.None?
      ensures password == old(password) && confirmPassword == old(confirmPassword)
      ensures error == old(error) && loading == old(loading) && loggedIn == old(loggedIn)
    {
      var initialized := store.HasInitialized();
      isFirstTime := !initialized;
    }

    /**
     * handleSubmit, with `salt` the value generateSalt returns. A first-time
     * success writes `FirstTimeSettings(salt)` over any settings record; no
     * other path writes anything.
     */
    method HandleSubmit(salt: string, derive: (string, Option<string>, int) -> Option<MasterKey>)
      requires store.Valid()
      modifies this, store
      ensures store.Valid()
      ensures store.pages == old(store.pages) && store.trustees == old(store.trustees) && store.conditions == old(store.conditions)
      ensures var o := Submit(isFirstTime, password, confirmPassword, old(store.settings), salt, derive);
        && (o.LoggedIn? ==> loggedIn == old(loggedIn) + [o.key] && error == "")
        && (o.Rejected? ==> loggedIn == old(loggedIn) && error == o.error)
        && (isFirstTime && o.LoggedIn? ==> store.settings == Some(FirstTimeSettings(salt)))
        && (!(isFirstTime && o.LoggedIn?) ==> store.settings == old(store.settings))
      ensures !loading
      ensures password == old(password) && confirmPassword == old(confirmPassword) && isFirstTime == old(isFirstTime)
    {
      error := "";
      loading := true;
      if isFirstTime {
        if |password| < MinPasswordLength {
          error := TooShort;
          loading := false;
          return;
        }
        if password != confirmPassword {
          error := Mismatch;
          loading := false;
          return;
        }
        var masterKey := derive(password, Some(salt), Iterations);
        if masterKey.None? {
          error := Failed;
          loading := false;
          return;
        }
        store.SaveSettings(Settings(Some(salt), Iterations, None, None));
        loggedIn := loggedIn + [masterKey.value];
      } else {
        var settings := store.GetSettings();
        if settings.None? {
          error := NoSettings;
          loading := false;
          return;
        }
        var masterKey := derive(password, settings.value.salt, settings.value.iterations);
        if masterKey.None? {
          error := Failed;
          loading := false;
          return;
        }
        loggedIn := loggedIn + [masterKey.value];
      }
      loading := false;
    }
  }
}
