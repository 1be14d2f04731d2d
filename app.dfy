/**
 * The application shell: which step is shown (sign-in, actor list, form), the
 * signed-in key and user name, and the session-storage entry that keeps a
 * sign-in across reloads.
 */
module App {
  import opened Wrappers
  import opened JsValue
  import ApiKeyForm

  /** The steps the shell uses; a results step is named in a comment only and never entered. */
  datatype Step = Auth | Actors | Form

  /** The shell's state variables and the session storage. */
  datatype AppState = AppState(apiKey: string, isAuthenticated: bool, error: string, currentStep: Step,
                               actors: seq<Value>, selectedActor: Value, actorsError: string,
                               userName: Value, storage: map<string, string>)

  /** `sessionStorage.getItem(k) || ""`. */
  function StoredOrEmpty(storage: map<string, string>, k: string): (v: string)
    ensures k in storage ==> v == storage[k]
    ensures k !in storage ==> v == ""
  {
    if k in storage then storage[k] else ""
  }

  /** The state on first render; only the user name is read from storage. */
  function Initial(storage: map<string, string>): (s: AppState)
    ensures s.currentStep == Auth && !s.isAuthenticated && s.selectedActor == Null
    ensures s.userName == Str(StoredOrEmpty(storage, ApiKeyForm.StoredUserName))
  {
    AppState("", false, "", Auth, [], Null, "", Str(StoredOrEmpty(storage, ApiKeyForm.StoredUserName)), storage)
  }

  /** The mount effect: a stored, non-empty key signs the user in and opens the actor list. */
  function MountStep(s: AppState): (t: AppState)
    ensures t.storage == s.storage && t.userName == s.userName && t.selectedActor == s.selectedActor
    ensures t.isAuthenticated <==> s.isAuthenticated || StoredOrEmpty(s.storage, ApiKeyForm.StoredKey) != ""
    ensures Consistent(s) ==> Consistent(t)
  {
    var stored := StoredOrEmpty(s.storage, ApiKeyForm.StoredKey);
    if stored != "" then s.(apiKey := stored, isAuthenticated := true, currentStep := Actors) else s
  }

  /** `handleAuthSuccess(newApiKey, userData, userName)`. */
  function AuthSuccessStep(s: AppState, newApiKey: string, userName: Value): (t: AppState)
    ensures Consistent(t) && t.isAuthenticated && !ShowsKeyForm(t)
    ensures t.storage == s.storage && t.selectedActor == s.selectedActor && t.actors == s.actors
  {
    s.(apiKey := newApiKey, isAuthenticated := true, error := "", currentStep := Actors, userName := userName)
  }

  /** `handleActorSelect(actor)`. */
  function ActorSelectStep(s: AppState, actor: Value): (t: AppState)
    ensures Consistent(s) && ShowsSelector(s) ==> Consistent(t)
    ensures Truthy(actor) <==> ShowsFormPanel(t)
    ensures t.isAuthenticated == s.isAuthenticated && t.apiKey == s.apiKey && t.storage == s.storage
  {
    s.(selectedActor := actor, currentStep := Form)
  }

  /** `handleLogout`: only the stored key is removed; the stored user name stays. */
  function LogoutStep(s: AppState): (t: AppState)
    ensures Consistent(t) && ShowsKeyForm(t) && !t.isAuthenticated
    ensures t.storage == s.storage - {ApiKeyForm.StoredKey} && ApiKeyForm.StoredKey !in t.storage
  {
    s.(storage := s.storage - {ApiKeyForm.StoredKey}, apiKey := "", isAuthenticated := false,
       userName := Str(""), currentStep := Auth, error := "", selectedActor := Null, actors := [])
  }

  /** The sign-in form is shown on the sign-in step. */
  predicate ShowsKeyForm(s: AppState) {
    s.currentStep == Auth
  }

  /** The "Authenticated with Apify as …" badge and the logout button. */
  predicate ShowsUserBadge(s: AppState) {
    s.isAuthenticated
  }

  /** The actor selector is shown on the actor-list and form steps. */
  predicate ShowsSelector(s: AppState)
    ensures ShowsSelector(s) <==> !ShowsKeyForm(s)
  {
    s.currentStep == Actors || s.currentStep == Form
  }

  /** The form panel needs the form step and a selected actor. */
  predicate ShowsFormPanel(s: AppState)
    ensures ShowsFormPanel(s) ==> ShowsSelector(s) && !ShowsKeyForm(s) && !IsNullish(s.selectedActor)
  {
    s.currentStep == Form && Truthy(s.selectedActor)
  }

  /** The shell is signed in exactly when it is past the sign-in step. */
  predicate Consistent(s: AppState) {
    s.isAuthenticated <==> s.currentStep != Auth
  }

  /**
   * Every transition keeps the shell consistent; an actor can only be chosen
   * from the selector, which is shown only past the sign-in step.
   */
  lemma TransitionsKeepConsistency(s: AppState, newApiKey: string, userName: Value, actor: Value)
    requires Consistent(s)
    ensures Consistent(Initial(s.storage))
    ensures Consistent(MountStep(s))
    ensures Consistent(AuthSuccessStep(s, newApiKey, userName))
    ensures ShowsSelector(s) ==> Consistent(ActorSelectStep(s, actor))
    ensures Consistent(LogoutStep(s))
  {
  }

  /** In a consistent shell the badge is shown exactly when the sign-in form is not. */
  lemma BadgeOrKeyForm(s: AppState)
    requires Consistent(s)
    ensures ShowsUserBadge(s) <==> !ShowsKeyForm(s)
  {
  }

  /** After a sign-in the actor list shows and the sign-in form does not. */
  lemma SignInOpensActors(s: AppState, newApiKey: string, userName: Value)
    ensures var t := AuthSuccessStep(s, newApiKey, userName);
            && ShowsSelector(t) && !ShowsKeyForm(t) && !ShowsFormPanel(t) && ShowsUserBadge(t)
            && t.apiKey == newApiKey && t.userName == userName && t.error == ""
  {
  }

  /** Choosing an actor opens its form and keeps the selector visible. */
  lemma SelectOpensForm(s: AppState, actor: Value)
    requires Truthy(actor)
    ensures var t := ActorSelectStep(s, actor);
            && ShowsFormPanel(t) && ShowsSelector(t) && t.selectedActor == actor
  {
  }

  /**
   * Logout shows only the sign-in form, removes the stored key and no other
   * entry, and a reload afterwards stays signed out.
   */
  lemma LogoutSignsOut(s: AppState)
    ensures var t := LogoutStep(s);
            && ShowsKeyForm(t) && !ShowsUserBadge(t) && !ShowsSelector(t) && !ShowsFormPanel(t)
            && ApiKeyForm.StoredKey !in t.storage
            && (forall k :: k != ApiKeyForm.StoredKey ==> (k in t.storage <==> k in s.storage))
            && (forall k :: k in t.storage ==> t.storage[k] == s.storage[k])
            && MountStep(Initial(t.storage)) == Initial(t.storage)
  {
  }

  /** Without a stored key the mount changes nothing; with one, the shell opens the actor list with that key. */
  lemma MountRestores(storage: map<string, string>)
    ensures StoredOrEmpty(storage, ApiKeyForm.StoredKey) == "" ==> MountStep(Initial(storage)) == Initial(storage)
    ensures StoredOrEmpty(storage, ApiKeyForm.StoredKey) != "" ==>
              var t := MountStep(Initial(storage));
              && t.apiKey == storage[ApiKeyForm.StoredKey] && t.isAuthenticated && t.currentStep == Actors
  {
  }

  /**
   * A sign-in through the form survives a reload: the key the form stored is
   * restored on mount, and the user name it stored is shown again.
   */
  lemma SignInSurvivesReload(f: ApiKeyForm.FormState, response: Value)
    requires !ApiKeyForm.IsBlank(f.apiKey)
    requires !IsNullish(response) && Truthy(GetProp(response, "success"))
    requires ApiKeyForm.UserNameOf(response).Success?
    ensures var stored := ApiKeyForm.SubmitStep(f, Success(response)).storage;
            var t := MountStep(Initial(stored));
            && t.apiKey == f.apiKey && t.isAuthenticated && t.currentStep == Actors
            && t.userName == Str(ToString(ApiKeyForm.UserNameOf(response).value))
  {
    ApiKeyForm.SignInStoresBoth(f, response);
    assert ApiKeyForm.IsBlank("");
  }

  /** The shell's state, as the mount effect and the handlers update it. */
  class Shell {
    var apiKey: string
    var isAuthenticated: bool
    var error: string
    var currentStep: Step
    var actors: seq<Value>
    var selectedActor: Value
    var actorsError: string
    var userName: Value
    var storage: map<string, string>

    function State(): AppState
      reads this
    {
      AppState(apiKey, isAuthenticated, error, currentStep, actors, selectedActor, actorsError, userName, storage)
    }

    constructor (session: map<string, string>)
      ensures State() == Initial(session)
    {
      apiKey := "";
      isAuthenticated := false;
      error := "";
      currentStep := Auth;
      actors := [];
      selectedActor := Null;
      actorsError := "";
      userName := Str(StoredOrEmpty(session, ApiKeyForm.StoredUserName));
      storage := session;
    }

    /** The mount effect. */
    method Mount()
      modifies this
      ensures State() == MountStep(old(State()))
    {
      var stored := StoredOrEmpty(storage, ApiKeyForm.StoredKey);
      if stored != "" {
        apiKey := stored;
        isAuthenticated := true;
        currentStep := Actors;
      }
    }

    /** `handleAuthSuccess`. */
    method HandleAuthSuccess(newApiKey: string, newUserName: Value)
      modifies this
      ensures State() == AuthSuccessStep(old(State()), newApiKey, newUserName)
    {
      apiKey := newApiKey;
      isAuthenticated := true;
      error := "";
      currentStep := Actors;
      userName := newUserName;
    }

    /** `handleActorSelect`. */
    method HandleActorSelect(actor: Value)
      modifies this
      ensures State() == ActorSelectStep(old(State()), actor)
    {
      selectedActor := actor;
      currentStep := Form;
    }

    /** `handleLogout`. */
    method HandleLogout()
      modifies this
      ensures State() == LogoutStep(old(State()))
    {
      storage := storage - {ApiKeyForm.StoredKey};
      apiKey := "";
      isAuthenticated := false;
      userName := Str("");
      currentStep := Auth;
      error := "";
      selectedActor := Null;
      actors := [];
    }
  }
}
