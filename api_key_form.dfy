/**
 * The sign-in form: a key field, a blank-key guard, one validation call per
 * submit, and the two session-storage entries written when the key is accepted.
 */
module ApiKeyForm {
  import opened Wrappers
  import opened JsString
  import opened JsValue

  const EnterKeyMessage := "Please enter your Apify API key"
  const ValidationFailed := "Validation failed"
  const ValidateFailed := "Failed to validate API key"
  const StoredKey := "apifyApiKey"
  const StoredUserName := "apifyUserName"

  /** A call of `onSuccess(apiKey, userData, userName)`. */
  datatype SignedIn = SignedIn(apiKey: string, userData: Value, userName: Value)

  /**
   * The form's `apiKey`, `isLoading` and `error` state, the session storage it
   * writes, the validation requests it issued and the `onSuccess` calls it made.
   */
  datatype FormState = FormState(apiKey: string, isLoading: bool, error: Value,
                                 storage: map<string, string>, requests: nat, signedIn: seq<SignedIn>)

  function InitialForm(storage: map<string, string>): FormState {
    FormState("", false, Str(""), storage, 0, [])
  }

  /** `apiKey.trim()` is empty. */
  predicate IsBlank(apiKey: string)
    ensures IsBlank(apiKey) <==> AllWhitespace(apiKey)
  {
    TrimEmptyIffBlank(apiKey);
    Trim(apiKey) == ""
  }

  /** The submit button: enabled when nothing is loading and the key is not blank. */
  predicate SubmitEnabled(s: FormState)
    ensures SubmitEnabled(s) <==> !s.isLoading && exists i :: 0 <= i < |s.apiKey| && !IsWhitespace(s.apiKey[i])
  {
    !s.isLoading && !IsBlank(s.apiKey)
  }

  /** `response.data.data.username`; each property read throws on a missing level. */
  function UserNameOf(response: Value): (r: Result<Value, string>)
    ensures r.Success? <==>
              && !IsNullish(response)
              && !IsNullish(GetProp(response, "data"))
              && !IsNullish(GetProp(GetProp(response, "data"), "data"))
    ensures r.Success? ==> r.value == GetProp(GetProp(GetProp(response, "data"), "data"), "username")
    ensures r.Failure? ==> r.error == TypeErrorMessage
  {
    match Deref(response, "data")
    case Failure(m) => Failure(m)
    case Success(outer) =>
      match Deref(outer, "data")
      case Failure(m) => Failure(m)
      case Success(inner) => Deref(inner, "username")
  }

  /**
   * The `try` block after the request settled with a response: on a truthy
   * `success`, the key is stored first, then the username is read and stored and
   * `onSuccess` is called; otherwise the envelope's message or the default is
   * shown. A property read on a missing value throws into the `catch`.
   */
  function Answered(s: FormState, response: Value): (t: FormState)
    ensures t.apiKey == s.apiKey && t.isLoading == s.isLoading && t.requests == s.requests
    ensures IsNullish(response) || !Truthy(GetProp(response, "success")) ==>
              t.storage == s.storage && t.signedIn == s.signedIn && Truthy(t.error)
    ensures t.signedIn == s.signedIn || |t.signedIn| == |s.signedIn| + 1
    ensures t.signedIn != s.signedIn ==>
              && t.signedIn == s.signedIn + [SignedIn(s.apiKey, GetProp(response, "data"), t.signedIn[|s.signedIn|].userName)]
              && Truthy(GetProp(response, "success")) && t.error == s.error
              && StoredKey in t.storage && t.storage[StoredKey] == s.apiKey
              && StoredUserName in t.storage && t.storage[StoredUserName] == ToString(t.signedIn[|s.signedIn|].userName)
  {
    match Deref(response, "success")
    case Failure(m) => s.(error := Str(OrDefaultMessage(m)))
    case Success(success) =>
      if !Truthy(success) then
        s.(error := Or(OptGet(GetProp(response, "error"), "message"), Str(ValidationFailed)))
      else
        var keyStored := s.(storage := s.storage[StoredKey := s.apiKey]);
        match UserNameOf(response)
        case Failure(m) => keyStored.(error := Str(OrDefaultMessage(m)))
        case Success(userName) =>
          keyStored.(storage := keyStored.storage[StoredUserName := ToString(userName)],
                     signedIn := s.signedIn + [SignedIn(s.apiKey, GetProp(response, "data"), userName)])
  }

  /** `err.message || "Failed to validate API key"`. */
  function OrDefaultMessage(message: string): (m: string)
    ensures m != ""
    ensures message != "" ==> m == message
  {
    if message != "" then message else ValidateFailed
  }

  /** `handleSubmit` with the settled `validateApiKey` call. */
  function SubmitStep(s: FormState, outcome: Result<Value, string>): (t: FormState)
    ensures t.apiKey == s.apiKey
  {
    if IsBlank(s.apiKey) then s.(error := Str(EnterKeyMessage))
    else
      var started := s.(isLoading := true, error := Str(""), requests := s.requests + 1);
      var settled := match outcome
        case Failure(m) => started.(error := Str(OrDefaultMessage(m)))
        case Success(response) => Answered(started, response);
      settled.(isLoading := false)
  }

  /** A blank key is refused on the spot: the message is shown and nothing is requested, stored or reported. */
  lemma BlankKeyRefused(s: FormState, outcome: Result<Value, string>)
    requires IsBlank(s.apiKey)
    ensures var t := SubmitStep(s, outcome);
            && t.error == Str(EnterKeyMessage)
            && t.requests == s.requests && t.storage == s.storage && t.signedIn == s.signedIn
  {
  }

  /** A key that is not blank is sent exactly once, and loading is over whatever the answer. */
  lemma KeySentOnce(s: FormState, outcome: Result<Value, string>)
    requires !IsBlank(s.apiKey)
    ensures SubmitStep(s, outcome).requests == s.requests + 1
    ensures !SubmitStep(s, outcome).isLoading
  {
    var started := s.(isLoading := true, error := Str(""), requests := s.requests + 1);
    if outcome.Success? {
      AnsweredKeepsCounts(started, outcome.value);
    }
  }

  /** Handling the response issues no further request. */
  lemma AnsweredKeepsCounts(s: FormState, response: Value)
    ensures Answered(s, response).requests == s.requests
    ensures Answered(s, response).apiKey == s.apiKey
  {
  }

  /** An enabled button always leads to a request. */
  lemma EnabledSubmitSends(s: FormState, outcome: Result<Value, string>)
    requires SubmitEnabled(s)
    ensures SubmitStep(s, outcome).requests == s.requests + 1
  {
    KeySentOnce(s, outcome);
  }

  /**
   * An accepted key with a username: both entries are stored, `onSuccess`
   * receives the key, `response.data` and the username, and no error shows.
   */
  lemma SignInStoresBoth(s: FormState, response: Value)
    requires !IsBlank(s.apiKey)
    requires !IsNullish(response) && Truthy(GetProp(response, "success"))
    requires UserNameOf(response).Success?
    ensures var t := SubmitStep(s, Success(response));
            var userName := UserNameOf(response).value;
            && t.storage == s.storage[StoredKey := s.apiKey][StoredUserName := ToString(userName)]
            && t.signedIn == s.signedIn + [SignedIn(s.apiKey, GetProp(response, "data"), userName)]
            && t.error == Str("")
            && !t.isLoading
  {
  }

  /**
   * An accepted key without `data.data` in the answer: the key is already
   * stored when reading the username throws, so the key stays in storage while
   * the error shows and `onSuccess` is never called.
   */
  lemma KeyStoredBeforeUserNameFails(s: FormState, response: Value)
    requires !IsBlank(s.apiKey)
    requires !IsNullish(response) && Truthy(GetProp(response, "success"))
    requires UserNameOf(response).Failure?
    ensures var t := SubmitStep(s, Success(response));
            && t.storage == s.storage[StoredKey := s.apiKey]
            && t.signedIn == s.signedIn
            && t.error == Str(TypeErrorMessage)
  {
    assert UserNameOf(response).error == TypeErrorMessage;
  }

  /** A refused or failed validation shows a non-blank message, stores nothing and reports nothing. */
  lemma RefusalShowsMessage(s: FormState, outcome: Result<Value, string>)
    requires !IsBlank(s.apiKey)
    requires outcome.Failure? || IsNullish(outcome.value) || !Truthy(GetProp(outcome.value, "success"))
    ensures var t := SubmitStep(s, outcome);
            && Truthy(t.error) && t.storage == s.storage && t.signedIn == s.signedIn
    ensures outcome.Failure? && outcome.error != "" ==> SubmitStep(s, outcome).error == Str(outcome.error)
    ensures outcome.Success? && !IsNullish(outcome.value)
            && !Truthy(OptGet(GetProp(outcome.value, "error"), "message"))
            ==> SubmitStep(s, outcome).error == Str(ValidationFailed)
    ensures outcome.Success? && !IsNullish(outcome.value)
            && Truthy(OptGet(GetProp(outcome.value, "error"), "message"))
            ==> SubmitStep(s, outcome).error == OptGet(GetProp(outcome.value, "error"), "message")
  {
  }

  /** The form's state, as typing and submitting update it. */
  class Form {
    var apiKey: string
    var isLoading: bool
    var error: Value
    var storage: map<string, string>
    var requests: nat
    var signedIn: seq<SignedIn>

    function State(): FormState
      reads this
    {
      FormState(apiKey, isLoading, error, storage, requests, signedIn)
    }

    constructor (session: map<string, string>)
      ensures State() == InitialForm(session)
    {
      apiKey := "";
      isLoading := false;
      error := Str("");
      storage := session;
      requests := 0;
      signedIn := [];
    }

    /** The key field's `onChange`. */
    method ChangeKey(text: string)
      modifies this
      ensures State() == old(State()).(apiKey := text)
    {
      apiKey := text;
    }

    /** `handleSubmit`. */
    method HandleSubmit(outcome: Result<Value, string>)
      modifies this
      ensures State() == SubmitStep(old(State()), outcome)
    {
      if IsBlank(apiKey) {
        error := Str(EnterKeyMessage);
        return;
      }
      isLoading := true;
      error := Str("");
      requests := requests + 1;
      if outcome.Failure? {
        error := Str(OrDefaultMessage(outcome.error));
      } else {
        var response := outcome.value;
        var success := Deref(response, "success");
        if success.Failure? {
          error := Str(OrDefaultMessage(success.error));
        } else if !Truthy(success.value) {
          error := Or(OptGet(GetProp(response, "error"), "message"), Str(ValidationFailed));
        } else {
          storage := storage[StoredKey := apiKey];
          var userName := UserNameOf(response);
          if userName.Failure? {
            error := Str(OrDefaultMessage(userName.error));
          } else {
            storage := storage[StoredUserName := ToString(userName.value)];
            signedIn := signedIn + [SignedIn(apiKey, GetProp(response, "data"), userName.value)];
          }
        }
      }
      isLoading := false;
    }
  }
}
