/** The admin gate in front of the settings panel: the PIN field, its error
    line and the flag that unlocks the configuration screen. */
module Admin {

  /** `isAuthenticated`, `pinInput` and `authError`. */
  datatype AuthState = AuthState(authenticated: bool, pin: string, error: string)

  const AdminPin := "106"
  const DeniedMessage := "ACCESS DENIED: INVALID PROTOCOL CODE"

  /** The state when the app mounts. */
  const Initial := AuthState(false, "", "")

  /** `handleAuth()`: the admin PIN unlocks and clears the error, keeping the
      typed PIN; any other PIN shows the denial, clears the field and leaves
      the flag as it was. */
  function HandleAuth(s: AuthState): (r: AuthState)
    ensures r.authenticated <==> s.authenticated || s.pin == AdminPin
    ensures r.error == "" <==> s.pin == AdminPin
    ensures r.error != "" ==> r.error == DeniedMessage
    ensures s.pin == AdminPin ==> r.pin == s.pin
    ensures s.pin != AdminPin ==> r.pin == "" && r.authenticated == s.authenticated
  {
    if s.pin == AdminPin then s.(authenticated := true, error := "")
    else s.(error := DeniedMessage, pin := "")
  }

  /** Submitting twice in a row is the same as submitting once: a denial has
      already emptied the field, and a success keeps the admin PIN. */
  lemma HandleAuthIdempotent(s: AuthState)
    ensures HandleAuth(HandleAuth(s)) == HandleAuth(s)
  {
  }

  /** What the PIN screen reacts to: typing into the field (`onChange`) and
      submitting (the Enter key or the AUTHENTICATE button). */
  datatype Event = TypePin(text: string) | Submit

  function Step(s: AuthState, e: Event): AuthState {
    match e
    case TypePin(text) => s.(pin := text)
    case Submit => HandleAuth(s)
  }

  /** The state after the events `evs`, oldest first. */
  function Run(s: AuthState, evs: seq<Event>): (r: AuthState)
    decreases |evs|
  {
    if |evs| == 0 then s else Step(Run(s, evs[..|evs| - 1]), evs[|evs| - 1])
  }

  /** Nothing on this screen ever locks the panel again. */
  lemma {:induction false} AuthenticatedIsSticky(s: AuthState, evs: seq<Event>)
    requires s.authenticated
    ensures Run(s, evs).authenticated
    decreases |evs|
  {
    if |evs| > 0 {
      AuthenticatedIsSticky(s, evs[..|evs| - 1]);
    }
  }

  /** The panel is unlocked exactly when it was already, or some submission
      happened while the field held the admin PIN. */
  lemma {:induction false} UnlockedIffAdminPinSubmitted(s: AuthState, evs: seq<Event>)
    ensures Run(s, evs).authenticated <==>
      s.authenticated || exists k :: 0 <= k < |evs| && evs[k] == Submit && Run(s, evs[..k]).pin == AdminPin
    decreases |evs|
  {
    if |evs| > 0 {
      var n := |evs| - 1;
      var prefix := evs[..n];
      UnlockedIffAdminPinSubmitted(s, prefix);
      forall k | 0 <= k < n
        ensures evs[..k] == prefix[..k] && evs[k] == prefix[k]
      {
      }
      assert evs[..n] == prefix;
    }
  }

  /** The error line only ever shows nothing or the denial. */
  lemma {:induction false} ErrorIsEmptyOrDenial(s: AuthState, evs: seq<Event>)
    requires s.error == "" || s.error == DeniedMessage
    ensures Run(s, evs).error == "" || Run(s, evs).error == DeniedMessage
    decreases |evs|
  {
    if |evs| > 0 {
      ErrorIsEmptyOrDenial(s, evs[..|evs| - 1]);
    }
  }

  /** A denial clears the field, so submitting again without typing is
      denied as well. */
  lemma ResubmitAfterDenialIsDenied(s: AuthState)
    requires s.pin != AdminPin
    ensures Run(s, [Submit, Submit]).pin == ""
    ensures Run(s, [Submit, Submit]).error == DeniedMessage
    ensures Run(s, [Submit, Submit]).authenticated == s.authenticated
  {
    assert [Submit, Submit][..1] == [Submit];
    assert [Submit][..0] == [];
  }

  /** Typing the admin PIN and submitting unlocks the panel from any state. */
  lemma TypingAdminPinUnlocks(s: AuthState)
    ensures Run(s, [TypePin(AdminPin), Submit]) == s.(authenticated := true, pin := AdminPin, error := "")
  {
    assert [TypePin(AdminPin), Submit][..1] == [TypePin(AdminPin)];
    assert [TypePin(AdminPin)][..0] == [];
  }
}
