/**
  The access-key gate (src/components/KeycloakBackdrop.tsx): a form that
  renders the application's children once the typed key, upper-cased, equals
  the configured key.
 */
module KeycloakBackdrop {

  import opened Wrappers
  import opened Text

  const DefaultKey: string := "YHK"

  /** `process.env.REACT_APP_ACCESS_KEY || 'YHK'`: an unset or empty variable gives the default. */
  function CorrectKey(env: Option<string>): (key: string)
    ensures env.Some? && env.value != "" ==> key == env.value
    ensures env.None? || env.value == "" ==> key == DefaultKey
  {
    if env.Some? && env.value != "" then env.value else DefaultKey
  }

  /** The component's three state variables. */
  datatype GateState = GateState(isAuthenticated: bool, inputKey: string, error: bool)

  const Initial: GateState := GateState(false, "", false)

  predicate Unlocks(input: string, key: string)
  {
    Upper(input) == key
  }

  /**
    `handleSubmit`: a key that unlocks authenticates and changes nothing else;
    any other key raises the error flag and changes nothing else.
   */
  function Submit(s: GateState, key: string): (r: GateState)
    ensures Unlocks(s.inputKey, key) ==> r.isAuthenticated && r.inputKey == s.inputKey && r.error == s.error
    ensures !Unlocks(s.inputKey, key) ==> r.error && r.isAuthenticated == s.isAuthenticated && r.inputKey == s.inputKey
  {
    if Unlocks(s.inputKey, key) then s.(isAuthenticated := true) else s.(error := true)
  }

  /** The input's `onChange`: the typed text replaces the key and the error is cleared. */
  function Edit(s: GateState, text: string): (r: GateState)
    ensures r.inputKey == text && !r.error && r.isAuthenticated == s.isAuthenticated
  {
    s.(inputKey := text, error := false)
  }

  datatype Event = SubmitEvent | EditEvent(text: string)

  function Step(s: GateState, key: string, e: Event): GateState
  {
    match e
    case SubmitEvent => Submit(s, key)
    case EditEvent(text) => Edit(s, text)
  }

  function Run(s: GateState, key: string, events: seq<Event>): GateState
    decreases |events|
  {
    if events == [] then s else Run(Step(s, key, events[0]), key, events[1..])
  }

  /** No transition sets `isAuthenticated` back to false: once in, always in. */
  lemma {:induction false} AuthenticationIsSticky(s: GateState, key: string, events: seq<Event>)
    requires s.isAuthenticated
    ensures Run(s, key, events).isAuthenticated
    decreases |events|
  {
    if events != [] {
      AuthenticationIsSticky(Step(s, key, events[0]), key, events[1..]);
    }
  }

  /** The error message is on screen only while the typed key is a wrong one. */
  ghost predicate ErrorMeansWrongKey(s: GateState, key: string)
  {
    s.error ==> !Unlocks(s.inputKey, key)
  }

  lemma {:induction false} ErrorOnlyForWrongKey(s: GateState, key: string, events: seq<Event>)
    requires ErrorMeansWrongKey(s, key)
    ensures ErrorMeansWrongKey(Run(s, key, events), key)
    decreases |events|
  {
    if events != [] {
      ErrorOnlyForWrongKey(Step(s, key, events[0]), key, events[1..]);
    }
  }

  /** From the initial state, the gate opens exactly when an unlocking key has been typed and then submitted. */
  lemma TypeThenSubmit(input: string, key: string)
    ensures Run(Initial, key, [EditEvent(input), SubmitEvent]).isAuthenticated <==> Unlocks(input, key)
  {
    var typed := Edit(Initial, input);
    assert [EditEvent(input), SubmitEvent][1..] == [SubmitEvent];
    assert Run(Initial, key, [EditEvent(input), SubmitEvent]) == Run(typed, key, [SubmitEvent]);
    assert Run(typed, key, [SubmitEvent]) == Submit(typed, key);
  }

  /** Only the input is upper-cased: a configured key holding a lower-case letter can never be matched. */
  lemma LowerCaseKeyLocksOut(key: string, input: string)
    requires exists k :: 0 <= k < |key| && IsAsciiLower(key[k])
    ensures !Unlocks(input, key)
  {
  }

  /** With the default key, exactly the three-letter spellings of "yhk" in any letter case unlock. */
  lemma DefaultKeyUnlocksIff(input: string)
    ensures Unlocks(input, DefaultKey) <==>
              |input| == 3 && input[0] in "yY" && input[1] in "hH" && input[2] in "kK"
  {
    if |input| == 3 {
      var u := Upper(input);
      assert u == [UpperChar(input[0]), UpperChar(input[1]), UpperChar(input[2])];
    }
  }

  /** What the component renders. */
  datatype Screen = Children | KeyForm(inputKey: string, showsError: bool)

  function Render(s: GateState): (v: Screen)
    ensures v.Children? <==> s.isAuthenticated
    ensures v.KeyForm? ==> v.inputKey == s.inputKey && v.showsError == s.error
  {
    if s.isAuthenticated then Children else KeyForm(s.inputKey, s.error)
  }

  /** The component, holding its state variables as fields. */
  class KeycloakBackdrop {
    const correctKey: string
    var isAuthenticated: bool
    var inputKey: string
    var error: bool

    function State(): GateState
      reads this
    {
      GateState(isAuthenticated, inputKey, error)
    }

    constructor (env: Option<string>)
      ensures correctKey == CorrectKey(env)
      ensures State() == Initial
    {
      correctKey := CorrectKey(env);
      isAuthenticated, inputKey, error := false, "", false;
    }

    method HandleSubmit()
      modifies this
      ensures State() == Submit(old(State()), correctKey)
      ensures old(isAuthenticated) ==> isAuthenticated
    {
      if Upper(inputKey) == correctKey {
        isAuthenticated := true;
      } else {
        error := true;
      }
    }

    method OnInputChange(text: string)
      modifies this
      ensures State() == Edit(old(State()), text)
    {
      inputKey := text;
      error := false;
    }

    function Screen(): Screen
      reads this
    {
      Render(State())
    }
  }
}
