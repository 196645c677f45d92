/**
 * The settings form's decision logic: the per-field validators, the choice of
 * the changed field, the conversion of the form's text into settings, the
 * engine commands an accepted change issues, and the error message a field
 * shows.
 */
module SettingsForm {
  import opened Options
  import opened GameModel
  import opened DecimalText
  import opened Engine
  import opened EngineService

  // ---------------------------------------------------------------------------
  // Field rules and validators

  /**
   * One entry of the form's rule table. Every field is required and must match
   * `^[0-9]*$`; `min` is its lower bound and `max` its upper bound, if any.
   */
  datatype FieldRule = FieldRule(name: string, min: nat, max: Option<nat>)

  /** The form's fields, in the order the form declares them. */
  const FormFields: seq<FieldRule> := [
    FieldRule("fallingSpeed", 1, None),
    FieldRule("fallingFrequency", 16, None),
    FieldRule("playerSpeed", 1, None),
    FieldRule("gameTime", 1, Some(600))
  ]

  /**
   * The errors a form control carries. `min` and `max` hold the bound that was
   * violated; `other` stands for any further key.
   */
  datatype ValidationErrors = ValidationErrors(
    required: bool, pattern: bool, min: Option<nat>, max: Option<nat>, other: bool)

  /**
   * The errors the field's validators report for the text `v`, or None when
   * they report none. An empty text only fails `required`; the bounds are only
   * checked on digit text (on other text `pattern` already fails).
   */
  function FieldErrors(rule: FieldRule, v: string): Option<ValidationErrors> {
    var required := v == "";
    var pattern := v != "" && !IsDigits(v);
    var number := v != "" && IsDigits(v);
    var min := if number && Value(v) < rule.min then Some(rule.min) else None;
    var max := if number && rule.max.Some? && Value(v) > rule.max.value then rule.max else None;
    if !required && !pattern && min.None? && max.None? then None
    else Some(ValidationErrors(required, pattern, min, max, false))
  }

  predicate FieldValid(rule: FieldRule, v: string) {
    FieldErrors(rule, v).None?
  }

  /** A field is valid iff it is non-empty digit text whose value lies within its bounds. */
  lemma FieldValidIff(rule: FieldRule, v: string)
    ensures FieldValid(rule, v) <==>
      && v != "" && IsDigits(v)
      && rule.min <= Value(v)
      && (rule.max.Some? ==> Value(v) <= rule.max.value)
  {
  }

  // ---------------------------------------------------------------------------
  // The form as a whole

  /** The text of the four controls. */
  datatype FormValue = FormValue(
    fallingSpeed: string, fallingFrequency: string, playerSpeed: string, gameTime: string)

  /** A key and its value in a form-value object. */
  datatype Field = Field(key: string, value: string)

  /** The form value as an object, its keys in declaration order. */
  function Entries(f: FormValue): (r: seq<Field>)
    ensures |r| == |FormFields|
    ensures forall i :: 0 <= i < |r| ==> r[i].key == FormFields[i].name
  {
    [ Field("fallingSpeed", f.fallingSpeed),
      Field("fallingFrequency", f.fallingFrequency),
      Field("playerSpeed", f.playerSpeed),
      Field("gameTime", f.gameTime) ]
  }

  /** Every control starts with empty text. */
  const InitialForm := FormValue("", "", "", "")

  /** The form is valid when every control's validators report nothing. */
  predicate FormValid(f: FormValue) {
    forall i :: 0 <= i < |FormFields| ==> FieldValid(FormFields[i], Entries(f)[i].value)
  }

  /** The bounds a configuration must satisfy before a round may use it. */
  predicate ValidSettings(s: GameSettings) {
    && 1 <= s.fallingSpeed
    && 16 <= s.fallingFrequency
    && 1 <= s.playerSpeed
    && 1 <= s.gameTime <= 600
  }

  /** Every control holds digit text (possibly empty). */
  predicate AllDigits(f: FormValue) {
    IsDigits(f.fallingSpeed) && IsDigits(f.fallingFrequency)
    && IsDigits(f.playerSpeed) && IsDigits(f.gameTime)
  }

  /**
   * A form is valid iff every field is non-empty digit text with
   * fallingSpeed >= 1, fallingFrequency >= 16, playerSpeed >= 1 and
   * 1 <= gameTime <= 600.
   */
  lemma FormValidIff(f: FormValue)
    ensures FormValid(f) <==>
      && f.fallingSpeed != "" && IsDigits(f.fallingSpeed) && Value(f.fallingSpeed) >= 1
      && f.fallingFrequency != "" && IsDigits(f.fallingFrequency) && Value(f.fallingFrequency) >= 16
      && f.playerSpeed != "" && IsDigits(f.playerSpeed) && Value(f.playerSpeed) >= 1
      && f.gameTime != "" && IsDigits(f.gameTime) && 1 <= Value(f.gameTime) <= 600
  {
    var e := Entries(f);
    FieldValidIff(FormFields[0], e[0].value);
    FieldValidIff(FormFields[1], e[1].value);
    FieldValidIff(FormFields[2], e[2].value);
    FieldValidIff(FormFields[3], e[3].value);
    assert FormValid(f) <==>
      FieldValid(FormFields[0], e[0].value) && FieldValid(FormFields[1], e[1].value)
      && FieldValid(FormFields[2], e[2].value) && FieldValid(FormFields[3], e[3].value);
  }

  /** The empty form the component starts with is not valid. */
  lemma InitialFormInvalid()
    ensures !FormValid(InitialForm)
  {
    assert !FieldValid(FormFields[0], Entries(InitialForm)[0].value);
  }

  // ---------------------------------------------------------------------------
  // From text to settings and back

  /**
   * Each field converted to the number its digits spell. A valid form gives
   * settings within the bounds.
   */
  function CreateGameSettings(f: FormValue): (s: GameSettings)
    requires AllDigits(f)
    ensures s.fallingSpeed >= 0 && s.fallingFrequency >= 0 && s.playerSpeed >= 0 && s.gameTime >= 0
    ensures FormValid(f) ==> ValidSettings(s)
  {
    FormValidIff(f);
    GameSettings(Value(f.fallingSpeed), Value(f.fallingFrequency), Value(f.playerSpeed), Value(f.gameTime))
  }

  /** A valid form holds digit text in every control. */
  lemma ValidFormIsDigits(f: FormValue)
    requires FormValid(f)
    ensures AllDigits(f)
  {
    FormValidIff(f);
  }

  /** The form that shows settings `s`, each number written in decimal. */
  function FormOf(s: GameSettings): FormValue
    requires s.fallingSpeed >= 0 && s.fallingFrequency >= 0 && s.playerSpeed >= 0 && s.gameTime >= 0
  {
    FormValue(Show(s.fallingSpeed), Show(s.fallingFrequency), Show(s.playerSpeed), Show(s.gameTime))
  }

  /** Reading back the form that shows `s` gives `s`; it is valid iff `s` is. */
  lemma CreateGameSettingsOfFormOf(s: GameSettings)
    requires s.fallingSpeed >= 0 && s.fallingFrequency >= 0 && s.playerSpeed >= 0 && s.gameTime >= 0
    ensures AllDigits(FormOf(s)) && CreateGameSettings(FormOf(s)) == s
    ensures FormValid(FormOf(s)) <==> ValidSettings(s)
  {
    ValueOfShow(s.fallingSpeed);
    ValueOfShow(s.fallingFrequency);
    ValueOfShow(s.playerSpeed);
    ValueOfShow(s.gameTime);
    FormValidIff(FormOf(s));
  }

  // ---------------------------------------------------------------------------
  // Which field changed

  /** The value stored under `key`, or None when the object has no such key. */
  function Lookup(obj: seq<Field>, key: string): Option<string> {
    if obj == [] then None
    else if obj[0].key == key then Some(obj[0].value)
    else Lookup(obj[1..], key)
  }

  /** The i-th key of `curr` holds a value that `prev` does not hold under that key. */
  predicate ChangedAt(prev: seq<Field>, curr: seq<Field>, i: nat)
    requires i < |curr|
  {
    Lookup(prev, curr[i].key) != Some(curr[i].value)
  }

  /** The first key of `curr`, in its order, whose value differs in `prev`. */
  function FirstChanged(prev: seq<Field>, curr: seq<Field>): Option<string>
    decreases |curr|
  {
    if curr == [] then None
    else if ChangedAt(prev, curr, 0) then Some(curr[0].key)
    else FirstChanged(prev, curr[1..])
  }

  /**
   * None is returned iff no key changed; a returned key is a key of `curr`
   * whose value changed, and every key before it is unchanged.
   */
  lemma {:induction false} FirstChangedSpec(prev: seq<Field>, curr: seq<Field>)
    ensures FirstChanged(prev, curr).None? <==>
            forall i :: 0 <= i < |curr| ==> !ChangedAt(prev, curr, i)
    ensures FirstChanged(prev, curr).Some? ==>
            exists i :: 0 <= i < |curr| && curr[i].key == FirstChanged(prev, curr).value
                        && ChangedAt(prev, curr, i)
                        && forall j :: 0 <= j < i ==> !ChangedAt(prev, curr, j)
    decreases |curr|
  {
    if curr != [] && !ChangedAt(prev, curr, 0) {
      var rest := curr[1..];
      FirstChangedSpec(prev, rest);
      assert forall i :: 0 <= i < |rest| ==> (ChangedAt(prev, rest, i) <==> ChangedAt(prev, curr, i + 1));
      if FirstChanged(prev, rest).Some? {
        var i :| 0 <= i < |rest| && rest[i].key == FirstChanged(prev, rest).value
                 && ChangedAt(prev, rest, i)
                 && forall j :: 0 <= j < i ==> !ChangedAt(prev, rest, j);
        assert curr[i + 1].key == FirstChanged(prev, curr).value;
        forall j | 0 <= j < i + 1
          ensures !ChangedAt(prev, curr, j)
        {
          if j > 0 {
            assert !ChangedAt(prev, rest, j - 1);
          }
        }
      } else {
        forall i | 0 <= i < |curr|
          ensures !ChangedAt(prev, curr, i)
        {
          if i > 0 {
            assert !ChangedAt(prev, rest, i - 1);
          }
        }
      }
    }
  }

  /** Walk the keys of `curr` in order and return the first whose value changed. */
  method GetChangedField(prev: seq<Field>, curr: seq<Field>) returns (changed: Option<string>)
    ensures changed == FirstChanged(prev, curr)
  {
    for i := 0 to |curr|
      invariant FirstChanged(prev, curr) == FirstChanged(prev, curr[i..])
    {
      assert curr[i..][1..] == curr[i + 1..];
      if Lookup(prev, curr[i].key) != Some(curr[i].value) {
        return Some(curr[i].key);
      }
    }
    assert curr[|curr|..] == [];
    return None;
  }

  /** Each key of a form value object finds its own control's text. */
  lemma LookupEntries(f: FormValue)
    ensures Lookup(Entries(f), "fallingSpeed") == Some(f.fallingSpeed)
    ensures Lookup(Entries(f), "fallingFrequency") == Some(f.fallingFrequency)
    ensures Lookup(Entries(f), "playerSpeed") == Some(f.playerSpeed)
    ensures Lookup(Entries(f), "gameTime") == Some(f.gameTime)
  {
    var e := Entries(f);
    var e1, e2, e3 := e[1..], e[1..][1..], e[1..][1..][1..];
    assert Lookup(e3, "gameTime") == Some(f.gameTime);
    assert Lookup(e2, "gameTime") == Lookup(e3, "gameTime");
    assert Lookup(e2, "playerSpeed") == Some(f.playerSpeed);
    assert Lookup(e1, "gameTime") == Lookup(e2, "gameTime");
    assert Lookup(e1, "playerSpeed") == Lookup(e2, "playerSpeed");
  }

  /**
   * Between two form values "gameTime" is reported iff it is the only field
   * that changed, and nothing is reported iff nothing changed.
   */
  lemma ChangedFieldOfForms(prev: FormValue, curr: FormValue)
    ensures FirstChanged(Entries(prev), Entries(curr)) == Some("gameTime") <==>
      && prev.fallingSpeed == curr.fallingSpeed
      && prev.fallingFrequency == curr.fallingFrequency
      && prev.playerSpeed == curr.playerSpeed
      && prev.gameTime != curr.gameTime
    ensures FirstChanged(Entries(prev), Entries(curr)) == None <==> prev == curr
  {
    var p, c := Entries(prev), Entries(curr);
    LookupEntries(prev);
    var c1, c2, c3 := c[1..], c[1..][1..], c[1..][1..][1..];
    assert c3[1..] == [];
    assert FirstChanged(p, c3) ==
           if prev.gameTime != curr.gameTime then Some("gameTime") else None;
    assert FirstChanged(p, c2) ==
           if prev.playerSpeed != curr.playerSpeed then Some("playerSpeed") else FirstChanged(p, c3);
    assert FirstChanged(p, c1) ==
           if prev.fallingFrequency != curr.fallingFrequency then Some("fallingFrequency")
           else FirstChanged(p, c2);
    assert FirstChanged(p, c) ==
           if prev.fallingSpeed != curr.fallingSpeed then Some("fallingSpeed") else FirstChanged(p, c1);
  }

  // ---------------------------------------------------------------------------
  // The commands an accepted change issues

  /**
   * Before the game has started any accepted change starts it and then emits
   * the settings. Afterwards a change of the round length restarts the round;
   * any other change, or none, only emits the settings.
   */
  function UpdateGameCommands(s: GameSettings, changedField: Option<string>, hasGameStarted: bool): seq<Command> {
    if !hasGameStarted then [StartGame(s), UpdateSettings(s)]
    else if changedField == Some("gameTime") then [RestartGameWithSettings(s)]
    else [UpdateSettings(s)]
  }

  /**
   * A change of the form from `prev` to `curr`: ignored unless `curr` is valid;
   * otherwise the settings read from `curr` are dispatched on the first
   * changed field.
   */
  function OnValueChange(prev: FormValue, curr: FormValue, hasGameStarted: bool): seq<Command> {
    if !FormValid(curr) then []
    else
      ValidFormIsDigits(curr);
      UpdateGameCommands(CreateGameSettings(curr), FirstChanged(Entries(prev), Entries(curr)), hasGameStarted)
  }

  /**
   * Only a valid form reaches the engine, and every command it then issues
   * carries the settings read from it, which satisfy the bounds.
   */
  lemma OnlyValidFormsReachEngine(prev: FormValue, curr: FormValue, hasGameStarted: bool)
    ensures var cs := OnValueChange(prev, curr, hasGameStarted);
      && (|cs| > 0 <==> FormValid(curr))
      && forall i :: 0 <= i < |cs| ==>
           AllDigits(curr) && cs[i].settings == CreateGameSettings(curr) && ValidSettings(cs[i].settings)
  {
    if FormValid(curr) {
      ValidFormIsDigits(curr);
    }
  }

  /**
   * What the dispatched commands do to the engine. Before the first start they
   * start a round with the new settings and spawning on. Afterwards a new round
   * length restarts the round from scratch; any other change replaces the
   * settings and turns spawning on exactly when the round is running.
   */
  lemma UpdateGameEffect(w: World, s: GameSettings, changedField: Option<string>)
    ensures var r := ExecuteAll(w, UpdateGameCommands(s, changedField, w.hasGameStarted));
      && (!w.hasGameStarted ==>
            r == w.(state := GameState(0, s.gameTime, true), hasGameStarted := true,
                    settings := s, spawnArmed := true))
      && (w.hasGameStarted && changedField == Some("gameTime") ==>
            r == World(GameState(0, s.gameTime, true), [], PlayerStartX, true, s, true))
      && (w.hasGameStarted && changedField != Some("gameTime") ==>
            r == w.(settings := s, spawnArmed := w.state.running))
  {
    var cs := UpdateGameCommands(s, changedField, w.hasGameStarted);
    if !w.hasGameStarted {
      assert cs[1..][1..] == [];
      var w1 := StartGameStep(w, s);
      assert ExecuteAll(w, cs) == ExecuteAll(UpdateSettingsStep(w1, s), []);
    } else {
      assert cs[1..] == [];
    }
  }

  /** The first accepted change starts a round whose length lies in [1, 600]. */
  lemma FirstChangeStartsValidRound(w: World, prev: FormValue, curr: FormValue)
    requires !w.hasGameStarted && FormValid(curr)
    ensures var r := ExecuteAll(w, OnValueChange(prev, curr, false));
      && r.state.running && r.spawnArmed && r.hasGameStarted
      && 1 <= r.state.timeRemaining <= 600
      && ValidSettings(r.settings)
  {
    ValidFormIsDigits(curr);
    UpdateGameEffect(w, CreateGameSettings(curr), FirstChanged(Entries(prev), Entries(curr)));
  }

  // ---------------------------------------------------------------------------
  // Error messages

  /** A form control as the message logic sees it. */
  datatype Control = Control(errors: Option<ValidationErrors>, touched: bool)

  const RequiredMessage := "This field is required"
  const PatternMessage := "Only positive numbers are allowed"
  const InvalidMessage := "Invalid value"

  /**
   * The message for a control, None standing for a missing control: nothing
   * unless it has errors and has been touched; otherwise the first of
   * required, pattern, min and max that it reports.
   */
  function GetErrorMessage(control: Option<Control>): string {
    if control.None? || control.value.errors.None? || !control.value.touched then ""
    else
      var errors := control.value.errors.value;
      if errors.required then RequiredMessage
      else if errors.pattern then PatternMessage
      else if errors.min.Some? then "Minimum value is " + Show(errors.min.value)
      else if errors.max.Some? then "Maximum value is " + Show(errors.max.value)
      else InvalidMessage
  }

  /** The message is empty iff the control is missing, has no errors or is untouched. */
  lemma ErrorMessageEmptyIff(control: Option<Control>)
    ensures GetErrorMessage(control) == "" <==>
            control.None? || control.value.errors.None? || !control.value.touched
  {
  }

  /**
   * For a touched field the message names the first rule its text breaks, in
   * the order required, pattern, min, max; every message spells the bound
   * it quotes; and no field of the form ever shows the catch-all message.
   */
  lemma FieldErrorMessage(rule: FieldRule, v: string, touched: bool)
    ensures var msg := GetErrorMessage(Some(Control(FieldErrors(rule, v), touched)));
      && (msg == "" <==> !touched || FieldValid(rule, v))
      && (touched && v == "" ==> msg == RequiredMessage)
      && (touched && v != "" && !IsDigits(v) ==> msg == PatternMessage)
      && (touched && v != "" && IsDigits(v) && Value(v) < rule.min ==>
            msg == "Minimum value is " + Show(rule.min))
      && (touched && v != "" && IsDigits(v) && rule.min <= Value(v)
          && rule.max.Some? && Value(v) > rule.max.value ==>
            msg == "Maximum value is " + Show(rule.max.value))
      && msg != InvalidMessage
  {
  }

  /** A touched falling-frequency field holding "5" shows "Minimum value is 16". */
  lemma FrequencyTooLowMessage()
    ensures GetErrorMessage(Some(Control(FieldErrors(FormFields[1], "5"), true))) == "Minimum value is 16"
  {
    assert Value("5") == 5;
    assert Show(16) == "16" by {
      assert Show(1) == "1";
    }
  }

  // ---------------------------------------------------------------------------
  // The component

  /**
   * The settings form component: the form's current text and the engine it
   * drives.
   */
  class SettingsFormComponent {
    var form: FormValue
    const gameEngine: GameEngineService

    constructor (engine: GameEngineService)
      ensures form == InitialForm && gameEngine == engine
    {
      form := InitialForm;
      gameEngine := engine;
    }

    /** Issue the engine calls for accepted settings `s`, dispatching on the changed field. */
    method UpdateGame(s: GameSettings, changedField: Option<string>)
      requires gameEngine.Valid()
      modifies gameEngine
      ensures gameEngine.Valid()
      ensures gameEngine.View()
              == ExecuteAll(old(gameEngine.View()), UpdateGameCommands(s, changedField, old(gameEngine.hasGameStarted)))
    {
      ghost var w := gameEngine.View();
      if !gameEngine.hasGameStarted {
        gameEngine.StartGame(s);
        ghost var w1 := gameEngine.View();
        gameEngine.UpdateSettings(s);
        ghost var cs := UpdateGameCommands(s, changedField, false);
        assert cs[1..][1..] == [];
        assert ExecuteAll(w, cs) == ExecuteAll(w1, cs[1..]);
        return;
      }
      if changedField == Some("gameTime") {
        gameEngine.RestartGameWithSettings(s);
      } else {
        gameEngine.UpdateSettings(s);
      }
      assert UpdateGameCommands(s, changedField, true)[1..] == [];
    }

    /**
     * The form's text changes to `curr`. A valid new value is read into
     * settings and dispatched on the first field that differs from the
     * previous value; an invalid one reaches the engine not at all.
     */
    method ValueChanged(curr: FormValue)
      requires gameEngine.Valid()
      modifies this, gameEngine
      ensures form == curr
      ensures gameEngine.Valid()
      ensures gameEngine.View()
              == ExecuteAll(old(gameEngine.View()), OnValueChange(old(form), curr, old(gameEngine.hasGameStarted)))
    {
      var prev := form;
      form := curr;
      if !FormValid(curr) {
        return;
      }
      var changedField := GetChangedField(Entries(prev), Entries(curr));
      ValidFormIsDigits(curr);
      var settings := CreateGameSettings(curr);
      UpdateGame(settings, changedField);
    }
  }
}
