/**
 * The wizard's screens, the controls each screen carries, and the three
 * index helpers that map a step index to the screen for that step.
 */
module Navigation {
  import opened Wrappers

  /** The four button colours offered on the style screen. */
  datatype Style = Success | Primary | Secondary | Danger

  /** One screen (view) per step; StressButtons is the screen after the button is created. */
  datatype View = ChooseRole | ConfirmRole | ButtonStyle | LabelEmoji | ConfirmConfig | StressButtons

  datatype Control =
    | PrevButton
    | NextButton
    | CancelButton
    | ConfirmButton
    | EnterRoleIdButton
    | StyleButton(style: Style)
    | LabelEmojiButton
    | FinalSubmitButton
    | StressButton
    | AmazingButton

  /** The step a screen belongs to. */
  function ViewIndex(v: View): (i: nat)
    ensures i <= 5
  {
    match v
    case ChooseRole => 0
    case ConfirmRole => 1
    case ButtonStyle => 2
    case LabelEmoji => 3
    case ConfirmConfig => 4
    case StressButtons => 5
  }

  /** The screen for a step; only steps 0 to 4 have one, any other index binds nothing. */
  function SelectView(index: int): (r: Option<View>)
    ensures r.Some? <==> 0 <= index <= 4
    ensures r.Some? ==> ViewIndex(r.value) == index
  {
    if index == 0 then Some(ChooseRole)
    else if index == 1 then Some(ConfirmRole)
    else if index == 2 then Some(ButtonStyle)
    else if index == 3 then Some(LabelEmoji)
    else if index == 4 then Some(ConfirmConfig)
    else None
  }

  /**
   * The screen one step forward. The guard lets `index <= 4` through, but the
   * lookup for 5 has no screen, so only indices up to 3 succeed.
   */
  function Increment(index: int): (r: Option<View>)
    ensures r.Some? <==> -1 <= index <= 3
    ensures r.Some? ==> ViewIndex(r.value) == index + 1
  {
    if index <= 4 then SelectView(index + 1) else None
  }

  /** The screen one step back; nothing below index 1, and nothing for an index without a screen below it. */
  function Decrement(index: int): (r: Option<View>)
    ensures r.Some? <==> 1 <= index <= 5
    ensures r.Some? ==> ViewIndex(r.value) == index - 1
  {
    if index >= 1 then SelectView(index - 1) else None
  }

  /** The controls each screen shows. */
  function Controls(v: View): (r: set<Control>)
    ensures (PrevButton in r) <==> (v != StressButtons)
    ensures (CancelButton in r) <==> (v != StressButtons)
    ensures (NextButton in r) <==> ViewIndex(v) <= 3
    ensures (StressButton in r) <==> (v == StressButtons)
    ensures (AmazingButton in r) <==> (v == StressButtons)
    ensures (EnterRoleIdButton in r) <==> (v == ChooseRole)
    ensures (ConfirmButton in r) <==> (v == ConfirmRole)
    ensures (LabelEmojiButton in r) <==> (v == LabelEmoji)
    ensures (FinalSubmitButton in r) <==> (v == ConfirmConfig)
    ensures forall s: Style :: (StyleButton(s) in r) ==> (v == ButtonStyle)
    ensures v == ButtonStyle ==>
      StyleButton(Success) in r && StyleButton(Primary) in r &&
      StyleButton(Secondary) in r && StyleButton(Danger) in r
  {
    match v
    case ChooseRole => {PrevButton, CancelButton, EnterRoleIdButton, NextButton}
    case ConfirmRole => {PrevButton, CancelButton, ConfirmButton, NextButton}
    case ButtonStyle =>
      {StyleButton(Success), StyleButton(Primary), StyleButton(Secondary), StyleButton(Danger),
       PrevButton, CancelButton, NextButton}
    case LabelEmoji => {PrevButton, CancelButton, LabelEmojiButton, NextButton}
    case ConfirmConfig => {PrevButton, CancelButton, FinalSubmitButton}
    case StressButtons => {StressButton, AmazingButton}
  }

  /** Screen selection and the step index of a screen are inverse on steps 0 to 4. */
  lemma SelectViewInverse(v: View)
    ensures v != StressButtons ==> SelectView(ViewIndex(v)) == Some(v)
    ensures SelectView(ViewIndex(v)).None? ==> v == StressButtons
  {
  }

  /** Retreating from a successful advance gives back the screen of the starting step. */
  lemma RetreatUndoesAdvance(index: int)
    requires 0 <= index <= 3
    ensures Increment(index).Some?
    ensures Decrement(ViewIndex(Increment(index).value)) == SelectView(index)
  {
  }
}
