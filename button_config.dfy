/**
 * The wizard as the bot runs it: one session object whose draft fields the
 * control callbacks and form handlers overwrite in place, in the order the
 * handlers write them, before moving the step index. Each method is proved
 * against the transition function of the same event in module Wizard.
 */
module ButtonConfig {
  import opened Wrappers
  import opened Navigation
  import opened Wizard
  import RoleIdInput

  class WizardSession {
    var index: int
    var cancelled: bool
    var roleId: Option<int>
    var roleObject: Option<RoleRef>
    var buttonStyle: Option<Style>
    var buttonLabel: Option<string>
    var buttonEmoji: Option<string>

    /** The session as a value. */
    function Current(): State
      reads this
    {
      State(index, cancelled, Draft(roleId, roleObject, buttonStyle, buttonLabel, buttonEmoji))
    }

    ghost predicate Valid()
      reads this
    {
      Inv(Current())
    }

    /** A new wizard opens on step 0 with an empty draft. */
    constructor ()
      ensures Valid() && Current() == Init()
    {
      index := 0;
      cancelled := false;
      roleId := None;
      roleObject := None;
      buttonStyle := None;
      buttonLabel := None;
      buttonEmoji := None;
    }

    method PressPrev() returns (response: Response)
      requires Valid() && PrevButton in Shown(Current())
      modifies this
      ensures Valid()
      ensures Reply(Current(), response) == OnPrev(old(Current()))
    {
      if index >= 1 {
        var v := Decrement(index).value;
        index := ViewIndex(v);
        response := EditScreen(Some(v));
      } else {
        response := Defer;
      }
    }

    /** Resolve the stored role ID and check the bot may manage the role; step 0 only. */
    method CheckRole(g: Guild) returns (response: Response)
      requires Valid() && index == 0 && !cancelled && roleId.Some?
      modifies this
      ensures Valid()
      ensures Reply(Current(), response) == Wizard.CheckRole(old(Current()), g)
    {
      var id := roleId.value;
      if id !in g.roles {
        return ReportError(RoleNotFound(id));
      }
      var rank := g.roles[id];
      roleObject := Some(RoleRef(id, rank));
      if g.botTop < rank {
        return ReportError(NoPermission(id));
      }
      index := index + 1;
      response := EditScreen(Some(ConfirmRole));
    }

    method PressNext(g: Guild) returns (response: Response)
      requires Valid() && NextButton in Shown(Current())
      modifies this
      ensures Valid()
      ensures Reply(Current(), response) == OnNext(old(Current()), g)
    {
      if index == 0 {
        if roleId.None? {
          return ReportError(RoleIdMissing);
        }
        response := CheckRole(g);
        return;
      } else if index == 2 {
        if buttonStyle.None? {
          return ReportError(StyleMissing);
        }
      } else if index == 3 {
        if !Truthy(buttonLabel) && !Truthy(buttonEmoji) {
          return ReportError(LabelEmojiMissing);
        }
      }
      var v := Increment(index).value;
      index := ViewIndex(v);
      response := EditScreen(Some(v));
    }

    method PressConfirm() returns (response: Response)
      requires Valid() && ConfirmButton in Shown(Current())
      modifies this
      ensures Valid()
      ensures Reply(Current(), response) == OnConfirm(old(Current()))
    {
      var v := Increment(index).value;
      index := ViewIndex(v);
      response := EditScreen(Some(v));
    }

    method PressCancel() returns (response: Response)
      requires Valid() && CancelButton in Shown(Current())
      modifies this
      ensures Valid()
      ensures Reply(Current(), response) == OnCancel(old(Current()))
    {
      cancelled := true;
      response := EditScreen(None);
    }

    /** The four style buttons: each stores its own style, then advances. */
    method PressStyle(s: Style) returns (response: Response)
      requires Valid() && StyleButton(s) in Shown(Current())
      modifies this
      ensures Valid()
      ensures Reply(Current(), response) == OnStyle(old(Current()), s)
    {
      buttonStyle := Some(s);
      var v := Increment(index).value;
      index := ViewIndex(v);
      response := EditScreen(Some(v));
    }

    method SubmitRoleId(text: string, g: Guild) returns (response: Response)
      requires Valid() && Enabled(Current(), Event.SubmitRoleId(text, g))
      modifies this
      ensures Valid()
      ensures Reply(Current(), response) == OnSubmitRoleId(old(Current()), text, g)
    {
      var parsed := RoleIdInput.ParseInteger(text);
      if parsed.None? {
        return ReportError(NotAnInteger);
      }
      roleId := parsed;
      response := CheckRole(g);
    }

    method SubmitLabelEmoji(labelText: string, emojiText: string) returns (response: Response)
      requires Valid() && Enabled(Current(), Event.SubmitLabelEmoji(labelText, emojiText))
      modifies this
      ensures Valid()
      ensures Reply(Current(), response) == OnSubmitLabelEmoji(old(Current()), labelText, emojiText)
    {
      if labelText == "" && emojiText == "" {
        return ReportError(LabelEmojiMissing);
      }
      if labelText == "" {
        buttonLabel := None;
      } else {
        buttonLabel := Some(labelText);
      }
      if emojiText == "" {
        buttonEmoji := None;
      } else {
        buttonEmoji := Some(emojiText);
      }
      var v := Increment(index).value;
      index := ViewIndex(v);
      response := EditScreen(Some(v));
    }

    /** `committed`: whether attaching the button to the target message succeeded. */
    method PressFinalSubmit(committed: bool) returns (response: Response)
      requires Valid() && FinalSubmitButton in Shown(Current())
      modifies this
      ensures Valid()
      ensures Reply(Current(), response) == OnFinalSubmit(old(Current()), committed)
    {
      if !committed {
        return ReportError(CommitFailed);
      }
      index := index + 1;
      response := EditScreen(Some(StressButtons));
    }
  }
}
