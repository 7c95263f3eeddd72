# Button-configuration wizard of ButtonRoleBot, in Dafny

ButtonRoleBot lets a server moderator attach a "role button" to a message: a
button that, when clicked, gives or takes a role. The button is built by a
wizard that redraws one message in place, screen by screen:

| step | screen | controls |
|---|---|---|
| 0 | choose role | ◄ (does nothing here), ✗, Enter Role ID (opens a form), ► |
| 1 | confirm role | ◄, ✗, ✔, ► |
| 2 | choose style | ◄, ✗, Success / Primary / Secondary / Danger, ► |
| 3 | label and emoji | ◄, ✗, Choose (opens a form), ► |
| 4 | confirm | ◄, ✗, Create Button |
| 5 | done | two informational buttons |

The screens share one mutable draft (role ID, resolved role, style, label,
emoji). ► refuses to leave step 0 without a role ID, a role that exists, and a
role not above the bot's top role; it refuses to leave step 2 without a style
and step 3 without a label or an emoji. Forms and style buttons write the draft
and advance by themselves. ✗ removes every control from the message.

The project models this as:

- `wrappers.dfy`: `Option`, Python's `None` or a value.
- `role_id_input.dfy` (module `RoleIdInput`): the role-ID form's conversion of
  its text with `int()`, and its inverse, the decimal text of an integer.
- `navigation.dfy` (module `Navigation`): the screens, the controls each one
  shows, and the index helpers `_select_view_from_index`, `_increment_index`
  and `_decrement_index` as functions.
- `wizard.dfy` (module `Wizard`): the wizard as a value (`State`: step index,
  cancelled flag, draft), one transition function per callback or form
  submission, `Step` and `Run` over events, the invariant `Inv` every
  reachable state keeps, and the properties of each event and of whole runs.
- `button_config.dfy` (module `ButtonConfig`): class `WizardSession`, whose
  fields are the step index, the cancelled flag and the draft fields, and whose
  methods update them in place in the order the source's handlers do. Each
  method is proved to produce exactly the state and the answer that the
  event's transition function in `Wizard` gives.

Outside facts are parameters of the event: `Guild` carries the server's roles
(ID to rank) and the rank of the bot's top role, and the final submission
carries whether attaching the button to the target message succeeded. Every
event's answer is a `Response`: the message redrawn with a screen (or with no
controls), a silent acknowledgement, or a private error.

Behaviours of the code the model keeps:

- The role ID is stored before it is checked, and the resolved role is stored
  as soon as it is found, even when the permission check then fails.
- An equal rank passes the permission check: it fails only when the bot's top
  role is strictly below the role.
- `_increment_index` does not cap at the last step. Its guard admits index 4,
  but no screen exists for index 5, so it succeeds only up to index 3. The
  final submission sets step 5 itself.
- Screen selection covers steps 0 to 4 only; step 5's screen is built
  directly by the final submission.

## Model

| member | source | states |
|---|---|---|
| `Navigation.SelectView` | ptn/buttonrolebot/ui_elements/ButtonConfig.py:47-64 | a screen exists exactly for indices 0 to 4, and it is the screen of that step |
| `Navigation.Increment` | ptn/buttonrolebot/ui_elements/ButtonConfig.py:67-76 | advancing succeeds exactly for indices up to 3 (from -1) and gives the screen of index + 1; at 4 and above there is none |
| `Navigation.Decrement` | ptn/buttonrolebot/ui_elements/ButtonConfig.py:79-88 | retreating succeeds exactly for indices 1 to 5 and gives the screen of index - 1 |
| `Navigation.Controls` | ptn/buttonrolebot/ui_elements/ButtonConfig.py:232-469 | ◄ and ✗ are on every screen but the last; ► is on steps 0 to 3 only; the style buttons are on step 2 only; Enter Role ID only on step 0, ✔ only on step 1, Choose only on step 3, Create Button only on step 4, and both informational buttons only on the last screen |
| `Navigation.SelectViewInverse` | ptn/buttonrolebot/ui_elements/ButtonConfig.py:47-64 | screen selection and a screen's step index are inverse on steps 0 to 4 |
| `Navigation.RetreatUndoesAdvance` | ptn/buttonrolebot/ui_elements/ButtonConfig.py:67-88 | from steps 0 to 3, retreating after advancing gives back the starting screen |
| `RoleIdInput.ParseInteger` | ptn/buttonrolebot/ui_elements/ButtonConfig.py:490-500 | the text converts exactly when it is an optional sign followed by digits; a `-` sign gives a value of at most 0, otherwise at least 0 |
| `RoleIdInput.ParseShowRoundTrip` | ptn/buttonrolebot/ui_elements/ButtonConfig.py:493 | converting the decimal text of any integer gives that integer back |
| `RoleIdInput.LeadingZeroIgnored` | ptn/buttonrolebot/ui_elements/ButtonConfig.py:493 | a leading zero does not change the converted value |
| `Wizard.Step` | ptn/buttonrolebot/ui_elements/ButtonConfig.py:104-584 | every event keeps the redrawn screen equal to the new state's screen, leaves the step unchanged when it is refused or deferred, moves the step by at most one, and preserves the reachability invariant |
| `Wizard.PrevRetreats` | ptn/buttonrolebot/ui_elements/ButtonConfig.py:124-132 | ◄ on step i ≥ 1 shows step i - 1 and changes nothing else; on step 0 it only acknowledges |
| `Wizard.NextOnRoleStep` | ptn/buttonrolebot/ui_elements/ButtonConfig.py:148-178 | ► on step 0 is refused with its own error when no role ID is set, when the role is not found, and when the bot's top role is strictly below it; a found role is stored even when refused for permission; otherwise step 1 |
| `Wizard.NextOnLaterSteps` | ptn/buttonrolebot/ui_elements/ButtonConfig.py:180-202 | ► on step 1 always advances; on step 2 it is refused exactly when no style is set; on step 3 exactly when neither label nor emoji is truthy; refusal changes nothing |
| `Wizard.ConfirmAdvances` | ptn/buttonrolebot/ui_elements/ButtonConfig.py:215-220 | ✔ moves step 1 to step 2 and writes nothing |
| `Wizard.StyleButtonAdvances` | ptn/buttonrolebot/ui_elements/ButtonConfig.py:293-362 | each style button stores its own style and moves 2 to 3 with no gate; no other field changes |
| `Wizard.RoleIdForm` | ptn/buttonrolebot/ui_elements/ButtonConfig.py:490-530 | non-integer text changes nothing; an integer is stored as the role ID whatever the checks say; a missing role is refused with only the ID written; a found role is stored before the permission check; the wizard reaches step 1, shown with the confirm screen, exactly when the role exists and is not above the bot; nothing else changes |
| `Wizard.NotANumberRefused` | ptn/buttonrolebot/ui_elements/ButtonConfig.py:490-500 | the text "notanumber" is refused and leaves the wizard unchanged |
| `Wizard.LabelEmojiForm` | ptn/buttonrolebot/ui_elements/ButtonConfig.py:552-584 | both inputs empty is an error that writes nothing; otherwise empty inputs become None, the others are stored, "" is never stored, the wizard moves 3 to 4 with the confirm screen, and no other field changes |
| `Wizard.FinalSubmitCommits` | ptn/buttonrolebot/ui_elements/ButtonConfig.py:411-432 | the final submission reaches step 5 with the final screen, changing nothing else, only when the commit succeeded; otherwise it stays on 4 with an error; the draft never changes |
| `Wizard.CancelRemovesControls` | ptn/buttonrolebot/ui_elements/ButtonConfig.py:104-111 | ✗ leaves no control on the message and keeps the step and the draft |
| `Wizard.NavigationRoundTrip` | ptn/buttonrolebot/ui_elements/ButtonConfig.py:124-200 | after an accepted ►, ◄ is shown and returns to the starting step with the draft ► wrote |
| `Wizard.RunPreservesInv` | ptn/buttonrolebot/ui_elements/ButtonConfig.py:145-584 | any series of events from a state that keeps the invariant ends in one that keeps it |
| `Wizard.SettledIsFinal` | ptn/buttonrolebot/ui_elements/ButtonConfig.py:104-111 | once cancelled, or on the last screen, no series of events changes the wizard |
| `Wizard.FinishedDraftComplete` | ptn/buttonrolebot/ui_elements/ButtonConfig.py:148-200 | from a new wizard, whatever the events, step 4 or 5 implies a role ID with its resolved role, a style, and a label or an emoji, none of them empty |
| `Wizard.ExampleRoleIdSession` | ptn/buttonrolebot/ui_elements/ButtonConfig.py:485 | entering the form's example role ID 800091021852803072 (its text fits the form), confirming, picking Primary, giving only the label "Get Role" and committing ends on step 5 with exactly that draft |
| `Wizard.EndToEnd` | ptn/buttonrolebot/ui_elements/ButtonConfig.py:27-39 | entering a valid role ID, confirming, picking Primary, giving only the label "Get Role" and committing ends on step 5 with exactly that draft |
| `ButtonConfig.WizardSession.constructor` | ptn/buttonrolebot/ui_elements/ButtonConfig.py:232-237 | a new session shows step 0 with an empty draft |
| `ButtonConfig.WizardSession.PressPrev` | ptn/buttonrolebot/ui_elements/ButtonConfig.py:124-132 | updates the session exactly as `Wizard.OnPrev` and keeps the invariant |
| `ButtonConfig.WizardSession.CheckRole` | ptn/buttonrolebot/ui_elements/ButtonConfig.py:156-178 | writes the found role before the permission check, exactly as `Wizard.CheckRole` |
| `ButtonConfig.WizardSession.PressNext` | ptn/buttonrolebot/ui_elements/ButtonConfig.py:145-202 | updates the session exactly as `Wizard.OnNext` and keeps the invariant |
| `ButtonConfig.WizardSession.PressConfirm` | ptn/buttonrolebot/ui_elements/ButtonConfig.py:215-220 | updates the session exactly as `Wizard.OnConfirm` |
| `ButtonConfig.WizardSession.PressCancel` | ptn/buttonrolebot/ui_elements/ButtonConfig.py:104-111 | marks the session cancelled, exactly as `Wizard.OnCancel` |
| `ButtonConfig.WizardSession.PressStyle` | ptn/buttonrolebot/ui_elements/ButtonConfig.py:293-362 | stores the style then advances, exactly as `Wizard.OnStyle` |
| `ButtonConfig.WizardSession.SubmitRoleId` | ptn/buttonrolebot/ui_elements/ButtonConfig.py:490-530 | stores the parsed ID before the role checks, exactly as `Wizard.OnSubmitRoleId` |
| `ButtonConfig.WizardSession.SubmitLabelEmoji` | ptn/buttonrolebot/ui_elements/ButtonConfig.py:552-584 | writes label then emoji then advances, exactly as `Wizard.OnSubmitLabelEmoji` |
| `ButtonConfig.WizardSession.PressFinalSubmit` | ptn/buttonrolebot/ui_elements/ButtonConfig.py:411-432 | moves to step 5 only on a successful commit, exactly as `Wizard.OnFinalSubmit` |

## Left out

- Rendering: embeds (`button_config_embed`, `stress_embed`, `amazing_embed`, the cancel notice), button rows, labels and colours of the controls themselves. A redraw is modelled by the screen it shows.
- Error plumbing: the module-level lookup of the bot-spam channel, `on_generic_error`, `GenericError`/`CustomError` and logging. An error is modelled as a `ReportError` answer carrying which error it is.
- Foreign calls: `check_role_exists` and the bot's member lookup become the `Guild` parameter; `_add_role_button_to_view` and the edit of the target message become the `committed` flag. Their code is not part of this model.
- Platform I/O: `async`/`await`, the response edit, defer and form display. Answering the interaction is assumed to succeed; a style button whose redraw fails after storing its style is not modelled.
- The two buttons that open the forms: they change no state. A failure to open the role-ID form is reported to the user; the label/emoji button has no handler of its own, so a failure there goes to the library's default error handler.
- The two buttons of the final screen: they only send informational messages and change no state. They appear in the control lists only.
- Python `int()` accepts surrounding whitespace, underscores between digits and non-ASCII digits; the model accepts an optional sign and ASCII digits only.
- Role order: the platform compares roles by position and breaks ties by ID; the model gives each role one integer rank.
- A form submitted after the message has moved to another screen (from a second client) is not modelled: a submission requires its opening screen to be shown. Two events racing on one message are not modelled either.
- The draft record class is not part of this model: a new draft is assumed to have every field unset, and its reference to the target message is not modelled.
- The label form stores its input widget, whose text is the value; the model stores the text.
- ►'s branch for an index above 6 is never reached, since ► appears on steps 0 to 3 only.
- The final submission's `committed` flag covers the whole attempt: a target message that was edited before a later failure is not told apart.
- Wizard.FinishedDraftComplete: does not state that the stored role was manageable, because the bot's rank is a fact of each event, not of the session; `Wizard.NextOnRoleStep` and `Wizard.RoleIdForm` state the check at the moment it is made.
