/**
 * The wizard as a state machine over values: the step index, whether the
 * wizard was cancelled, and the draft button configuration. There is one
 * transition function per control callback or form submission; each returns
 * the new state together with the single answer given to the user.
 */
module Wizard {
  import opened Wrappers
  import opened Navigation
  import RoleIdInput

  /** A resolved role: its ID and its position in the server's role hierarchy. */
  datatype RoleRef = RoleRef(id: int, rank: int)

  /**
   * The server facts an event may consult: the rank of every role by ID, and
   * the rank of the bot's own highest role.
   */
  datatype Guild = Guild(roles: map<int, int>, botTop: int)

  /** The draft configuration the screens fill in (the button data record). */
  datatype Draft = Draft(
    roleId: Option<int>,
    roleObject: Option<RoleRef>,
    buttonStyle: Option<Style>,
    buttonLabel: Option<string>,
    buttonEmoji: Option<string>)

  datatype State = State(index: int, cancelled: bool, draft: Draft)

  /** Each user-facing error the wizard reports; the role errors carry the ID they name. */
  datatype WizardError =
    | NotAnInteger
    | RoleIdMissing
    | RoleNotFound(id: int)
    | NoPermission(id: int)
    | StyleMissing
    | LabelEmojiMissing
    | CommitFailed

  /**
   * The one answer to an event: the message is redrawn with a new screen
   * (`None`: every control removed), the click is acknowledged silently, or
   * an error is shown privately and the message is left as it was.
   */
  datatype Response = EditScreen(view: Option<View>) | Defer | ReportError(error: WizardError)

  datatype Reply = Reply(state: State, response: Response)

  /** Length limits the platform enforces on the form inputs. */
  const RoleIdMaxLength := 20
  const LabelMaxLength := 80
  const EmojiMaxLength := 60

  function Init(): State {
    State(0, false, Draft(None, None, None, None, None))
  }

  /** The screen the message shows. */
  function CurrentView(w: State): Option<View> {
    if w.cancelled then None
    else if w.index == 5 then Some(StressButtons)
    else SelectView(w.index)
  }

  /** The controls a user can press on the message. */
  function Shown(w: State): set<Control> {
    match CurrentView(w)
    case None => {}
    case Some(v) => Controls(v)
  }

  /** Python truthiness of an optional string: neither `None` nor empty. */
  predicate Truthy(t: Option<string>) {
    t.Some? && t.value != ""
  }

  predicate HasLabelOrEmoji(d: Draft) {
    Truthy(d.buttonLabel) || Truthy(d.buttonEmoji)
  }

  /** A stored text is never empty and keeps to its form's length limit. */
  predicate StoredText(t: Option<string>, maxLength: nat) {
    t.Some? ==> 0 < |t.value| <= maxLength
  }

  /** What holds of every state the wizard can reach from Init. */
  predicate Inv(w: State) {
    && 0 <= w.index <= 5
    && StoredText(w.draft.buttonLabel, LabelMaxLength)
    && StoredText(w.draft.buttonEmoji, EmojiMaxLength)
    && (w.index >= 1 ==>
          w.draft.roleId.Some? && w.draft.roleObject.Some? &&
          w.draft.roleObject.value.id == w.draft.roleId.value)
    && (w.index >= 3 ==> w.draft.buttonStyle.Some?)
    && (w.index >= 4 ==> HasLabelOrEmoji(w.draft))
  }

  /** Answer with an error: the screen stays, though the draft may have been written. */
  function Refuse(w: State, e: WizardError): Reply {
    Reply(w, ReportError(e))
  }

  /** Move to the next step's screen. */
  function Advance(w: State): (r: Reply)
    requires 0 <= w.index <= 3
    ensures r.state == w.(index := w.index + 1)
    ensures r.response == EditScreen(SelectView(w.index + 1))
  {
    var v := Increment(w.index).value;
    SelectViewInverse(v);
    Reply(w.(index := ViewIndex(v)), EditScreen(Some(v)))
  }

  /**
   * The role checks shared by the Next button on step 0 and the role-ID
   * form: the role must exist, and the bot's top role must not be below it.
   * The resolved role is stored as soon as it is found.
   */
  function CheckRole(w: State, g: Guild): Reply
    requires w.index == 0 && w.draft.roleId.Some?
  {
    var id := w.draft.roleId.value;
    if id !in g.roles then
      Refuse(w, RoleNotFound(id))
    else
      var w' := w.(draft := w.draft.(roleObject := Some(RoleRef(id, g.roles[id]))));
      if g.botTop < g.roles[id] then Refuse(w', NoPermission(id)) else Advance(w')
  }

  function OnPrev(w: State): Reply
    requires PrevButton in Shown(w)
  {
    if w.index >= 1 then
      var v := Decrement(w.index).value;
      Reply(w.(index := ViewIndex(v)), EditScreen(Some(v)))
    else
      Reply(w, Defer)
  }

  function OnNext(w: State, g: Guild): Reply
    requires NextButton in Shown(w)
  {
    if w.index == 0 then
      if w.draft.roleId.None? then Refuse(w, RoleIdMissing) else CheckRole(w, g)
    else if w.index == 2 && w.draft.buttonStyle.None? then
      Refuse(w, StyleMissing)
    else if w.index == 3 && !HasLabelOrEmoji(w.draft) then
      Refuse(w, LabelEmojiMissing)
    else
      Advance(w)
  }

  function OnConfirm(w: State): Reply
    requires ConfirmButton in Shown(w)
  {
    Advance(w)
  }

  function OnCancel(w: State): Reply
    requires CancelButton in Shown(w)
  {
    Reply(w.(cancelled := true), EditScreen(None))
  }

  function OnStyle(w: State, s: Style): Reply
    requires StyleButton(s) in Shown(w)
  {
    Advance(w.(draft := w.draft.(buttonStyle := Some(s))))
  }

  /** The role-ID form: the parsed ID is stored before the role checks run. */
  function OnSubmitRoleId(w: State, text: string, g: Guild): Reply
    requires EnterRoleIdButton in Shown(w)
  {
    match RoleIdInput.ParseInteger(text)
    case None => Refuse(w, NotAnInteger)
    case Some(id) => CheckRole(w.(draft := w.draft.(roleId := Some(id))), g)
  }

  /** An empty form input is stored as `None`. */
  function Normalize(input: string): (t: Option<string>)
    ensures t.Some? <==> input != ""
    ensures t.Some? ==> t.value == input
  {
    if input == "" then None else Some(input)
  }

  function OnSubmitLabelEmoji(w: State, labelText: string, emojiText: string): Reply
    requires LabelEmojiButton in Shown(w)
  {
    if labelText == "" && emojiText == "" then
      Refuse(w, LabelEmojiMissing)
    else
      Advance(w.(draft := w.draft.(buttonLabel := Normalize(labelText), buttonEmoji := Normalize(emojiText))))
  }

  /** `committed` says whether attaching the button to the target message succeeded. */
  function OnFinalSubmit(w: State, committed: bool): Reply
    requires FinalSubmitButton in Shown(w)
  {
    if committed then Reply(w.(index := w.index + 1), EditScreen(Some(StressButtons)))
    else Refuse(w, CommitFailed)
  }

  /** An event together with the outside facts it depends on. */
  datatype Event =
    | Prev
    | Next(guild: Guild)
    | Confirm
    | Cancel
    | PickStyle(style: Style)
    | SubmitRoleId(text: string, guild: Guild)
    | SubmitLabelEmoji(labelText: string, emojiText: string)
    | FinalSubmit(committed: bool)

  /** The control an event comes from (a form's submission comes from the button that opened it). */
  function Source(e: Event): Control {
    match e
    case Prev => PrevButton
    case Next(_) => NextButton
    case Confirm => ConfirmButton
    case Cancel => CancelButton
    case PickStyle(s) => StyleButton(s)
    case SubmitRoleId(_, _) => EnterRoleIdButton
    case SubmitLabelEmoji(_, _) => LabelEmojiButton
    case FinalSubmit(_) => FinalSubmitButton
  }

  /**
   * An event can occur only from a control on the message, and a form only
   * accepts what its inputs allow: the role ID is required and at most 20
   * characters, label and emoji are optional and at most 80 and 60.
   */
  predicate Enabled(w: State, e: Event) {
    && Source(e) in Shown(w)
    && (e.SubmitRoleId? ==> 0 < |e.text| <= RoleIdMaxLength)
    && (e.SubmitLabelEmoji? ==> |e.labelText| <= LabelMaxLength && |e.emojiText| <= EmojiMaxLength)
  }

  function Step(w: State, e: Event): (r: Reply)
    requires Enabled(w, e)
    // no event leaves the message's screen out of step with the state
    ensures r.response.EditScreen? ==> CurrentView(r.state) == r.response.view
    // a refused or deferred event leaves the screen where it was
    ensures !r.response.EditScreen? ==> r.state.index == w.index && r.state.cancelled == w.cancelled
    // the index moves by at most one step
    ensures w.index - 1 <= r.state.index <= w.index + 1
    // every reachable state is followed by a reachable state
    ensures Inv(w) ==> Inv(r.state)
  {
    match e
    case Prev => OnPrev(w)
    case Next(g) => OnNext(w, g)
    case Confirm => OnConfirm(w)
    case Cancel => OnCancel(w)
    case PickStyle(s) => OnStyle(w, s)
    case SubmitRoleId(text, g) => OnSubmitRoleId(w, text, g)
    case SubmitLabelEmoji(labelText, emojiText) => OnSubmitLabelEmoji(w, labelText, emojiText)
    case FinalSubmit(committed) => OnFinalSubmit(w, committed)
  }

  /** The state after a series of events; a press on a control that is not shown never arrives. */
  function Run(w: State, events: seq<Event>): State
    decreases |events|
  {
    if events == [] then w
    else Run(if Enabled(w, events[0]) then Step(w, events[0]).state else w, events[1..])
  }

  // Properties of single events

  /** Prev on step i >= 1 shows step i - 1; on step 0 it only acknowledges the click. */
  lemma PrevRetreats(w: State)
    requires PrevButton in Shown(w)
    ensures w.index >= 1 ==>
      OnPrev(w) == Reply(w.(index := w.index - 1), EditScreen(SelectView(w.index - 1)))
    ensures w.index == 0 ==> OnPrev(w) == Reply(w, Defer)
  {
  }

  /**
   * Next on step 0 is refused in three separate cases, each with its own
   * error: no role ID, no such role, or the bot's top role strictly below
   * it (an equal rank passes). The found role is stored even when the
   * permission check then fails.
   */
  lemma NextOnRoleStep(w: State, g: Guild)
    requires NextButton in Shown(w) && w.index == 0
    ensures w.draft.roleId.None? ==> OnNext(w, g) == Refuse(w, RoleIdMissing)
    ensures w.draft.roleId.Some? && w.draft.roleId.value !in g.roles ==>
      OnNext(w, g) == Refuse(w, RoleNotFound(w.draft.roleId.value))
    ensures w.draft.roleId.Some? && w.draft.roleId.value in g.roles ==>
      var id := w.draft.roleId.value;
      var found := w.draft.(roleObject := Some(RoleRef(id, g.roles[id])));
      OnNext(w, g) ==
        if g.botTop < g.roles[id] then Refuse(w.(draft := found), NoPermission(id))
        else Reply(State(1, w.cancelled, found), EditScreen(Some(ConfirmRole)))
  {
  }

  /** Step 1 has no gate; step 2 needs a style; step 3 needs a label or an emoji. */
  lemma NextOnLaterSteps(w: State, g: Guild)
    requires NextButton in Shown(w) && 1 <= w.index
    ensures
      var refused := (w.index == 2 && w.draft.buttonStyle.None?) ||
                     (w.index == 3 && !HasLabelOrEmoji(w.draft));
      OnNext(w, g) ==
        if !refused then Reply(w.(index := w.index + 1), EditScreen(SelectView(w.index + 1)))
        else if w.index == 2 then Refuse(w, StyleMissing)
        else Refuse(w, LabelEmojiMissing)
  {
  }

  /** Confirm on step 1 moves to step 2 and writes nothing. */
  lemma ConfirmAdvances(w: State)
    requires ConfirmButton in Shown(w)
    ensures OnConfirm(w) == Reply(w.(index := 2), EditScreen(Some(ButtonStyle)))
  {
  }

  /** Each style button stores its own style and moves 2 to 3; no other field changes. */
  lemma StyleButtonAdvances(w: State, s: Style)
    requires StyleButton(s) in Shown(w)
    ensures OnStyle(w, s) ==
      Reply(w.(index := 3, draft := w.draft.(buttonStyle := Some(s))), EditScreen(Some(LabelEmoji)))
  {
  }

  /**
   * The role-ID form: text that is not an integer changes nothing; an
   * integer is stored as the role ID whatever the role checks then say; only
   * when both checks pass does the wizard move to step 1.
   */
  lemma RoleIdForm(w: State, text: string, g: Guild)
    requires Enabled(w, SubmitRoleId(text, g))
    ensures RoleIdInput.ParseInteger(text).None? ==> OnSubmitRoleId(w, text, g) == Refuse(w, NotAnInteger)
    ensures RoleIdInput.ParseInteger(text).Some? ==>
      var id := RoleIdInput.ParseInteger(text).value;
      var stored := w.draft.(roleId := Some(id));
      OnSubmitRoleId(w, text, g) ==
        if id !in g.roles then Refuse(w.(draft := stored), RoleNotFound(id))
        else
          var found := stored.(roleObject := Some(RoleRef(id, g.roles[id])));
          if g.botTop < g.roles[id] then Refuse(w.(draft := found), NoPermission(id))
          else Reply(State(1, w.cancelled, found), EditScreen(Some(ConfirmRole)))
  {
  }

  /** The label/emoji form: both empty is an error that writes nothing; otherwise empty inputs become None. */
  lemma LabelEmojiForm(w: State, labelText: string, emojiText: string)
    requires Enabled(w, SubmitLabelEmoji(labelText, emojiText))
    ensures labelText == "" && emojiText == "" ==>
      OnSubmitLabelEmoji(w, labelText, emojiText) == Refuse(w, LabelEmojiMissing)
    ensures labelText != "" || emojiText != "" ==>
      var r := OnSubmitLabelEmoji(w, labelText, emojiText);
      && r == Reply(w.(index := 4, draft := w.draft.(buttonLabel := Normalize(labelText),
                                                     buttonEmoji := Normalize(emojiText))),
                    EditScreen(Some(ConfirmConfig)))
      && r.state.draft.buttonLabel == (if labelText == "" then None else Some(labelText))
      && r.state.draft.buttonEmoji == (if emojiText == "" then None else Some(emojiText))
      && r.state.draft.buttonLabel != Some("") && r.state.draft.buttonEmoji != Some("")
      && HasLabelOrEmoji(r.state.draft)
  {
  }

  /** Final submit reaches step 5 only when the commit succeeded; the draft is never changed. */
  lemma FinalSubmitCommits(w: State, committed: bool)
    requires FinalSubmitButton in Shown(w)
    ensures OnFinalSubmit(w, committed).state.draft == w.draft
    ensures committed ==>
      OnFinalSubmit(w, committed) == Reply(w.(index := 5), EditScreen(Some(StressButtons)))
    ensures !committed ==> OnFinalSubmit(w, committed) == Refuse(w, CommitFailed)
  {
  }

  /** Cancel removes every control and keeps the step and the draft. */
  lemma CancelRemovesControls(w: State)
    requires CancelButton in Shown(w)
    ensures Shown(OnCancel(w).state) == {}
    ensures OnCancel(w) == Reply(w.(cancelled := true), EditScreen(None))
  {
  }

  /** Going forward and then back returns to the starting step, with what the forward step wrote. */
  lemma NavigationRoundTrip(w: State, g: Guild)
    requires NextButton in Shown(w) && OnNext(w, g).response.EditScreen?
    ensures PrevButton in Shown(OnNext(w, g).state)
    ensures OnPrev(OnNext(w, g).state).state == OnNext(w, g).state.(index := w.index)
  {
  }

  // Properties of runs

  lemma {:induction false} RunPreservesInv(w: State, events: seq<Event>)
    requires Inv(w)
    ensures Inv(Run(w, events))
    decreases |events|
  {
    if events != [] {
      var next := if Enabled(w, events[0]) then Step(w, events[0]).state else w;
      RunPreservesInv(next, events[1..]);
    }
  }

  /** After cancel, and on the final screen, no event changes anything. */
  lemma {:induction false} SettledIsFinal(w: State, events: seq<Event>)
    requires w.cancelled || w.index == 5
    ensures Run(w, events) == w
    decreases |events|
  {
    if events != [] {
      assert !Enabled(w, events[0]);
      SettledIsFinal(w, events[1..]);
    }
  }

  /**
   * Whatever the events, a wizard past step 3 holds a role ID with its
   * resolved role, a style, and a label or an emoji; none of them empty.
   */
  lemma FinishedDraftComplete(events: seq<Event>)
    ensures
      var w := Run(Init(), events);
      w.index >= 4 ==>
        && w.draft.roleId.Some?
        && w.draft.roleObject.Some? && w.draft.roleObject.value.id == w.draft.roleId.value
        && w.draft.buttonStyle.Some?
        && HasLabelOrEmoji(w.draft)
        && w.draft.buttonLabel != Some("") && w.draft.buttonEmoji != Some("")
  {
    RunPreservesInv(Init(), events);
  }

  /** Submitting "notanumber" as the role ID is refused and leaves the wizard as it was. */
  lemma NotANumberRefused(w: State, g: Guild)
    requires EnterRoleIdButton in Shown(w)
    ensures OnSubmitRoleId(w, "notanumber", g) == Refuse(w, NotAnInteger)
  {
  }

  /**
   * The session with the role ID the form suggests as an example: its text
   * has 18 digits, so it fits the form.
   */
  lemma ExampleRoleIdSession()
    ensures
      var id := 800091021852803072;
      var g := Guild(map[id := 7], 9);
      var events := [SubmitRoleId(RoleIdInput.ShowInteger(id), g), Confirm, PickStyle(Primary),
                     SubmitLabelEmoji("Get Role", ""), FinalSubmit(true)];
      Run(Init(), events) ==
        State(5, false, Draft(Some(id), Some(RoleRef(id, 7)), Some(Primary), Some("Get Role"), None))
  {
    var id := 800091021852803072;
    assert RoleIdInput.Pow10(6) == 1000000;
    assert RoleIdInput.Pow10(12) == 1000000000000;
    assert RoleIdInput.Pow10(18) == 1000000000000000000;
    RoleIdInput.ShowNatLength(id, 18);
    EndToEnd(id, 7, 9);
  }

  /**
   * A whole session for any role ID that fits the form and a role the bot
   * outranks or equals: enter the ID, confirm, pick Primary, give only the
   * label "Get Role", and commit successfully.
   */
  lemma EndToEnd(id: int, rank: int, botTop: int)
    requires |RoleIdInput.ShowInteger(id)| <= RoleIdMaxLength
    requires rank <= botTop
    ensures
      var g := Guild(map[id := rank], botTop);
      var events := [SubmitRoleId(RoleIdInput.ShowInteger(id), g), Confirm, PickStyle(Primary),
                     SubmitLabelEmoji("Get Role", ""), FinalSubmit(true)];
      Run(Init(), events) ==
        State(5, false, Draft(Some(id), Some(RoleRef(id, rank)), Some(Primary), Some("Get Role"), None))
  {
    var g := Guild(map[id := rank], botTop);
    var text := RoleIdInput.ShowInteger(id);
    RoleIdInput.ParseShowRoundTrip(id);
    var events := [SubmitRoleId(text, g), Confirm, PickStyle(Primary),
                   SubmitLabelEmoji("Get Role", ""), FinalSubmit(true)];
    var d1 := Draft(Some(id), Some(RoleRef(id, rank)), None, None, None);
    var w1 := State(1, false, d1);
    assert Step(Init(), events[0]).state == w1;
    var w2 := State(2, false, d1);
    assert Step(w1, events[1]).state == w2;
    var d3 := d1.(buttonStyle := Some(Primary));
    var w3 := State(3, false, d3);
    assert Step(w2, events[2]).state == w3;
    var d4 := d3.(buttonLabel := Some("Get Role"));
    var w4 := State(4, false, d4);
    assert Step(w3, events[3]).state == w4;
    assert Step(w4, events[4]).state == w4.(index := 5);
    assert events[1..][1..] == events[2..];
    assert events[2..][1..] == events[3..];
    assert events[3..][1..] == events[4..];
    assert events[4..][1..] == [];
    assert Run(w4, events[4..]) == w4.(index := 5);
    assert Run(w3, events[3..]) == Run(w4, events[4..]);
    assert Run(w2, events[2..]) == Run(w3, events[3..]);
    assert Run(w1, events[1..]) == Run(w2, events[2..]);
    assert Run(Init(), events) == Run(w1, events[1..]);
  }
}
