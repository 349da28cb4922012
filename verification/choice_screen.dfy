/** `ChoiceScreen` from huntgame/views.py: a view showing a text label above a
    row of buttons, one per choice, each bound to that choice's callback.

    The widget tree is kept abstract: the UI manager holds a sequence of
    anchor widgets, each either cleared or holding one panel (the label's
    text and the button row). The anchor the screen currently owns is the
    last one it added. */
module ChoiceScreens {
  import opened Runtime

  /** The items of a `{label: callback}` dictionary, in insertion order. */
  type ChoiceDefs = seq<(string, Callable)>

  /** A flat button with its text and its `on_click` callback. */
  datatype Button = Button(text: string, onClick: Callable)

  /** The vertical box: the text label over the row of buttons. */
  datatype Panel = Panel(text: string, buttons: seq<Button>)

  /** An anchor widget; clearing it drops its panel. */
  datatype Anchor = Anchor(content: Option<Panel>)

  /** The screen's state: the constructor's `title`, `text` and `choices`,
      whether `setup` has run, the current label's text (`self.text.text`),
      the current button row (`self.buttons`), and the UI manager's widgets. */
  datatype ChoiceScreen = ChoiceScreen(
    titleText: string,
    fullText: string,
    choices: ChoiceDefs,
    initialized: bool,
    labelText: Option<string>,
    buttons: Option<seq<Button>>,
    ui: seq<Anchor>)

  /** The states the screen's own methods can produce: setup has run exactly
      when some anchor was added, only the latest anchor still holds widgets,
      and it holds the current label and buttons. */
  predicate Valid(s: ChoiceScreen) {
    && (s.initialized <==> |s.ui| > 0)
    && (s.initialized <==> s.labelText.Some?)
    && (s.initialized <==> s.buttons.Some?)
    && (forall i :: 0 <= i < |s.ui| - 1 ==> s.ui[i].content.None?)
    && (s.initialized ==>
          s.ui[|s.ui| - 1] == Anchor(Some(Panel(s.labelText.value, s.buttons.value))))
  }

  /** `arg if arg is not None else stored`: only a missing argument falls
      back, so an explicit empty text or empty choice dictionary is used. */
  function Resolve<T>(arg: Option<T>, stored: T): T {
    if arg.Some? then arg.value else stored
  }

  /** The loop over `choices.items()`: one button per choice, in order, each
      labelled with the choice's text and bound to its callback. */
  function Buttons(choices: ChoiceDefs): (bs: seq<Button>)
    ensures |bs| == |choices|
    ensures forall i :: 0 <= i < |choices| ==> bs[i] == Button(choices[i].0, choices[i].1)
  {
    if |choices| == 0 then []
    else [Button(choices[0].0, choices[0].1)] + Buttons(choices[1..])
  }

  /** The choices a button row offers, read back from the buttons. */
  function Offered(bs: seq<Button>): (cs: ChoiceDefs) {
    if |bs| == 0 then []
    else [(bs[0].text, bs[0].onClick)] + Offered(bs[1..])
  }

  /** Reading the choices back from the buttons gives exactly the choices the
      buttons were made from: none lost, none added, none reordered. */
  lemma {:induction false} OfferedButtons(choices: ChoiceDefs)
    ensures Offered(Buttons(choices)) == choices
    decreases |choices|
  {
    if |choices| > 0 {
      OfferedButtons(choices[1..]);
      assert Buttons(choices)[1..] == Buttons(choices[1..]);
    }
  }

  /** The anchors after `self.anchor_widget.clear()` when already set up. */
  function ClearCurrent(s: ChoiceScreen): seq<Anchor> {
    if s.initialized && |s.ui| > 0 then s.ui[..|s.ui| - 1] + [Anchor(None)] else s.ui
  }

  /** `setup(text, choices, title)`. The label shows the resolved text and
      the button row offers the resolved choices; the previously added
      anchor, if any, is cleared and a new one holding the panel is added.
      The stored text, choices and title are not updated (the resolved title
      is not used at all). */
  function Setup(s: ChoiceScreen, text: Option<string>, choices: Option<ChoiceDefs>, title: Option<string>): (r: ChoiceScreen)
    requires Valid(s)
    ensures Valid(r) && r.initialized
    ensures r.labelText == Some(if text.Some? then text.value else s.fullText)
    ensures Offered(r.buttons.value) == (if choices.Some? then choices.value else s.choices)
    ensures r.titleText == s.titleText && r.fullText == s.fullText && r.choices == s.choices
    ensures |r.ui| == |s.ui| + 1
    ensures forall i :: 0 <= i < |s.ui| ==> r.ui[i].content.None?
  {
    var shownText := Resolve(text, s.fullText);
    var shownChoices := Resolve(choices, s.choices);
    var row := Buttons(shownChoices);
    OfferedButtons(shownChoices);
    s.(initialized := true,
       labelText := Some(shownText),
       buttons := Some(row),
       ui := ClearCurrent(s) + [Anchor(Some(Panel(shownText, row)))])
  }

  /** `ChoiceScreen(text, choices, title, setup=setupNow)`: stores its
      arguments and, when asked to, runs `setup()` with no overrides. */
  function NewChoiceScreen(text: string, choices: ChoiceDefs, title: string, setupNow: bool): (r: ChoiceScreen)
    ensures Valid(r)
    ensures r.fullText == text && r.choices == choices && r.titleText == title
    ensures r.initialized == setupNow
    ensures setupNow ==> r.labelText == Some(text) && Offered(r.buttons.value) == choices && |r.ui| == 1
    ensures !setupNow ==> r.labelText == None && r.ui == []
  {
    var blank := ChoiceScreen(title, text, choices, false, None, None, []);
    if setupNow then Setup(blank, None, None, None) else blank
  }

  /** The `text_finished` property: whether the label shows the constructor's
      text. Before any setup there is no label, and reading its text raises
      AttributeError. */
  function TextFinished(s: ChoiceScreen): (r: Result<bool>)
    ensures r == Raise(AttributeError) <==> s.labelText.None?
    ensures r == Ok(true) <==> s.labelText == Some(s.fullText)
    ensures s.labelText.Some? ==> r == Ok(s.labelText.value == s.fullText)
  {
    match s.labelText
    case None => Raise(AttributeError)
    case Some(t) => Ok(t == s.fullText)
  }

  /** Because `setup` does not update the stored text, `text_finished`
      compares against the constructor's text: it holds after a setup that
      keeps that text and fails after one that shows any other text. */
  lemma TextFinishedAfterSetup(s: ChoiceScreen, text: Option<string>, choices: Option<ChoiceDefs>, title: Option<string>)
    requires Valid(s)
    ensures TextFinished(Setup(s, text, choices, title)) ==
      Ok(text.None? || text.value == s.fullText)
  {
  }

  /** Setting a screen up again leaves exactly one populated anchor, the new
      one; the one the first setup added is cleared but stays in the UI. */
  lemma SetupAgainClearsPrevious(s: ChoiceScreen, t1: Option<string>, c1: Option<ChoiceDefs>, t2: Option<string>, c2: Option<ChoiceDefs>)
    requires Valid(s)
    ensures var first := Setup(s, t1, c1, None);
      var second := Setup(first, t2, c2, None);
      && |second.ui| == |s.ui| + 2
      && second.ui[|s.ui|] == Anchor(None)
      && second.ui[|s.ui| + 1].content.Some?
      && second.ui[|s.ui| + 1].content.value.text == second.labelText.value
  {
  }
}
