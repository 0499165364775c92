/** The screen's state and what each key chord, button and finished task does to it. */
module KeyCommands {
  import opened Results
  import Gemini
  import Generation

  /** The control that holds the keyboard: the three text areas named by the focus chords, or any
      other control (a selector, the temperature field, a button, a control of the help dialog),
      which may or may not have a text buffer. */
  datatype Focus = ContextArea | PromptArea | OutputArea | Other(hasBuffer: bool)

  predicate HasBuffer(f: Focus) {
    !f.Other? || f.hasBuffer
  }

  /** The screen's global state: the help flag, the focused control, the fields, the texts sent
      to the clipboard so far, and whether the application has exited. */
  datatype UiState = UiState(
    showHelp: bool,
    focus: Focus,
    status: string,
    context: string,
    output: string,
    template: string,
    lang: string,
    model: Gemini.ModelId,
    temperature: string,
    copied: seq<string>,
    exited: bool)

  const StartStatus := "F1 -> Help"
  const GeneratingStatus := "Generando..."
  const DoneStatus := "Hecho"
  const ErrorStatus := "Error"
  const CopiedStatus := "Copiado al portapapeles"
  const ClearedStatus := "Contexto limpiado"
  const SelectionCopiedStatus := "Texto seleccionado copiado"
  const NoSelectionStatus := "No hay texto seleccionado"
  const AllSelectedStatus := "Todo el texto seleccionado"
  const NoBufferStatus := "No se puede seleccionar texto en este campo"

  /** The state at start-up, with the default template and the control the layout focuses first. */
  function Initial(template: string, focus: Focus): (s: UiState)
    ensures !s.showHelp && !s.exited && s.status == StartStatus && s.context == "" && s.output == ""
    ensures s.lang == "es" && s.model == Gemini.Pro && s.temperature == "0.2" && s.copied == []
  {
    UiState(false, focus, StartStatus, "", "", template, "es", Gemini.Pro, "0.2", [], false)
  }

  /** `toggle_help`: flips the help flag and rebuilds the layout, whose first control then holds
      the focus (`landing`); the earlier focus is neither saved nor restored. */
  function ToggleHelp(s: UiState, landing: Focus): (r: UiState)
    ensures r.showHelp == !s.showHelp && r.focus == landing
    ensures r.(showHelp := s.showHelp, focus := s.focus) == s
  {
    s.(showHelp := !s.showHelp, focus := landing)
  }

  /** A focus move (a focus chord, Tab, Shift-Tab): ignored while help is shown. */
  function FocusOn(s: UiState, target: Focus): (r: UiState)
    ensures s.showHelp ==> r == s
    ensures !s.showHelp ==> r.focus == target && r.(focus := s.focus) == s
  {
    if s.showHelp then s else s.(focus := target)
  }

  /** Escape and Ctrl-q: close help when it is shown, otherwise exit. */
  function QuitOrDismiss(s: UiState, landing: Focus): (r: UiState)
    ensures s.showHelp ==> !r.showHelp && r.exited == s.exited && r == ToggleHelp(s, landing)
    ensures !s.showHelp ==> r.exited && r.(exited := s.exited) == s
  {
    if s.showHelp then ToggleHelp(s, landing) else s.(exited := true)
  }

  /** The Quit button: exits, with no help check (the button is not on screen while help is). */
  function QuitApp(s: UiState): (r: UiState)
    ensures r.exited && r.(exited := s.exited) == s
  {
    s.(exited := true)
  }

  /** `copy_output`: sends the output field to the clipboard. */
  function CopyOutput(s: UiState): (r: UiState)
    ensures s.showHelp ==> r == s
    ensures !s.showHelp ==> r.copied == s.copied + [s.output] && r.status == CopiedStatus
    ensures !s.showHelp ==> r.(copied := s.copied, status := s.status) == s
  {
    if s.showHelp then s else s.(copied := s.copied + [s.output], status := CopiedStatus)
  }

  /** `generate_commit` as the key press sees it: the status says generation is under way and a
      task is started (there is no check for a task already running). */
  function StartGeneration(s: UiState): (r: UiState)
    ensures s.showHelp ==> r == s
    ensures !s.showHelp ==> r == s.(status := GeneratingStatus)
  {
    if s.showHelp then s else s.(status := GeneratingStatus)
  }

  /** Ctrl-l: empties the context field, focuses it and says so. */
  function ClearContext(s: UiState): (r: UiState)
    ensures s.showHelp ==> r == s
    ensures !s.showHelp ==> r.context == "" && r.focus == ContextArea && r.status == ClearedStatus
    ensures !s.showHelp ==> r.(context := s.context, focus := s.focus, status := s.status) == s
  {
    if s.showHelp then s else s.(context := "", focus := ContextArea, status := ClearedStatus)
  }

  /** `select_all_text`: selects the whole buffer of the focused control if it has one; the
      selection itself lives in the editor's buffer and only the status is modelled. */
  function SelectAll(s: UiState): (r: UiState)
    ensures s.showHelp ==> r == s
    ensures !s.showHelp ==> r == s.(status := r.status)
    ensures !s.showHelp ==> (r.status == AllSelectedStatus <==> HasBuffer(s.focus))
    ensures !s.showHelp ==> (r.status == NoBufferStatus <==> !HasBuffer(s.focus))
  {
    if s.showHelp then s
    else if HasBuffer(s.focus) then s.(status := AllSelectedStatus)
    else s.(status := NoBufferStatus)
  }

  /** `copy_selected_text`: `selection` is the selected text of the focused buffer, if a selection
      is active; it is sent to the clipboard, or the status says there is none. */
  function CopySelection(s: UiState, selection: Option<string>): (r: UiState)
    ensures s.showHelp ==> r == s
    ensures !s.showHelp && HasBuffer(s.focus) && selection.Some? ==>
      r.copied == s.copied + [selection.value] && r.status == SelectionCopiedStatus
    ensures !s.showHelp && !(HasBuffer(s.focus) && selection.Some?) ==>
      r.copied == s.copied && r.status == NoSelectionStatus
    ensures r.(copied := s.copied, status := s.status) == s
  {
    if s.showHelp then s
    else if HasBuffer(s.focus) && selection.Some? then
      s.(copied := s.copied + [selection.value], status := SelectionCopiedStatus)
    else s.(status := NoSelectionStatus)
  }

  /** The end of the generation task: the reply or the error text goes to the output field and
      the status names the outcome. The task writes whether or not help is shown. */
  function CommitOutcome(s: UiState, outcome: Result<string>): (r: UiState)
    ensures r.status == DoneStatus || r.status == ErrorStatus
    ensures r.status == DoneStatus <==> outcome.Ok?
    ensures outcome.Ok? ==> r.output == outcome.value
    ensures outcome.Err? ==> r.output == "Error: " + outcome.msg
    ensures r.(output := s.output, status := s.status) == s
  {
    match outcome
    case Ok(text) => s.(output := text, status := DoneStatus)
    case Err(msg) => s.(output := "Error: " + msg, status := ErrorStatus)
  }

  /** The global key chords, each with what the framework decides at that moment: the control
      the rebuilt layout focuses (`landing`), the next or previous control in its focus order, the
      active selection of the focused buffer. */
  datatype Key =
    | F1(landing: Focus)
    | Tab(next: Focus)
    | ShiftTab(previous: Focus)
    | CtrlQ(landing: Focus)
    | Escape(landing: Focus)
    | CtrlY
    | CtrlJ
    | CtrlP
    | CtrlT
    | CtrlL
    | CtrlO
    | CtrlC(selection: Option<string>)
    | CtrlA

  /** The chords that act while help is shown: F1, Escape and Ctrl-q. */
  predicate ActsOnHelp(k: Key) {
    k.F1? || k.CtrlQ? || k.Escape?
  }

  /** The key bindings. */
  function Dispatch(s: UiState, k: Key): (r: UiState)
    ensures s.showHelp && !ActsOnHelp(k) ==> r == s
    ensures k.F1? ==> r.showHelp == !s.showHelp && r.exited == s.exited
    ensures (k.CtrlQ? || k.Escape?) && s.showHelp ==> !r.showHelp && r.exited == s.exited
    ensures (k.CtrlQ? || k.Escape?) && !s.showHelp ==> r == s.(exited := true)
    ensures r.exited != s.exited ==> !s.showHelp && (k.CtrlQ? || k.Escape?)
    ensures r.template == s.template && r.lang == s.lang && r.model == s.model && r.temperature == s.temperature
  {
    match k
    case F1(landing) => ToggleHelp(s, landing)
    case Tab(next) => FocusOn(s, next)
    case ShiftTab(previous) => FocusOn(s, previous)
    case CtrlQ(landing) => QuitOrDismiss(s, landing)
    case Escape(landing) => QuitOrDismiss(s, landing)
    case CtrlY => CopyOutput(s)
    case CtrlJ => StartGeneration(s)
    case CtrlP => FocusOn(s, PromptArea)
    case CtrlT => FocusOn(s, ContextArea)
    case CtrlL => ClearContext(s)
    case CtrlO => FocusOn(s, OutputArea)
    case CtrlC(selection) => CopySelection(s, selection)
    case CtrlA => SelectAll(s)
  }

  /** The buttons: Generar, Copiar and Salir on the main screen, and the help dialog's
      "Cerrar (Esc)", which rebuilds the layout like F1. */
  datatype Button = Generate | Copy | Quit | Close(landing: Focus)

  /** A button press (Enter, Space or a mouse click on it) runs the button's handler. */
  function Click(s: UiState, b: Button): (r: UiState)
    ensures b.Generate? ==> r == StartGeneration(s)
    ensures b.Copy? ==> r == CopyOutput(s)
    ensures b.Quit? ==> r.exited && r.(exited := s.exited) == s
    ensures b.Close? ==> r.showHelp == !s.showHelp && r.exited == s.exited
    ensures r.exited != s.exited ==> b.Quit?
  {
    match b
    case Generate => StartGeneration(s)
    case Copy => CopyOutput(s)
    case Quit => QuitApp(s)
    case Close(landing) => ToggleHelp(s, landing)
  }

  /** What the event loop delivers: a key press, a button press, or the hand-back of a finished
      task. */
  datatype Event = Press(key: Key) | Pressed(button: Button) | TaskDone(outcome: Result<string>)

  function Step(s: UiState, e: Event): UiState {
    match e
    case Press(k) => Dispatch(s, k)
    case Pressed(b) => Click(s, b)
    case TaskDone(outcome) => CommitOutcome(s, outcome)
  }

  /** The event loop: events are handled in order until the application exits. */
  function Run(s: UiState, events: seq<Event>): UiState
    decreases |events|
  {
    if events == [] || s.exited then s else Run(Step(s, events[0]), events[1..])
  }

  /** An event that can end the loop: Escape or Ctrl-q (when help is not shown), or the Salir
      button. */
  predicate IsQuit(e: Event) {
    (e.Press? && (e.key.CtrlQ? || e.key.Escape?)) || (e.Pressed? && e.button.Quit?)
  }

  /** Only Escape, Ctrl-q or the Salir button ends the loop: no field write, failed task, other
      chord or other button does. */
  lemma {:induction false} ExitOnlyByQuit(s: UiState, events: seq<Event>)
    requires !s.exited && Run(s, events).exited
    ensures exists i :: 0 <= i < |events| && IsQuit(events[i])
    decreases |events|
  {
    var t := Step(s, events[0]);
    if t.exited {
      assert IsQuit(events[0]);
    } else {
      ExitOnlyByQuit(t, events[1..]);
      var i :| 0 <= i < |events[1..]| && IsQuit(events[1..][i]);
      assert events[1 + i] == events[1..][i];
    }
  }

  /** While help is shown, a run of chords other than F1, Escape and Ctrl-q changes nothing. */
  lemma {:induction false} HelpFreezesState(s: UiState, keys: seq<Key>)
    requires s.showHelp
    requires forall i :: 0 <= i < |keys| ==> !ActsOnHelp(keys[i])
    ensures Run(s, Presses(keys)) == s
    decreases |keys|
  {
    if keys != [] && !s.exited {
      assert Presses(keys)[0] == Press(keys[0]);
      assert Presses(keys)[1..] == Presses(keys[1..]);
      HelpFreezesState(s, keys[1..]);
    }
  }

  function Presses(keys: seq<Key>): (events: seq<Event>)
    ensures |events| == |keys|
    ensures forall i :: 0 <= i < |keys| ==> events[i] == Press(keys[i])
  {
    seq(|keys|, i requires 0 <= i < |keys| => Press(keys[i]))
  }

  /** Pressing F1 n times leaves the help flag flipped n times and everything but the focus as it
      was; in particular, two presses restore the flag. */
  lemma {:induction false} HelpParity(s: UiState, landings: seq<Focus>)
    requires !s.exited
    ensures var r := Run(s, Presses(F1Presses(landings)));
      r.showHelp == (if |landings| % 2 == 0 then s.showHelp else !s.showHelp) &&
      r.(showHelp := s.showHelp, focus := s.focus) == s
    decreases |landings|
  {
    if landings != [] {
      var keys := F1Presses(landings);
      assert Presses(keys)[0] == Press(F1(landings[0]));
      assert Presses(keys)[1..] == Presses(F1Presses(landings[1..]));
      HelpParity(ToggleHelp(s, landings[0]), landings[1..]);
    }
  }

  function F1Presses(landings: seq<Focus>): (keys: seq<Key>)
    ensures |keys| == |landings|
    ensures forall i :: 0 <= i < |landings| ==> keys[i] == F1(landings[i])
  {
    seq(|landings|, i requires 0 <= i < |landings| => F1(landings[i]))
  }

  /** Once a task has handed back its outcome, the status is never left at "Generando...". */
  lemma TaskEndsGenerating(s: UiState, events: seq<Event>)
    requires events != [] && events[|events| - 1].TaskDone?
    requires !Run(s, events[..|events| - 1]).exited
    ensures Run(s, events).status != GeneratingStatus
  {
    RunSnoc(s, events[..|events| - 1], events[|events| - 1]);
    assert events[..|events| - 1] + [events[|events| - 1]] == events;
  }

  /** With no API key the task sends nothing and leaves the configuration error in the output
      field with the status "Error". */
  lemma MissingKeyEndsInError(s: UiState, env: Generation.Collaborators)
    requires env.apiKey == ""
    ensures var run := Generation.Task(s.template, s.context, s.lang, s.model, s.temperature, env);
      var r := CommitOutcome(s, run.outcome);
      run.call.sent == None && r.output == "Error: " + Gemini.MissingKeyMessage && r.status == ErrorStatus
  {
  }

  /** A temperature that `float` rejects ends with status "Error" and `float`'s message in the
      output field. */
  lemma RejectedTemperatureEndsInError(s: UiState, env: Generation.Collaborators)
    requires env.apiKey != "" && env.parseFloat(Generation.TemperatureArg(s.temperature)).Err?
    ensures var run := Generation.Task(s.template, s.context, s.lang, s.model, s.temperature, env);
      var r := CommitOutcome(s, run.outcome);
      run.call.sent == None && r.status == ErrorStatus &&
      r.output == "Error: " + env.parseFloat(Generation.TemperatureArg(s.temperature)).msg
  {
    Generation.RejectedTemperatureFails(s.template, s.context, s.lang, s.model, s.temperature, env);
  }

  /** A transport error on the sent request ends with status "Error" and "Error: " followed by
      its message in the output field. */
  lemma TransportErrorEndsInError(s: UiState, env: Generation.Collaborators, msg: string)
    ensures var run := Generation.Task(s.template, s.context, s.lang, s.model, s.temperature, env);
      run.call.sent.Some? && env.endpoint(run.call.sent.value) == Err(msg) ==>
        CommitOutcome(s, run.outcome).status == ErrorStatus &&
        CommitOutcome(s, run.outcome).output == "Error: " + msg
  {
    Generation.TransportErrorFails(s.template, s.context, s.lang, s.model, s.temperature, env, msg);
  }

  /** Handling one more event after a run that has not exited is one more step. */
  lemma {:induction false} RunSnoc(s: UiState, events: seq<Event>, e: Event)
    requires !Run(s, events).exited
    ensures Run(s, events + [e]) == Step(Run(s, events), e)
    decreases |events|
  {
    if events == [] {
      assert [e][1..] == [];
    } else {
      assert (events + [e])[1..] == events[1..] + [e];
      RunSnoc(Step(s, events[0]), events[1..], e);
    }
  }
}
