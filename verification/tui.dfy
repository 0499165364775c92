/** The application object: the widgets' texts, the help flag and the focus as fields updated in
    place by the key handlers, the buttons and the generation task. */
module Tui {
  import opened Results
  import opened Gemini
  import opened Generation
  import opened KeyCommands

  class App {
    var showHelp: bool
    var focus: Focus
    var status: string
    var context: string
    var output: string
    var template: string
    var lang: string
    var model: ModelId
    var temperature: string
    var copied: seq<string>
    var exited: bool

    /** The fields, read together as one state. */
    function State(): UiState
      reads this
    {
      UiState(showHelp, focus, status, context, output, template, lang, model, temperature, copied, exited)
    }

    /** The widgets as created, with the template seeded and the first control focused. */
    constructor (defaultPrompt: string, firstFocus: Focus)
      ensures State() == Initial(defaultPrompt, firstFocus)
    {
      showHelp, focus, status := false, firstFocus, StartStatus;
      context, output, template := "", "", defaultPrompt;
      lang, model, temperature := "es", Pro, "0.2";
      copied, exited := [], false;
    }

    method ToggleHelp(landing: Focus)
      modifies this
      ensures State() == KeyCommands.ToggleHelp(old(State()), landing)
    {
      showHelp := !showHelp;
      focus := landing;
    }

    method FocusContext()
      modifies this
      ensures State() == FocusOn(old(State()), ContextArea)
    {
      if !showHelp {
        focus := ContextArea;
      }
    }

    method FocusPrompt()
      modifies this
      ensures State() == FocusOn(old(State()), PromptArea)
    {
      if !showHelp {
        focus := PromptArea;
      }
    }

    method FocusOutput()
      modifies this
      ensures State() == FocusOn(old(State()), OutputArea)
    {
      if !showHelp {
        focus := OutputArea;
      }
    }

    method QuitApp()
      modifies this
      ensures State() == KeyCommands.QuitApp(old(State()))
    {
      exited := true;
    }

    method CopyOutput()
      modifies this
      ensures State() == KeyCommands.CopyOutput(old(State()))
    {
      if showHelp {
        return;
      }
      copied := copied + [output];
      status := CopiedStatus;
    }

    /** The key press half of `generate_commit`; `started` tells whether a task was launched. */
    method GenerateCommit() returns (started: bool)
      modifies this
      ensures started == !old(showHelp)
      ensures State() == StartGeneration(old(State()))
    {
      if showHelp {
        return false;
      }
      status := GeneratingStatus;
      started := true;
    }

    /** The body of the generation task: builds the prompt from the current fields, calls the
        endpoint and writes the reply or the error into the output field and the status. */
    method RunTask(env: Collaborators) returns (run: TaskRun)
      modifies this
      ensures run == Task(old(template), old(context), old(lang), old(model), old(temperature), env)
      ensures State() == CommitOutcome(old(State()), run.outcome)
    {
      run := Task(template, context, lang, model, temperature, env);
      Commit(run.outcome);
    }

    /** The task's writes: the reply or the error text into the output field, the outcome's name
        into the status. */
    method Commit(outcome: Result<string>)
      modifies this
      ensures State() == CommitOutcome(old(State()), outcome)
    {
      match outcome
      case Ok(text) =>
        output := text;
        status := DoneStatus;
      case Err(msg) =>
        output := "Error: " + msg;
        status := ErrorStatus;
    }

    method CopySelectedText(selection: Option<string>)
      modifies this
      ensures State() == CopySelection(old(State()), selection)
    {
      if showHelp {
        return;
      }
      if HasBuffer(focus) && selection.Some? {
        copied := copied + [selection.value];
        status := SelectionCopiedStatus;
        return;
      }
      status := NoSelectionStatus;
    }

    method SelectAllText()
      modifies this
      ensures State() == SelectAll(old(State()))
    {
      if showHelp {
        return;
      }
      if HasBuffer(focus) {
        status := AllSelectedStatus;
      } else {
        status := NoBufferStatus;
      }
    }

    /** The key bindings: each chord runs its handler. */
    method HandleKey(k: Key)
      modifies this
      ensures State() == Dispatch(old(State()), k)
    {
      match k
      case Tab(next) =>
        if !showHelp {
          focus := next;
        }
      case ShiftTab(previous) =>
        if !showHelp {
          focus := previous;
        }
      case CtrlQ(landing) =>
        if showHelp {
          ToggleHelp(landing);
        } else {
          exited := true;
        }
      case Escape(landing) =>
        if showHelp {
          ToggleHelp(landing);
        } else {
          exited := true;
        }
      case CtrlY =>
        CopyOutput();
      case CtrlJ =>
        var _ := GenerateCommit();
      case CtrlP =>
        FocusPrompt();
      case CtrlT =>
        FocusContext();
      case CtrlL =>
        if !showHelp {
          context := "";
          focus := ContextArea;
          status := ClearedStatus;
        }
      case CtrlO =>
        FocusOutput();
      case F1(landing) =>
        ToggleHelp(landing);
      case CtrlC(selection) =>
        CopySelectedText(selection);
      case CtrlA =>
        SelectAllText();
    }

    /** The buttons: each press runs the button's handler. */
    method HandleClick(b: Button)
      modifies this
      ensures State() == Click(old(State()), b)
    {
      match b
      case Generate =>
        var _ := GenerateCommit();
      case Copy =>
        CopyOutput();
      case Quit =>
        QuitApp();
      case Close(landing) =>
        ToggleHelp(landing);
    }
  }
}
