/** Values the workflow interpreter works on: events, session data, step results, run results, and the
    answers of the world outside (actions, tools, choice providers) as arbitrary inputs. */
module WorkflowModel {
  import opened Text

  const SESSION_KEY := "__sessionKey"
  const CUSTOM := "__custom__"

  /** A non-null object in session data; Other carries only its toString. */
  datatype Value = Str(text: string) | Flag(on: bool) | Other(shown: string)
  {
    function Show(): string
    {
      match this
      case Str(t) => t
      case Flag(b) => if b then "true" else "false"
      case Other(t) => t
    }
  }

  type Data = map<string, Value>

  function Texts(data: Data): map<string, string>
  {
    map k | k in data :: data[k].Show()
  }

  datatype Payload = PText(text: string) | PList(items: seq<Payload>) | PMap(entries: map<string, Payload>) | POther

  datatype Event = Event(sourceId: string, kind: string, payload: map<string, Payload>)
  {
    /** getPayload(key, String.class). */
    function TextAt(key: string): Option<string>
    {
      if key in payload && payload[key].PText? then Some(payload[key].text) else None
    }
  }

  // ----- replies -----

  datatype Choice = Choice(id: Option<string>, caption: Option<string>, description: Option<string>)

  datatype Intent =
    | PresentChoices(prompt: string, choices: seq<Choice>)
    | ConfirmAction(prompt: string, confirmLabel: Option<string>, cancelLabel: Option<string>)

  datatype Reply = Reply(text: string, intent: Intent)

  // ----- step results -----

  datatype Mode = Continue | Waiting | Complete | Failed

  datatype StepResult = StepResult(
    next: Option<nat>,
    storeIn: Option<string>,
    storeValue: Option<Value>,
    mode: Mode,
    message: string,
    prompt: string,
    waitingFor: Option<string>,
    rich: Option<Reply>,
    clear: seq<string>)

  function Advance(storeIn: Option<string>, value: Option<Value>): StepResult
  {
    StepResult(None, storeIn, value, Continue, "", "", None, None, [])
  }

  function GoTo(next: nat, clear: seq<string>): StepResult
  {
    StepResult(Some(next), None, None, Continue, "", "", None, None, clear)
  }

  function Done(message: string): StepResult
  {
    StepResult(None, None, None, Complete, message, "", None, None, [])
  }

  function Wait(prompt: string, field: string, rich: Option<Reply>): StepResult
  {
    StepResult(None, None, None, Waiting, "", prompt, Some(field), rich, [])
  }

  // ----- the world outside -----

  /** What an action leaves in the shared state store beside the sessions. */
  datatype Write =
    | RunRecord(agentId: string)
    | SessionRun(sessionKey: string, agentId: string)
    | LastRepo(authorId: string, project: string)
    | BotInstance(instanceId: string)

  datatype Outcome = Returned(value: Option<Value>) | Raised(message: Option<string>)

  datatype Answer = Answer(outcome: Outcome, writes: seq<Write>)

  /** An argument of an action: a value, null, or the event metadata map. */
  datatype Arg = Val(value: Value) | Null | Meta(fields: map<string, Payload>)

  type Args = map<string, Arg>

  /** The answers given during one run. The first argument of each function is the iteration of the run's loop,
      so two calls of one action in one run may be answered differently. */
  datatype World = World(
    lower: string -> string,
    keyOrder: Data -> seq<string>,
    choices: (nat, string, Event, Data) -> Option<seq<Choice>>,
    isTool: string -> bool,
    tool: (nat, string, Args) -> Answer,
    isAction: string -> bool,
    action: (nat, string, Event, Data, Args) -> Answer)

  // ----- programs -----

  datatype When = Equals(key: string, value: Option<string>) | Else | Truthy(key: string) | NoCondition

  /** `next` is negative when the configuration gives no usable number. */
  datatype BranchEntry = BranchEntry(when: When, next: int, clear: seq<string>)

  datatype StepRun = Ran(result: StepResult, writes: seq<Write>) | Threw(message: Option<string>, writes: seq<Write>)

  datatype Step =
    | AskInput(prompt: string, storeIn: string)
    | Prompt(prompt: string, storeIn: string, intent: Option<string>, choices: seq<Choice>,
             confirmLabel: Option<string>, cancelLabel: Option<string>, provider: Option<string>)
    | Capture(storeIn: string, contentKey: Option<string>, trimAndLower: bool)
    | CallAction(actionId: string, bind: map<string, Value>, target: Option<string>)
    | Branch(entries: seq<BranchEntry>)
    | Finish(message: string)
    | Custom(run: (nat, Event, Data, nat) -> StepRun)  // any other implementation of the step interface

  // ----- session state and run results -----

  datatype Status = Active | WaitingInput | Completed | Error

  datatype Snapshot = Snapshot(
    data: Data,
    index: nat,
    status: Status,
    waitingFor: Option<string>,
    pendingPrompt: Option<string>)

  const FRESH := Snapshot(map[], 0, Active, None, None)

  datatype RunResult = RunResult(
    reply: string,
    rich: Option<Reply>,
    waiting: bool,
    completed: bool,
    waitingFor: Option<string>,
    error: Option<string>)

  function CompletedWith(reply: string): RunResult
  {
    RunResult(reply, None, false, true, None, None)
  }

  function FailedWith(message: Option<string>): RunResult
  {
    RunResult("", None, false, false, None, message)
  }
}
