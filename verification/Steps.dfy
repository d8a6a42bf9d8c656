/** The workflow step types: what each step answers for an event and the session data. No step changes the
    session itself; the interpreter applies the answer. */
module Steps {
  import opened Text
  import opened WorkflowModel
  import Interpolation

  // ----- capture_field and ask_input -----

  function ListOfStrings(items: seq<Payload>): seq<string>
  {
    if items == [] then []
    else (if items[0].PText? then [items[0].text] else []) + ListOfStrings(items[1..])
  }

  function StringsIn(p: Payload): seq<string>
  {
    if p.PList? then ListOfStrings(p.items) else []
  }

  /** Selected values of an interaction: the list itself, or the list one level down under "values". */
  function InteractionValues(payload: map<string, Payload>): seq<string>
  {
    if "values" !in payload then []
    else
      var raw := payload["values"];
      StringsIn(if raw.PMap? && "values" in raw.entries then raw.entries["values"] else raw)
  }

  function Join(parts: seq<string>, separator: string): string
  {
    if parts == [] then "" else if |parts| == 1 then parts[0] else parts[0] + separator + Join(parts[1..], separator)
  }

  function PlainContent(event: Event): string
  {
    var content := event.TextAt("content");
    if content.Some? then content.value else OrElse(event.TextAt("text"), "")
  }

  /** Precedence: interaction values, component id, configured key, content, text. */
  function ReadContent(event: Event, contentKey: Option<string>): string
  {
    var values := InteractionValues(event.payload);
    var customId := event.TextAt("customId");
    if event.kind == "interaction" && values != [] then Join(values, ", ")
    else if event.kind == "interaction" && Present(customId) then customId.value
    else if Present(contentKey) && event.TextAt(contentKey.value).Some? then event.TextAt(contentKey.value).value
    else PlainContent(event)
  }

  /** ask_input stores the event's content, else its text, else an empty text; interactions count for nothing there. */
  lemma AskInputStores(prompt: string, storeIn: string, w: World, i: nat, event: Event, data: Data, index: nat)
    ensures var content, text := event.TextAt("content"), event.TextAt("text");
            var said := if content.Some? then content.value else if text.Some? then text.value else "";
            Execute(AskInput(prompt, storeIn), w, i, event, data, index)
              == Ran(Advance(Some(storeIn), Some(Str(said))), [])
  {
  }

  /** Several selected values are read as one text, joined by a comma and a blank. */
  lemma {:induction false} JoinSnoc(parts: seq<string>, last: string, separator: string)
    ensures Join(parts + [last], separator) == if parts == [] then last else Join(parts, separator) + separator + last
  {
    if parts == [] {
      assert parts + [last] == [last];
    } else {
      assert (parts + [last])[1..] == parts[1..] + [last];
      JoinSnoc(parts[1..], last, separator);
      if |parts| == 1 {
        assert parts[1..] + [last] == [last];
      } else {
        assert parts[0] + separator + (Join(parts[1..], separator) + separator + last)
            == (parts[0] + separator + Join(parts[1..], separator)) + separator + last;
      }
    }
  }

  /** An event that selects nothing is read by the configured key, then as content, then as text, else as empty. */
  lemma ContentPrecedence(event: Event, contentKey: Option<string>)
    requires event.kind != "interaction"
          || (InteractionValues(event.payload) == [] && !Present(event.TextAt("customId")))
    ensures var keyed := if Present(contentKey) then event.TextAt(contentKey.value) else None;
            var content, text := event.TextAt("content"), event.TextAt("text");
            && (keyed.Some? ==> ReadContent(event, contentKey) == keyed.value)
            && (keyed.None? && content.Some? ==> ReadContent(event, contentKey) == content.value)
            && (keyed.None? && content.None? && text.Some? ==> ReadContent(event, contentKey) == text.value)
            && (keyed.None? && content.None? && text.None? ==> ReadContent(event, contentKey) == "")
  {
  }

  function Captured(step: Step, world: World, event: Event): string
    requires step.Capture?
  {
    var content := ReadContent(event, step.contentKey);
    if step.trimAndLower then world.lower(Trim(content)) else content
  }

  // ----- prompt_for_field -----

  function Fill(template: string, world: World, data: Data): string
  {
    Interpolation.SequentialFill(template, world.keyOrder(data), Texts(data))
  }

  function FillPrompt(template: string, world: World, data: Data): string
  {
    if IsBlank(template) then template else Fill(template, world, data)
  }

  /** The key order of the world enumerates the keys of the data. */
  ghost predicate Enumerates(world: World, data: Data)
  {
    forall k :: k in world.keyOrder(data) <==> k in data
  }

  /** A message of brace-free literals and placeholders comes out the same in every hash order. */
  lemma FilledTextIgnoresOrder(parts: seq<Interpolation.Part>, w1: World, w2: World, data: Data)
    requires Enumerates(w1, data) && Enumerates(w2, data)
    requires Interpolation.WellFormed(parts) && Interpolation.BraceFreeData(Texts(data))
    ensures Fill(Interpolation.Render(parts), w1, data)
         == Fill(Interpolation.Render(parts), w2, data)
         == Interpolation.Render(Interpolation.Substitute(parts, Texts(data)))
  {
    Interpolation.OrderIsIrrelevant(parts, w1.keyOrder(data), Texts(data));
    Interpolation.OrderIsIrrelevant(parts, w2.keyOrder(data), Texts(data));
  }

  /** Is the field already answered, so that the prompt is skipped? */
  predicate Answered(existing: Option<Value>)
  {
    || (existing.Some? && existing.value.Str? && !IsBlank(existing.value.text) && existing.value.text != CUSTOM)
    || (existing.Some? && existing.value.Show() != CUSTOM)
  }

  function RichReply(step: Step, world: World, i: nat, event: Event, data: Data, text: string): Option<Reply>
    requires step.Prompt?
  {
    var dynamic := if step.provider.Some? then world.choices(i, step.provider.value, event, data) else None;
    if dynamic.Some? && dynamic.value != [] then
      Some(Reply(text, PresentChoices(text, dynamic.value + step.choices)))
    else if step.intent == Some("present_choices") && step.choices != [] then
      Some(Reply(text, PresentChoices(text, step.choices)))
    else if step.intent == Some("confirm_action") then
      Some(Reply(text, ConfirmAction(text,
        Some(OrElse(step.confirmLabel, "Confirm")), Some(OrElse(step.cancelLabel, "Cancel")))))
    else None
  }

  function RunPrompt(step: Step, world: World, i: nat, event: Event, data: Data): StepResult
    requires step.Prompt?
  {
    if Answered(Lookup(data, step.storeIn)) then Advance(None, None)
    else
      var text := FillPrompt(step.prompt, world, data);
      Wait(text, step.storeIn, RichReply(step, world, i, event, data, text))
  }

  /** A prompt waits exactly when its field has no value or the value reads __custom__; a blank answer is an answer. */
  lemma PromptWaitsUnlessAnswered(step: Step, world: World, i: nat, event: Event, data: Data)
    requires step.Prompt?
    ensures var r := RunPrompt(step, world, i, event, data);
            && (r.mode == Waiting <==> step.storeIn !in data || data[step.storeIn].Show() == CUSTOM)
            && (r.mode != Waiting ==> r == Advance(None, None))
            && (r.mode == Waiting ==> r.waitingFor == Some(step.storeIn) && r.next == None)
  {
    assert !IsBlank(CUSTOM) by { assert !IsWhite(CUSTOM[0]); }
  }

  // ----- branch -----

  predicate IsTruthy(v: Option<Value>)
  {
    v.Some? && match v.value case Flag(b) => b case Str(t) => !IsBlank(t) case Other(_) => true
  }

  /** String.valueOf: an absent key reads as the four letters "null". */
  function ValueOf(v: Option<Value>): string
  {
    if v.Some? then v.value.Show() else "null"
  }

  predicate Holds(when: When, data: Data)
  {
    match when
    case Equals(key, value) => value == Some(ValueOf(Lookup(data, key)))
    case Else => true
    case Truthy(key) => IsTruthy(Lookup(data, key))
    case NoCondition => false
  }

  /** A comparing condition cannot tell an absent key from the text "null". */
  lemma AbsentKeyReadsNull(key: string, value: Option<string>, data: Data)
    requires key !in data
    ensures Holds(Equals(key, value), data) <==> value == Some("null")
    ensures Holds(Equals(key, value), data) <==> Holds(Equals(key, value), data[key := Str("null")])
  {
  }

  /** A comparison reads a held value as its text, a flag as true or false; a bare key asks for a set flag, a non-blank
      text, or any other value. */
  lemma ConditionsRead(key: string, value: Option<string>, data: Data)
    requires key in data
    ensures data[key].Str? ==> (Holds(Equals(key, value), data) <==> value == Some(data[key].text))
    ensures data[key].Flag? ==>
      (Holds(Equals(key, value), data) <==> value == Some(if data[key].on then "true" else "false"))
    ensures data[key].Other? ==> (Holds(Equals(key, value), data) <==> value == Some(data[key].shown))
    ensures Holds(Truthy(key), data)
       <==> (data[key].Flag? ==> data[key].on) && (data[key].Str? ==> !IsBlank(data[key].text))
    ensures !Holds(Truthy(key), data - {key}) && Holds(Else, data) && !Holds(NoCondition, data)
  {
  }

  predicate Matches(entry: BranchEntry, data: Data)
  {
    entry.next >= 0 && Holds(entry.when, data)
  }

  function RunBranch(entries: seq<BranchEntry>, data: Data, index: nat): StepResult
  {
    if entries == [] then GoTo(index + 1, [])
    else if Matches(entries[0], data) then GoTo(entries[0].next, entries[0].clear)
    else RunBranch(entries[1..], data, index)
  }

  predicate NoMatchBefore(entries: seq<BranchEntry>, j: nat, data: Data)
    requires j <= |entries|
  {
    forall h :: 0 <= h < j ==> !Matches(entries[h], data)
  }

  /** A branch takes its first matching entry, and falls through exactly when none matches. */
  lemma {:induction false} BranchTakesFirstMatch(entries: seq<BranchEntry>, data: Data, index: nat)
    ensures NoMatchBefore(entries, |entries|, data) ==> RunBranch(entries, data, index) == GoTo(index + 1, [])
    ensures forall j | 0 <= j < |entries| && Matches(entries[j], data) && NoMatchBefore(entries, j, data) ::
        RunBranch(entries, data, index) == GoTo(entries[j].next, entries[j].clear)
  {
    if entries != [] {
      BranchTakesFirstMatch(entries[1..], data, index);
      forall j | 0 <= j < |entries| && Matches(entries[j], data) && NoMatchBefore(entries, j, data)
        ensures RunBranch(entries, data, index) == GoTo(entries[j].next, entries[j].clear)
      {
        if j > 0 {
          assert !Matches(entries[0], data);
          assert entries[1..][j - 1] == entries[j];
          forall h | 0 <= h < j - 1 ensures !Matches(entries[1..][h], data) {
            assert entries[1..][h] == entries[h + 1];
          }
        }
      }
      if NoMatchBefore(entries, |entries|, data) {
        forall j | 0 <= j < |entries[1..]| ensures !Matches(entries[1..][j], data) {
          assert entries[1..][j] == entries[j + 1];
        }
      }
    }
  }

  /** What a waiting prompt says: its template filled from the session, and as choices the provider's answer followed by
      the configured ones, else the configured ones when they are to be presented, else a confirmation when one is
      asked. */
  lemma PromptSays(step: Step, world: World, i: nat, event: Event, data: Data, index: nat,
                   parts: seq<Interpolation.Part>)
    requires step.Prompt? && (step.storeIn !in data || data[step.storeIn].Show() == CUSTOM)
    requires step.prompt == Interpolation.Render(parts) && Interpolation.WellFormed(parts) && !IsBlank(step.prompt)
    requires Interpolation.BraceFreeData(Texts(data)) && Enumerates(world, data)
    ensures var text := Interpolation.Render(Interpolation.Substitute(parts, Texts(data)));
            var run := Execute(step, world, i, event, data, index);
            && run.Ran? && run.writes == []
            && run.result.storeIn == None && run.result.next == None && run.result.clear == []
            && run.result.mode == Waiting && run.result.prompt == text && run.result.waitingFor == Some(step.storeIn)
            && Offers(step, if step.provider.Some? then world.choices(i, step.provider.value, event, data) else None,
                      text, run.result.rich)
  {
    PromptWaitsUnlessAnswered(step, world, i, event, data);
    Interpolation.OrderIsIrrelevant(parts, world.keyOrder(data), Texts(data));
  }

  /** The reply beside the text of a prompt, given what its provider answered. */
  predicate Offers(step: Step, provided: Option<seq<Choice>>, text: string, rich: Option<Reply>)
    requires step.Prompt?
  {
    && (provided.Some? && provided.value != [] ==>
          rich == Some(Reply(text, PresentChoices(text, provided.value + step.choices))))
    && (provided in {None, Some([])} && step.intent == Some("present_choices") && step.choices != [] ==>
          rich == Some(Reply(text, PresentChoices(text, step.choices))))
    && (provided in {None, Some([])} && step.intent == Some("confirm_action") ==>
          && rich.Some? && rich.value.text == text
          && rich.value.intent.ConfirmAction? && rich.value.intent.prompt == text
          && rich.value.intent.confirmLabel == Some(OrElse(step.confirmLabel, "Confirm"))
          && rich.value.intent.cancelLabel == Some(OrElse(step.cancelLabel, "Cancel")))
    && (provided in {None, Some([])} && step.intent == Some("present_choices") && step.choices == [] ==> rich == None)
    && (provided in {None, Some([])} && step.intent !in {Some("present_choices"), Some("confirm_action")} ==>
          rich == None)
  }

  /** A blank prompt is sent as it is. */
  lemma BlankPromptSays(step: Step, world: World, i: nat, event: Event, data: Data)
    requires step.Prompt? && (step.storeIn !in data || data[step.storeIn].Show() == CUSTOM) && IsBlank(step.prompt)
    ensures RunPrompt(step, world, i, event, data).prompt == step.prompt
  {
    PromptWaitsUnlessAnswered(step, world, i, event, data);
  }

  // ----- call_action -----

  function EventMetadata(event: Event): map<string, Payload>
  {
    event.payload["sourceId" := PText(event.sourceId)]["kind" := PText(event.kind)]
  }

  /** A bound text of the form {{key}} reads the key from the session, anything else stands for itself. */
  function Resolve(value: Value, data: Data): Arg
  {
    if value.Str? && |value.text| >= 4 && "{{" <= value.text && value.text[|value.text| - 2..] == "}}" then
      var found := Lookup(data, Trim(value.text[2..|value.text| - 2]));
      if found.Some? then Val(found.value) else Null
    else Val(value)
  }

  /** Session data, then the event metadata, then the step's own bindings, later ones winning. */
  function BuildArgs(bind: map<string, Value>, event: Event, data: Data): Args
  {
    (map k | k in data :: Val(data[k]))
    + map["__event" := Meta(EventMetadata(event))]
    + (map k | k in bind :: Resolve(bind[k], data))
  }

  /** The registry answers null for an unknown id, for an action that fails, and when a null argument keeps the
      argument map from being copied, in which case the action does not run at all. */
  function RegistryRun(world: World, i: nat, id: string, event: Event, data: Data, args: Args): Answer
  {
    if !world.isAction(id) || Null in args.Values then Answer(Returned(None), [])
    else
      var answer := world.action(i, id, event, data, args);
      if answer.outcome.Raised? then Answer(Returned(None), answer.writes) else answer
  }

  function RunAction(step: Step, world: World, i: nat, event: Event, data: Data): StepRun
    requires step.CallAction?
  {
    var args := BuildArgs(step.bind, event, data);
    var answer := if world.isTool(step.actionId) then world.tool(i, step.actionId, args)
                  else RegistryRun(world, i, step.actionId, event, data, args);
    match answer.outcome
    case Returned(value) => Ran(Advance(step.target, value), answer.writes)
    case Raised(message) => Threw(message, answer.writes)
  }

  /** Some argument is null exactly when some binding is a placeholder of a key the session does not hold. */
  lemma NullArgumentExactlyWhen(bind: map<string, Value>, event: Event, data: Data)
    ensures Null in BuildArgs(bind, event, data).Values
       <==> exists name, key :: name in bind && bind[name] == Str("{{" + key + "}}") && Trim(key) !in data
  {
    var args := BuildArgs(bind, event, data);
    if Null in args.Values {
      var name :| name in args && args[name] == Null;
      var text := bind[name].text;
      assert text == "{{" + text[2..|text| - 2] + "}}";
    }
    forall name, key | name in bind && bind[name] == Str("{{" + key + "}}") && Trim(key) !in data
      ensures Null in args.Values
    {
      var text := "{{" + key + "}}";
      assert text[2..|text| - 2] == key && text[|text| - 2..] == "}}" && "{{" <= text;
      assert name in args && args[name] == Null;
    }
  }

  /** Without a null argument the registry answers what the registered action returned, else null. */
  lemma RegistryReads(world: World, i: nat, id: string, event: Event, data: Data, args: Args)
    requires Null !in args.Values
    ensures RegistryRun(world, i, id, event, data, args).outcome
         == Returned(if !world.isAction(id) then None else match world.action(i, id, event, data, args).outcome
                     case Returned(v) => v
                     case Raised(_) => None)
  {
  }

  /** A registered action's answer is the step's result; an action that fails, or that is not registered, leaves the
      step without one. What the action wrote before is written in any case. */
  lemma RegisteredAnswer(step: Step, world: World, i: nat, event: Event, data: Data, index: nat)
    requires step.CallAction? && !world.isTool(step.actionId)
    requires forall name, key :: name in step.bind && step.bind[name] == Str("{{" + key + "}}") ==> Trim(key) in data
    ensures !world.isAction(step.actionId) ==>
      Execute(step, world, i, event, data, index) == Ran(Advance(step.target, None), [])
    ensures world.isAction(step.actionId) ==>
      var answer := world.action(i, step.actionId, event, data, BuildArgs(step.bind, event, data));
      Execute(step, world, i, event, data, index) == match answer.outcome
        case Returned(v) => Ran(Advance(step.target, v), answer.writes)
        case Raised(_) => Ran(Advance(step.target, None), answer.writes)
  {
    NullArgumentExactlyWhen(step.bind, event, data);
  }

  /** A tool's answer is the step's result too, but its failure is the step's failure. */
  lemma ToolAnswer(step: Step, world: World, i: nat, event: Event, data: Data, index: nat)
    requires step.CallAction? && world.isTool(step.actionId)
    ensures var answer := world.tool(i, step.actionId, BuildArgs(step.bind, event, data));
            Execute(step, world, i, event, data, index) == match answer.outcome
              case Returned(v) => Ran(Advance(step.target, v), answer.writes)
              case Raised(message) => Threw(message, answer.writes)
  {
  }

  /** Actions see the event's payload with its source and kind, which win over entries of the same names. */
  lemma MetadataCarriesEvent(event: Event, k: string)
    ensures var meta := EventMetadata(event);
            && (k in meta <==> k in event.payload || k == "sourceId" || k == "kind")
            && meta["sourceId"] == PText(event.sourceId) && meta["kind"] == PText(event.kind)
            && (k in event.payload && k != "sourceId" && k != "kind" ==> meta[k] == event.payload[k])
  {
    assert |"sourceId"| != |"kind"|;
  }

  /** A bound {{key}} that the session does not hold keeps a registered action from running: the step goes on without
      a result, whatever the action would have answered. */
  lemma MissingBindingSilencesAction(step: Step, world: World, i: nat, event: Event, data: Data, name: string,
                                     key: string)
    requires step.CallAction? && !world.isTool(step.actionId)
    requires name in step.bind && step.bind[name] == Str("{{" + key + "}}") && Trim(key) !in data
    ensures RunAction(step, world, i, event, data) == Ran(Advance(step.target, None), [])
  {
    var text := "{{" + key + "}}";
    assert text[2..|text| - 2] == key && text[|text| - 2..] == "}}" && "{{" <= text;
    var args := BuildArgs(step.bind, event, data);
    assert name in args && args[name] == Null;
    assert Null in args.Values;
  }

  /** A bound text of the form {{key}} is the session's value under the trimmed key, or null; a text without both pairs
      of braces is itself. */
  lemma BoundText(text: string, key: string, data: Data)
    ensures text == "{{" + key + "}}" ==>
      Resolve(Str(text), data) == if Trim(key) in data then Val(data[Trim(key)]) else Null
    ensures !("{{" <= text) || |text| < 4 || text[|text| - 2..] != "}}" ==> Resolve(Str(text), data) == Val(Str(text))
  {
    if text == "{{" + key + "}}" {
      assert text[2..|text| - 2] == key && text[|text| - 2..] == "}}" && "{{" <= text;
    }
  }

  /** Bindings win over the event metadata, which wins over session data of the same name. */
  lemma ArgumentPrecedence(bind: map<string, Value>, event: Event, data: Data, k: string)
    ensures var args := BuildArgs(bind, event, data);
            && (k in args <==> k in bind || k == "__event" || k in data)
            && (k in bind ==> args[k] == Resolve(bind[k], data))
            && (k !in bind && k == "__event" ==> args[k] == Meta(EventMetadata(event)))
            && (k !in bind && k != "__event" && k in data ==> args[k] == Val(data[k]))
  {
  }

  // ----- every step -----

  function Execute(step: Step, world: World, i: nat, event: Event, data: Data, index: nat): StepRun
  {
    match step
    case AskInput(_, storeIn) => Ran(Advance(Some(storeIn), Some(Str(PlainContent(event)))), [])
    case Prompt(_, _, _, _, _, _, _) => Ran(RunPrompt(step, world, i, event, data), [])
    case Capture(storeIn, _, _) => Ran(Advance(Some(storeIn), Some(Str(Captured(step, world, event)))), [])
    case CallAction(_, _, _) => RunAction(step, world, i, event, data)
    case Branch(entries) => Ran(RunBranch(entries, data, index), [])
    case Finish(message) => Ran(Done(Fill(message, world, data)), [])
    case Custom(run) => run(i, event, data, index)
  }
}
