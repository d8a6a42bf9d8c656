/** From the confirmation prompt of luna_cursor to its decision: the run before the decision has shown the four choices
    as four buttons, and pressing one decides the run as that choice says. */
module ConfirmButtons {
  import opened Text
  import opened WorkflowModel
  import opened Steps
  import opened Interpreter
  import opened BotsConfig
  import opened LunaHistory
  import Choices

  lemma ConfirmChoicesAreButtons()
    ensures Choices.AsButtons(CONFIRM_CHOICES)
    ensures Choices.Shown(CONFIRM_CHOICES) == Some([Choices.Buttons(CONFIRM_CHOICES)])
  {
    Choices.ChoicesAreShownInOrder(CONFIRM_CHOICES);
  }

  /** The reply with which the run of the last event before n ended. */
  function LastReply(key: string, h: History, n: nat): Option<Reply>
    requires 0 < n <= |h|
  {
    RunEndOf(h[n - 1].world, h[n - 1].event, Start(key, h, n - 1)).result.rich
  }

  /** The components on the user's screen when event n comes. */
  function Offered(key: string, h: History, n: nat): Option<Choices.Rows>
    requires n <= |h|
  {
    if n == 0 || LastReply(key, h, n).None? then None else Choices.ShownFor(LastReply(key, h, n).value.intent)
  }

  /** Step 7 offers the confirmation choices, when it asks at all. */
  lemma ConfirmPromptOffersChoices(w: World, event: Event, i: nat, s: Snapshot)
    requires s.index == 7 && StepOnce(LunaCursor(), w, event, i, s).Halted?
    ensures var reply := StepOnce(LunaCursor(), w, event, i, s).result.rich;
            reply.Some? && reply.value.intent == PresentChoices(reply.value.text, CONFIRM_CHOICES)
  {
    LunaAt(7);
  }

  /** A run that ends waiting at index 8 has asked for the confirmation. */
  lemma RunAsksToConfirm(w: World, event: Event, s: Snapshot, key: string)
    requires Ready(s, key) && RegistryOnly(w)
    ensures var end := RunEndOf(w, event, s);
            end.state.status == WaitingInput && end.state.index == 8 ==>
              end.result.rich.Some?
              && end.result.rich.value.intent == PresentChoices(end.result.rich.value.text, CONFIRM_CHOICES)
  {
    hide RunFrom, LunaCursor, Content, Ready, StepOnce, RoomRefused;
    var ss := OneRun(w, event, s, key);
    if s.index == 6 {
      ConfirmPromptOffersChoices(w, event, 1, ss[1]);
    }
  }

  /** Whenever a session waits for its confirmation, the run before has just shown the four buttons. */
  lemma ConfirmationIsOffered(key: string, h: History, n: nat)
    requires n <= |h| && Shipped(h) && Start(key, h, n).index == 8
    ensures Offered(key, h, n) == Some([Choices.Buttons(CONFIRM_CHOICES)])
  {
    hide RunEndOf, LunaCursor, Content, Start, Ready, Follows, Choices.ShownFor;
    FreshIsReady(key, h);
    if n > 0 {
      var w, event, s := h[n - 1].world, h[n - 1].event, Start(key, h, n - 1);
      SessionIsReady(key, h, n - 1);
      var ss := OneRun(w, event, s, key);
      NextStart(key, h, n - 1);
      RunAsksToConfirm(w, event, s, key);
      ShownWhateverThePrompt(LastReply(key, h, n).value.intent.prompt);
      ConfirmChoicesAreButtons();
    }
  }

  lemma ShownWhateverThePrompt(prompt: string)
    ensures Choices.ShownFor(PresentChoices(prompt, CONFIRM_CHOICES)) == Choices.Shown(CONFIRM_CHOICES)
  {
  }

  /** Event n is the press of the k-th thing the user was shown. */
  predicate Presses(key: string, h: History, n: nat, k: nat, sourceId: string, rest: map<string, Payload>,
                    shape: Choices.Shape)
    requires n < |h|
  {
    var rows := Offered(key, h, n);
    && rows.Some? && rows.value != [] && Choices.CanPick(rows.value[0], k) && Choices.GatewayEntries(rest)
    && h[n].event == Choices.Pick(rows.value[0], k, sourceId, rest, shape)
  }

  lemma PressedContent(k: nat, sourceId: string, rest: map<string, Payload>, shape: Choices.Shape)
    requires k < 4 && Choices.GatewayEntries(rest)
    ensures Content(Choices.Pick(Choices.Buttons(CONFIRM_CHOICES), k, sourceId, rest, shape))
         == CONFIRM_CHOICES[k].id.value
  {
    var id := CONFIRM_CHOICES[k].id.value;
    assert !IsBlank(id) by {
      assert id[0] == 'l' || id[0] == 'e' || id[0] == 'c';
      assert !IsWhite(id[0]);
    }
    hide IsBlank, ReadContent;
    Choices.ReadInteraction(sourceId, rest, id, [], shape, None);
  }

  /** At the confirmation, the run launches exactly when the first of the buttons shown is pressed and the room is not
      refused; the other three buttons never launch. */
  lemma OnlyTheLaunchButtonLaunches(key: string, h: History, n: nat, k: nat, sourceId: string,
                                    rest: map<string, Payload>, shape: Choices.Shape)
    requires n < |h| && Shipped(h) && Start(key, h, n).index == 8 && Presses(key, h, n, k, sourceId, rest, shape)
    ensures k < 4
    ensures Executes(key, h, n, LAUNCH)
       <==> k == 0 && !RoomRefused(h[n].world, h[n].event, Start(key, h, n).data[CONFIRM := Str("launch")])
  {
    hide Start, RoomRefused, Content, Executes, Offered;
    ConfirmationIsOffered(key, h, n);
    PressedContent(k, sourceId, rest, shape);
    LaunchExactlyWhen(key, h, n);
    IdsDiffer(k);
  }

  lemma IdsDiffer(k: nat)
    requires k < 4
    ensures CONFIRM_CHOICES[k].id.value == "launch" <==> k == 0
  {
    var id := CONFIRM_CHOICES[k].id.value;
    assert k > 0 ==> id[0] == 'e' || id[0] == 'c';
  }
}
