/** From choices to components to an interaction and back: what the user picks is what the capture step stores. */
module Choices {
  import opened Text
  import opened WorkflowModel
  import opened Steps

  // ----- rendering by the reply sink -----

  datatype MenuOption = MenuOption(caption: string, value: string)

  /** A component of a message, as the sink describes it and as the gateway builds it. */
  datatype Component = Button(customId: string, caption: string) | Menu(customId: string, options: seq<MenuOption>)

  type Rows = seq<seq<Component>>

  const MAX_BUTTONS: nat := 5
  const MAX_OPTIONS: nat := 25
  const MAX_BUTTON_CAPTION: nat := 80
  const MAX_OPTION_TEXT: nat := 100

  function IdOf(c: Choice): string
  {
    OrElse(c.id, "")
  }

  function CaptionOf(c: Choice): string
  {
    if Present(c.caption) then c.caption.value else IdOf(c)
  }

  predicate FitsButton(c: Choice)
  {
    c.caption.Some? ==> |c.caption.value| <= MAX_BUTTON_CAPTION
  }

  /** Few and short choices become buttons, others one select menu. */
  predicate AsButtons(choices: seq<Choice>)
  {
    |choices| <= MAX_BUTTONS && forall i :: 0 <= i < |choices| ==> FitsButton(choices[i])
  }

  function ButtonFor(c: Choice): Component
  {
    Button(IdOf(c), Truncate(CaptionOf(c), MAX_BUTTON_CAPTION))
  }

  function OptionFor(c: Choice): MenuOption
  {
    MenuOption(Truncate(CaptionOf(c), MAX_OPTION_TEXT), IdOf(c))
  }

  function Buttons(choices: seq<Choice>): seq<Component>
  {
    seq(|choices|, i requires 0 <= i < |choices| => ButtonFor(choices[i]))
  }

  function Options(choices: seq<Choice>): seq<MenuOption>
  {
    seq(|choices|, i requires 0 <= i < |choices| => OptionFor(choices[i]))
  }

  function Min(a: nat, b: nat): nat
  {
    if a <= b then a else b
  }

  /** intentToComponents; None when there is nothing to show. */
  function Components(intent: Intent): Option<Rows>
  {
    match intent
    case PresentChoices(_, choices) =>
      if choices == [] then None
      else if AsButtons(choices) then Some([Buttons(choices)])
      else Some([[Menu("choice", Options(choices[..Min(|choices|, MAX_OPTIONS)]))]])
    case ConfirmAction(_, confirm, cancel) =>
      Some([[Button("confirm", Truncate(if Present(confirm) then confirm.value else "Confirm", MAX_BUTTON_CAPTION)),
             Button("cancel", Truncate(if Present(cancel) then cancel.value else "Cancel", MAX_BUTTON_CAPTION))]])
  }

  method IntentToComponents(intent: Intent) returns (rows: Option<Rows>)
    ensures rows == Components(intent)
  {
    match intent {
      case PresentChoices(_, choices) =>
        if choices == [] { return None; }
        if |choices| <= 5 && forall i :: 0 <= i < |choices| ==> FitsButton(choices[i]) {
          var row := [];
          for i := 0 to |choices|
            invariant row == Buttons(choices[..i])
          {
            assert choices[..i + 1] == choices[..i] + [choices[i]];
            row := row + [ButtonFor(choices[i])];
          }
          assert choices[..|choices|] == choices;
          return Some([row]);
        }
        var options := [];
        var i := 0;
        while i < |choices| && |options| < 25
          invariant 0 <= i <= |choices| && i == |options| <= 25
          invariant options == Options(choices[..i])
        {
          assert choices[..i + 1] == choices[..i] + [choices[i]];
          options := options + [OptionFor(choices[i])];
          i := i + 1;
        }
        assert i == Min(|choices|, MAX_OPTIONS);
        return Some([[Menu("choice", options)]]);
      case ConfirmAction(_, confirm, cancel) =>
        var confirmCaption := if Present(confirm) then confirm.value else "Confirm";
        var cancelCaption := if Present(cancel) then cancel.value else "Cancel";
        return Some([[Button("confirm", Truncate(confirmCaption, 80)), Button("cancel", Truncate(cancelCaption, 80))]]);
    }
  }

  // ----- building by the gateway -----

  function BuiltOption(o: MenuOption): MenuOption
  {
    MenuOption(Truncate(o.caption, MAX_OPTION_TEXT), Truncate(o.value, MAX_OPTION_TEXT))
  }

  function BuiltOptions(options: seq<MenuOption>): seq<MenuOption>
  {
    seq(|options|, i requires 0 <= i < |options| => BuiltOption(options[i]))
  }

  /** A menu without options is dropped. */
  function Built(c: Component): seq<Component>
  {
    match c
    case Button(id, caption) => [Button(id, Truncate(caption, MAX_BUTTON_CAPTION))]
    case Menu(id, options) =>
      if options == [] then [] else [Menu(id, BuiltOptions(options[..Min(|options|, MAX_OPTIONS)]))]
  }

  function BuiltRow(row: seq<Component>): seq<Component>
  {
    if row == [] then [] else BuiltRow(row[..|row| - 1]) + Built(row[|row| - 1])
  }

  /** Rows that end up empty are dropped. */
  function BuiltRows(rows: Rows): Rows
  {
    if rows == [] then []
    else
      var last := BuiltRow(rows[|rows| - 1]);
      BuiltRows(rows[..|rows| - 1]) + if last == [] then [] else [last]
  }

  function ActionRows(rows: Option<Rows>): Option<Rows>
  {
    if rows.None? || BuiltRows(rows.value) == [] then None else Some(BuiltRows(rows.value))
  }

  method BuildMenu(options: seq<MenuOption>) returns (built: seq<MenuOption>)
    ensures built == BuiltOptions(options[..Min(|options|, MAX_OPTIONS)])
  {
    built := [];
    var count := 0;
    while count < |options| && count < 25
      invariant 0 <= count <= |options| && count <= 25
      invariant built == BuiltOptions(options[..count])
    {
      assert options[..count + 1] == options[..count] + [options[count]];
      var value, caption := options[count].value, options[count].caption;
      if |value| > 100 { value := value[..100]; }
      if |caption| > 100 { caption := caption[..100]; }
      built := built + [MenuOption(caption, value)];
      count := count + 1;
    }
  }

  method BuildRow(row: seq<Component>) returns (items: seq<Component>)
    ensures items == BuiltRow(row)
  {
    items := [];
    for k := 0 to |row|
      invariant items == BuiltRow(row[..k])
    {
      assert row[..k + 1][..k] == row[..k];
      match row[k] {
        case Button(id, caption) =>
          items := items + [Button(id, Truncate(caption, 80))];
        case Menu(id, options) =>
          if options != [] {
            var menu := BuildMenu(options);
            items := items + [Menu(id, menu)];
          } else {
            assert items + [] == items;
          }
      }
    }
    assert row[..|row|] == row;
  }

  method ToJdaActionRows(components: Option<Rows>) returns (rows: Option<Rows>)
    ensures rows == ActionRows(components)
  {
    if components.None? { return None; }
    var built := [];
    for r := 0 to |components.value|
      invariant built == BuiltRows(components.value[..r])
    {
      var items := BuildRow(components.value[r]);
      assert components.value[..r + 1][..r] == components.value[..r];
      if items != [] {
        built := built + [items];
      } else {
        assert built + [] == built;
      }
    }
    assert components.value[..|components.value|] == components.value;
    return if built == [] then None else Some(built);
  }

  // ----- limits and order -----

  predicate WithinLimits(c: Component)
  {
    match c
    case Button(_, caption) => |caption| <= MAX_BUTTON_CAPTION
    case Menu(_, options) => 1 <= |options| <= MAX_OPTIONS && forall k :: 0 <= k < |options| ==>
        |options[k].caption| <= MAX_OPTION_TEXT && |options[k].value| <= MAX_OPTION_TEXT
  }

  /** What the user sees of a reply: components as the sink describes and the gateway builds them. */
  function ShownFor(intent: Intent): Option<Rows>
  {
    ActionRows(Components(intent))
  }

  function Shown(choices: seq<Choice>): Option<Rows>
  {
    ShownFor(PresentChoices("", choices))
  }

  lemma {:induction false} BuiltButtons(row: seq<Component>)
    requires forall i :: 0 <= i < |row| ==> row[i].Button? && |row[i].caption| <= MAX_BUTTON_CAPTION
    ensures BuiltRow(row) == row
  {
    if row != [] {
      BuiltButtons(row[..|row| - 1]);
    }
  }

  lemma OneRow(row: seq<Component>)
    ensures ActionRows(Some([row])) == if BuiltRow(row) == [] then None else Some([BuiltRow(row)])
  {
    var rows: Rows := [row];
    var last: Rows := if BuiltRow(row) == [] then [] else [BuiltRow(row)];
    assert rows[..|rows| - 1] == [];
    assert BuiltRows(rows) == BuiltRows([]) + last == last;
  }

  /** What the user sees: all choices as buttons, or the first 25 in one menu, in the given order. */
  lemma ChoicesAreShownInOrder(choices: seq<Choice>)
    requires choices != []
    ensures AsButtons(choices) ==> Shown(choices) == Some([Buttons(choices)])
    ensures !AsButtons(choices) ==>
      Shown(choices) == Some([[Menu("choice", BuiltOptions(Options(choices[..Min(|choices|, MAX_OPTIONS)])))]])
  {
    if AsButtons(choices) {
      BuiltButtons(Buttons(choices));
      OneRow(Buttons(choices));
    } else {
      var options := Options(choices[..Min(|choices|, MAX_OPTIONS)]);
      var row := [Menu("choice", options)];
      assert row[..0] == [];
      assert options[..Min(|options|, MAX_OPTIONS)] == options;
      assert BuiltRow(row) == [Menu("choice", BuiltOptions(options))];
      OneRow(row);
    }
  }

  /** One row of at most 5 buttons or of one menu with 1 to 25 options, every text within its limit. */
  lemma ShownWithinLimits(choices: seq<Choice>)
    requires choices != []
    ensures Shown(choices).Some? && |Shown(choices).value| == 1
    ensures var row := Shown(choices).value[0];
            && 1 <= |row| <= MAX_BUTTONS && (forall i :: 0 <= i < |row| ==> WithinLimits(row[i]))
            && (|row| > 1 ==> forall i :: 0 <= i < |row| ==> row[i].Button?)
  {
    ChoicesAreShownInOrder(choices);
  }

  /** The label of a choice, or its id when it has none, cut to what the component can show. */
  predicate Captions(text: string, c: Choice, limit: nat)
  {
    && (c.caption.Some? && !IsBlank(c.caption.value) ==> text == Truncate(c.caption.value, limit))
    && (c.caption.None? || IsBlank(c.caption.value) ==> text == Truncate(if c.id.Some? then c.id.value else "", limit))
  }

  /** Up to five choices with labels of at most 80 characters are buttons, all others one menu; buttons show 80
      characters of their label, options 100. */
  lemma ChoicesShowTheirLabels(choices: seq<Choice>, i: nat)
    requires choices != [] && i < |choices|
    ensures var row := Shown(choices).value[0];
            var fits := |choices| <= 5 && forall k ::
              0 <= k < |choices| && choices[k].caption.Some? ==> |choices[k].caption.value| <= 80;
            && Shown(choices).Some? && |Shown(choices).value| == 1 && row != [] && (row[0].Button? <==> fits)
            && (fits ==> |row| == |choices| && row[i].Button? && Captions(row[i].caption, choices[i], 80)
                         && row[i].customId == (if choices[i].id.Some? then choices[i].id.value else ""))
            && (!fits ==> |row| == 1 && row[0].Menu? && row[0].customId == "choice"
                          && |row[0].options| == (if |choices| <= 25 then |choices| else 25)
                          && (i < 25 ==>
                                && Captions(row[0].options[i].caption, choices[i], 100)
                                && row[0].options[i].value
                                     == Truncate(if choices[i].id.Some? then choices[i].id.value else "", 100)))
  {
    hide IsBlank, Shown;
    ChoicesAreShownInOrder(choices);
  }

  /** A confirmation shows two buttons, with the given labels or the standard ones. */
  lemma ConfirmationShowsTwoButtons(prompt: string, confirm: Option<string>, cancel: Option<string>)
    ensures var yes := if confirm.Some? && !IsBlank(confirm.value) then confirm.value else "Confirm";
            var no := if cancel.Some? && !IsBlank(cancel.value) then cancel.value else "Cancel";
            ShownFor(ConfirmAction(prompt, confirm, cancel))
              == Some([[Button("confirm", Truncate(yes, 80)), Button("cancel", Truncate(no, 80))]])
  {
    hide IsBlank;
    var yes := if Present(confirm) then confirm.value else "Confirm";
    var no := if Present(cancel) then cancel.value else "Cancel";
    var row := [Button("confirm", Truncate(yes, 80)), Button("cancel", Truncate(no, 80))];
    BuiltButtons(row);
    OneRow(row);
  }

  lemma NothingToShow(prompt: string)
    ensures ShownFor(PresentChoices(prompt, [])) == None
  {
  }

  // ----- the user's selection -----

  /** Interaction events carry the selected values as a list, or as a map holding the list. */
  datatype Shape = Nested | Flat

  function TextList(values: seq<string>): Payload
  {
    PList(seq(|values|, i requires 0 <= i < |values| => PText(values[i])))
  }

  /** The payload an interaction with a component produces; `rest` are the other entries. */
  function Interaction(sourceId: string, rest: map<string, Payload>, customId: string, values: seq<string>,
                       shape: Shape): Event
  {
    var shaped := if shape.Flat? then TextList(values)
                  else if values == [] then PMap(map[]) else PMap(map["values" := TextList(values)]);
    Event(sourceId, "interaction", rest["customId" := PText(customId)]["values" := shaped])
  }

  /** Can the user press the i-th button of the row, or pick the i-th option of its menu? */
  predicate CanPick(row: seq<Component>, i: nat)
  {
    row != [] && if row[0].Menu? then i < |row[0].options| else i < |row|
  }

  function Pick(row: seq<Component>, i: nat, sourceId: string, rest: map<string, Payload>, shape: Shape): Event
    requires CanPick(row, i)
  {
    if row[0].Menu? then Interaction(sourceId, rest, row[0].customId, [row[0].options[i].value], shape)
    else Interaction(sourceId, rest, row[i].customId, [], shape)
  }

  /** Entries the gateway puts into an interaction event; it never carries a text of its own. */
  predicate GatewayEntries(rest: map<string, Payload>)
  {
    "content" !in rest && "text" !in rest
  }

  lemma InteractionKeysDiffer()
    ensures "customId" != "values" && "content" != "customId" && "content" != "values"
    ensures "text" != "customId" && "text" != "values"
  {
    assert |"customId"| == 8 && |"values"| == 6 && |"content"| == 7 && |"text"| == 4;
  }

  lemma ReadInteraction(sourceId: string, rest: map<string, Payload>, customId: string, values: seq<string>,
                        shape: Shape, contentKey: Option<string>)
    requires GatewayEntries(rest)
    ensures var content := ReadContent(Interaction(sourceId, rest, customId, values, shape), contentKey);
            && (|values| == 1 ==> content == values[0])
            && (values != [] ==> content == Join(values, ", "))
            && (values == [] && !IsBlank(customId) ==> content == customId)
            && (values == [] && IsBlank(customId) && contentKey == None ==> content == "")
  {
    hide IsBlank, Join;
    OneValueJoins(values);
    InteractionKeysDiffer();
    var event := Interaction(sourceId, rest, customId, values, shape);
    assert InteractionValues(event.payload) == values by {
      ValuesComeBack(event, values, shape);
    }
    assert event.TextAt("customId") == Some(customId);
    assert event.TextAt("content") == None && event.TextAt("text") == None;
  }

  lemma OneValueJoins(values: seq<string>)
    ensures |values| == 1 ==> Join(values, ", ") == values[0]
  {
  }

  lemma ValuesComeBack(event: Event, values: seq<string>, shape: Shape)
    requires "values" in event.payload
    requires event.payload["values"] == if shape.Flat? then TextList(values)
               else if values == [] then PMap(map[]) else PMap(map["values" := TextList(values)])
    ensures InteractionValues(event.payload) == values
  {
    TextsComeBack(values);
  }

  lemma {:induction false} TextsComeBack(values: seq<string>)
    ensures ListOfStrings(TextList(values).items) == values
  {
    if values != [] {
      assert TextList(values).items[1..] == TextList(values[1..]).items;
      TextsComeBack(values[1..]);
    }
  }

  predicate StoresId(c: Choice, event: Event, storeIn: string, contentKey: Option<string>, w: World, i: nat, data: Data,
                     index: nat)
  {
    Execute(Capture(storeIn, contentKey, false), w, i, event, data, index)
      == Ran(Advance(Some(storeIn), Some(Str(IdOf(c)))), [])
  }

  /** The round trip: whichever payload shape the gateway uses, picking the i-th thing shown makes the capture step
      store exactly the i-th choice's id: always for a button with a non-blank id, and for a menu option exactly when
      its id has at most 100 characters. */
  lemma ChoiceRoundTrip(choices: seq<Choice>, i: nat, sourceId: string, rest: map<string, Payload>, shape: Shape,
                        storeIn: string, contentKey: Option<string>, w: World, iteration: nat, data: Data, index: nat)
    requires choices != [] && GatewayEntries(rest)
    ensures Shown(choices).Some? && |Shown(choices).value| == 1
    ensures var row := Shown(choices).value[0];
            CanPick(row, i) ==>
              && i < |choices|
              && var id := IdOf(choices[i]);
                 var stored := StoresId(choices[i], Pick(row, i, sourceId, rest, shape), storeIn, contentKey, w,
                                        iteration, data, index);
                 if AsButtons(choices) then
                   && (!IsBlank(id) ==> stored)
                   && (contentKey == None && IsBlank(id) ==> (stored <==> id == ""))
                 else stored <==> |id| <= MAX_OPTION_TEXT
  {
    hide ReadContent, IsBlank, CaptionOf, AsButtons, Shown;
    ChoicesAreShownInOrder(choices);
    if CanPick(Shown(choices).value[0], i) {
      if AsButtons(choices) {
        ReadInteraction(sourceId, rest, IdOf(choices[i]), [], shape, contentKey);
      } else {
        ReadInteraction(sourceId, rest, "choice", [Truncate(IdOf(choices[i]), MAX_OPTION_TEXT)], shape, contentKey);
      }
    }
  }

  /** Six choices make a menu, and an id of 101 characters in it comes back cut: the capture step stores another
      text. */
  lemma LongMenuIdIsCut(choices: seq<Choice>, sourceId: string, shape: Shape, w: World, iteration: nat, data: Data,
                        index: nat)
    requires |choices| == 6 && choices[0].id == Some(seq(101, _ => 'x'))
    ensures var row := Shown(choices).value[0];
            && Shown(choices).Some? && |Shown(choices).value| == 1 && CanPick(row, 0)
            && !StoresId(choices[0], Pick(row, 0, sourceId, map[], shape), "choice", None, w, iteration, data, index)
  {
    hide ReadContent, IsBlank, CaptionOf, Shown;
    ChoicesAreShownInOrder(choices);
    ChoiceRoundTrip(choices, 0, sourceId, map[], shape, "choice", None, w, iteration, data, index);
  }
}
