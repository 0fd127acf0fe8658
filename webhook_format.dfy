/**
 * `_format_webhook_response`: how the bot turns the workflow engine's reply
 * into one chat string.  A list is replaced by its first element, anything
 * that is not a dict is shown in a code block, a dict's `output` is
 * dispatched on `action` and `output.type` to one of the sub-renderers, and
 * every exception collapses to a fixed fallback text.
 */
module WebhookFormat {

  import opened Strings
  import opened PyValue
  import opened WebhookItems

  const SuccessMessage: string := "✅ Action effectuée avec succès"
  const ErrorFallback: string := "✅ Action effectuée"

  /** The HTTP reply as the renderer sees it: a parsed JSON body, or the raw text when decoding failed. */
  datatype Reply = Parsed(value: Json) | Undecodable(text: string)

  /** `f"✅ Réponse:\n```\n{x}\n```"`: a value shown in a code block. */
  function CodeBlock(text: string): string
  {
    "✅ Réponse:\n```\n" + text + "\n```"
  }

  const ActionEmojis: map<string, string> := map[
    "get_email" := "📧",
    "send_email" := "📨",
    "get_calendar" := "📅",
    "send_calendar" := "🗓️",
    "note" := "📝",
    "task" := "✅",
    "other" := "💡"
  ]

  /**
   * `action_emojis.get(action, '✅')`: the table entry of a known action, ✅
   * for anything else; a list or dict action cannot be hashed and raises.
   */
  function ActionEmoji(action: Json): (r: Outcome<string>)
    ensures r.Raised? <==> action.JArr? || action.JObj?
    ensures action.JStr? && action.s in ActionEmojis ==> r == Ok(ActionEmojis[action.s])
    ensures r.Ok? && !(action.JStr? && action.s in ActionEmojis) ==> r == Ok("✅")
  {
    match action
    case JArr(_) => Raised(TypeError)
    case JObj(_) => Raised(TypeError)
    case JStr(s) => Ok(if s in ActionEmojis then ActionEmojis[s] else "✅")
    case _ => Ok("✅")
  }

  /** The branches of the dispatch chain, in the order they are tried. */
  datatype Kind =
    | EmailList | EmailSent | CalendarList | EventCreated | NoteList | TaskList
    | GenericList | PlainContent | JsonFallback

  const DispatchOrder: seq<Kind> :=
    [EmailList, EmailSent, CalendarList, EventCreated, NoteList, TaskList, GenericList, PlainContent, JsonFallback]

  /** `action == name or output_type in types`. */
  predicate Selects(action: Json, outputType: Json, name: string, types: seq<string>)
  {
    action == JStr(name) || (outputType.JStr? && outputType.s in types)
  }

  /** The test that guards each branch. */
  predicate Matches(k: Kind, action: Json, outputType: Json, content: Json, items: Json)
  {
    match k
    case EmailList => Selects(action, outputType, "get_email", ["email_summary"])
    case EmailSent => Selects(action, outputType, "send_email", ["email_sent"])
    case CalendarList => Selects(action, outputType, "get_calendar", ["calendar_events"])
    case EventCreated => Selects(action, outputType, "send_calendar", ["calendar_event_created"])
    case NoteList => Selects(action, outputType, "note", ["note_created", "note_updated", "note_list"])
    case TaskList => Selects(action, outputType, "task", ["task_created", "task_updated", "task_list"])
    case GenericList => Truthy(items)
    case PlainContent => Truthy(content)
    case JsonFallback => true
  }

  /** The if/elif chain of the dispatcher. */
  function Classify(action: Json, outputType: Json, content: Json, items: Json): (k: Kind)
    ensures Matches(k, action, outputType, content, items)
  {
    if action == JStr("get_email") || outputType == JStr("email_summary") then EmailList
    else if action == JStr("send_email") || outputType == JStr("email_sent") then EmailSent
    else if action == JStr("get_calendar") || outputType == JStr("calendar_events") then CalendarList
    else if action == JStr("send_calendar") || outputType == JStr("calendar_event_created") then EventCreated
    else if action == JStr("note") || outputType in [JStr("note_created"), JStr("note_updated"), JStr("note_list")] then NoteList
    else if action == JStr("task") || outputType in [JStr("task_created"), JStr("task_updated"), JStr("task_list")] then TaskList
    else if Truthy(items) then GenericList
    else if Truthy(content) then PlainContent
    else JsonFallback
  }

  /** Where a branch stands in the dispatch order. */
  function Position(k: Kind): (n: nat)
    ensures n < |DispatchOrder| && DispatchOrder[n] == k
  {
    match k
    case EmailList => 0
    case EmailSent => 1
    case CalendarList => 2
    case EventCreated => 3
    case NoteList => 4
    case TaskList => 5
    case GenericList => 6
    case PlainContent => 7
    case JsonFallback => 8
  }

  /** The chain picks the first branch, in dispatch order, whose test holds. */
  lemma ClassifyFirstMatch(action: Json, outputType: Json, content: Json, items: Json)
    ensures Matches(Classify(action, outputType, content, items), action, outputType, content, items)
    ensures forall j :: 0 <= j < Position(Classify(action, outputType, content, items)) ==>
              !Matches(DispatchOrder[j], action, outputType, content, items)
  {
    var k := Classify(action, outputType, content, items);
    forall j | 0 <= j < Position(k)
      ensures !Matches(DispatchOrder[j], action, outputType, content, items)
    {
      EarlierFails(j, action, outputType, content, items);
    }
  }

  /** A branch tried before the chosen one does not match. */
  lemma EarlierFails(j: nat, action: Json, outputType: Json, content: Json, items: Json)
    requires j < Position(Classify(action, outputType, content, items))
    ensures !Matches(DispatchOrder[j], action, outputType, content, items)
  {
    assert Position(DispatchOrder[j]) == j;
  }

  /** `output.get(...)` on a dict `output`: its type, content and items with their defaults. */
  function OutputType(o: seq<(string, Json)>): Json { Get(o, "type", JStr("")) }
  function OutputContent(o: seq<(string, Json)>): Json { Get(o, "content", JStr("")) }
  function OutputItems(o: seq<(string, Json)>): Json { Get(o, "items", JArr([])) }

  /** The text of a dispatch branch, given its emoji. */
  function RenderKind(k: Kind, emoji: string, data: Json, content: Json, items: Json, host: Host): Outcome<string>
  {
    match k
    case EmailList => EmailListText(emoji, content, items, host)
    case EmailSent => Ok(Header(emoji, content, host.printer))
    case CalendarList => CalendarEventsText(emoji, content, items, host)
    case EventCreated => Ok(Header(emoji, content, host.printer))
    case NoteList => NotesText(emoji, content, items, host)
    case TaskList => TasksText(emoji, content, items, host)
    case GenericList => GenericListText(emoji, content, items, host.printer)
    case PlainContent => Ok(Header(emoji, content, host.printer))
    case JsonFallback => Ok(emoji + " Réponse:\n```json\n" + host.dumps(data) + "\n```")
  }

  /**
   * Everything after the list unwrapping: a value that is not a dict is
   * shown in a code block; a dict with a missing or falsy `output` is a
   * plain success; otherwise `output` must be a dict, the debug line needs
   * `len` of a truthy `content` and of `items`, and the branch is chosen by
   * the dispatch chain.
   */
  function RenderData(data: Json, host: Host): (r: Outcome<string>)
    ensures !data.JObj? ==> r == Ok(CodeBlock(Show(data, host.printer)))
  {
    match data
    case JObj(f) =>
      var action := Get(f, "action", JNull);
      var output := Get(f, "output", JObj([]));
      if !Truthy(output) then Ok(SuccessMessage)
      else if !output.JObj? then Raised(AttributeError)
      else
        var outputType := OutputType(output.fields);
        var content := OutputContent(output.fields);
        var items := OutputItems(output.fields);
        if Truthy(content) && Len(content).None? then Raised(TypeError)
        else if Len(items).None? then Raised(TypeError)
        else
          var emoji :- ActionEmoji(action);
          RenderKind(Classify(action, outputType, content, items), emoji, data, content, items, host)
    case _ => Ok(CodeBlock(Show(data, host.printer)))
  }

  /** A list reply stands for its first element; an empty list is a plain success. */
  function RenderParsed(data: Json, host: Host): (r: Outcome<string>)
    ensures data == JArr([]) ==> r == Ok(SuccessMessage)
    ensures !data.JArr? && !data.JObj? ==> r == Ok(CodeBlock(Show(data, host.printer)))
    ensures data.JArr? && |data.elems| > 0 && data.elems[0].JArr? ==>
              r == Ok(CodeBlock(Show(data.elems[0], host.printer)))
    ensures data.JArr? && |data.elems| > 0 ==> r == RenderData(data.elems[0], host)
  {
    match data
    case JArr(elems) => if |elems| == 0 then Ok(SuccessMessage) else RenderData(elems[0], host)
    case _ => RenderData(data, host)
  }

  /** `_format_webhook_response`: never raises; an exception becomes the short fallback text. */
  function FormatWebhookResponse(reply: Reply, host: Host): (r: string)
    ensures reply.Undecodable? ==> r == CodeBlock(reply.text)
  {
    match reply
    case Undecodable(text) => CodeBlock(text)
    case Parsed(data) =>
      match RenderParsed(data, host)
      case Ok(s) => s
      case Raised(_) => ErrorFallback
  }

  // ---------------------------------------------------------------------------
  // Properties of the top-level shape handling

  /** An empty list is a plain success. */
  lemma EmptyListSucceeds(host: Host)
    ensures FormatWebhookResponse(Parsed(JArr([])), host) == SuccessMessage
  {
  }

  /** A non-empty list renders exactly as its first element, unless that element is itself a list. */
  lemma FirstElementStandsForList(elems: seq<Json>, host: Host)
    requires |elems| > 0 && !elems[0].JArr?
    ensures FormatWebhookResponse(Parsed(JArr(elems)), host) == FormatWebhookResponse(Parsed(elems[0]), host)
  {
  }

  /** A list whose first element is a list is not unwrapped twice: the inner list is shown in a code block. */
  lemma NestedListShown(elems: seq<Json>, host: Host)
    requires |elems| > 0 && elems[0].JArr?
    ensures FormatWebhookResponse(Parsed(JArr(elems)), host) == CodeBlock(Show(elems[0], host.printer))
  {
  }

  /** A scalar reply is shown in a code block as Python prints it. */
  lemma ScalarShown(v: Json, host: Host)
    requires !v.JArr? && !v.JObj?
    ensures FormatWebhookResponse(Parsed(v), host) == CodeBlock(Show(v, host.printer))
  {
  }

  /** A dict without an `output`, or with a falsy one, is a plain success. */
  lemma NoOutputSucceeds(fields: seq<(string, Json)>, host: Host)
    requires !Truthy(Get(fields, "output", JObj([])))
    ensures FormatWebhookResponse(Parsed(JObj(fields)), host) == SuccessMessage
  {
  }

  /** A truthy `output` that is not a dict raises on `.get` and ends in the fallback text. */
  lemma OutputNotObjectFails(fields: seq<(string, Json)>, host: Host)
    requires Truthy(Get(fields, "output", JObj([]))) && !Get(fields, "output", JObj([])).JObj?
    ensures FormatWebhookResponse(Parsed(JObj(fields)), host) == ErrorFallback
  {
  }

  /**
   * The debug line evaluates `len(items)` and, when `content` is truthy,
   * `len(content)` before any branch is chosen: an `items` or truthy
   * `content` without a length (None, a number, a bool) ends in the fallback
   * text, whatever the action.
   */
  lemma LengthlessFieldFails(fields: seq<(string, Json)>, o: seq<(string, Json)>, host: Host)
    requires Get(fields, "output", JObj([])) == JObj(o) && |o| > 0
    requires Len(OutputItems(o)).None? || (Truthy(OutputContent(o)) && Len(OutputContent(o)).None?)
    ensures FormatWebhookResponse(Parsed(JObj(fields)), host) == ErrorFallback
  {
  }

  /** The result of a dispatched dict: what the chosen branch renders, or the fallback text. */
  predicate Dispatched(fields: seq<(string, Json)>, o: seq<(string, Json)>, emoji: string, k: Kind, host: Host)
  {
    && Get(fields, "output", JObj([])) == JObj(o) && |o| > 0
    && Len(OutputItems(o)).Some?
    && (!Truthy(OutputContent(o)) || Len(OutputContent(o)).Some?)
    && ActionEmoji(Get(fields, "action", JNull)) == Ok(emoji)
    && k == Classify(Get(fields, "action", JNull), OutputType(o), OutputContent(o), OutputItems(o))
  }

  /** A dispatched dict's data is rendered by its branch. */
  lemma DispatchedData(fields: seq<(string, Json)>, o: seq<(string, Json)>, emoji: string, k: Kind, host: Host)
    requires Dispatched(fields, o, emoji, k, host)
    ensures RenderData(JObj(fields), host) == RenderKind(k, emoji, JObj(fields), OutputContent(o), OutputItems(o), host)
  {
  }

  /** A dispatched dict renders as its branch, or as the fallback text when the branch raises. */
  lemma DispatchedRendering(fields: seq<(string, Json)>, o: seq<(string, Json)>, emoji: string, k: Kind, host: Host)
    requires Dispatched(fields, o, emoji, k, host)
    ensures var r := RenderKind(k, emoji, JObj(fields), OutputContent(o), OutputItems(o), host);
            FormatWebhookResponse(Parsed(JObj(fields)), host) == (if r.Ok? then r.value else ErrorFallback)
  {
    DispatchedData(fields, o, emoji, k, host);
  }

  /** Every text a branch renders begins with the action's emoji. */
  lemma BranchStartsWithEmoji(k: Kind, emoji: string, data: Json, content: Json, items: Json, host: Host)
    ensures var r := RenderKind(k, emoji, data, content, items, host);
            r.Ok? ==> emoji <= r.value
  {
    var r := RenderKind(k, emoji, data, content, items, host);
    var h := Header(emoji, content, host.printer);
    if r.Ok? && k in {EmailList, CalendarList, GenericList, NoteList, TaskList} {
      assert h <= r.value;
    }
  }

  /** The email-sent, event-created and plain-content branches print exactly `emoji **content**`. */
  lemma HeaderOnlyBranches(fields: seq<(string, Json)>, o: seq<(string, Json)>, emoji: string, k: Kind, host: Host)
    requires Dispatched(fields, o, emoji, k, host)
    requires k == EmailSent || k == EventCreated || k == PlainContent
    ensures FormatWebhookResponse(Parsed(JObj(fields)), host)
            == emoji + " **" + Show(OutputContent(o), host.printer) + "**"
  {
    DispatchedRendering(fields, o, emoji, k, host);
  }

  /** Notes and tasks with no items print the bare header, with no blank line after it. */
  lemma EmptyNotesAndTasks(fields: seq<(string, Json)>, o: seq<(string, Json)>, emoji: string, k: Kind, host: Host)
    requires Dispatched(fields, o, emoji, k, host)
    requires (k == NoteList || k == TaskList) && !Truthy(OutputItems(o))
    ensures FormatWebhookResponse(Parsed(JObj(fields)), host)
            == emoji + " **" + Show(OutputContent(o), host.printer) + "**"
  {
    DispatchedRendering(fields, o, emoji, k, host);
  }

  /** A dict with an `output` but nothing to dispatch on is pretty-printed whole after the emoji. */
  lemma JsonFallbackBranch(fields: seq<(string, Json)>, o: seq<(string, Json)>, emoji: string, host: Host)
    requires Dispatched(fields, o, emoji, JsonFallback, host)
    ensures FormatWebhookResponse(Parsed(JObj(fields)), host)
            == emoji + " Réponse:\n```json\n" + host.dumps(JObj(fields)) + "\n```"
  {
    DispatchedRendering(fields, o, emoji, JsonFallback, host);
  }

  /** An email, calendar, note or task listing that meets a non-dict item raises, which ends in the fallback text. */
  lemma NonObjectItemFails(fields: seq<(string, Json)>, o: seq<(string, Json)>, emoji: string, k: Kind, host: Host, n: nat)
    requires Dispatched(fields, o, emoji, k, host)
    requires k == EmailList || k == TaskList || k == CalendarList || k == NoteList
    requires OutputItems(o).JArr? && n < |OutputItems(o).elems| && !OutputItems(o).elems[n].JObj?
    ensures FormatWebhookResponse(Parsed(JObj(fields)), host) == ErrorFallback
  {
    DispatchedRendering(fields, o, emoji, k, host);
    var xs := OutputItems(o).elems;
    if k == EmailList {
      assert !EmailBlock(xs[n], n + 1, host).Ok?;
    } else if k == TaskList {
      assert !TaskBlock(xs[n], n + 1, host).Ok?;
    } else if k == CalendarList {
      assert !EventBlock(xs[n], n + 1, host).Ok?;
    } else {
      assert !NoteBlock(xs[n], n + 1, host).Ok?;
    }
  }
}
