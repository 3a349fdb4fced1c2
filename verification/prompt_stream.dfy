/** The `/prompt-stream` handler of index.js: validate the request, load the
    tools, call the model provider, and turn the content of its reply into a
    stream of text events, dispatching `tool_use` items to tool handlers.

    The provider and the tool handlers are oracles passed in as functions;
    the response is the trace of operations performed on the HTTP response
    object, in order.
 */
module PromptStream {
  import opened JsValues
  import opened Registry

  const MessagesRequired := "Messages is required"
  const ApiError := "Error communicating with Anthropic API"
  /** The one text shown to the caller whenever a tool cannot answer or the
      provider's reply has no content array. */
  const Fallback := "I'm sorry, I cannot retrieve the requested information."
  const TextType := "text"
  const ToolUseType := "tool_use"

  /** The parsed request body; only `messages` is read. */
  datatype RequestBody = RequestBody(messages: Option<Json>)

  /** One element of the provider's `content` array. Which fields matter
      depends on `kind` (the item's `type`): `text` for "text" items, `name`
      and `input` for "tool_use" items. */
  datatype ContentItem = ContentItem(kind: string, text: string, name: string, input: Json)

  /** The provider reply's `content`: an array, or anything else (missing,
      null, an object, ...). */
  datatype Content = Items(items: seq<ContentItem>) | NotAnArray

  /** The provider call: it receives the messages unchanged and the loaded
      tool descriptors, and either replies or fails. */
  type Provider = (Json, seq<ToolDescriptor>) -> Result<Content>

  /** Running a tool handler: it receives only the item's `input`, and
      either returns a text or throws. */
  type Invoker = (Handler, Json) -> Result<string>

  /** The only event shape written to the stream: `{type: "text", content}`. */
  datatype Event = TextEvent(content: string)

  /** An operation on the HTTP response object. A streamed reply sets no
      status of its own: it goes out with the framework's default 200. */
  datatype ResOp =
    | SetStatus(code: int)
    | SendJson(message: string)   // `res.json({message})`, which also ends the response
    | Write(event: Event)
    | End

  /** True of the items the loop writes an event for. */
  predicate Emits(item: ContentItem)
  {
    item.kind == TextType || item.kind == ToolUseType
  }

  /** The items that yield an event, in content order. */
  function Emitted(items: seq<ContentItem>): seq<ContentItem>
  {
    if |items| == 0 then []
    else (if Emits(items[0]) then [items[0]] else []) + Emitted(items[1..])
  }

  /** The three ways a `tool_use` item ends in the fallback text: the lookup
      throws, the module has no handler, or the handler throws. */
  predicate ToolFails(dir: Directory, invoke: Invoker, item: ContentItem)
  {
    var lookup := GetToolHandler(dir, item.name);
    lookup.Throws? || lookup.value.None? || invoke(lookup.value.value, item.input).Throws?
  }

  /** The event a `tool_use` item yields. */
  function ToolEvent(dir: Directory, invoke: Invoker, item: ContentItem): (e: Event)
    ensures ToolFails(dir, invoke, item) ==> e == TextEvent(Fallback)
    ensures !ToolFails(dir, invoke, item) ==>
      var h := GetToolHandler(dir, item.name).value.value;
      invoke(h, item.input) == Ok(e.content)
  {
    match GetToolHandler(dir, item.name)
    case Throws => TextEvent(Fallback)
    case Ok(None) => TextEvent(Fallback)
    case Ok(Some(h)) =>
      match invoke(h, item.input)
      case Throws => TextEvent(Fallback)
      case Ok(content) => TextEvent(content)
  }

  /** The event an emitting item yields: its text verbatim, or its tool's answer. */
  function EventFor(dir: Directory, invoke: Invoker, item: ContentItem): Event
  {
    if item.kind == TextType then TextEvent(item.text) else ToolEvent(dir, invoke, item)
  }

  /** Reference definition of the events a content array yields: one per
      emitting item, in item order. */
  function Events(dir: Directory, invoke: Invoker, items: seq<ContentItem>): seq<Event>
  {
    var emitted := Emitted(items);
    seq(|emitted|, k requires 0 <= k < |emitted| => EventFor(dir, invoke, emitted[k]))
  }

  function Writes(events: seq<Event>): seq<ResOp>
  {
    seq(|events|, k requires 0 <= k < |events| => Write(events[k]))
  }

  /** The try block up to the provider's reply: load the tools, then call the
      provider with them. Either step throwing lands in the catch block. */
  function Upstream(messages: Json, dir: Directory, provider: Provider): Result<Content>
  {
    match LoadTools(dir)
    case Throws => Throws
    case Ok(tools) => provider(messages, tools)
  }

  /** A streamed response: some writes, then `res.end()` exactly once, last. */
  predicate EndedOnceAfterWrites(trace: seq<ResOp>)
  {
    && |trace| > 0
    && trace[|trace| - 1] == End
    && forall k :: 0 <= k < |trace| - 1 ==> trace[k].Write?
  }

  /** `handlePromptStream(req, res)`, written as the source's sequence of
      writes to `res`. */
  method HandlePromptStream(body: RequestBody, dir: Directory, provider: Provider, invoke: Invoker)
    returns (trace: seq<ResOp>)
    ensures !Truthy(body.messages) ==> trace == [SetStatus(400), SendJson(MessagesRequired)]
    ensures Truthy(body.messages) && Upstream(body.messages.value, dir, provider).Throws? ==>
      trace == [SetStatus(500), SendJson(ApiError)]
    ensures Truthy(body.messages) && Upstream(body.messages.value, dir, provider).Ok? ==>
      EndedOnceAfterWrites(trace)
    ensures Truthy(body.messages) && Upstream(body.messages.value, dir, provider) == Ok(NotAnArray) ==>
      trace == [Write(TextEvent(Fallback)), End]
    ensures Truthy(body.messages) && Upstream(body.messages.value, dir, provider).Ok? &&
            Upstream(body.messages.value, dir, provider).value.Items? ==>
      trace == Writes(Events(dir, invoke, Upstream(body.messages.value, dir, provider).value.items)) + [End]
  {
    if !Truthy(body.messages) {
      return [SetStatus(400), SendJson(MessagesRequired)];
    }
    var tools := LoadTools(dir);
    if tools.Throws? {
      return [SetStatus(500), SendJson(ApiError)];
    }
    var response := provider(body.messages.value, tools.value);
    if response.Throws? {
      return [SetStatus(500), SendJson(ApiError)];
    }
    trace := [];
    match response.value {
      case NotAnArray =>
        trace := [Write(TextEvent(Fallback))];
      case Items(items) =>
        var i := 0;
        while i < |items|
          invariant 0 <= i <= |items|
          invariant trace == Writes(Events(dir, invoke, items[..i]))
        {
          var item := items[i];
          if item.kind == TextType {
            trace := trace + [Write(TextEvent(item.text))];
          } else if item.kind == ToolUseType {
            // The lookup, the falsy check and the call share one try: any throw writes the fallback.
            var lookup := GetToolHandler(dir, item.name);
            if lookup.Throws? || lookup.value.None? {
              trace := trace + [Write(TextEvent(Fallback))];
            } else {
              var content := invoke(lookup.value.value, item.input);
              if content.Throws? {
                trace := trace + [Write(TextEvent(Fallback))];
              } else {
                trace := trace + [Write(TextEvent(content.value))];
              }
            }
          }
          assert items[..i + 1] == items[..i] + [item];
          EventsAppend(dir, invoke, items[..i], [item]);
          EventsSingle(dir, invoke, item);
          WritesAppend(Events(dir, invoke, items[..i]), Events(dir, invoke, [item]));
          i := i + 1;
        }
        assert items[..i] == items;
    }
    trace := trace + [End];
  }

  lemma WritesAppend(a: seq<Event>, b: seq<Event>)
    ensures Writes(a + b) == Writes(a) + Writes(b)
  {
  }

  lemma {:induction false} EmittedAppend(a: seq<ContentItem>, b: seq<ContentItem>)
    ensures Emitted(a + b) == Emitted(a) + Emitted(b)
  {
    if |a| == 0 {
      assert a + b == b;
    } else {
      assert (a + b)[1..] == a[1..] + b;
      EmittedAppend(a[1..], b);
    }
  }

  lemma EventsSingle(dir: Directory, invoke: Invoker, item: ContentItem)
    ensures Events(dir, invoke, [item]) == (if Emits(item) then [EventFor(dir, invoke, item)] else [])
  {
    assert [item][1..] == [];
    assert Emitted([item]) == (if Emits(item) then [item] else []) + Emitted([]);
  }

  /** Events of consecutive pieces of content concatenate: each item's event
      depends on that item alone. */
  lemma {:induction false} EventsAppend(dir: Directory, invoke: Invoker, a: seq<ContentItem>, b: seq<ContentItem>)
    ensures Events(dir, invoke, a + b) == Events(dir, invoke, a) + Events(dir, invoke, b)
  {
    EmittedAppend(a, b);
  }

  /** Events of one item followed by the rest: the split the loop makes at
      every item. */
  lemma EventsSplit(dir: Directory, invoke: Invoker, items: seq<ContentItem>, i: int)
    requires 0 <= i < |items|
    ensures Events(dir, invoke, items) ==
      Events(dir, invoke, items[..i]) + Events(dir, invoke, [items[i]]) + Events(dir, invoke, items[i + 1..])
  {
    assert items == items[..i] + [items[i]] + items[i + 1..];
    EventsAppend(dir, invoke, items[..i] + [items[i]], items[i + 1..]);
    EventsAppend(dir, invoke, items[..i], [items[i]]);
  }

  /** How many items of type `kind` the content holds. */
  function CountType(items: seq<ContentItem>, kind: string): nat
  {
    if |items| == 0 then 0
    else (if items[0].kind == kind then 1 else 0) + CountType(items[1..], kind)
  }

  /** One event per "text" item plus one per "tool_use" item; nothing else
      yields an event. */
  lemma {:induction false} EventCount(dir: Directory, invoke: Invoker, items: seq<ContentItem>)
    ensures |Events(dir, invoke, items)| == CountType(items, TextType) + CountType(items, ToolUseType)
  {
    if |items| > 0 {
      EventCount(dir, invoke, items[1..]);
    }
  }

  /** The event of item `i` sits right after the events of the items before
      it: a "text" item's text verbatim, a "tool_use" item's dispatch result. */
  lemma EventAtPosition(dir: Directory, invoke: Invoker, items: seq<ContentItem>, i: int)
    requires 0 <= i < |items| && Emits(items[i])
    ensures |Emitted(items[..i])| < |Events(dir, invoke, items)|
    ensures items[i].kind == TextType ==>
      Events(dir, invoke, items)[|Emitted(items[..i])|] == TextEvent(items[i].text)
    ensures items[i].kind == ToolUseType ==>
      Events(dir, invoke, items)[|Emitted(items[..i])|] == ToolEvent(dir, invoke, items[i])
  {
    EventsSplit(dir, invoke, items, i);
    EventsSingle(dir, invoke, items[i]);
  }

  /** Events keep item order: an emitting item's event comes before the event
      of any later item. */
  lemma EventsInItemOrder(items: seq<ContentItem>, i: int, j: int)
    requires 0 <= i < j <= |items| && Emits(items[i])
    ensures |Emitted(items[..i])| < |Emitted(items[..j])|
  {
    assert items[..j] == items[..i] + ([items[i]] + items[i + 1..j]);
    EmittedAppend(items[..i], [items[i]] + items[i + 1..j]);
    EmittedAppend([items[i]], items[i + 1..j]);
    assert [items[i]][1..] == [];
    assert Emitted([items[i]]) == [items[i]] + Emitted([]);
  }

  /** An item of any other type is skipped: the events are those of the
      content without it. */
  lemma OtherItemSilent(dir: Directory, invoke: Invoker, items: seq<ContentItem>, i: int)
    requires 0 <= i < |items| && !Emits(items[i])
    ensures Events(dir, invoke, items) == Events(dir, invoke, items[..i] + items[i + 1..])
  {
    EventsSplit(dir, invoke, items, i);
    EventsSingle(dir, invoke, items[i]);
    EventsAppend(dir, invoke, items[..i], items[i + 1..]);
  }

  /** A failing tool contributes exactly the fallback event and processing
      carries on with the next item as if nothing had happened. */
  lemma ToolFailureContinues(dir: Directory, invoke: Invoker, items: seq<ContentItem>, i: int)
    requires 0 <= i < |items| && items[i].kind == ToolUseType && ToolFails(dir, invoke, items[i])
    ensures Events(dir, invoke, items) ==
      Events(dir, invoke, items[..i]) + [TextEvent(Fallback)] + Events(dir, invoke, items[i + 1..])
  {
    EventsSplit(dir, invoke, items, i);
    EventsSingle(dir, invoke, items[i]);
  }

  /** A handler that knows one tool call: the weather in Paris. */
  function ParisWeather(h: Handler, input: Json): Result<string>
  {
    if h == Handler(1) && input == JObj([("city", JStr("Paris"))]) then Ok("18°C, sunny") else Throws
  }

  /** A single `get_weather` call whose handler answers "18°C, sunny" yields
      exactly that one event. */
  lemma WeatherScenario()
    ensures var dir := Listing([Entry("get_weather.js",
                          Loaded(ToolModule(Some("get_weather"), None, None, Some(Handler(1)))))]);
            var call := ContentItem(ToolUseType, "", "get_weather", JObj([("city", JStr("Paris"))]));
            Events(dir, ParisWeather, [call]) == [TextEvent("18°C, sunny")]
  {
    var dir := Listing([Entry("get_weather.js",
                 Loaded(ToolModule(Some("get_weather"), None, None, Some(Handler(1)))))]);
    var call := ContentItem(ToolUseType, "", "get_weather", JObj([("city", JStr("Paris"))]));
    assert ToolFile("get_weather") == "get_weather.js";
    assert GetToolHandler(dir, "get_weather") == Ok(Some(Handler(1)));
    EventsSingle(dir, ParisWeather, call);
  }
}
