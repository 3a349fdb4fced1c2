# avr-llm-anthropic: prompt-stream handler and tool registry in Dafny

A model of the `/prompt-stream` request handler of avr-llm-anthropic, a
relay that forwards chat messages to the Anthropic messages API and streams
the reply back as `{type: "text", content}` events, together with the tool
registry it uses to describe tools to the model and to run the tools the
model asks for.

- `js_values.dfy` (module `JsValues`): JSON values, JavaScript truthiness,
  and `Result<T> = Ok(value) | Throws` for a call that returns or throws.
- `registry.dfy` (module `Registry`, loadTools.js): the tools directory is
  an ordered listing of `(fileName, load outcome)` entries. `LoadTools`
  projects each module onto a `ToolDescriptor` of name, description and input
  schema. `GetToolHandler` resolves `<name>.js` and returns its `handler`
  export, which may be absent.
- `prompt_stream.dfy` (module `PromptStream`, index.js): the handler as a
  method returning the trace of operations on the response object
  (`SetStatus`, `SendJson`, `Write(event)`, `End`). The provider call and the
  tool handlers are oracles passed in as total functions: the provider gets
  the messages and the loaded descriptors, and a handler gets only the item's
  `input`. `Events` is the declarative reference for the streamed part. It
  emits one event per `text` or `tool_use` item, in item order. The
  imperative loop in `HandlePromptStream` is proved to write exactly those
  events and then end the stream.

Behaviour of the code worth knowing:
- `getToolHandler` throws for an unknown tool name. The per-item catch turns
  that throw into the fallback text.
- `messages` is checked for JavaScript truthiness only. An empty array is
  accepted and forwarded.
- An empty `content` array yields no event at all. Only a missing or
  non-array `content` yields the single fallback event.
- The provider is called once per request, and a handler receives only the
  item's `input`.
- Descriptors keep the directory listing's order, and one module that fails
  to load makes the whole load throw. The request then gets the 500 reply.

## Model

| member | source | states |
|---|---|---|
| `Registry.LoadEntries` | loadTools.js:8-15 | the map succeeds iff every listed module loads; it then gives one descriptor per entry, in listing order, each carrying exactly that module's name, description and input schema |
| `Registry.LoadTools` | loadTools.js:4-18 | an unreadable directory or any failing module makes `loadTools` throw; otherwise one descriptor per directory entry, in listing order, with exactly the module's name/description/input_schema and no handler |
| `Registry.LoadToolsSeesOnlyDescriptors` | loadTools.js:4-18 | two directories that agree on what modules declare give equal descriptor lists, whatever their file names and handlers; so two loads of an unchanged directory agree and handlers never reach the model |
| `Registry.FirstIndex` | loadTools.js:21 | the file `require` resolves is the first listed entry with that exact file name, and -1 means no listed file has that name |
| `Registry.GetToolHandler` | loadTools.js:20-23 | resolution throws when the tools directory is missing (modelled as unreadable) or no file `<name>.js` exists; with distinct file names, the result for the file `<name>.js` is its `handler` export unchanged (possibly absent), or a throw if the module fails to load; any returned handler comes from a loaded `<name>.js` |
| `Registry.ResolutionIgnoresDeclaredNames` | loadTools.js:21-22 | resolution depends only on file names, load outcomes and handlers; a module's declared `name`, description and schema never influence which handler is returned |
| `Registry.DeclaredNameIsNotTheKey` | loadTools.js:21 | a module declaring "get_weather" in weather.js is found as "weather", and asking for "get_weather" throws |
| `PromptStream.ToolEvent` | index.js:67-88 | a tool_use item yields the fallback text when the lookup throws, the handler is falsy, or the handler throws; any other event carries the text the found handler returned for exactly the item's `input` |
| `PromptStream.HandlePromptStream` | index.js:30-105 | falsy `messages` gives 400 with "Messages is required" and nothing else, whatever the registry and provider would do; a failing tool load or provider call gives 500 with "Error communicating with Anthropic API" and no event; otherwise the writes are exactly `Events` of the content array, or the single fallback event when content is not an array, followed by one `end`, which comes last |
| `PromptStream.EventsAppend` | index.js:60-90 | the events of two consecutive runs of items are the events of the first followed by those of the second, so each item's event depends on that item alone (handlers being pure oracles) |
| `PromptStream.EmittedAppend` | index.js:60-90 | the event-yielding items of a concatenation are those of each part, in order |
| `PromptStream.EventsSplit` | index.js:60-90 | the events of the content are those of the items before `i`, then item `i`'s, then those of the items after it |
| `PromptStream.EventCount` | index.js:60-90 | the number of events equals the number of "text" items plus the number of "tool_use" items |
| `PromptStream.EventAtPosition` | index.js:59-81 | the event at the position of item `i` (after the events of earlier items) is the item's text verbatim for a "text" item and its tool dispatch result for a "tool_use" item |
| `PromptStream.EventsInItemOrder` | index.js:60 | an event-yielding item's event comes strictly before the event of any later item, so events follow item order |
| `PromptStream.OtherItemSilent` | index.js:61-89 | an item whose type is neither "text" nor "tool_use" yields no event: the events equal those of the content with that item removed |
| `PromptStream.ToolFailureContinues` | index.js:67-88 | a tool_use item whose lookup throws, whose handler is falsy or throws contributes exactly the fallback event, and the following items yield the same events as on their own |
| `PromptStream.WeatherScenario` | index.js:78-81 | one `get_weather` call whose handler answers "18°C, sunny" for `{city: "Paris"}` yields exactly one event with that text |
| `PromptStream.EventsSingle` | index.js:61-89 | a single item yields one event (its `EventFor`) when it is "text" or "tool_use", and none otherwise |

## Left out

- Express setup, route registration, `app.listen` and the port default: server plumbing.
- The SSE headers and the `JSON.stringify` wire format: events are a datatype, not bytes.
- dotenv and the model, max_tokens, temperature and system prompt configuration. Each is read from the environment with a default. `max_tokens` and `temperature` are first coerced with unary `+`, so 0 or a non-number falls back to the default: a configured temperature of 0 is sent as 1, and a `max_tokens` of 0 is sent as 1024. These values only reach the provider, which is an oracle here.
- The Anthropic SDK client and the network call: the provider is an oracle that replies or fails.
- `fs.readdirSync`, `path.join`, Node's `require` resolution and module cache: the directory is an abstract listing. A name containing path separators, or Node's extension and `index.js` fallbacks, are not modelled; a tool name resolves to exactly the listed file `<name>.js`.
- `async`/`await`: handlers are awaited one at a time, so they are sequential oracle calls. A handler is treated as a pure function of its input; state it keeps between calls is not modelled.
- Handler return values are modelled as strings. A JavaScript handler may return any value, which `JSON.stringify` would then encode.
- Content items are well-formed objects. A `null` item would make `contentItem.type` throw outside the per-tool try, and the outer catch would handle it. If nothing has been written yet, because the item comes first or only items of other types precede it, the catch sends the 500 "Error communicating with Anthropic API" reply even though the provider call succeeded. If an earlier item has already written, the catch's `res.status(500).json(...)` cannot send its reply and the stream is never ended. Neither path is modelled.
- JSON numbers are integers. Fractional numbers and NaN, including the falsiness of NaN, are not modelled.
- Registry.GetToolHandler: a directory that cannot be listed is treated as one where every lookup throws. The source's `require` of `<name>.js` would still succeed when the directory can be traversed but not listed. Inside the handler this case never arises, because `LoadTools` throws first and the request gets the 500 reply.
- All `console.*` logging.
