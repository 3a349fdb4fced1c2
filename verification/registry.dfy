/** The tool registry of loadTools.js: tools are the modules found in a tools
    directory. `LoadTools` projects every module onto the descriptor handed to
    the model; `GetToolHandler` resolves a tool by its FILE name and returns
    the module's `handler` export.

    The directory is abstract: an ordered listing of file names, each paired
    with the outcome of requiring that file.
 */
module Registry {
  import opened JsValues

  /** The function a tool module exports as `handler`. Handlers are opaque;
      running one is an oracle call made by the prompt-stream handler. */
  datatype Handler = Handler(id: nat)

  /** What a tool module exports. Every field may be missing; a missing or
      otherwise falsy `handler` is `None`. */
  datatype ToolModule = ToolModule(
    name: Option<string>,
    description: Option<string>,
    inputSchema: Option<Json>,
    handler: Option<Handler>)

  /** Requiring a file either yields its exports or throws. */
  datatype ModuleLoad = Loaded(tool: ToolModule) | LoadFails

  datatype Entry = Entry(fileName: string, load: ModuleLoad)

  /** The tools directory: unreadable (listing it throws), or its listing in
      the order the file system returns it. */
  datatype Directory = Unreadable | Listing(entries: seq<Entry>)

  /** What the model is told about a tool; there is deliberately no handler. */
  datatype ToolDescriptor = ToolDescriptor(
    name: Option<string>,
    description: Option<string>,
    inputSchema: Option<Json>)

  predicate AllLoad(entries: seq<Entry>)
  {
    forall i :: 0 <= i < |entries| ==> entries[i].load.Loaded?
  }

  /** `t` carries exactly the name, description and input schema of `m`. */
  predicate Describes(t: ToolDescriptor, m: ToolModule)
  {
    t.name == m.name && t.description == m.description && t.inputSchema == m.inputSchema
  }

  /** Directory file names are distinct, as in any real directory. */
  predicate UniqueFileNames(entries: seq<Entry>)
  {
    forall i, j :: 0 <= i < j < |entries| ==> entries[i].fileName != entries[j].fileName
  }

  /** The `files.map(...)` step: require every file in listing order and keep
      its name, description and input schema. The first file whose require
      throws makes the whole map throw. */
  function LoadEntries(entries: seq<Entry>): (r: Result<seq<ToolDescriptor>>)
    ensures r.Ok? <==> AllLoad(entries)
    ensures r.Ok? ==> |r.value| == |entries|
    ensures r.Ok? ==> forall i :: 0 <= i < |entries| ==>
      entries[i].load.Loaded? && Describes(r.value[i], entries[i].load.tool)
  {
    if |entries| == 0 then Ok([])
    else
      match entries[0].load
      case LoadFails => Throws
      case Loaded(m) =>
        match LoadEntries(entries[1..])
        case Throws => Throws
        case Ok(rest) => Ok([ToolDescriptor(m.name, m.description, m.inputSchema)] + rest)
  }

  /** `loadTools()`: list the tools directory and describe every module in it. */
  function LoadTools(dir: Directory): (r: Result<seq<ToolDescriptor>>)
    ensures r.Ok? <==> dir.Listing? && AllLoad(dir.entries)
    ensures r.Ok? ==> |r.value| == |dir.entries|
    ensures r.Ok? ==> forall i :: 0 <= i < |dir.entries| ==>
      dir.entries[i].load.Loaded? && Describes(r.value[i], dir.entries[i].load.tool)
  {
    match dir
    case Unreadable => Throws
    case Listing(entries) => LoadEntries(entries)
  }

  /** Two directories that agree on everything a descriptor can see: whether
      they are readable, how many files they list, which requires throw, and
      the name, description and schema of every module. File names and
      handlers may differ. */
  predicate SameDescriptors(d1: Directory, d2: Directory)
  {
    && d1.Listing? == d2.Listing?
    && (d1.Listing? ==>
          && |d1.entries| == |d2.entries|
          && forall i :: 0 <= i < |d1.entries| ==>
               && d1.entries[i].load.Loaded? == d2.entries[i].load.Loaded?
               && (d1.entries[i].load.Loaded? ==>
                     var m1, m2 := d1.entries[i].load.tool, d2.entries[i].load.tool;
                     m1.name == m2.name && m1.description == m2.description && m1.inputSchema == m2.inputSchema))
  }

  /** `loadTools` is a function of what the directory's modules declare and
      nothing else: file names and handlers never reach the descriptors, and
      two loads of an unchanged directory give the same list. */
  lemma LoadToolsSeesOnlyDescriptors(d1: Directory, d2: Directory)
    requires SameDescriptors(d1, d2)
    ensures LoadTools(d1) == LoadTools(d2)
  {
    var r1, r2 := LoadTools(d1), LoadTools(d2);
    assert r1.Ok? <==> r2.Ok?;
    if r1.Ok? {
      forall i | 0 <= i < |r1.value| ensures r1.value[i] == r2.value[i] {
        assert Describes(r1.value[i], d1.entries[i].load.tool);
        assert Describes(r2.value[i], d2.entries[i].load.tool);
      }
      assert r1.value == r2.value;
    }
  }

  /** The file a tool name resolves to. */
  function ToolFile(name: string): string
  {
    name + ".js"
  }

  /** Position of the first listed file called `fileName`, or -1 when there is
      none: the file `require` finds for that path. */
  function FirstIndex(entries: seq<Entry>, fileName: string): (k: int)
    ensures -1 <= k < |entries|
    ensures k == -1 <==> forall i :: 0 <= i < |entries| ==> entries[i].fileName != fileName
    ensures 0 <= k ==> entries[k].fileName == fileName
    ensures 0 <= k ==> forall j :: 0 <= j < k ==> entries[j].fileName != fileName
  {
    if |entries| == 0 then -1
    else if entries[0].fileName == fileName then 0
    else
      var k := FirstIndex(entries[1..], fileName);
      if k == -1 then -1 else k + 1
  }

  /** `getToolHandler(name)`: require `<name>.js` from the tools directory and
      return its `handler` export as is, possibly absent. A missing file or a
      module that fails to load throws. */
  function GetToolHandler(dir: Directory, name: string): (r: Result<Option<Handler>>)
    ensures dir.Unreadable? ==> r.Throws?
    ensures dir.Listing? && (forall i :: 0 <= i < |dir.entries| ==> dir.entries[i].fileName != ToolFile(name))
      ==> r.Throws?
    ensures dir.Listing? && UniqueFileNames(dir.entries) ==>
      forall i :: 0 <= i < |dir.entries| && dir.entries[i].fileName == ToolFile(name) ==>
        r == (if dir.entries[i].load.Loaded? then Ok(dir.entries[i].load.tool.handler) else Throws)
    ensures r.Ok? ==> dir.Listing?
    ensures r.Ok? ==>
      exists i :: && 0 <= i < |dir.entries|
                  && dir.entries[i].fileName == ToolFile(name)
                  && dir.entries[i].load.Loaded?
                  && dir.entries[i].load.tool.handler == r.value
  {
    match dir
    case Unreadable => Throws
    case Listing(entries) =>
      var k := FirstIndex(entries, ToolFile(name));
      if k == -1 then Throws
      else
        match entries[k].load
        case LoadFails => Throws
        case Loaded(m) => Ok(m.handler)
  }

  /** Two directories with the same file names, the same load failures and
      the same handlers; declared names, descriptions and schemas may differ. */
  predicate SameFilesAndHandlers(d1: Directory, d2: Directory)
  {
    && d1.Listing? == d2.Listing?
    && (d1.Listing? ==>
          && |d1.entries| == |d2.entries|
          && forall i :: 0 <= i < |d1.entries| ==>
               && d1.entries[i].fileName == d2.entries[i].fileName
               && d1.entries[i].load.Loaded? == d2.entries[i].load.Loaded?
               && (d1.entries[i].load.Loaded? ==>
                     d1.entries[i].load.tool.handler == d2.entries[i].load.tool.handler))
  }

  /** Resolution never looks at a module's declared `name`: it is keyed by the
      file name alone. */
  lemma ResolutionIgnoresDeclaredNames(d1: Directory, d2: Directory, name: string)
    requires SameFilesAndHandlers(d1, d2)
    ensures GetToolHandler(d1, name) == GetToolHandler(d2, name)
  {
  }

  /** A module declaring the name "get_weather" in the file weather.js is
      found as "weather", and asking for "get_weather" throws. */
  lemma DeclaredNameIsNotTheKey()
    ensures var d := Listing([Entry("weather.js",
                              Loaded(ToolModule(Some("get_weather"), None, None, Some(Handler(1)))))]);
            && GetToolHandler(d, "get_weather") == Throws
            && GetToolHandler(d, "weather") == Ok(Some(Handler(1)))
  {
  }
}
