/**
  `WHHResource` of webhook_handler.py: how it builds its configuration table
  when constructed, and how its `render_*` methods gate requests on `post_only`
  before calling `handle_request`.

  The `render_*` methods call `handle_request(self.cfg, method, request)`, so they
  always dispatch through `default_handlers` with `debug` off, whatever handler
  table and debug flag the resource was built with; the model keeps that.
 */
module Resource {
  import opened Wrappers
  import opened JsonValues
  import opened Handlers
  import opened Config
  import opened RequestHandler

  /** The configuration file as the constructor finds it: `NoFile` when the file
      name is empty or names no existing path, otherwise what `json.load` made of
      the file (`None` when opening or decoding raised). */
  datatype ConfigFile = NoFile | File(contents: Option<Json>)

  /** The table installed when debugging without any configuration:
      `{'print': [default_cfg['print']]}`. */
  const DebugDefaultTable: Entries := Entries(["print"], map["print" := [DefaultPrintOption]])

  /** The table the constructor starts from: the table passed in, unless it is
      None or empty (`cfg or {}`). */
  function StartingTable(cfgArg: Entries, given: bool): (e: Entries)
    ensures given && cfgArg.keys != [] ==> e == cfgArg
    ensures !(given && cfgArg.keys != []) ==> e == Empty
  {
    if given && cfgArg.keys != [] then cfgArg else Empty
  }

  class WHHResource {
    var cfg: ConfigTable
    var debug: bool
    var handlers: map<string, Handler>
    var postOnly: bool

    ghost predicate Valid()
      reads this, cfg
    {
      cfg.Valid()
    }

    constructor (table: ConfigTable, debug: bool, handlers: map<string, Handler>, postOnly: bool)
      requires table.Valid()
      ensures Valid()
      ensures this.cfg == table && this.debug == debug && this.handlers == handlers && this.postOnly == postOnly
    {
      this.cfg := table;
      this.debug := debug;
      this.handlers := handlers;
      this.postOnly := postOnly;
    }

    /** `WHHResource(cfg, filename, handlers, debug, post_only)`; `Err` when
        loading the configuration file raises. A non-empty table passed in is the
        resource's table and is updated in place. */
    static method Create(cfgArg: ConfigTable?, file: ConfigFile, handlers: map<string, Handler>, debug: bool, postOnly: bool)
      returns (r: Result<WHHResource, LoadError>)
      requires cfgArg != null ==> cfgArg.Valid()
      modifies cfgArg
      ensures r.Err? <==> file.File? && !(file.contents.Some? && file.contents.value.JObject?)
      ensures r.Ok? ==>
                fresh(r.value) && r.value.Valid() &&
                r.value.debug == debug && r.value.handlers == handlers && r.value.postOnly == postOnly
      ensures r.Ok? && cfgArg != null && old(cfgArg.keys) != [] ==> r.value.cfg == cfgArg
      ensures r.Ok? && !(cfgArg != null && old(cfgArg.keys) != []) ==> fresh(r.value.cfg)
      ensures r.Ok? && file.File? ==>
                r.value.cfg.Contents()
                  == Merge(StartingTable(if cfgArg == null then Empty else old(cfgArg.Contents()), cfgArg != null),
                           file.contents.value.fields, handlers)
      ensures r.Ok? && file.NoFile? ==>
                var start := StartingTable(if cfgArg == null then Empty else old(cfgArg.Contents()), cfgArg != null);
                r.value.cfg.Contents() == if debug && start.keys == [] then DebugDefaultTable else start
      ensures cfgArg != null && (old(cfgArg.keys) == [] || r.Err?) ==> cfgArg.Contents() == old(cfgArg.Contents())
    {
      var table: ConfigTable;
      if cfgArg == null || cfgArg.IsEmpty() {
        table := new ConfigTable();
      } else {
        table := cfgArg;
      }
      var w := new WHHResource(table, debug, handlers, postOnly);
      match file {
        case File(contents) =>
          var loaded := LoadConfigFile(contents, w.cfg, w.handlers);
          if loaded.Err? {
            return Err(loaded.error);
          }
        case NoFile =>
          if debug && w.cfg.IsEmpty() {
            w.cfg.Set("print", [DefaultPrintOption]);
          }
      }
      r := Ok(w);
    }

    /** `render_DELETE`. */
    method RenderDelete(request: Request, env: map<string, string>, world: World)
      returns (response: string, steps: seq<Step>, logged: bool)
      requires Valid()
      ensures response == OkResponse && !logged
      ensures postOnly ==> steps == []
      ensures !postOnly ==> steps == Dispatch(cfg.Contents(), "DELETE", request, DefaultHandlers(), env, world).steps
    {
      if postOnly {
        return OkResponse, [], false;
      }
      response, steps, logged := HandleRequest(cfg, "DELETE", request, DefaultHandlers(), false, env, world);
    }

    /** `render_GET`. */
    method RenderGet(request: Request, env: map<string, string>, world: World)
      returns (response: string, steps: seq<Step>, logged: bool)
      requires Valid()
      ensures response == OkResponse && !logged
      ensures postOnly ==> steps == []
      ensures !postOnly ==> steps == Dispatch(cfg.Contents(), "GET", request, DefaultHandlers(), env, world).steps
    {
      if postOnly {
        return OkResponse, [], false;
      }
      response, steps, logged := HandleRequest(cfg, "GET", request, DefaultHandlers(), false, env, world);
    }

    /** `render_POST`: dispatches whatever `post_only` says. */
    method RenderPost(request: Request, env: map<string, string>, world: World)
      returns (response: string, steps: seq<Step>, logged: bool)
      requires Valid()
      ensures response == OkResponse && !logged
      ensures steps == Dispatch(cfg.Contents(), "POST", request, DefaultHandlers(), env, world).steps
    {
      response, steps, logged := HandleRequest(cfg, "POST", request, DefaultHandlers(), false, env, world);
    }

    /** `render_PUT`. */
    method RenderPut(request: Request, env: map<string, string>, world: World)
      returns (response: string, steps: seq<Step>, logged: bool)
      requires Valid()
      ensures response == OkResponse && !logged
      ensures postOnly ==> steps == []
      ensures !postOnly ==> steps == Dispatch(cfg.Contents(), "PUT", request, DefaultHandlers(), env, world).steps
    {
      if postOnly {
        return OkResponse, [], false;
      }
      response, steps, logged := HandleRequest(cfg, "PUT", request, DefaultHandlers(), false, env, world);
    }
  }

  /** With the table installed for debugging, an accepted request makes exactly
      one invocation: `printer` with `default_cfg['print']`. */
  lemma DebugDefaultPrintsOnce(httpMethod: string, request: Request, env: map<string, string>, world: World)
    requires IsJsonContentType(request.contentType) && request.body.Some?
    ensures var o := Dispatch(DebugDefaultTable, httpMethod, request, DefaultHandlers(), env, world);
            var ctx := MakeContext(env, request.body.value, request, httpMethod);
            o.steps == [Attempt(Call("print", Printer, DefaultPrintOption), 0, ctx, world)]
  {
    var t := DebugDefaultTable;
    var ctx := MakeContext(env, request.body.value, request, httpMethod);
    assert t.keys[..0] == [];
    var calls := Schedule(t.keys, t.vals, DefaultHandlers());
    assert calls == [Call("print", Printer, DefaultPrintOption)];
    assert calls[1..] == [];
    assert RunCalls([], 1, ctx, world) == [];
    assert RunCalls(calls, 0, ctx, world) == [Attempt(calls[0], 0, ctx, world)];
  }
}
