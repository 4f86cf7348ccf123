/**
  The built-in handlers of webhook_handler.py (`do_nothing`, `printer`,
  `dumper`, `runner`) and how each one resolves its options, with fallback to
  `default_cfg`, into a description of the side effect it performs.

  Template formatting (`str.format` over the request data), `os.path.expanduser`
  and the outcome of carrying out a side effect (writing a file, running a
  command, calling a user-supplied handler) are not modelled; they are the
  function fields of a `World` value supplied by the caller.
 */
module Handlers {
  import opened Wrappers
  import opened JsonValues

  /** What a handler name is bound to in a handler table. */
  datatype Handler =
    | DoNothing                // do_nothing
    | Printer                  // printer
    | Dumper                   // dumper
    | Runner                   // runner
    | Custom(name: string)     // any other callable a caller puts in the table

  /** The parts of an incoming request the handler reads. `contentType` is the
      value of the Content-Type header, if any; `body` is the decoded request body,
      `None` when it is not valid JSON; `postpath` holds the path segments. */
  datatype Request = Request(
    contentType: Option<string>,
    body: Option<Json>,
    postpath: seq<string>,
    headers: map<string, string>)

  /** The keyword data handed to every handler and used by the templates. */
  datatype Context = Context(
    env: map<string, string>,
    obj: Json,
    req: Request,
    httpMethod: string,
    path: string,
    headers: map<string, string>)

  /** The mode `dumper` opens its file with: 'a' or 'w'. */
  datatype WriteMode = Append | Write

  /** A side effect a handler carries out. */
  datatype Effect =
    | Log(text: string)                                        // msg(...)
    | Dump(path: string, mode: WriteMode, body: Json)          // open(path, mode) and json.dump(body)
    | Exec(command: string, args: seq<string>, stdin: Option<Json>)  // sh.Command(command)(*args, _in=...)
    | CustomCall(name: string, option: Json, ctx: Context)     // a user-supplied handler

  /** Everything outside the model. `format(t, ctx)` is `t.format(**data)`, `None`
      when formatting raises; `perform(n, e)` says whether carrying out `e` as
      invocation number `n` of the request completes without raising. The position
      lets the answer depend on what the earlier invocations of the same request
      did: a second `mkdir` of one directory can fail where the first succeeded. */
  datatype World = World(
    format: (string, Context) -> Option<string>,
    expandUser: string -> string,
    perform: (nat, Effect) -> bool)

  /** Why resolving a handler's options raised. */
  datatype Fault =
    | NotAnObject              // the option record has no `.get`
    | NotAString(key: string)  // the template under `key` has no `.format`
    | FormatFailed             // a template did not format
    | NotIterable              // `args` cannot be iterated

  /** The result of resolving one option record for one handler. */
  datatype Resolution =
    | Silent                   // the handler does nothing
    | Resolved(effect: Effect) // the handler goes on to carry out `effect`
    | Rejected(fault: Fault)   // the handler raised before any side effect

  // default_cfg
  const DefaultPrintFmt: string := "{obj[repository][name]}: {obj[push][changes][0][new][target][hash]}"
  const DefaultDumpFnFmt: string := "{obj[repository][name]}.{obj[push][changes][0][commits][0][hash]}.log"
  const DefaultDumpAppend: bool := true
  const DefaultRunCommand: string := "echo"
  const DefaultRunArg: string := "{obj[repository][name]}"
  const DefaultRunArgs: Json := JArray([JString(DefaultRunArg)])
  const DefaultRunJsonIn: bool := false

  /** `default_cfg['print']` as an option record. */
  const DefaultPrintOption: Json := JObject([("fmt", JString(DefaultPrintFmt))])

  /** `default_handlers`. */
  function DefaultHandlers(): (h: map<string, Handler>)
    ensures h.Keys == {"dump", "null", "print", "run"}
    ensures h["dump"] == Dumper && h["null"] == DoNothing && h["print"] == Printer && h["run"] == Runner
  {
    map["dump" := Dumper, "null" := DoNothing, "print" := Printer, "run" := Runner]
  }

  /** `cfg.get(key, default)` when the result is used as a template: `None` when
      the stored value is not a string. */
  function TemplateOption(fields: seq<(string, Json)>, key: string, default: string): (r: Option<string>)
    ensures !HasKey(fields, key) ==> r == Some(default)
    ensures HasKey(fields, key) ==> (r.Some? <==> Lookup(fields, key).value.JString?)
    ensures HasKey(fields, key) && r.Some? ==> Lookup(fields, key) == Some(JString(r.value))
  {
    match Lookup(fields, key)
    case None => Some(default)
    case Some(v) => if v.JString? then Some(v.s) else None
  }

  /** `[a.format(**data) for a in templates]`: `None` when some element is not a
      string or does not format; otherwise each element formatted, in order. */
  function FormatAll(templates: seq<Json>, ctx: Context, world: World): (r: Option<seq<string>>)
    ensures r.Some? <==>
              forall i :: 0 <= i < |templates| ==>
                templates[i].JString? && world.format(templates[i].s, ctx).Some?
    ensures r.Some? ==>
              |r.value| == |templates| &&
              forall i :: 0 <= i < |templates| ==> world.format(templates[i].s, ctx) == Some(r.value[i])
    decreases |templates|
  {
    if templates == [] then Some([])
    else if !templates[0].JString? then None
    else match world.format(templates[0].s, ctx)
      case None => None
      case Some(a) =>
        match FormatAll(templates[1..], ctx, world)
        case None => None
        case Some(rest) => Some([a] + rest)
  }

  /** `printer(cfg, **data)` up to the call of `msg`. */
  function ResolvePrint(option: Json, ctx: Context, world: World): (r: Resolution)
    ensures !r.Silent?
    ensures !option.JObject? ==> r == Rejected(NotAnObject)
    ensures r.Resolved? <==>
              option.JObject? &&
              var fmt := TemplateOption(option.fields, "fmt", DefaultPrintFmt);
              fmt.Some? && world.format(fmt.value, ctx).Some?
    ensures r.Resolved? ==>
              r.effect == Log(world.format(TemplateOption(option.fields, "fmt", DefaultPrintFmt).value, ctx).value)
  {
    if !option.JObject? then Rejected(NotAnObject)
    else match TemplateOption(option.fields, "fmt", DefaultPrintFmt)
      case None => Rejected(NotAString("fmt"))
      case Some(fmt) =>
        match world.format(fmt, ctx)
        case None => Rejected(FormatFailed)
        case Some(text) => Resolved(Log(text))
  }

  /** `dumper(cfg, **data)` up to the `open`: the file name template formatted and
      expanded, and the mode chosen by `append`, which defaults to true. */
  function ResolveDump(option: Json, ctx: Context, world: World): (r: Resolution)
    ensures !r.Silent?
    ensures !option.JObject? ==> r == Rejected(NotAnObject)
    ensures r.Resolved? <==>
              option.JObject? &&
              var fnfmt := TemplateOption(option.fields, "fnfmt", DefaultDumpFnFmt);
              fnfmt.Some? && world.format(fnfmt.value, ctx).Some?
    ensures r.Resolved? ==>
              r.effect.Dump? && r.effect.body == ctx.obj &&
              r.effect.path == world.expandUser(world.format(TemplateOption(option.fields, "fnfmt", DefaultDumpFnFmt).value, ctx).value)
    ensures r.Resolved? ==>
              (r.effect.mode == Append <==>
                 !HasKey(option.fields, "append") || Truthy(Lookup(option.fields, "append").value))
  {
    if !option.JObject? then Rejected(NotAnObject)
    else match TemplateOption(option.fields, "fnfmt", DefaultDumpFnFmt)
      case None => Rejected(NotAString("fnfmt"))
      case Some(fnfmt) =>
        match world.format(fnfmt, ctx)
        case None => Rejected(FormatFailed)
        case Some(name) =>
          var mode := if Truthy(GetOr(option.fields, "append", JBool(DefaultDumpAppend))) then Append else Write;
          Resolved(Dump(world.expandUser(name), mode, ctx.obj))
  }

  /** The argument templates `runner` iterates: `cfg.get('args', default)`. */
  function ArgTemplates(fields: seq<(string, Json)>): Json {
    GetOr(fields, "args", DefaultRunArgs)
  }

  /** `runner(cfg, **data)` up to the command call: the command name and every
      argument formatted in order, and the body passed on stdin only when `json_in`
      is truthy (it defaults to false). */
  function ResolveRun(option: Json, ctx: Context, world: World): (r: Resolution)
    ensures !r.Silent?
    ensures !option.JObject? ==> r == Rejected(NotAnObject)
    ensures r.Resolved? <==>
              option.JObject? &&
              var command := TemplateOption(option.fields, "command", DefaultRunCommand);
              var templates := Iterate(ArgTemplates(option.fields));
              command.Some? && world.format(command.value, ctx).Some? &&
              templates.Some? && FormatAll(templates.value, ctx, world).Some?
    ensures r.Resolved? ==>
              r.effect.Exec? &&
              r.effect.command == world.format(TemplateOption(option.fields, "command", DefaultRunCommand).value, ctx).value &&
              r.effect.args == FormatAll(Iterate(ArgTemplates(option.fields)).value, ctx, world).value
    ensures r.Resolved? ==>
              (r.effect.stdin.Some? <==> HasKey(option.fields, "json_in") && Truthy(Lookup(option.fields, "json_in").value)) &&
              (r.effect.stdin.Some? ==> r.effect.stdin.value == ctx.obj)
  {
    if !option.JObject? then Rejected(NotAnObject)
    else match TemplateOption(option.fields, "command", DefaultRunCommand)
      case None => Rejected(NotAString("command"))
      case Some(command) =>
        match world.format(command, ctx)
        case None => Rejected(FormatFailed)
        case Some(name) =>
          match Iterate(ArgTemplates(option.fields))
          case None => Rejected(NotIterable)
          case Some(templates) =>
            match FormatAll(templates, ctx, world)
            case None => Rejected(FormatFailed)
            case Some(args) =>
              var stdin := if Truthy(GetOr(option.fields, "json_in", JBool(DefaultRunJsonIn))) then Some(ctx.obj) else None;
              Resolved(Exec(name, args, stdin))
  }

  /** Calling `handler(cfg, **data)`, up to the side effect. */
  function Resolve(handler: Handler, option: Json, ctx: Context, world: World): (r: Resolution)
    ensures r.Silent? <==> handler.DoNothing?
    ensures handler.Custom? ==> r == Resolved(CustomCall(handler.name, option, ctx))
    ensures !option.JObject? && (handler.Printer? || handler.Dumper? || handler.Runner?) ==> r == Rejected(NotAnObject)
  {
    match handler
    case DoNothing => Silent
    case Printer => ResolvePrint(option, ctx, world)
    case Dumper => ResolveDump(option, ctx, world)
    case Runner => ResolveRun(option, ctx, world)
    case Custom(name) => Resolved(CustomCall(name, option, ctx))
  }

  /** With no options of its own, `printer` logs the default template. */
  lemma PrintDefaultsToTemplate(ctx: Context, world: World, text: string)
    requires world.format(DefaultPrintFmt, ctx) == Some(text)
    ensures ResolvePrint(JObject([]), ctx, world) == Resolved(Log(text))
  {
    assert !HasKey([], "fmt");
  }

  /** With no options of its own, `dumper` appends to the default file name. */
  lemma DumpDefaultsToAppend(ctx: Context, world: World, name: string)
    requires world.format(DefaultDumpFnFmt, ctx) == Some(name)
    ensures ResolveDump(JObject([]), ctx, world) == Resolved(Dump(world.expandUser(name), Append, ctx.obj))
  {
    assert !HasKey([], "fnfmt");
    assert !HasKey([], "append");
  }

  /** With no options of its own, `runner` runs `echo` with the repository name and no stdin. */
  lemma RunDefaultsToEcho(ctx: Context, world: World, command: string, arg: string)
    requires world.format(DefaultRunCommand, ctx) == Some(command)
    requires world.format(DefaultRunArg, ctx) == Some(arg)
    ensures ResolveRun(JObject([]), ctx, world) == Resolved(Exec(command, [arg], None))
  {
    assert !HasKey([], "command");
    assert !HasKey([], "args");
    assert !HasKey([], "json_in");
  }
}
