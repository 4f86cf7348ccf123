/**
  `handle_request` of webhook_handler.py: the Content-Type guard, the request
  data handed to handlers, and the nested loop that invokes the handler of every
  configuration key once per option record, stopping at the first one that
  raises. Whatever happens, the response is "OK\n".
 */
module RequestHandler {
  import opened Wrappers
  import opened JsonValues
  import opened Handlers
  import opened Config

  const OkResponse: string := "OK\n"
  const JsonMediaType: string := "application/json"

  /** `c.lower()` on one character, for the ASCII letters. */
  function LowerChar(c: char): char {
    if 'A' <= c <= 'Z' then (c as int - 'A' as int + 'a' as int) as char else c
  }

  /** `s.lower()`. */
  function Lower(s: string): (r: string)
    ensures |r| == |s| && forall i :: 0 <= i < |s| ==> r[i] == LowerChar(s[i])
  {
    seq(|s|, i requires 0 <= i < |s| => LowerChar(s[i]))
  }

  /** `c` is `t` or, when `t` is a lower-case letter, its upper-case form. */
  predicate SameIgnoringCase(c: char, t: char) {
    c == t || ('a' <= t <= 'z' && c as int == t as int - 32)
  }

  lemma LowerCharMatches(c: char, t: char)
    requires !('A' <= t <= 'Z')
    ensures LowerChar(c) == t <==> SameIgnoringCase(c, t)
  {
  }

  /** The guard `request.getHeader('Content-Type').lower() == 'application/json'`:
      the header is "application/json" with any of its letters in either case, and
      nothing more; a missing header makes `.lower()` raise, which the model counts
      as false. */
  function IsJsonContentType(contentType: Option<string>): (b: bool)
    ensures b <==>
              contentType.Some? && |contentType.value| == |JsonMediaType| &&
              forall i :: 0 <= i < |JsonMediaType| ==> SameIgnoringCase(contentType.value[i], JsonMediaType[i])
  {
    if contentType.None? then false
    else
      var v := contentType.value;
      assert forall i :: 0 <= i < |JsonMediaType| ==> !('A' <= JsonMediaType[i] <= 'Z');
      assert |v| == |JsonMediaType| ==>
               forall i :: 0 <= i < |JsonMediaType| ==>
                 (Lower(v)[i] == JsonMediaType[i] <==> SameIgnoringCase(v[i], JsonMediaType[i])) by {
        forall i | 0 <= i < |JsonMediaType| && |v| == |JsonMediaType| {
          LowerCharMatches(v[i], JsonMediaType[i]);
        }
      }
      Lower(v) == JsonMediaType
  }

  /** The media type passes the guard whatever the case of its letters. */
  lemma JsonContentTypeAccepted()
    ensures IsJsonContentType(Some("application/json"))
    ensures IsJsonContentType(Some("APPLICATION/JSON"))
    ensures IsJsonContentType(Some("Application/Json"))
  {
    var upper, mixed := "APPLICATION/JSON", "Application/Json";
    assert forall i :: 0 <= i < |JsonMediaType| ==> SameIgnoringCase(upper[i], JsonMediaType[i]);
    assert forall i :: 0 <= i < |JsonMediaType| ==> SameIgnoringCase(mixed[i], JsonMediaType[i]);
  }

  /** Parameters after the media type, another media type, or a request without
      the header fail the guard. */
  lemma JsonContentTypeRejected()
    ensures !IsJsonContentType(Some("application/json; charset=utf-8"))
    ensures !IsJsonContentType(Some("text/plain"))
    ensures !IsJsonContentType(None)
  {
    assert |"text/plain"| != |JsonMediaType|;
  }

  /** `sep.join(segments)`. */
  function Join(segments: seq<string>, sep: string): string
    decreases |segments|
  {
    if segments == [] then ""
    else if |segments| == 1 then segments[0]
    else Join(segments[..|segments| - 1], sep) + sep + segments[|segments| - 1]
  }

  /** The position of the last `c` in `s`, or -1 when there is none. */
  function LastIndex(s: string, c: char): (r: int)
    ensures -1 <= r < |s|
    ensures r >= 0 ==> s[r] == c
    ensures forall q :: r < q < |s| ==> s[q] != c
    decreases |s|
  {
    if s == [] then -1
    else if s[|s| - 1] == c then |s| - 1
    else LastIndex(s[..|s| - 1], c)
  }

  /** `s.split(c)`, the way a request path is cut into its `postpath` segments. */
  function Split(s: string, c: char): (parts: seq<string>)
    ensures |parts| >= 1
    decreases |s|
  {
    var i := LastIndex(s, c);
    if i < 0 then [s] else Split(s[..i], c) + [s[i + 1..]]
  }

  /** `s` does not contain `c`. */
  predicate NoSeparator(s: string, c: char) {
    forall j :: 0 <= j < |s| ==> s[j] != c
  }

  /** No segment contains `c`. */
  predicate Unseparated(segments: seq<string>, c: char) {
    forall i :: 0 <= i < |segments| ==> NoSeparator(segments[i], c)
  }

  /** Splitting `a + [c] + b`, where `b` holds no `c`, splits `a` and then adds `b`. */
  lemma SplitSnoc(a: string, c: char, b: string)
    requires NoSeparator(b, c)
    ensures Split(a + [c] + b, c) == Split(a, c) + [b]
  {
    var s := a + [c] + b;
    assert s[|a|] == c;
    assert forall q :: |a| < q < |s| ==> s[q] == b[q - |a| - 1];
    assert LastIndex(s, c) == |a|;
    assert s[..|a|] == a && s[|a| + 1..] == b;
  }

  /** Joining segments that do not contain the separator and splitting the result
      again gives the segments back. */
  lemma {:induction false} JoinSplit(segments: seq<string>, c: char)
    requires segments != [] && Unseparated(segments, c)
    ensures Split(Join(segments, [c]), c) == segments
    decreases |segments|
  {
    var n := |segments|;
    var last := segments[n - 1];
    UnseparatedSplit(segments, c);
    if n == 1 {
      assert Join(segments, [c]) == last;
      SplitWhole(last, c);
    } else {
      var front := segments[..n - 1];
      var joined := Join(front, [c]);
      assert Join(segments, [c]) == joined + [c] + last;
      JoinSplit(front, c);
      SplitSnoc(joined, c, last);
      assert segments == front + [last];
    }
  }

  /** A string without the separator splits into itself alone. */
  lemma SplitWhole(s: string, c: char)
    requires NoSeparator(s, c)
    ensures Split(s, c) == [s]
  {
    assert LastIndex(s, c) < 0;
  }

  /** The last segment and the segments before it hold no separator either. */
  lemma UnseparatedSplit(segments: seq<string>, c: char)
    requires segments != [] && Unseparated(segments, c)
    ensures NoSeparator(segments[|segments| - 1], c)
    ensures Unseparated(segments[..|segments| - 1], c)
  {
    var front := segments[..|segments| - 1];
    assert forall i :: 0 <= i < |front| ==> front[i] == segments[i];
  }

  /** The `data` dict built once the guard has passed and the body decoded. Its
      `path` holds the request's path segments joined by '/', from which they can
      be recovered by splitting again. */
  function MakeContext(env: map<string, string>, obj: Json, request: Request, httpMethod: string): (r: Context)
    ensures request.postpath != [] && Unseparated(request.postpath, '/') ==> Split(r.path, '/') == request.postpath
  {
    var ctx := Context(env, obj, request, httpMethod, Join(request.postpath, "/"), request.headers);
    if request.postpath != [] && Unseparated(request.postpath, '/') then
      JoinSplit(request.postpath, '/');
      ctx
    else
      ctx
  }

  /** `handlers.get(key, do_nothing)` */
  function HandlerFor(handlers: map<string, Handler>, key: string): Handler {
    if key in handlers then handlers[key] else DoNothing
  }

  /** One invocation `handler(cfg, **data)` the loop makes. */
  datatype Call = Call(key: string, handler: Handler, option: Json)

  /** A performed invocation: the side effect it went on to carry out, if any, and
      whether it returned (`ok`) or raised. */
  datatype Step = Step(call: Call, effect: Option<Effect>, ok: bool)

  /** The invocations for one configuration key, one per option record. */
  function CallsFor(key: string, handler: Handler, options: seq<Json>): (cs: seq<Call>)
    ensures |cs| == |options|
    ensures forall j :: 0 <= j < |options| ==> cs[j] == Call(key, handler, options[j])
  {
    seq(|options|, j requires 0 <= j < |options| => Call(key, handler, options[j]))
  }

  /** The number of option records in the table. */
  function TotalOptions(keys: seq<string>, vals: map<string, seq<Json>>): (n: nat)
    requires forall k :: k in keys ==> k in vals
    decreases |keys|
  {
    if keys == [] then 0
    else
      var front := keys[..|keys| - 1];
      assert forall k :: k in keys ==> k in front || k == keys[|keys| - 1];
      TotalOptions(front, vals) + |vals[keys[|keys| - 1]]|
  }

  /** The table holds no option record exactly when every key holds an empty list. */
  lemma {:induction false} TotalOptionsZero(keys: seq<string>, vals: map<string, seq<Json>>)
    requires forall k :: k in keys ==> k in vals
    ensures TotalOptions(keys, vals) == 0 <==> forall k :: k in keys ==> vals[k] == []
    decreases |keys|
  {
    if keys != [] {
      var front := keys[..|keys| - 1];
      assert forall k :: k in keys ==> k in front || k == keys[|keys| - 1];
      assert forall k :: k in front ==> k in keys;
      TotalOptionsZero(front, vals);
    }
  }

  /** Every invocation the loop would make if none raised: keys in table order,
      then option records in list order. There is one per option record, and each
      hands one of its key's records to that key's handler. */
  function Schedule(keys: seq<string>, vals: map<string, seq<Json>>, handlers: map<string, Handler>): (calls: seq<Call>)
    requires forall k :: k in keys ==> k in vals
    ensures |calls| == TotalOptions(keys, vals)
    decreases |keys|
  {
    if keys == [] then []
    else
      var k := keys[|keys| - 1];
      Schedule(keys[..|keys| - 1], vals, handlers) + CallsFor(k, HandlerFor(handlers, k), vals[k])
  }

  /** Invoking a handler as invocation number `n`: resolve its options, then carry
      out the effect. */
  function Attempt(call: Call, n: nat, ctx: Context, world: World): Step {
    match Resolve(call.handler, call.option, ctx, world)
    case Silent => Step(call, None, true)
    case Rejected(_) => Step(call, None, false)
    case Resolved(e) => Step(call, Some(e), world.perform(n, e))
  }

  /** The invocations performed, in order, numbered from `from`: each call is
      attempted, and the first one that raises is the last one performed. */
  function RunCalls(calls: seq<Call>, from: nat, ctx: Context, world: World): (steps: seq<Step>)
    ensures |steps| <= |calls|
    ensures calls != [] ==> steps != []
    decreases |calls|
  {
    if calls == [] then []
    else
      var s := Attempt(calls[0], from, ctx, world);
      if !s.ok then [s] else [s] + RunCalls(calls[1..], from + 1, ctx, world)
  }

  predicate AllOk(steps: seq<Step>) {
    forall i :: 0 <= i < |steps| ==> steps[i].ok
  }

  /** No invocation before position `n` raises. */
  predicate NoneFailBefore(calls: seq<Call>, from: nat, ctx: Context, world: World, n: nat)
    requires n <= |calls|
  {
    forall j :: 0 <= j < n ==> Attempt(calls[j], from + j, ctx, world).ok
  }

  /** What `handle_request` does: its invocations and whether it ended in the
      `except` branch. */
  datatype Outcome = Outcome(steps: seq<Step>, failed: bool)

  /** The body of `handle_request`. No handler runs when the guard fails, the body
      does not decode, or the table holds no option record; at most one invocation
      per option record runs; and the `except` branch is taken exactly when the
      request was turned away or the last invocation performed raised. */
  function Dispatch(table: Entries, httpMethod: string, request: Request, handlers: map<string, Handler>,
                    env: map<string, string>, world: World): (o: Outcome)
    requires WellFormed(table)
    ensures var accepted := IsJsonContentType(request.contentType) && request.body.Some?;
            && (o.steps == [] <==> !accepted || TotalOptions(table.keys, table.vals) == 0)
            && |o.steps| <= TotalOptions(table.keys, table.vals)
            && (o.failed <==> !accepted || (o.steps != [] && !o.steps[|o.steps| - 1].ok))
  {
    if !IsJsonContentType(request.contentType) || request.body.None? then Outcome([], true)
    else
      var ctx := MakeContext(env, request.body.value, request, httpMethod);
      var calls := Schedule(table.keys, table.vals, handlers);
      var steps := RunCalls(calls, 0, ctx, world);
      RunCallsStops(calls, 0, ctx, world);
      Outcome(steps, !AllOk(steps))
  }

  /** An accepted request runs the whole schedule of the table. */
  lemma DispatchAccepted(table: Entries, httpMethod: string, request: Request, handlers: map<string, Handler>,
                         env: map<string, string>, world: World)
    requires WellFormed(table)
    requires IsJsonContentType(request.contentType) && request.body.Some?
    ensures var ctx := MakeContext(env, request.body.value, request, httpMethod);
            var steps := RunCalls(Schedule(table.keys, table.vals, handlers), 0, ctx, world);
            Dispatch(table, httpMethod, request, handlers, env, world) == Outcome(steps, !AllOk(steps))
  {
  }

  // ---------------------------------------------------------------------------
  // The schedule

  /** Option record `j` of key number `i` is invocation number
      `TotalOptions(keys[..i]) + j`, and it goes to that key's handler, or to
      `do_nothing` when no handler has that name. */
  lemma {:induction false} ScheduleAt(keys: seq<string>, vals: map<string, seq<Json>>, handlers: map<string, Handler>, i: nat, j: nat)
    requires forall k :: k in keys ==> k in vals
    requires i < |keys| && j < |vals[keys[i]]|
    ensures TotalOptions(keys[..i], vals) + j < |Schedule(keys, vals, handlers)|
    ensures Schedule(keys, vals, handlers)[TotalOptions(keys[..i], vals) + j]
              == Call(keys[i], HandlerFor(handlers, keys[i]), vals[keys[i]][j])
    ensures keys[i] !in handlers ==> HandlerFor(handlers, keys[i]) == DoNothing
    decreases |keys|
  {
    var front := keys[..|keys| - 1];
    var last := keys[|keys| - 1];
    assert forall k :: k in front ==> k in keys;
    var before := Schedule(front, vals, handlers);
    var cs := CallsFor(last, HandlerFor(handlers, last), vals[last]);
    assert Schedule(keys, vals, handlers) == before + cs;
    if i == |keys| - 1 {
      assert keys[..i] == front;
      assert (before + cs)[|before| + j] == cs[j];
    } else {
      assert front[..i] == keys[..i] && front[i] == keys[i];
      ScheduleAt(front, vals, handlers, i, j);
      var n := TotalOptions(keys[..i], vals) + j;
      assert (before + cs)[n] == before[n];
    }
  }

  /** The invocations for the first `n` keys come first in the schedule. */
  lemma {:induction false} SchedulePrefix(keys: seq<string>, vals: map<string, seq<Json>>, handlers: map<string, Handler>, n: nat)
    requires forall k :: k in keys ==> k in vals
    requires n <= |keys|
    ensures Schedule(keys[..n], vals, handlers) <= Schedule(keys, vals, handlers)
    decreases |keys|
  {
    if n < |keys| {
      var front := keys[..|keys| - 1];
      assert forall k :: k in front ==> k in keys;
      assert front[..n] == keys[..n];
      SchedulePrefix(front, vals, handlers, n);
    } else {
      assert keys[..n] == keys;
    }
  }

  // ---------------------------------------------------------------------------
  // The loop stops at the first invocation that raises

  /** A performed invocation is the attempt of the scheduled call at its position. */
  lemma {:induction false} RunCallsAt(calls: seq<Call>, from: nat, ctx: Context, world: World)
    ensures var steps := RunCalls(calls, from, ctx, world);
            forall i :: 0 <= i < |steps| ==> steps[i] == Attempt(calls[i], from + i, ctx, world)
    decreases |calls|
  {
    if calls != [] {
      var rest := calls[1..];
      RunCallsAt(rest, from + 1, ctx, world);
      var steps := RunCalls(calls, from, ctx, world);
      var tail := RunCalls(rest, from + 1, ctx, world);
      forall i | 0 < i < |steps|
        ensures steps[i] == Attempt(calls[i], from + i, ctx, world)
      {
        assert steps[i] == tail[i - 1] && calls[i] == rest[i - 1];
      }
    }
  }

  /** Once the first call returned, none of the first `i` calls raises exactly
      when none of the first `i - 1` of the remaining calls does. */
  lemma NoneFailBeforeShift(calls: seq<Call>, from: nat, ctx: Context, world: World, i: nat)
    requires 0 < i <= |calls| && Attempt(calls[0], from, ctx, world).ok
    ensures NoneFailBefore(calls, from, ctx, world, i) <==> NoneFailBefore(calls[1..], from + 1, ctx, world, i - 1)
  {
    var rest := calls[1..];
    assert forall j :: 0 < j < i ==> calls[j] == rest[j - 1];
    if NoneFailBefore(rest, from + 1, ctx, world, i - 1) {
      forall j | 0 <= j < i ensures Attempt(calls[j], from + j, ctx, world).ok {
        if j > 0 { assert Attempt(rest[j - 1], from + 1 + (j - 1), ctx, world).ok; }
      }
    }
  }

  /** Invocation `i` is performed exactly when none before it raised. */
  lemma {:induction false} RunCallsFirstFailure(calls: seq<Call>, from: nat, ctx: Context, world: World)
    ensures var steps := RunCalls(calls, from, ctx, world);
            forall i :: 0 <= i < |calls| ==> (i < |steps| <==> NoneFailBefore(calls, from, ctx, world, i))
    decreases |calls|
  {
    if calls != [] {
      var rest := calls[1..];
      RunCallsFirstFailure(rest, from + 1, ctx, world);
      var steps := RunCalls(calls, from, ctx, world);
      forall i | 0 < i < |calls|
        ensures i < |steps| <==> NoneFailBefore(calls, from, ctx, world, i)
      {
        if Attempt(calls[0], from, ctx, world).ok {
          NoneFailBeforeShift(calls, from, ctx, world, i);
        } else {
          assert !Attempt(calls[0], from + 0, ctx, world).ok;
        }
      }
    }
  }

  /** A run stops right after the first invocation that raises: every step but
      the last returned, and a run that falls short of its calls ended with a
      step that raised. */
  lemma {:induction false} RunCallsStops(calls: seq<Call>, from: nat, ctx: Context, world: World)
    ensures var steps := RunCalls(calls, from, ctx, world);
            && (forall i :: 0 <= i < |steps| - 1 ==> steps[i].ok)
            && (|steps| < |calls| ==> !steps[|steps| - 1].ok)
    decreases |calls|
  {
    if calls != [] && Attempt(calls[0], from, ctx, world).ok {
      var steps := RunCalls(calls, from, ctx, world);
      var tail := RunCalls(calls[1..], from + 1, ctx, world);
      RunCallsStops(calls[1..], from + 1, ctx, world);
      assert steps == [steps[0]] + tail;
    }
  }

  /** One more invocation after a run in which none raised. */
  lemma {:induction false} RunCallsSnoc(calls: seq<Call>, c: Call, from: nat, ctx: Context, world: World)
    requires AllOk(RunCalls(calls, from, ctx, world))
    ensures RunCalls(calls + [c], from, ctx, world) == RunCalls(calls, from, ctx, world) + [Attempt(c, from + |calls|, ctx, world)]
    decreases |calls|
  {
    if calls != [] {
      var steps := RunCalls(calls, from, ctx, world);
      assert steps[0].ok;
      assert (calls + [c])[1..] == calls[1..] + [c];
      var tail := RunCalls(calls[1..], from + 1, ctx, world);
      assert AllOk(tail) by {
        forall i | 0 <= i < |tail| ensures tail[i].ok {
          assert steps[i + 1].ok;
        }
      }
      RunCallsSnoc(calls[1..], c, from + 1, ctx, world);
    } else {
      assert calls + [c] == [c];
    }
  }

  /** Once an invocation has raised, later calls change nothing. */
  lemma {:induction false} RunCallsStable(calls: seq<Call>, more: seq<Call>, from: nat, ctx: Context, world: World)
    requires RunCalls(calls, from, ctx, world) != []
    requires !RunCalls(calls, from, ctx, world)[|RunCalls(calls, from, ctx, world)| - 1].ok
    ensures RunCalls(calls + more, from, ctx, world) == RunCalls(calls, from, ctx, world)
    decreases |calls|
  {
    assert (calls + more)[0] == calls[0];
    if Attempt(calls[0], from, ctx, world).ok {
      assert (calls + more)[1..] == calls[1..] + more;
      RunCallsStable(calls[1..], more, from + 1, ctx, world);
    }
  }

  // ---------------------------------------------------------------------------
  // Properties of handle_request

  /** A request whose Content-Type is not JSON, or whose body does not decode,
      reaches no handler, and the `except` branch is taken. */
  lemma DispatchGuard(table: Entries, httpMethod: string, request: Request, handlers: map<string, Handler>,
                      env: map<string, string>, world: World)
    requires WellFormed(table)
    requires !IsJsonContentType(request.contentType) || request.body.None?
    ensures Dispatch(table, httpMethod, request, handlers, env, world) == Outcome([], true)
  {
  }

  /** An empty configuration has no side effects. */
  lemma DispatchEmptyConfig(table: Entries, httpMethod: string, request: Request, handlers: map<string, Handler>,
                            env: map<string, string>, world: World)
    requires WellFormed(table) && table.keys == []
    ensures Dispatch(table, httpMethod, request, handlers, env, world).steps == []
  {
  }

  /** For an accepted request, invocation `i` of the schedule is performed exactly
      when none before it raised, and then it is the attempt of scheduled call `i`
      as invocation number `i`; the request fails exactly when one of them raised,
      which is then the last one performed. */
  lemma DispatchOrder(table: Entries, httpMethod: string, request: Request, handlers: map<string, Handler>,
                      env: map<string, string>, world: World)
    requires WellFormed(table)
    requires IsJsonContentType(request.contentType) && request.body.Some?
    ensures var o := Dispatch(table, httpMethod, request, handlers, env, world);
            var calls := Schedule(table.keys, table.vals, handlers);
            var ctx := MakeContext(env, request.body.value, request, httpMethod);
            && |o.steps| <= |calls|
            && (forall i :: 0 <= i < |o.steps| ==> o.steps[i] == Attempt(calls[i], i, ctx, world))
            && (forall i :: 0 <= i < |calls| ==> (i < |o.steps| <==> NoneFailBefore(calls, 0, ctx, world, i)))
            && (o.failed <==> o.steps != [] && !o.steps[|o.steps| - 1].ok)
            && (forall i :: 0 <= i < |o.steps| - 1 ==> o.steps[i].ok)
  {
    var calls := Schedule(table.keys, table.vals, handlers);
    var ctx := MakeContext(env, request.body.value, request, httpMethod);
    DispatchAccepted(table, httpMethod, request, handlers, env, world);
    RunCallsAt(calls, 0, ctx, world);
    RunCallsFirstFailure(calls, 0, ctx, world);
    RunCallsStops(calls, 0, ctx, world);
  }

  /** When no invocation raises, every option record of every key is handed to
      its handler: as many invocations as option records, and no failure. */
  lemma DispatchWithoutFailure(table: Entries, httpMethod: string, request: Request, handlers: map<string, Handler>,
                               env: map<string, string>, world: World)
    requires WellFormed(table)
    requires IsJsonContentType(request.contentType) && request.body.Some?
    requires var calls := Schedule(table.keys, table.vals, handlers);
             NoneFailBefore(calls, 0, MakeContext(env, request.body.value, request, httpMethod), world, |calls|)
    ensures var o := Dispatch(table, httpMethod, request, handlers, env, world);
            && !o.failed
            && |o.steps| == TotalOptions(table.keys, table.vals)
            && forall i :: 0 <= i < |o.steps| ==>
                 o.steps[i] == Attempt(Schedule(table.keys, table.vals, handlers)[i], i,
                                       MakeContext(env, request.body.value, request, httpMethod), world)
  {
    var calls := Schedule(table.keys, table.vals, handlers);
    var ctx := MakeContext(env, request.body.value, request, httpMethod);
    DispatchAccepted(table, httpMethod, request, handlers, env, world);
    RunCallsAt(calls, 0, ctx, world);
    RunCallsFirstFailure(calls, 0, ctx, world);
    if calls != [] {
      assert NoneFailBefore(calls, 0, ctx, world, |calls| - 1);
    }
  }

  /** Two identical `run` records need not fare alike: when the command succeeds
      the first time and fails the second (a second `mkdir` of one directory),
      the first invocation returns, the second raises and the request fails. */
  lemma RepeatedRecordCanFail(option: Json, httpMethod: string, request: Request, env: map<string, string>,
                              world: World, e: Effect)
    requires IsJsonContentType(request.contentType) && request.body.Some?
    requires ResolveRun(option, MakeContext(env, request.body.value, request, httpMethod), world) == Resolved(e)
    requires world.perform(0, e) && !world.perform(1, e)
    ensures var o := Dispatch(Entries(["run"], map["run" := [option, option]]), httpMethod, request, DefaultHandlers(), env, world);
            && |o.steps| == 2
            && o.steps[0].effect == o.steps[1].effect == Some(e)
            && o.steps[0].ok && !o.steps[1].ok && o.failed
  {
    var t := Entries(["run"], map["run" := [option, option]]);
    var ctx := MakeContext(env, request.body.value, request, httpMethod);
    var c := Call("run", Runner, option);
    assert t.keys[..0] == [];
    var calls := Schedule(t.keys, t.vals, DefaultHandlers());
    assert calls == [c, c];
    assert calls[1..][1..] == [];
    assert RunCalls(calls[1..], 1, ctx, world) == [Attempt(c, 1, ctx, world)];
    assert RunCalls(calls, 0, ctx, world) == [Attempt(c, 0, ctx, world), Attempt(c, 1, ctx, world)];
  }

  // ---------------------------------------------------------------------------
  // The loop itself

  /** The invocations the loop has reached at key number `i`, option record `j`. */
  function Reached(keys: seq<string>, vals: map<string, seq<Json>>, handlers: map<string, Handler>, i: nat, j: nat): seq<Call>
    requires forall k :: k in keys ==> k in vals
    requires i < |keys| && j <= |vals[keys[i]]|
  {
    Schedule(keys[..i], vals, handlers) + CallsFor(keys[i], HandlerFor(handlers, keys[i]), vals[keys[i]])[..j]
  }

  /** Having gone through every option record of key `i` is having gone through
      the first `i + 1` keys. */
  lemma ReachedKey(keys: seq<string>, vals: map<string, seq<Json>>, handlers: map<string, Handler>, i: nat)
    requires forall k :: k in keys ==> k in vals
    requires i < |keys|
    ensures Reached(keys, vals, handlers, i, |vals[keys[i]]|) == Schedule(keys[..i + 1], vals, handlers)
  {
    assert keys[..i + 1][..i] == keys[..i];
    var cs := CallsFor(keys[i], HandlerFor(handlers, keys[i]), vals[keys[i]]);
    assert cs[..|cs|] == cs;
  }

  lemma ReachedAppend(keys: seq<string>, vals: map<string, seq<Json>>, handlers: map<string, Handler>, i: nat, j: nat)
    requires forall k :: k in keys ==> k in vals
    requires i < |keys| && j < |vals[keys[i]]|
    ensures Reached(keys, vals, handlers, i, j + 1)
              == Reached(keys, vals, handlers, i, j) + [Call(keys[i], HandlerFor(handlers, keys[i]), vals[keys[i]][j])]
  {
    var cs := CallsFor(keys[i], HandlerFor(handlers, keys[i]), vals[keys[i]]);
    assert cs[..j + 1] == cs[..j] + [cs[j]];
  }

  lemma ReachedInSchedule(keys: seq<string>, vals: map<string, seq<Json>>, handlers: map<string, Handler>, i: nat, j: nat)
    requires forall k :: k in keys ==> k in vals
    requires i < |keys| && j <= |vals[keys[i]]|
    ensures Reached(keys, vals, handlers, i, j) <= Schedule(keys, vals, handlers)
  {
    var cs := CallsFor(keys[i], HandlerFor(handlers, keys[i]), vals[keys[i]]);
    ReachedKey(keys, vals, handlers, i);
    SchedulePrefix(keys, vals, handlers, i + 1);
    assert Reached(keys, vals, handlers, i, j) <= Reached(keys, vals, handlers, i, |cs|) by {
      assert cs[..|cs|] == cs[..j] + cs[j..];
    }
  }

  /** One iteration of the inner loop: the next invocation, numbered after the
      ones before it, is appended. */
  lemma ReachedNext(keys: seq<string>, vals: map<string, seq<Json>>, handlers: map<string, Handler>,
                    i: nat, j: nat, ctx: Context, world: World)
    requires forall k :: k in keys ==> k in vals
    requires i < |keys| && j < |vals[keys[i]]|
    requires AllOk(RunCalls(Reached(keys, vals, handlers, i, j), 0, ctx, world))
    ensures var c := Call(keys[i], HandlerFor(handlers, keys[i]), vals[keys[i]][j]);
            var before := RunCalls(Reached(keys, vals, handlers, i, j), 0, ctx, world);
            RunCalls(Reached(keys, vals, handlers, i, j + 1), 0, ctx, world) == before + [Attempt(c, |before|, ctx, world)]
  {
    var c := Call(keys[i], HandlerFor(handlers, keys[i]), vals[keys[i]][j]);
    var before := Reached(keys, vals, handlers, i, j);
    ReachedAppend(keys, vals, handlers, i, j);
    RunCallsStops(before, 0, ctx, world);
    RunCallsSnoc(before, c, 0, ctx, world);
  }

  /** When the invocation the inner loop has reached raises, what has been
      performed is the whole run of the schedule. */
  lemma ReachedStop(keys: seq<string>, vals: map<string, seq<Json>>, handlers: map<string, Handler>,
                    i: nat, j: nat, ctx: Context, world: World)
    requires forall k :: k in keys ==> k in vals
    requires i < |keys| && j <= |vals[keys[i]]|
    requires var steps := RunCalls(Reached(keys, vals, handlers, i, j), 0, ctx, world);
             steps != [] && !steps[|steps| - 1].ok
    ensures RunCalls(Reached(keys, vals, handlers, i, j), 0, ctx, world) == RunCalls(Schedule(keys, vals, handlers), 0, ctx, world)
  {
    var reached := Reached(keys, vals, handlers, i, j);
    var full := Schedule(keys, vals, handlers);
    ReachedInSchedule(keys, vals, handlers, i, j);
    assert full == reached + full[|reached|..];
    RunCallsStable(reached, full[|reached|..], 0, ctx, world);
  }

  /** The inner loop `for cfg in v: handler(cfg, **data)` for key number `i`,
      continuing the run `done` of the keys before it. `raised` says whether an
      invocation raised, which ends the run of the whole schedule; otherwise the
      run now covers the first `i + 1` keys. */
  method InvokeOptions(keys: seq<string>, vals: map<string, seq<Json>>, handlers: map<string, Handler>,
                       i: nat, ctx: Context, world: World, done: seq<Step>)
    returns (steps: seq<Step>, raised: bool)
    requires forall k :: k in keys ==> k in vals
    requires i < |keys|
    requires done == RunCalls(Schedule(keys[..i], vals, handlers), 0, ctx, world) && AllOk(done)
    ensures raised ==>
              steps == RunCalls(Schedule(keys, vals, handlers), 0, ctx, world) && steps != [] && !steps[|steps| - 1].ok
    ensures !raised ==> steps == RunCalls(Schedule(keys[..i + 1], vals, handlers), 0, ctx, world) && AllOk(steps)
  {
    var k := keys[i];
    var handler := HandlerFor(handlers, k);
    var options := vals[k];
    assert Reached(keys, vals, handlers, i, 0) == Schedule(keys[..i], vals, handlers);
    steps, raised := done, false;
    var j := 0;
    while j < |options|
      invariant 0 <= j <= |options|
      invariant steps == RunCalls(Reached(keys, vals, handlers, i, j), 0, ctx, world)
      invariant AllOk(steps)
    {
      var step := Attempt(Call(k, handler, options[j]), |steps|, ctx, world);
      ReachedNext(keys, vals, handlers, i, j, ctx, world);
      steps := steps + [step];
      if !step.ok {
        ReachedStop(keys, vals, handlers, i, j + 1, ctx, world);
        return steps, true;
      }
      j := j + 1;
    }
    ReachedKey(keys, vals, handlers, i);
  }

  /** The loops `for k, v in cfg.items(): ... for cfg in v: handler(cfg, **data)`
      inside the `try` of `handle_request`: they stop at the first invocation that
      raises, and `raised` says whether one did. */
  method InvokeSchedule(keys: seq<string>, vals: map<string, seq<Json>>, handlers: map<string, Handler>,
                        ctx: Context, world: World)
    returns (steps: seq<Step>, raised: bool)
    requires forall k :: k in keys ==> k in vals
    ensures steps == RunCalls(Schedule(keys, vals, handlers), 0, ctx, world)
    ensures raised <==> !AllOk(steps)
  {
    steps, raised := [], false;
    assert keys[..0] == [];
    var i := 0;
    while i < |keys|
      invariant 0 <= i <= |keys|
      invariant steps == RunCalls(Schedule(keys[..i], vals, handlers), 0, ctx, world)
      invariant AllOk(steps)
    {
      steps, raised := InvokeOptions(keys, vals, handlers, i, ctx, world, steps);
      if raised {
        return;
      }
      i := i + 1;
    }
    assert keys[..i] == keys;
  }

  /** `handle_request(cfg, method, request, handlers, debug)`. `logged` says whether
      the error was reported through `err`. */
  method HandleRequest(cfg: ConfigTable, httpMethod: string, request: Request, handlers: map<string, Handler>,
                       debug: bool, env: map<string, string>, world: World)
    returns (response: string, steps: seq<Step>, logged: bool)
    requires cfg.Valid()
    ensures response == OkResponse
    ensures steps == Dispatch(cfg.Contents(), httpMethod, request, handlers, env, world).steps
    ensures logged <==> debug && Dispatch(cfg.Contents(), httpMethod, request, handlers, env, world).failed
  {
    response, steps, logged := OkResponse, [], false;
    if !IsJsonContentType(request.contentType) || request.body.None? {
      logged := debug;
      return;
    }
    var ctx := MakeContext(env, request.body.value, request, httpMethod);
    var raised;
    steps, raised := InvokeSchedule(cfg.keys, cfg.vals, handlers, ctx, world);
    DispatchAccepted(cfg.Contents(), httpMethod, request, handlers, env, world);
    logged := debug && raised;
  }
}
