/**
  The `main` entry point of webhook_handler.py up to the call of `twistd`: the
  command-line arguments are rewritten so that twistd runs its `web` plugin with
  the resource class. Running twistd itself is not modelled.
 */
module Cli {

  const Separator: string := "--"
  const WebPlugin: string := "web"
  const ClassFlag: string := "--class"

  /** `args.index(x)` when `x` occurs in `args`, and `|args|` when it does not. */
  function IndexOf(args: seq<string>, x: string): (r: nat)
    ensures r <= |args|
    ensures r < |args| <==> x in args
    ensures r < |args| ==> args[r] == x
    ensures forall i :: 0 <= i < r ==> args[i] != x
    decreases |args|
  {
    if args == [] then 0
    else if args[0] == x then 0
    else 1 + IndexOf(args[1..], x)
  }

  /** `args` after the `if '--' in args` statement of `main`: when `--` occurs,
      its first occurrence becomes `web` and nothing else changes, later `--`
      included; otherwise `web` is appended. */
  function RewriteArgs(args: seq<string>): (r: seq<string>)
    ensures Separator in args ==>
              IndexOf(args, Separator) < |args| && |r| == |args| &&
              forall i :: 0 <= i < |args| ==> r[i] == (if i == IndexOf(args, Separator) then WebPlugin else args[i])
    ensures Separator !in args ==> r == args + [WebPlugin]
    ensures WebPlugin in r
  {
    var i := IndexOf(args, Separator);
    if i < |args| then args[i := WebPlugin] else args + [WebPlugin]
  }

  /** The argument list `main` hands to twistd: the arguments with the first `--`
      turned into `web`, or with `web` appended when there is none, and then
      `--class res`. */
  function TwistdArgv(args: seq<string>, res: string): (argv: seq<string>)
    ensures |argv| >= 3 && argv[|argv| - 2..] == [ClassFlag, res]
    ensures Separator in args ==>
              |argv| == |args| + 2 &&
              forall i :: 0 <= i < |args| ==> argv[i] == (if i == IndexOf(args, Separator) then WebPlugin else args[i])
    ensures Separator !in args ==> argv == args + [WebPlugin, ClassFlag, res]
  {
    RewriteArgs(args) + [ClassFlag, res]
  }

  /** The scan behind `'--' in args` and `args.index('--')`. */
  method FindFirst(args: array<string>, x: string) returns (r: nat)
    ensures r <= args.Length
    ensures r < args.Length ==> args[r] == x
    ensures forall i :: 0 <= i < r ==> args[i] != x
    ensures r == IndexOf(args[..], x)
  {
    r := 0;
    while r < args.Length && args[r] != x
      invariant r <= args.Length
      invariant forall i :: 0 <= i < r ==> args[i] != x
    {
      r := r + 1;
    }
  }

  /** `main(res, args)` up to `sh.twistd(...)`: `args` is changed in place when
      it holds `--`, and the list passed to twistd is returned. */
  method PrepareTwistdArgs(args: array<string>, res: string) returns (argv: seq<string>)
    modifies args
    ensures argv == TwistdArgv(old(args[..]), res)
    ensures Separator in old(args[..]) ==> args[..] == RewriteArgs(old(args[..]))
    ensures Separator !in old(args[..]) ==> args[..] == old(args[..])
  {
    var i := FindFirst(args, Separator);
    var rewritten: seq<string>;
    if i < args.Length {
      args[i] := WebPlugin;
      rewritten := args[..];
    } else {
      rewritten := args[..] + [WebPlugin];
    }
    argv := rewritten + [ClassFlag, res];
  }
}
