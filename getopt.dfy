/**
 * What the `getopt` loops of the two conversion tools make of their command
 * line. Options are handled in the order they appear: some of them end the
 * loop at once (a help request, a rejected value, an undeclared option), and
 * of an option given several times the last occurrence wins.
 */
module Getopt {

  import opened Base

  /** Why the option loop returned before reaching the end of the command line. */
  datatype Stop = HelpRequested | InvalidFormat | InvalidOutputFormat | UnknownOption

  /** The stop caused by the earliest option of `args` that ends the loop, if any. */
  function FirstStop<O>(args: seq<O>, stop: O -> Option<Stop>): Option<Stop>
  {
    if args == [] then None
    else if FirstStop(args[..|args| - 1], stop).Some? then FirstStop(args[..|args| - 1], stop)
    else stop(args[|args| - 1])
  }

  /** The value of the last option of `args` that `pick` recognises, or `default`. */
  function Last<O, T>(args: seq<O>, pick: O -> Option<T>, default: T): T
  {
    if args == [] then default
    else if pick(args[|args| - 1]).Some? then pick(args[|args| - 1]).value
    else Last(args[..|args| - 1], pick, default)
  }

  /** A stop found in a prefix is the stop of the whole command line. */
  lemma {:induction false} FirstStopOfPrefix<O>(args: seq<O>, stop: O -> Option<Stop>, k: nat)
    requires k <= |args| && FirstStop(args[..k], stop).Some?
    ensures FirstStop(args, stop) == FirstStop(args[..k], stop)
    decreases |args| - k
  {
    if k < |args| {
      var next := args[..k + 1];
      assert next[..k] == args[..k];
      FirstStopOfPrefix(args, stop, k + 1);
    } else {
      assert args[..k] == args;
    }
  }

  /** `FirstStop` is the stop of the first option that stops, and there is one exactly when some option stops. */
  lemma {:induction false} FirstStopIsEarliest<O>(args: seq<O>, stop: O -> Option<Stop>)
    ensures FirstStop(args, stop).Some? <==> exists i :: 0 <= i < |args| && stop(args[i]).Some?
    ensures FirstStop(args, stop).Some? ==>
      exists i :: 0 <= i < |args| && stop(args[i]) == FirstStop(args, stop) &&
        forall j :: 0 <= j < i ==> stop(args[j]).None?
  {
    if args != [] {
      var init := args[..|args| - 1];
      FirstStopIsEarliest(init, stop);
      if FirstStop(init, stop).Some? {
        var i :| 0 <= i < |init| && stop(init[i]) == FirstStop(init, stop) &&
          forall j :: 0 <= j < i ==> stop(init[j]).None?;
        assert stop(args[i]) == FirstStop(args, stop);
        assert forall j :: 0 <= j < i ==> args[j] == init[j];
      } else {
        assert forall j :: 0 <= j < |init| ==> args[j] == init[j];
        if stop(args[|args| - 1]).Some? {
          assert forall j :: 0 <= j < |args| - 1 ==> stop(args[j]).None?;
        } else {
          assert forall i :: 0 <= i < |args| ==> stop(args[i]).None?;
        }
      }
    }
  }

  /** `Last` is `default` when no option is recognised, and otherwise the value of the last recognised one. */
  lemma {:induction false} LastIsLatest<O, T>(args: seq<O>, pick: O -> Option<T>, default: T)
    ensures (forall i :: 0 <= i < |args| ==> pick(args[i]).None?) ==> Last(args, pick, default) == default
    ensures (exists i :: 0 <= i < |args| && pick(args[i]).Some?) ==>
      exists i :: 0 <= i < |args| && pick(args[i]) == Some(Last(args, pick, default)) &&
        forall j :: i < j < |args| ==> pick(args[j]).None?
  {
    if args != [] {
      var init := args[..|args| - 1];
      LastIsLatest(init, pick, default);
      assert forall j :: 0 <= j < |init| ==> args[j] == init[j];
      if pick(args[|args| - 1]).None? {
        if exists i :: 0 <= i < |args| && pick(args[i]).Some? {
          var i :| 0 <= i < |args| && pick(args[i]).Some?;
          assert pick(init[i]).Some?;
        }
      }
    }
  }

  /** The format letters the network reader accepts after `-f`. */
  const FormatLetters: string := "scpodum"

  /** `optarg[0]`: the first character of an option argument, `'\0'` for an empty one. */
  function FormatChar(arg: string): char
  {
    if arg == [] then '\0' else arg[0]
  }
}
