/**
 * Three pieces of Ember's `Application`: the frame-rate cap listener, the
 * selection of the user's Lua scripts, and the console commands that stop
 * the main loop or toggle server polling.
 */
module Application {
  import opened Common
  import opened StringOrder

  /** C++ integer division of `long`s: the quotient truncated toward zero. */
  function TruncatingDiv(a: int, b: int): int
    requires b != 0
  {
    if (a < 0) == (b < 0) then Abs(a) / Abs(b) else -(Abs(a) / Abs(b))
  }

  function Abs(x: int): nat
  {
    if x < 0 then -x else x
  }

  /**
   * The length of a frame in microseconds for a desired frame rate: the
   * largest whole number of microseconds that many frames fit into one
   * second, 0 (no cap) for a rate of 0, and the negated value for a
   * negative rate.
   */
  function FramePeriod(fps: int): (r: int)
    ensures fps == 0 ==> r == 0
    ensures fps > 0 ==> r >= 0
    ensures fps < 0 ==> r <= 0
    ensures fps != 0 ==> Abs(r) * Abs(fps) <= 1000000 < (Abs(r) + 1) * Abs(fps)
  {
    if fps != 0 then
      var q := 1000000 / Abs(fps);
      QuotientBounds(1000000, Abs(fps));
      assert Abs(TruncatingDiv(1000000, fps)) == q;
      TruncatingDiv(1000000, fps)
    else
      0
  }

  /** The quotient is the largest multiple of the divisor that fits. */
  lemma QuotientBounds(n: nat, d: nat)
    requires d > 0
    ensures (n / d) * d <= n < (n / d + 1) * d
  {
    var q, r := n / d, n % d;
    assert n == q * d + r && r < d;
    assert (q + 1) * d == q * d + d;
  }

  /** The listener for the "general:desiredfps" setting, which caps the frame rate. */
  class DesiredFpsListener {
    /** The desired frames per second; 0 means no cap. */
    var desiredFps: int
    /** How long each frame should take, in microseconds; 0 means no cap. */
    var microsecondsPerFrame: int

    /** The period always belongs to the rate. */
    ghost predicate Valid()
      reads this
    {
      microsecondsPerFrame == FramePeriod(desiredFps)
    }

    constructor ()
      ensures Valid()
      ensures desiredFps == 0 && microsecondsPerFrame == 0
    {
      desiredFps := 0;
      microsecondsPerFrame := 0;
    }

    /**
     * `Config_DesiredFps`: a numeric value is truncated to a whole rate and
     * the period recomputed; anything else is ignored.
     */
    method ConfigDesiredFps(variable: Variable)
      modifies this
      ensures variable.Numeric? ==> desiredFps == TruncateToInt(variable.number) && Valid()
      ensures variable.NonNumeric? ==>
                desiredFps == old(desiredFps) && microsecondsPerFrame == old(microsecondsPerFrame)
    {
      if variable.Numeric? {
        desiredFps := TruncateToInt(variable.number);
        if desiredFps != 0 {
          microsecondsPerFrame := TruncatingDiv(1000000, desiredFps);
        } else {
          microsecondsPerFrame := 0;
        }
      }
    }

    /** `getDesiredFps`. */
    function DesiredFps(): int
      reads this
    {
      desiredFps
    }

    /** `getMicrosecondsPerFrame`. */
    function MicrosecondsPerFrame(): int
      reads this
    {
      microsecondsPerFrame
    }
  }

  /** The console command that ends the main loop. */
  const QuitCommand := "quit"
  /** The console command that switches server polling on and off. */
  const ToggleErisPollingCommand := "toggle_erispolling"

  /** The flags of `Application` the console commands act on. */
  class Application {
    var shouldQuit: bool
    var pollEris: bool

    constructor ()
      ensures !shouldQuit && pollEris
    {
      shouldQuit := false;
      pollEris := true;
    }

    /** `runCommand`: "quit" asks the main loop to stop, "toggle_erispolling" flips polling, other commands do nothing. */
    method RunCommand(command: string, args: string)
      modifies this
      ensures command == QuitCommand ==> shouldQuit && pollEris == old(pollEris)
      ensures command == ToggleErisPollingCommand ==> pollEris == !old(pollEris) && shouldQuit == old(shouldQuit)
      ensures command != QuitCommand && command != ToggleErisPollingCommand ==>
                shouldQuit == old(shouldQuit) && pollEris == old(pollEris)
    {
      if command == QuitCommand {
        shouldQuit := true;
      } else if command == ToggleErisPollingCommand {
        pollEris := !pollEris;
      }
    }
  }

  /** `::tolower` in the "C" locale: only 'A' to 'Z' change. */
  function ToLowerChar(c: char): char
  {
    if 'A' <= c <= 'Z' then (c as int + 32) as char else c
  }

  function ToLower(s: string): (r: string)
    ensures |r| == |s|
  {
    seq(|s|, i requires 0 <= i < |s| => ToLowerChar(s[i]))
  }

  /** Lower-casing twice changes nothing more. */
  lemma ToLowerIdempotent(s: string)
    ensures ToLower(ToLower(s)) == ToLower(s)
  {
  }

  const LuaSuffix := ".lua"

  /** A file name whose lower-cased form ends in ".lua"; names shorter than the suffix are not scripts. */
  predicate IsLuaScript(name: string)
  {
    |name| >= |LuaSuffix| && ToLower(name)[|name| - |LuaSuffix|..] == LuaSuffix
  }

  /** The suffix test ignores case: a name and its lower-cased form are scripts together. */
  lemma IsLuaScriptIgnoresCase(name: string)
    ensures IsLuaScript(name) <==> IsLuaScript(ToLower(name))
  {
    ToLowerIdempotent(name);
  }

  /** A directory entry the scan keeps: not "." or "..", and a Lua script. */
  predicate Selected(name: string)
  {
    name != "." && name != ".." && IsLuaScript(name)
  }

  /** The selected entries, in listing order and original spelling. */
  function UserScripts(entries: seq<string>): seq<string>
  {
    if entries == [] then []
    else
      var last := entries[|entries| - 1];
      UserScripts(entries[..|entries| - 1]) + (if Selected(last) then [last] else [])
  }

  /** A name is kept exactly when it is listed and selected; "." and ".." never are. */
  lemma {:induction false} UserScriptsMembers(entries: seq<string>, name: string)
    ensures name in UserScripts(entries) <==> name in entries && Selected(name)
    ensures "." !in UserScripts(entries) && ".." !in UserScripts(entries)
  {
    if entries != [] {
      var init := entries[..|entries| - 1];
      UserScriptsMembers(init, name);
      assert entries == init + [entries[|entries| - 1]];
      UserScriptsMembers(init, ".");
      UserScriptsMembers(init, "..");
    }
  }

  /** Each selected name is kept as often as it is listed, every other name never. */
  lemma {:induction false} UserScriptsCount(entries: seq<string>, name: string)
    ensures multiset(UserScripts(entries))[name] == if Selected(name) then multiset(entries)[name] else 0
  {
    if entries != [] {
      var init := entries[..|entries| - 1];
      UserScriptsCount(init, name);
      assert entries == init + [entries[|entries| - 1]];
    }
  }

  /**
   * The scripts run in sorted order whatever order the directory lists its
   * entries in.
   */
  lemma ScriptOrderDeterministic(entries: seq<string>, relisted: seq<string>)
    requires multiset(entries) == multiset(relisted)
    ensures Sort(UserScripts(entries)) == Sort(UserScripts(relisted))
  {
    forall name
      ensures multiset(UserScripts(entries))[name] == multiset(UserScripts(relisted))[name]
    {
      UserScriptsCount(entries, name);
      UserScriptsCount(relisted, name);
    }
    assert multiset(UserScripts(entries)) == multiset(UserScripts(relisted));
    SortDeterministic(UserScripts(entries), UserScripts(relisted));
  }

  /**
   * The user-script scan of `startScripting` as written: the suffix
   * comparison starts at `length - 4`, which for a name shorter than 4
   * characters wraps around to a huge position and makes
   * `std::string::compare` throw, abandoning the scan.
   */
  function ScanAsWritten(entries: seq<string>): Option<seq<string>>
  {
    if entries == [] then Some([])
    else
      var last := entries[|entries| - 1];
      match ScanAsWritten(entries[..|entries| - 1])
      case None => None
      case Some(kept) =>
        if last == "." || last == ".." then Some(kept)
        else if |last| < |LuaSuffix| then None
        else Some(kept + (if ToLower(last)[|last| - |LuaSuffix|..] == LuaSuffix then [last] else []))
  }

  /** A directory holding "init.lua" and a file named "ab" loses every script as written. */
  lemma ShortNameAbortsScanAsWritten()
    ensures ScanAsWritten(["init.lua", "ab"]) == None
    ensures UserScripts(["init.lua", "ab"]) == ["init.lua"]
  {
    assert ["init.lua", "ab"][..1] == ["init.lua"];
    assert ["init.lua"][..0] == [];
    assert ToLower("init.lua") == "init.lua";
  }

  /**
   * The written scan fails exactly when some listed name other than "." and
   * ".." is shorter than the suffix; otherwise it keeps what the corrected
   * selection keeps.
   */
  lemma {:induction false} ScanAsWrittenAgrees(entries: seq<string>)
    ensures ScanAsWritten(entries).None? <==>
              exists k :: 0 <= k < |entries| && entries[k] != "." && entries[k] != ".." && |entries[k]| < |LuaSuffix|
    ensures ScanAsWritten(entries).Some? ==> ScanAsWritten(entries).value == UserScripts(entries)
  {
    if entries != [] {
      var init := entries[..|entries| - 1];
      ScanAsWrittenAgrees(init);
      assert forall k :: 0 <= k < |init| ==> init[k] == entries[k];
    }
  }

  /**
   * The user-script part of `startScripting`, for a scripts directory that
   * exists and lists `entries`: keep the Lua scripts, skipping "." and "..",
   * then sort them; names shorter than the suffix are skipped rather than
   * aborting the scan.
   */
  method SelectUserScripts(entries: seq<string>) returns (luaFiles: seq<string>)
    ensures luaFiles == Sort(UserScripts(entries))
    ensures Sorted(luaFiles)
    ensures forall name :: name in luaFiles <==> name in entries && Selected(name)
  {
    luaFiles := [];
    for i := 0 to |entries|
      invariant luaFiles == UserScripts(entries[..i])
    {
      var fileName := entries[i];
      if fileName != "." && fileName != ".." {
        var lowerCaseFileName := ToLower(fileName);
        if |lowerCaseFileName| >= |LuaSuffix|
           && lowerCaseFileName[|lowerCaseFileName| - |LuaSuffix|..] == LuaSuffix {
          luaFiles := luaFiles + [fileName];
        }
      }
      assert entries[..i + 1][..i] == entries[..i];
    }
    assert entries[..|entries|] == entries;
    luaFiles := Sort(luaFiles);
    forall name
      ensures name in luaFiles <==> name in entries && Selected(name)
    {
      UserScriptsMembers(entries, name);
      assert name in luaFiles <==> name in multiset(luaFiles);
    }
  }
}
