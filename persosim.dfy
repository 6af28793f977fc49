/**
 * The console front end of the simulator: splitting a command line into a
 * command and its parameter, dropping null arguments before dispatch, and
 * setting the port the simulator listens on.
 */
module Console {
  import opened Wrappers
  import opened JavaText

  const DEFAULT_SIM_PORT: int := 9876

  /**
   * Splits a console line into at most two words: lower-cased and trimmed, the
   * text before the first space is the command and the trimmed rest its parameter.
   */
  function ParseCommand(args: string): seq<string>
  {
    var argsInput := ToLower(Trim(args));
    var index := IndexOf(argsInput, ' ');
    if index >= 0 then
      var cmd := argsInput[..index];
      var params := Trim(argsInput[index..]);
      [cmd, params]
    else if |argsInput| > 0 then [argsInput]
    else []
  }

  /**
   * What `parseCommand` promises: no word for a blank line; the whole lowered,
   * trimmed line when it has no space; otherwise the non-empty, space-free text
   * before the first space and the trimmed, non-empty rest.
   */
  lemma ParseCommandShape(args: string)
    ensures var r := ParseCommand(args);
      && |r| <= 2
      && (|r| == 0 <==> Trim(args) == [])
      && (|r| == 1 <==> Trim(args) != [] && ' ' !in Trim(args))
      && (|r| == 1 ==> r[0] == ToLower(Trim(args)))
      && (|r| == 2 <==> ' ' in Trim(args))
    ensures var r := ParseCommand(args);
      |r| == 2 ==> var argsInput := ToLower(Trim(args));
        && 0 < |r[0]| < |argsInput| && argsInput[..|r[0]|] == r[0] && ' ' !in r[0]
        && argsInput[|r[0]|] == ' ' && r[1] == Trim(argsInput[|r[0]|..]) && r[1] != []
  {
    var argsInput := ToLower(Trim(args));
    ToLowerKeepsSpacesAndTrimmed(Trim(args));
    SpaceInLowered(Trim(args));
    var index := IndexOf(argsInput, ' ');
    if index >= 0 {
      assert argsInput[index..][|argsInput| - 1 - index] == argsInput[|argsInput| - 1];
    }
  }

  lemma SpaceInLowered(s: string)
    ensures ' ' in ToLower(s) <==> ' ' in s
  {
    ToLowerKeepsSpacesAndTrimmed(s);
    if ' ' in s {
      var i :| 0 <= i < |s| && s[i] == ' ';
      assert ToLower(s)[i] == ' ';
    }
  }

  /** Every character is already lower case. */
  predicate IsLower(s: string)
  {
    forall i :: 0 <= i < |s| ==> LowerChar(s[i]) == s[i]
  }

  lemma LoweredIsLower(s: string)
    ensures IsLower(ToLower(s))
  {
  }

  lemma LowerSlices(s: string, i: nat, j: nat)
    requires IsLower(s) && i <= j <= |s|
    ensures IsLower(s[i..j]) && IsLower(s[i..])
  {
    assert forall k :: 0 <= k < j - i ==> s[i..j][k] == s[i + k];
    assert forall k :: 0 <= k < |s| - i ==> s[i..][k] == s[i + k];
  }

  lemma TrimKeepsLower(s: string)
    requires IsLower(s)
    ensures IsLower(Trim(s))
  {
    var k := TrimStartIndex(s);
    var e := TrimEndIndex(s[k..]);
    LowerSlices(s, k, k + e);
  }

  lemma ToLowerOfLower(s: string)
    requires IsLower(s)
    ensures ToLower(s) == s
  {
  }

  /** Trimming one space off the front of a trimmed, non-empty string. */
  lemma TrimAfterSpace(t: string)
    requires IsTrimmed(t) && t != []
    ensures Trim([' '] + t) == t
  {
    var s := [' '] + t;
    assert s[1..] == t;
    assert TrimStartIndex(s) == 1;
    assert s[1..] == t;
  }

  /** The two words of a parsed line are lower case, the first one starts and the second one ends with a kept character. */
  lemma ParsedWords(args: string)
    requires |ParseCommand(args)| == 2
    ensures var r := ParseCommand(args);
      && IsLower(r[0]) && IsLower(r[1]) && !IsTrimmable(r[0][0]) && IsTrimmed(r[1])
  {
    var r := ParseCommand(args);
    var argsInput := ToLower(Trim(args));
    ParseCommandShape(args);
    LoweredIsLower(Trim(args));
    ToLowerKeepsSpacesAndTrimmed(Trim(args));
    LowerSlices(argsInput, 0, |r[0]|);
    assert argsInput[0..|r[0]|] == r[0];
    LowerSlices(argsInput, |r[0]|, |argsInput|);
    TrimKeepsLower(argsInput[|r[0]|..]);
    assert r[0][0] == argsInput[0];
  }

  lemma JoinedIsTrimmedLower(cmd: string, params: string)
    requires cmd != [] && IsLower(cmd) && !IsTrimmable(cmd[0])
    requires params != [] && IsLower(params) && IsTrimmed(params)
    ensures IsLower(cmd + [' '] + params) && IsTrimmed(cmd + [' '] + params)
  {
    var s := cmd + [' '] + params;
    assert forall k :: 0 <= k < |cmd| ==> s[k] == cmd[k];
    assert forall k :: 0 <= k < |params| ==> s[|cmd| + 1 + k] == params[k];
    assert forall k :: 0 <= k < |s| ==> k < |cmd| || k == |cmd| || s[k] == params[k - |cmd| - 1];
  }

  lemma FirstSpaceAfterWord(cmd: string, params: string)
    requires ' ' !in cmd
    ensures IndexOf(cmd + [' '] + params, ' ') == |cmd|
  {
    var s := cmd + [' '] + params;
    var i := IndexOf(s, ' ');
    assert s[|cmd|] == ' ';
  }

  lemma SplitJoined(a: string, b: string)
    ensures (a + [' '] + b)[..|a|] == a && (a + [' '] + b)[|a|..] == [' '] + b
  {
  }

  /** Trimming and lowering leave such a joined line as it is. */
  lemma JoinedInputUnchanged(cmd: string, params: string)
    requires cmd != [] && IsLower(cmd) && !IsTrimmable(cmd[0])
    requires params != [] && IsLower(params) && IsTrimmed(params)
    ensures ToLower(Trim(cmd + [' '] + params)) == cmd + [' '] + params
  {
    JoinedIsTrimmedLower(cmd, params);
    TrimOfTrimmed(cmd + [' '] + params);
    ToLowerOfLower(cmd + [' '] + params);
  }

  /** A command word, one space and a parameter: how `parseCommand` splits such a line. */
  lemma ParseJoined(cmd: string, params: string)
    requires cmd != [] && ' ' !in cmd && IsLower(cmd) && !IsTrimmable(cmd[0])
    requires params != [] && IsLower(params) && IsTrimmed(params)
    ensures ParseCommand(cmd + [' '] + params) == [cmd, params]
  {
    var s := cmd + [' '] + params;
    JoinedInputUnchanged(cmd, params);
    FirstSpaceAfterWord(cmd, params);
    SplitJoined(cmd, params);
    TrimAfterSpace(params);
  }

  /** Parsing the command and its parameter joined by one space gives them back. */
  lemma ParseCommandRejoin(args: string)
    requires |ParseCommand(args)| == 2
    ensures var r := ParseCommand(args);
      ParseCommand(r[0] + [' '] + r[1]) == r
  {
    var r := ParseCommand(args);
    ParseCommandShape(args);
    ParsedWords(args);
    ParseJoined(r[0], r[1]);
  }

  /** A one-word command parses to itself. */
  lemma ParseCommandSingle(args: string)
    requires |ParseCommand(args)| == 1
    ensures var r := ParseCommand(args);
      ParseCommand(r[0]) == r
  {
    var t := Trim(args);
    ParseCommandShape(args);
    LoweredIsLower(t);
    ToLowerKeepsSpacesAndTrimmed(t);
    SpaceInLowered(t);
    TrimOfTrimmed(ToLower(t));
    ToLowerOfLower(ToLower(t));
  }

  // ---------------------------------------------------------------------------
  // Dropping null arguments

  /** The non-null entries of an argument list, in their order. */
  function NonNull(args: seq<Option<string>>): seq<Option<string>>
  {
    if |args| == 0 then []
    else (if args[0].Some? then [args[0]] else []) + NonNull(args[1..])
  }

  lemma NonNullStep(args: seq<Option<string>>, i: nat)
    requires i < |args|
    ensures NonNull(args[i..]) == (if args[i].Some? then [args[i]] else []) + NonNull(args[i + 1..])
  {
    assert args[i..][1..] == args[i + 1..];
  }

  /** An entry survives exactly when it is a non-null entry of the input. */
  lemma {:induction false} NonNullMembership(args: seq<Option<string>>)
    ensures forall x :: x in NonNull(args) <==> x in args && x.Some?
  {
    if |args| > 0 {
      NonNullMembership(args[1..]);
      assert args == [args[0]] + args[1..];
    }
  }

  /** No null entry is left. */
  lemma {:induction false} NonNullHasNoNulls(args: seq<Option<string>>)
    ensures forall i :: 0 <= i < |NonNull(args)| ==> NonNull(args)[i].Some?
  {
    if |args| > 0 {
      NonNullHasNoNulls(args[1..]);
    }
  }

  /** Filtering a concatenation filters each part: the survivors keep their order. */
  lemma {:induction false} NonNullAppend(a: seq<Option<string>>, b: seq<Option<string>>)
    ensures NonNull(a + b) == NonNull(a) + NonNull(b)
  {
    if |a| > 0 {
      NonNullAppend(a[1..], b);
      assert (a + b)[1..] == a[1..] + b;
    } else {
      assert a + b == b;
    }
  }

  /** A list without nulls is left as it is. */
  lemma {:induction false} NonNullOfNonNull(args: seq<Option<string>>)
    requires forall i :: 0 <= i < |args| ==> args[i].Some?
    ensures NonNull(args) == args
  {
    if |args| > 0 {
      NonNullOfNonNull(args[1..]);
    }
  }

  /** Exactly the null entries are dropped. */
  lemma {:induction false} NonNullCount(args: seq<Option<string>>)
    ensures |NonNull(args)| == |args| - multiset(args)[None]
  {
    if |args| > 0 {
      NonNullCount(args[1..]);
      assert args == [args[0]] + args[1..];
    }
  }

  /** The first loop of `executeUserCommands`: removes the null entries, walking down from the end. */
  method RemoveNullArguments(args: seq<Option<string>>) returns (currentArgs: seq<Option<string>>)
    ensures currentArgs == NonNull(args)
  {
    currentArgs := args;
    var i := |args|;
    while i > 0
      invariant 0 <= i <= |currentArgs|
      invariant currentArgs[..i] == args[..i]
      invariant currentArgs[i..] == NonNull(args[i..])
    {
      i := i - 1;
      NonNullStep(args, i);
      if currentArgs[i].None? {
        currentArgs := currentArgs[..i] + currentArgs[i + 1..];
      }
    }
  }

  class PersoSim {
    var simPort: int

    /** The port is one `parseInt` can produce and `setPort` accepts. */
    predicate Valid()
      reads this
    {
      0 <= simPort <= INT_MAX
    }

    /** The command-line arguments are not part of this model; the port starts at its default. */
    constructor ()
      ensures Valid() && simPort == DEFAULT_SIM_PORT
    {
      simPort := DEFAULT_SIM_PORT;
    }

    /**
     * Sets the port for the next start of the simulator. Null, text that is not
     * a 32-bit decimal and a negative number are rejected, leaving the port as it was.
     */
    method SetPort(newPortString: Option<string>) returns (thrown: Option<JavaException>)
      modifies this
      ensures newPortString.None? ==> thrown == Some(NullPointerException)
      ensures newPortString.Some? && ParseInt(newPortString.value).Failure? ==> thrown == Some(NumberFormatException)
      ensures newPortString.Some? && ParseInt(newPortString.value).Success? ==>
                thrown == (if ParseInt(newPortString.value).value < 0 then Some(IllegalArgumentException) else None)
      ensures simPort == if thrown.None? then ParseInt(newPortString.value).value else old(simPort)
      ensures old(Valid()) ==> Valid()
    {
      if newPortString.None? {
        return Some(NullPointerException);
      }
      var parsed := ParseInt(newPortString.value);
      if parsed.Failure? {
        return Some(parsed.error);
      }
      var newPort := parsed.value;
      if newPort < 0 {
        return Some(IllegalArgumentException);
      }
      simPort := newPort;
      return None;
    }
  }
}
