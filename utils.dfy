/**
 * The pure decisions of runc's CLI helpers: the tri-state `--rootless` value
 * (`parseBoolOrAuto`, with Go's `strconv.ParseBool`) and the argument-count check
 * of `checkArgs`.
 */
module CliUtils {
  import opened Wrappers

  /** The error `strconv.ParseBool` returns: a syntax error naming the input. */
  datatype ParseError = SyntaxError(input: string)

  /** The spellings `strconv.ParseBool` accepts. */
  const TrueWords: seq<string> := ["1", "t", "T", "TRUE", "true", "True"]
  const FalseWords: seq<string> := ["0", "f", "F", "FALSE", "false", "False"]

  /** ASCII lowering of one character. Go's `unicode.ToLower` lowers more characters, but
      none of the others lowers to a letter of "auto", so the one comparison the core makes
      is decided exactly as in Go. */
  function AsciiLowerChar(c: char): char {
    if 'A' <= c <= 'Z' then (c as int + 32) as char else c
  }

  /** ASCII lowering of a string, standing in for `strings.ToLower` in the test for "auto". */
  function AsciiLower(s: string): string {
    if s == [] then [] else [AsciiLowerChar(s[0])] + AsciiLower(s[1..])
  }

  /** "auto" in any mix of upper and lower case. */
  predicate IsAutoSpelling(s: string) {
    |s| == 4 && s[0] in "aA" && s[1] in "uU" && s[2] in "tT" && s[3] in "oO"
  }

  lemma {:induction false} LowerIsAuto(s: string)
    ensures AsciiLower(s) == "auto" <==> IsAutoSpelling(s)
  {
    LowerAt(s);
    if |s| == 4 && AsciiLower(s) != "auto" {
      var k :| 0 <= k < 4 && AsciiLower(s)[k] != "auto"[k];
      assert AsciiLowerChar(s[k]) != "auto"[k];
    }
  }

  /** Lowering keeps the length and works character by character. */
  lemma {:induction false} LowerAt(s: string)
    ensures |AsciiLower(s)| == |s|
    ensures forall i | 0 <= i < |s| :: AsciiLower(s)[i] == AsciiLowerChar(s[i])
  {
    if s != [] {
      LowerAt(s[1..]);
      assert forall i | 1 <= i < |s| :: AsciiLower(s)[i] == AsciiLower(s[1..])[i - 1];
    }
  }

  /** `strconv.ParseBool`. */
  function ParseBool(s: string): (r: Result<bool, ParseError>)
    ensures r == Success(true) <==> s in TrueWords
    ensures r == Success(false) <==> s in FalseWords
    ensures r.Failure? <==> s !in TrueWords && s !in FalseWords
    ensures r.Failure? ==> r.error == SyntaxError(s)
  {
    if s == "1" || s == "t" || s == "T" || s == "TRUE" || s == "true" || s == "True" then Success(true)
    else if s == "0" || s == "f" || s == "F" || s == "FALSE" || s == "false" || s == "False" then Success(false)
    else Failure(SyntaxError(s))
  }

  /** `parseBoolOrAuto`: `Success(None)` stands for Go's `(nil, nil)`, "detect automatically". */
  function ParseBoolOrAuto(s: string): (r: Result<Option<bool>, ParseError>)
    ensures r == Success(None) <==> s == "" || IsAutoSpelling(s)
    ensures r == Success(Some(true)) <==> s in TrueWords
    ensures r == Success(Some(false)) <==> s in FalseWords
    ensures r.Failure? <==> s != "" && !IsAutoSpelling(s) && s !in TrueWords && s !in FalseWords
    ensures r.Failure? ==> r.error == SyntaxError(s)
  {
    LowerIsAuto(s);
    if s == "" || AsciiLower(s) == "auto" then Success(None)
    else
      match ParseBool(s)
      case Success(b) => Success(Some(b))
      case Failure(e) => Failure(e)
  }

  /** The `checkType` values of `checkArgs` (Go's `iota` constants). */
  const ExactArgs: int := 0
  const MinArgs: int := 1
  const MaxArgs: int := 2

  /** Which bound a command's argument count violated. */
  datatype Requirement = Exactly | AtLeast | AtMost

  /** The error `checkArgs` builds: the program name (`os.Args[0]`), the command
      name, the violated bound and the expected count. */
  datatype ArgsError = ArgsError(program: string, command: string, requirement: Requirement, expected: int)

  /** The count decision of `checkArgs`; `None` is Go's nil error. */
  function CheckArgs(program: string, command: string, nArg: nat, expected: int, checkType: int): (r: Option<ArgsError>)
    ensures checkType == ExactArgs ==> (r.Some? <==> nArg != expected)
    ensures checkType == MinArgs ==> (r.Some? <==> nArg < expected)
    ensures checkType == MaxArgs ==> (r.Some? <==> nArg > expected)
    ensures checkType !in {ExactArgs, MinArgs, MaxArgs} ==> r == None
    ensures r.Some? ==> r.value.program == program && r.value.command == command && r.value.expected == expected
    ensures r.Some? ==> r.value.requirement == (if checkType == ExactArgs then Exactly
                                                 else if checkType == MinArgs then AtLeast else AtMost)
  {
    if checkType == ExactArgs && nArg != expected then Some(ArgsError(program, command, Exactly, expected))
    else if checkType == MinArgs && nArg < expected then Some(ArgsError(program, command, AtLeast, expected))
    else if checkType == MaxArgs && nArg > expected then Some(ArgsError(program, command, AtMost, expected))
    else None
  }
}
