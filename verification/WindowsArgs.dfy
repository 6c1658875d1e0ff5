/** Windows argument quoting (`elevated_record_helper.rs`) against the
    `CommandLineToArgvW` rules the launched helper splits its parameters with. */
module WindowsArgs {

  function Slashes(n: nat): (r: string)
    ensures |r| == n && forall i :: 0 <= i < n ==> r[i] == '\\'
  {
    seq(n, i => '\\')
  }

  // ------------------------------------------------------ splitting rules

  predicate Blank(c: char) { c == ' ' || c == '\t' }

  /** One argument of a command line, and what follows it. A run of backslashes
      is literal unless a quotation mark ends it: then each pair is one
      backslash, and an odd one out makes the mark literal. `doubledStays` is
      whether a doubled mark inside quotes leaves the quotes open; Windows
      releases differ on it, and the results here hold either way. */
  function SplitArg(s: string, quoted: bool, slashes: nat, arg: string, doubledStays: bool): (r: (string, string))
    ensures |r.1| <= |s|
    ensures s != [] && (quoted || !Blank(s[0])) ==> |r.1| < |s|
    decreases |s|
  {
    if s == [] then (arg + Slashes(slashes), [])
    else if s[0] == '\\' then SplitArg(s[1..], quoted, slashes + 1, arg, doubledStays)
    else if s[0] == '"' then
      var arg' := arg + Slashes(slashes / 2);
      if slashes % 2 == 1 then SplitArg(s[1..], quoted, 0, arg' + "\"", doubledStays)
      else if quoted && |s| > 1 && s[1] == '"' then SplitArg(s[2..], doubledStays, 0, arg' + "\"", doubledStays)
      else SplitArg(s[1..], !quoted, 0, arg', doubledStays)
    else if Blank(s[0]) && !quoted then (arg + Slashes(slashes), s)
    else SplitArg(s[1..], quoted, 0, arg + Slashes(slashes) + [s[0]], doubledStays)
  }

  function SkipBlanks(s: string): (r: string)
    ensures |r| <= |s| && (r == [] || !Blank(r[0]))
  {
    if s != [] && Blank(s[0]) then SkipBlanks(s[1..]) else s
  }

  /** The arguments of a parameter line (everything after the program name). */
  function SplitLine(line: string, doubledStays: bool): seq<string>
    decreases |line|
  {
    var s := SkipBlanks(line);
    if s == [] then [] else
      var (arg, rest) := SplitArg(s, false, 0, "", doubledStays);
      [arg] + SplitLine(rest, doubledStays)
  }

  // -------------------------------------------------------------- quoting

  /** What is still to be written for `value` after `pending` backslashes. */
  function Escaped(value: string, pending: nat): string {
    if value == [] then Slashes(2 * pending) + "\""
    else if value[0] == '\\' then Escaped(value[1..], pending + 1)
    else if value[0] == '"' then Slashes(2 * pending + 1) + "\"" + Escaped(value[1..], 0)
    else Slashes(pending) + [value[0]] + Escaped(value[1..], 0)
  }

  function Quoted(value: string): string { "\"" + Escaped(value, 0) }

  /** The quoting loop; the quoted text splits back into exactly the value. */
  method QuoteWindowsArg(value: string) returns (quoted: string)
    ensures quoted == Quoted(value)
    ensures forall stays :: SplitLine(quoted, stays) == [value]
  {
    quoted := "\"";
    var backslashes: nat := 0;
    for i := 0 to |value|
      invariant quoted + Escaped(value[i..], backslashes) == Quoted(value)
    {
      var c := value[i];
      ghost var rest := value[i + 1..];
      assert value[i..][0] == c && value[i..][1..] == rest;
      if c == '\\' {
        backslashes := backslashes + 1;
      } else if c == '"' {
        assert quoted + (Slashes(2 * backslashes + 1) + "\"" + Escaped(rest, 0))
            == quoted + Slashes(2 * backslashes + 1) + "\"" + Escaped(rest, 0);
        quoted := quoted + Slashes(2 * backslashes + 1);
        quoted := quoted + "\"";
        backslashes := 0;
      } else {
        assert quoted + (Slashes(backslashes) + [c] + Escaped(rest, 0))
            == quoted + Slashes(backslashes) + [c] + Escaped(rest, 0);
        quoted := quoted + Slashes(backslashes);
        backslashes := 0;
        quoted := quoted + [c];
      }
    }
    assert value[|value|..] == [];
    quoted := quoted + Slashes(2 * backslashes);
    quoted := quoted + "\"";
    assert quoted == Quoted(value);
    forall stays ensures SplitLine(quoted, stays) == [value] { QuotedSplitsBack(value, "", stays); }
  }

  // ----------------------------------------------------------- round trip

  lemma {:induction false} SplitSlashes(n: nat, s: string, quoted: bool, slashes: nat, arg: string, stays: bool)
    ensures SplitArg(Slashes(n) + s, quoted, slashes, arg, stays) == SplitArg(s, quoted, slashes + n, arg, stays)
    decreases n
  {
    if n == 0 {
      assert Slashes(0) + s == s;
    } else {
      assert (Slashes(n) + s)[1..] == Slashes(n - 1) + s;
      SplitSlashes(n - 1, s, quoted, slashes + 1, arg, stays);
    }
  }

  ghost predicate EndsArg(rest: string) { rest == [] || Blank(rest[0]) }

  lemma {:induction false} EscapedSplitsBack(value: string, pending: nat, rest: string, arg: string, stays: bool)
    requires EndsArg(rest)
    ensures SplitArg(Escaped(value, pending) + rest, true, 0, arg, stays) == (arg + Slashes(pending) + value, rest)
    decreases value
  {
    hide SplitArg, Escaped, Slashes;
    if value == [] {
      SplitClosingMark(pending, rest, arg, stays);
      EscapedNothing(pending, rest);
      assert arg + Slashes(pending) + value == arg + Slashes(pending);
    } else if value[0] == '\\' {
      EscapedSlash(value, pending, arg);
      EscapedSplitsBack(value[1..], pending + 1, rest, arg, stays);
    } else {
      SplitCharacter(value[0], pending, Escaped(value[1..], 0) + rest, arg, stays);
      EscapedCharacter(value, pending, rest);
      var arg' := arg + Slashes(pending) + [value[0]];
      EscapedSplitsBack(value[1..], 0, rest, arg', stays);
      NoSlashes();
      assert arg' + [] + value[1..] == arg + Slashes(pending) + value;
    }
  }

  lemma NoSlashes()
    ensures Slashes(0) == []
  {}

  lemma EscapedNothing(pending: nat, rest: string)
    ensures Escaped([], pending) + rest == Slashes(2 * pending) + ("\"" + rest)
  {}

  lemma EscapedSlash(value: string, pending: nat, arg: string)
    requires value != [] && value[0] == '\\'
    ensures Escaped(value, pending) == Escaped(value[1..], pending + 1)
    ensures arg + Slashes(pending + 1) + value[1..] == arg + Slashes(pending) + value
  {}

  lemma EscapedCharacter(value: string, pending: nat, rest: string)
    requires value != [] && value[0] != '\\'
    ensures Escaped(value, pending) + rest
         == Slashes(if value[0] == '"' then 2 * pending + 1 else pending) + ([value[0]] + (Escaped(value[1..], 0) + rest))
  {}

  lemma SplitClosingMark(pending: nat, rest: string, arg: string, stays: bool)
    requires EndsArg(rest)
    ensures SplitArg(Slashes(2 * pending) + ("\"" + rest), true, 0, arg, stays) == (arg + Slashes(pending), rest)
  {
    SplitSlashes(2 * pending, "\"" + rest, true, 0, arg, stays);
    assert ("\"" + rest)[1..] == rest;
    assert arg + Slashes(pending) + Slashes(0) == arg + Slashes(pending);
  }

  lemma SplitCharacter(c: char, pending: nat, tail: string, arg: string, stays: bool)
    requires c != '\\'
    ensures SplitArg(Slashes(if c == '"' then 2 * pending + 1 else pending) + ([c] + tail), true, 0, arg, stays)
         == SplitArg(tail, true, 0, arg + Slashes(pending) + [c], stays)
  {
    var out := if c == '"' then 2 * pending + 1 else pending;
    SplitSlashes(out, [c] + tail, true, 0, arg, stays);
    assert ([c] + tail)[1..] == tail;
  }

  lemma QuotedTail(value: string, rest: string)
    ensures Quoted(value) + rest == "\"" + (Escaped(value, 0) + rest)
  {
    hide Escaped;
  }

  lemma OpeningMark(tail: string, stays: bool)
    ensures SplitArg("\"" + tail, false, 0, "", stays) == SplitArg(tail, true, 0, "", stays)
    ensures SkipBlanks("\"" + tail) == "\"" + tail
  {
    assert ("\"" + tail)[1..] == tail;
    assert "" + Slashes(0) == "";
  }

  lemma QuotedArg(value: string, rest: string, stays: bool)
    requires EndsArg(rest)
    ensures SplitArg(Quoted(value) + rest, false, 0, "", stays) == (value, rest)
    ensures SplitLine(Quoted(value) + rest, stays) == [value] + SplitLine(rest, stays)
  {
    QuotedTail(value, rest);
    OpeningMark(Escaped(value, 0) + rest, stays);
    EscapedSplitsBack(value, 0, rest, "", stays);
    NoSlashes();
    hide SplitArg, Escaped, Quoted, Slashes, SkipBlanks;
    assert "" + [] + value == value;
  }

  /** The central law: whatever the value holds, its quoted form is read back
      exactly, and the rest of the line is left for the next argument. */
  lemma QuotedSplitsBack(value: string, rest: string, stays: bool)
    requires EndsArg(rest)
    ensures SplitArg(Quoted(value) + rest, false, 0, "", stays) == (value, rest)
    ensures SplitLine(Quoted(value) + rest, stays) == [value] + SplitLine(rest, stays)
    ensures SplitLine(Quoted(value), stays) == [value]
  {
    NothingFollows(stays);
    hide SplitArg, Quoted, SplitLine, EndsArg;
    QuotedArg(value, rest, stays);
    QuotedArg(value, "", stays);
    assert Quoted(value) + "" == Quoted(value);
  }

  lemma NothingFollows(stays: bool)
    ensures EndsArg("") && SplitLine("", stays) == []
  {}

  /** Distinct values never share a quoted form. */
  lemma QuotedInjective(a: string, b: string)
    requires Quoted(a) == Quoted(b)
    ensures a == b
  {
    QuotedSplitsBack(a, "", true);
    QuotedSplitsBack(b, "", true);
  }

  // ------------------------------------------------- the helper's command line

  ghost predicate Plain(word: string) {
    word != [] && forall i :: 0 <= i < |word| ==> word[i] != '"' && word[i] != '\\' && !Blank(word[i])
  }

  lemma {:induction false} PlainSplits(word: string, rest: string, arg: string, stays: bool)
    requires EndsArg(rest) && (word == [] || Plain(word))
    ensures SplitArg(word + rest, false, 0, arg, stays) == (arg + word, rest)
    decreases word
  {
    if word == [] {
      assert word + rest == rest;
      assert arg + word == arg && arg + Slashes(0) == arg;
    } else {
      assert (word + rest)[1..] == word[1..] + rest;
      assert arg + Slashes(0) + [word[0]] == arg + [word[0]];
      PlainSplits(word[1..], rest, arg + [word[0]], stays);
      assert arg + [word[0]] + word[1..] == arg + word;
    }
  }

  lemma PlainThen(word: string, rest: string, stays: bool)
    requires EndsArg(rest) && Plain(word)
    ensures SplitLine(word + rest, stays) == [word] + SplitLine(rest, stays)
  {
    assert SkipBlanks(word + rest) == word + rest;
    PlainSplits(word, rest, "", stays);
    assert "" + word == word;
  }

  lemma BlankThen(rest: string, stays: bool)
    ensures SplitLine(" " + rest, stays) == SplitLine(rest, stays)
  {
    assert (" " + rest)[1..] == rest;
    assert SkipBlanks(" " + rest) == SkipBlanks(rest);
  }

  lemma PlainJoin(a: string, b: string)
    requires Plain(a) && Plain(b)
    ensures Plain(a + b)
  {}

  function Digits(n: nat): (r: string)
    ensures Plain(r)
  {
    var last := ["0123456789"[n % 10]];
    assert Plain(last);
    if n < 10 then last else
      var front := Digits(n / 10);
      PlainJoin(front, last);
      front + last
  }

  function Decimal(n: int): (r: string)
    ensures Plain(r)
  {
    if n >= 0 then Digits(n) else
      PlainJoin("-", Digits(-n));
      "-" + Digits(-n)
  }

  /** What a number's text is worth to whoever reads it. */
  function ReadNumber(s: string): int {
    if s != [] && s[0] == '-' then -ReadDigits(s[1..]) else ReadDigits(s)
  }

  function ReadDigits(s: string): int {
    if s == [] then 0 else ReadDigits(s[..|s| - 1]) * 10 + (s[|s| - 1] as int - '0' as int)
  }

  lemma {:induction false} DigitsReadBack(n: nat)
    ensures ReadDigits(Digits(n)) == n && Digits(n) != [] && '0' <= Digits(n)[0] <= '9'
  {
    var d := n % 10;
    assert "0123456789"[d] as int - '0' as int == d && '0' <= "0123456789"[d] <= '9';
    if n >= 10 {
      DigitsReadBack(n / 10);
      var s := Digits(n);
      assert s[..|s| - 1] == Digits(n / 10);
    }
  }

  /** A number reads back as itself, and only a negative one carries a sign. */
  lemma DecimalReadsBack(n: int)
    ensures ReadNumber(Decimal(n)) == n
    ensures Decimal(n) != [] && (Decimal(n)[0] == '-' <==> n < 0)
  {
    hide Digits, ReadDigits;
    DigitsReadBack(if n < 0 then -n else n);
    assert ("-" + Digits(if n < 0 then -n else n))[1..] == Digits(if n < 0 then -n else n);
  }

  function Flag(name: string, argument: string, rest: string): string { name + " " + argument + rest }

  /** Four flags with their arguments, separated by single blanks. */
  function FourFlags(n1: string, a1: string, n2: string, a2: string,
                     n3: string, a3: string, n4: string, a4: string): string {
    Flag(n1, a1, " " + Flag(n2, a2, " " + Flag(n3, a3, " " + Flag(n4, a4, ""))))
  }

  /** The `format!` of `launch_helper_runas`. */
  function HelperParameters(pipe: string, control: string, session: int, timeoutMs: nat): string {
    FourFlags("--pipe-name", Quoted(pipe), "--control-pipe-name", Quoted(control),
      "--record-session-id", Decimal(session), "--parent-liveness-timeout-ms", Decimal(timeoutMs))
  }

  lemma FlagShape(name: string, text: string, rest: string)
    ensures Flag(name, text, rest) == name + (" " + (text + rest))
  {}

  lemma BlankEnds(tail: string)
    ensures EndsArg(" " + tail)
  {}

  lemma FlagSplits(name: string, argument: string, text: string, rest: string, stays: bool)
    requires Plain(name) && EndsArg(rest)
    requires text == Quoted(argument) || (text == argument && Plain(argument))
    ensures SplitLine(Flag(name, text, rest), stays) == [name, argument] + SplitLine(rest, stays)
  {
    hide *;
    var tail := text + rest;
    FlagShape(name, text, rest);
    BlankEnds(tail);
    PlainThen(name, " " + tail, stays);
    BlankThen(tail, stays);
    if text == Quoted(argument) { QuotedSplitsBack(argument, rest, stays); } else { PlainThen(argument, rest, stays); }
    assert [name] + ([argument] + SplitLine(rest, stays)) == [name, argument] + SplitLine(rest, stays);
  }

  lemma FourFlagsSplit(n1: string, v1: string, a1: string, n2: string, v2: string, a2: string,
                       n3: string, v3: string, n4: string, v4: string, stays: bool)
    requires Plain(n1) && Plain(n2) && Plain(n3) && Plain(n4) && Plain(v3) && Plain(v4)
    requires a1 == Quoted(v1) && a2 == Quoted(v2)
    ensures SplitLine(FourFlags(n1, a1, n2, a2, n3, v3, n4, v4), stays) == [n1, v1, n2, v2, n3, v3, n4, v4]
  {
    var d := Flag(n4, v4, "");
    var c := Flag(n3, v3, " " + d);
    var b := Flag(n2, a2, " " + c);
    FlagSplits(n4, v4, v4, "", stays);
    BlankThen(d, stays);
    FlagSplits(n3, v3, v3, " " + d, stays);
    BlankThen(c, stays);
    FlagSplits(n2, v2, a2, " " + c, stays);
    BlankThen(b, stays);
    FlagSplits(n1, v1, a1, " " + b, stays);
  }

  lemma PipeNameIsPlain() ensures Plain("--pipe-name") {}
  lemma ControlNameIsPlain() ensures Plain("--control-pipe-name") {}
  lemma SessionNameIsPlain() ensures Plain("--record-session-id") {}
  lemma TimeoutNameIsPlain() ensures Plain("--parent-liveness-timeout-ms") {}

  /** The helper receives exactly the eight intended arguments, whatever the
      pipe names contain. */
  lemma HelperReceivesItsArguments(pipe: string, control: string, session: int, timeoutMs: nat, stays: bool)
    ensures SplitLine(HelperParameters(pipe, control, session, timeoutMs), stays) ==
            ["--pipe-name", pipe, "--control-pipe-name", control,
             "--record-session-id", Decimal(session), "--parent-liveness-timeout-ms", Decimal(timeoutMs)]
  {
    hide Plain, FourFlags, SplitLine, Quoted, Decimal;
    PipeNameIsPlain();
    ControlNameIsPlain();
    SessionNameIsPlain();
    TimeoutNameIsPlain();
    FourFlagsSplit("--pipe-name", pipe, Quoted(pipe), "--control-pipe-name", control, Quoted(control),
      "--record-session-id", Decimal(session), "--parent-liveness-timeout-ms", Decimal(timeoutMs), stays);
  }
}
