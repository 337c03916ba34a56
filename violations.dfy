/** Violation log entries of src/sandbox/violations.rs: `Violation::parse` reads
    a sandbox denial out of a log line and `to_log_line` writes one. Reading
    and appending the log file are left out. */
module Violations {
  import opened Common
  import opened Text

  /** The largest `u32`. */
  const MaxU32: nat := 0xFFFF_FFFF

  /** `Violation`; the pid is a `u32`, so at most `MaxU32` when present. */
  datatype Violation = Violation(
    timestamp: string,
    pid: Option<nat>,
    operation: string,
    path: Option<string>,
    process: Option<string>)

  // ------------------------------------------------------------ u32 parsing

  predicate IsDigit(c: char)
  {
    '0' <= c <= '9'
  }

  predicate AllDigits(s: string)
  {
    forall i :: 0 <= i < |s| ==> IsDigit(s[i])
  }

  /** The value of a string of decimal digits, most significant first. */
  function DecimalValue(s: string): nat
    requires AllDigits(s)
  {
    if s == [] then 0
    else 10 * DecimalValue(s[..|s| - 1]) + (s[|s| - 1] as int - '0' as int)
  }

  /** The value of a string read digit by digit, most significant first;
      nothing when some character is not a digit. */
  function DigitsValue(s: string): Option<nat>
  {
    if s == [] then Some(0)
    else
      match DigitsValue(s[..|s| - 1])
      case None => None
      case Some(v) =>
        if IsDigit(s[|s| - 1]) then Some(10 * v + (s[|s| - 1] as int - '0' as int)) else None
  }

  /** Reading digit by digit succeeds exactly on strings of digits, with
      their decimal value. */
  lemma {:induction false} DigitsValueIff(s: string)
    ensures DigitsValue(s).Some? <==> AllDigits(s)
    ensures DigitsValue(s).Some? ==> DigitsValue(s).value == DecimalValue(s)
  {
    if s != [] {
      var init := s[..|s| - 1];
      DigitsValueIff(init);
      assert forall i :: 0 <= i < |init| ==> init[i] == s[i];
    }
  }

  /** The digits of a `u32` literal: a leading '+' is allowed and dropped. */
  function UnsignedDigits(s: string): string
  {
    if s != [] && s[0] == '+' then s[1..] else s
  }

  /** `str::parse::<u32>`: an optional '+', then at least one decimal digit,
      and a value that fits in 32 bits. */
  function ParseU32(s: string): (r: Option<nat>)
    ensures r.Some? ==> r.value <= MaxU32
  {
    var digits := UnsignedDigits(s);
    if digits == [] then None
    else
      match DigitsValue(digits)
      case None => None
      case Some(v) => if v <= MaxU32 then Some(v) else None
  }

  /** The parse succeeds exactly on an optional '+' followed by one or more
      digits whose value fits in 32 bits, and yields that value: an empty
      string, a lone '+', a minus sign, any other character and overflow are
      errors. */
  lemma ParseU32Iff(s: string)
    ensures ParseU32(s).Some? <==> var d := UnsignedDigits(s);
      d != [] && AllDigits(d) && DecimalValue(d) <= MaxU32
    ensures ParseU32(s).Some? ==> ParseU32(s).value == DecimalValue(UnsignedDigits(s))
    ensures s == [] || s == "+" ==> ParseU32(s) == None
    ensures s != [] && s[0] == '-' ==> ParseU32(s) == None
  {
    var d := UnsignedDigits(s);
    DigitsValueIff(d);
    if s != [] && s[0] == '-' {
      assert d[0] == '-';
    }
  }

  /** `u32::to_string`: the decimal digits of `n`, without leading zeros. */
  function Decimal(n: nat): string
  {
    if n < 10 then [('0' as int + n) as char]
    else Decimal(n / 10) + [('0' as int + n % 10) as char]
  }

  /** The decimal form consists of digits whose value is the number. */
  lemma {:induction false} DecimalDigits(n: nat)
    ensures Decimal(n) != [] && AllDigits(Decimal(n))
    ensures DecimalValue(Decimal(n)) == n
  {
    if n >= 10 {
      DecimalDigits(n / 10);
      var s := Decimal(n);
      assert s[..|s| - 1] == Decimal(n / 10);
    }
  }

  /** Printing a `u32` and parsing it back, with or without a '+', gives the
      number; past 32 bits the parse fails. */
  lemma ParseU32OfDecimal(n: nat)
    ensures n <= MaxU32 ==> ParseU32(Decimal(n)) == Some(n)
    ensures n <= MaxU32 ==> ParseU32("+" + Decimal(n)) == Some(n)
    ensures n > MaxU32 ==> ParseU32(Decimal(n)) == None
  {
    DecimalDigits(n);
    var d := Decimal(n);
    DigitsValueIff(d);
    assert d[0] != '+';
    assert ("+" + d)[0] == '+' && ("+" + d)[1..] == d;
  }

  // ------------------------------------------------------------ parsing

  const DenyWord := "deny"
  const SandboxdWord := "sandboxd"

  /** Operation and path as read after the first "deny": of the whitespace
      tokens from there on, the second is the operation and the rest, joined
      by single spaces, the path. Fewer than two tokens give neither. */
  function DenyFields(line: string): (r: (string, Option<string>))
    ensures !Contains(line, DenyWord) ==> r == ("", None)
    ensures NoWhitespace(r.0)
    ensures r.0 == [] ==> r.1.None?
  {
    match Find(line, DenyWord)
    case None => ("", None)
    case Some(d) =>
      var parts := SplitWhitespace(line[d..]);
      if |parts| < 2 then ("", None)
      else (parts[1], if |parts| >= 3 then Some(Join(parts[2..], " ")) else None)
  }

  /** The pid read from text that starts at a '(': what lies between it and
      the next ')', when that parses as a `u32`. */
  function PidIn(tail: string): (r: Option<nat>)
    requires tail != [] && tail[0] == '('
    ensures r.Some? ==> r.value <= MaxU32
  {
    match Find(tail, ")")
    case None => None
    case Some(pe) => ParseU32(tail[1..pe])
  }

  /** The pid: the text between the first '(' and the next ')', when it
      parses as a `u32`. */
  function PidOf(line: string): (r: Option<nat>)
    ensures r.Some? ==> r.value <= MaxU32
    ensures !Contains(line, "(") ==> r.None?
  {
    match Find(line, "(")
    case None => None
    case Some(ps) => PidIn(line[ps..])
  }

  /** What `parse` yields: nothing for a line with neither "sandboxd" nor
      "deny"; otherwise a violation with the fields read from the line, kept
      only when it has an operation or a path. */
  function ParsedViolation(line: string): (r: Option<Violation>)
    ensures r.Some? ==> Contains(line, DenyWord)
    ensures r.Some? ==> r.value.timestamp == [] && r.value.process.None?
    ensures r.Some? ==> r.value.operation != [] && NoWhitespace(r.value.operation)
    ensures r.Some? ==> r.value.pid.None? || r.value.pid.value <= MaxU32
  {
    if !Contains(line, SandboxdWord) && !Contains(line, DenyWord) then None
    else
      var fields := DenyFields(line);
      if fields.0 != [] || fields.1.Some? then Some(Violation("", PidOf(line), fields.0, fields.1, None))
      else None
  }

  /** The operation and path step of `Violation::parse`: both stay empty
      unless there is a "deny" followed by at least one more token. */
  method ReadDenyFields(line: string) returns (operation: string, path: Option<string>)
    ensures (operation, path) == DenyFields(line)
  {
    operation, path := "", None;
    var denyIdx := Find(line, DenyWord);
    if denyIdx.Some? {
      var parts := SplitWhitespace(line[denyIdx.value..]);
      if |parts| >= 2 {
        operation := parts[1];
        if |parts| >= 3 {
          path := Some(Join(parts[2..], " "));
        }
      }
    }
  }

  /** The pid step of `Violation::parse`. */
  method ReadPid(line: string) returns (pid: Option<nat>)
    ensures pid == PidOf(line)
  {
    pid := None;
    var pidStart := Find(line, "(");
    if pidStart.Some? {
      pid := ReadPidAt(line, pidStart.value);
    }
  }

  /** With the '(' found: the pid lies between it and the next ')'. */
  method ReadPidAt(line: string, ps: nat) returns (pid: Option<nat>)
    requires Find(line, "(") == Some(ps)
    ensures pid == PidOf(line)
  {
    pid := None;
    var pidEnd := Find(line[ps..], ")");
    if pidEnd.Some? {
      PidOfAt(line, ps, pidEnd.value);
      pid := ParseU32(line[ps + 1..ps + pidEnd.value]);
    } else {
      PidOfNoClose(line, ps);
    }
  }

  /** `Violation::parse`: starts from an empty violation and fills in the
      operation, the path and the pid as it finds them. */
  method Parse(line: string) returns (r: Option<Violation>)
    ensures r == ParsedViolation(line)
  {
    if !Contains(line, SandboxdWord) && !Contains(line, DenyWord) {
      return None;
    }
    var violation := Violation("", None, "", None, None);
    var operation, path := ReadDenyFields(line);
    violation := violation.(operation := operation, path := path);
    var pid := ReadPid(line);
    violation := violation.(pid := pid);
    if violation.operation != [] || violation.path.Some? {
      r := Some(violation);
    } else {
      r := None;
    }
  }

  /** `PidOf` with a '(' but no ')' after it. */
  lemma PidOfNoClose(line: string, ps: nat)
    requires Find(line, "(") == Some(ps)
    requires Find(line[ps..], ")").None?
    ensures PidOf(line) == None
  {
    assert OccursAt(line, "(", ps);
    assert line[ps..][0] == line[ps..ps + 1][0];
    var tail := line[ps..];
    assert PidOf(line) == PidIn(tail);
  }

  /** `PidOf` with the two parentheses found. */
  lemma PidOfAt(line: string, ps: nat, pe: nat)
    requires Find(line, "(") == Some(ps)
    requires Find(line[ps..], ")") == Some(pe)
    ensures 1 <= pe && ps + pe <= |line|
    ensures PidOf(line) == ParseU32(line[ps + 1..ps + pe])
  {
    assert line[ps..][0] == '(';
    SliceOfSuffix(line, ps, 1, pe);
  }

  lemma SliceOfSuffix<T>(s: seq<T>, from: nat, lo: nat, hi: nat)
    requires from <= |s| && lo <= hi <= |s| - from
    ensures s[from..][lo..hi] == s[from + lo..from + hi]
  {
  }

  // ------------------------------------------------------------ writing

  /** The log line of a violation: the timestamp and a space when there is a
      timestamp, then "deny ", the operation, and a space and the path when
      there is a path. Pid and process are not written. */
  function LogLine(v: Violation): string
  {
    (if v.timestamp != [] then v.timestamp + " " else "")
    + DenyWord + " " + v.operation
    + (if v.path.Some? then " " + v.path.value else "")
  }

  /** `to_log_line`: pushes the pieces onto an empty line. */
  method ToLogLine(v: Violation) returns (line: string)
    ensures line == LogLine(v)
  {
    line := "";
    if v.timestamp != [] {
      line := line + v.timestamp;
      line := line + [' '];
    }
    line := line + DenyWord + " ";
    line := line + v.operation;
    if v.path.Some? {
      line := line + [' '];
      line := line + v.path.value;
    }
  }

  /** The log line names "deny", the operation and the path. */
  lemma LogLineShowsFields(v: Violation)
    ensures Contains(LogLine(v), DenyWord)
    ensures Contains(LogLine(v), v.operation)
    ensures v.path.Some? ==> Contains(LogLine(v), v.path.value)
  {
    var t := if v.timestamp != [] then v.timestamp + " " else "";
    var p := if v.path.Some? then " " + v.path.value else "";
    assert LogLine(v) == t + DenyWord + (" " + v.operation + p);
    ContainsMiddle(t, DenyWord, " " + v.operation + p);
    assert LogLine(v) == t + DenyWord + " " + v.operation + p;
    ContainsMiddle(t + DenyWord + " ", v.operation, p);
    if v.path.Some? {
      assert LogLine(v) == t + DenyWord + " " + v.operation + " " + v.path.value + "";
      ContainsMiddle(t + DenyWord + " " + v.operation + " ", v.path.value, "");
    }
  }

  /** A character absent from a string does not occur in it as a substring. */
  lemma AbsentChar(s: string, c: char)
    requires c !in s
    ensures !Contains(s, [c])
  {
    forall i: nat | i <= |s| ensures !OccursAt(s, [c], i) {
      if i + 1 <= |s| {
        assert s[i..i + 1][0] == s[i];
      }
    }
  }

  /** A word followed by a space: the word is the first token, and the
      space is skipped. */
  lemma SplitWordThenSpace(word: string, tail: string)
    requires word != [] && NoWhitespace(word)
    ensures SplitWhitespace(word + (" " + tail)) == [word] + SplitWhitespace(tail)
  {
    SplitFirstToken(word, " " + tail);
    SplitSkipsLeadingWhitespace(" ", tail);
  }

  lemma DenyWordIsWord()
    ensures DenyWord != [] && NoWhitespace(DenyWord)
  {
  }

  /** The tokens of a log line without timestamp: "deny", the operation, and
      the path when there is one. */
  lemma LogLineTokens(v: Violation)
    requires v.timestamp == []
    requires v.operation != [] && NoWhitespace(v.operation)
    requires v.path.Some? ==> v.path.value != [] && NoWhitespace(v.path.value)
    ensures SplitWhitespace(LogLine(v)) == [DenyWord, v.operation] + (if v.path.Some? then [v.path.value] else [])
  {
    var op := v.operation;
    DenyWordIsWord();
    if v.path.Some? {
      assert LogLine(v) == DenyWord + (" " + (op + (" " + v.path.value)));
      SplitWordThenSpace(DenyWord, op + (" " + v.path.value));
      TwoWords(op, v.path.value);
    } else {
      assert LogLine(v) == DenyWord + (" " + op);
      SplitWordThenSpace(DenyWord, op);
      SplitFirstToken(op, "");
      assert op + "" == op;
    }
  }

  /** Two words separated by a space are its two tokens. */
  lemma TwoWords(a: string, b: string)
    requires a != [] && NoWhitespace(a) && b != [] && NoWhitespace(b)
    ensures SplitWhitespace(a + (" " + b)) == [a, b]
  {
    SplitWordThenSpace(a, b);
    SplitFirstToken(b, "");
    assert b + "" == b;
  }

  /** A log line written without timestamp, pid and process, whose operation
      and path are single words without '(', parses back to the same
      violation. */
  lemma ParseLogLine(v: Violation)
    requires v.timestamp == [] && v.pid.None? && v.process.None?
    requires v.operation != [] && NoWhitespace(v.operation) && '(' !in v.operation
    requires v.path.Some? ==> v.path.value != [] && NoWhitespace(v.path.value) && '(' !in v.path.value
    ensures ParsedViolation(LogLine(v)) == Some(v)
  {
    var line := LogLine(v);
    assert StartsWith(line, DenyWord);
    FindAtStart(line, DenyWord);
    assert line[0..] == line;
    LogLineTokens(v);
    assert Join([v.operation], " ") == v.operation;
    assert '(' !in line;
    AbsentChar(line, '(');
  }

  /** The pid is read between the first '(' and the next ')'. */
  lemma PidBetweenParentheses(prefix: string, inner: string, rest: string)
    requires '(' !in prefix && ')' !in inner
    ensures PidOf(prefix + "(" + inner + ")" + rest) == ParseU32(inner)
  {
    var line := prefix + "(" + inner + ")" + rest;
    assert line == prefix + "(" + (inner + ")" + rest);
    FindFirst(prefix, "(", inner + ")" + rest);
    assert Find(line, "(") == Some(|prefix|);
    var open := "(" + inner;
    assert ')' !in open;
    var tail := line[|prefix|..];
    assert tail == open + ")" + rest;
    FindFirst(open, ")", rest);
    assert Find(tail, ")") == Some(|open|);
    assert tail[1..|open|] == inner;
  }

  /** `(<pid>)` after a prefix without '(' yields that pid, whatever follows. */
  lemma PidOfParenthesized(prefix: string, n: nat, rest: string)
    requires '(' !in prefix && n <= MaxU32
    ensures PidOf(prefix + "(" + Decimal(n) + ")" + rest) == Some(n)
  {
    DecimalDigits(n);
    assert ')' !in Decimal(n);
    PidBetweenParentheses(prefix, Decimal(n), rest);
    ParseU32OfDecimal(n);
  }
}
