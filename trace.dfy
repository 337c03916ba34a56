/** The pure part of violation tracing in src/sandbox/trace.rs: classifying a
    denied operation, formatting a kernel sandbox log line for display, and
    stripping ANSI escape sequences for plain output. The `log stream` process
    and its reader thread are not part of this model. */
module Trace {
  import opened Common
  import opened Text

  datatype ViolationKind = Network | Read | Write | Process | Mach | Other

  /** `ESC [ <code> m`: a Select Graphic Rendition sequence. */
  function Sgr(code: string): string
  {
    [ESC] + "[" + code + "m"
  }

  const ResetCode := "0"
  const BoldCode := "1"
  const GrayCode := "90"

  /** The colour code of each kind: red, yellow, magenta, cyan, blue, gray. */
  function KindCode(k: ViolationKind): string
  {
    match k
    case Network => "31"
    case Read => "33"
    case Write => "35"
    case Process => "36"
    case Mach => "34"
    case Other => GrayCode
  }

  /** `ViolationKind::plain`: a bracketed upper-case label, free of escapes. */
  function Plain(k: ViolationKind): (r: string)
    ensures |r| >= 3 && r[0] == '[' && r[|r| - 1] == ']'
    ensures forall i :: 0 < i < |r| - 1 ==> 'A' <= r[i] <= 'Z'
  {
    match k
    case Network => "[NETWORK]"
    case Read => "[READ]"
    case Write => "[WRITE]"
    case Process => "[PROCESS]"
    case Mach => "[MACH]"
    case Other => "[OTHER]"
  }

  /** `text` in the style of `code`, followed by a reset. */
  function Styled(code: string, text: string): string
  {
    Sgr(code) + text + Sgr(ResetCode)
  }

  /** `ViolationKind::colored`: the plain label in the kind's colour, so that
      stripping the colour gives the plain label back. */
  function Colored(k: ViolationKind): (r: string)
    ensures Complete(r) && StripAnsi(r) == Plain(k)
  {
    StyledStrips(KindCode(k), Plain(k));
    Styled(KindCode(k), Plain(k))
  }

  /** `ViolationKind::from_operation`: the first of "network", "file-read",
      "file-write", "process", "mach" that the operation contains decides. */
  function FromOperation(op: string): (k: ViolationKind)
    ensures k == Network <==> Contains(op, "network")
    ensures k == Read <==> !Contains(op, "network") && Contains(op, "file-read")
    ensures k == Write <==> !Contains(op, "network") && !Contains(op, "file-read") && Contains(op, "file-write")
    ensures k == Process <==> !Contains(op, "network") && !Contains(op, "file-read") && !Contains(op, "file-write")
                              && Contains(op, "process")
    ensures k == Mach <==> !Contains(op, "network") && !Contains(op, "file-read") && !Contains(op, "file-write")
                           && !Contains(op, "process") && Contains(op, "mach")
    ensures k == Other <==> !Contains(op, "network") && !Contains(op, "file-read") && !Contains(op, "file-write")
                            && !Contains(op, "process") && !Contains(op, "mach")
  {
    if Contains(op, "network") then Network
    else if Contains(op, "file-read") then Read
    else if Contains(op, "file-write") then Write
    else if Contains(op, "process") then Process
    else if Contains(op, "mach") then Mach
    else Other
  }

  /** A string holding `sub` holds every character of `sub`. */
  lemma ContainsChars(s: string, sub: string, c: char)
    requires Contains(s, sub) && c in sub
    ensures c in s
  {
    var i: nat :| i <= |s| && OccursAt(s, sub, i);
    var j :| 0 <= j < |sub| && sub[j] == c;
    assert s[i + j] == s[i..i + |sub|][j];
  }

  /** Operations of the shapes the kernel reports are classified by their
      family. */
  lemma FromOperationExamples()
    ensures FromOperation("network-outbound") == Network
    ensures FromOperation("file-read-data") == Read
    ensures FromOperation("file-write-data") == Write
    ensures FromOperation("process-exec") == Process
    ensures FromOperation("mach-lookup") == Mach
    ensures FromOperation("unknown-op") == Other
  {
    assert StartsWith("network-outbound", "network");
    FindAtStart("network-outbound", "network");
    assert 'k' !in "file-read-data";
    if Contains("file-read-data", "network") { ContainsChars("file-read-data", "network", 'k'); }
    assert StartsWith("file-read-data", "file-read");
    FindAtStart("file-read-data", "file-read");
    FileWriteDataExample();
    ProcessExecExample();
    MachLookupExample();
    UnknownOpExample();
  }

  lemma FileWriteDataExample()
    ensures FromOperation("file-write-data") == Write
  {
    var op := "file-write-data";
    assert 'k' !in op;
    if Contains(op, "network") { ContainsChars(op, "network", 'k'); }
    forall i: nat | i <= |op| ensures !OccursAt(op, "file-read", i) {
      if i == 0 {
        assert op[5] != "file-read"[5];
      } else if i + 9 <= |op| {
        assert op[i] != 'f';
      }
    }
    assert StartsWith(op, "file-write");
    FindAtStart(op, "file-write");
  }

  lemma ProcessExecExample()
    ensures FromOperation("process-exec") == Process
  {
    var op := "process-exec";
    assert 'k' !in op && 'f' !in op;
    if Contains(op, "network") { ContainsChars(op, "network", 'k'); }
    if Contains(op, "file-read") { ContainsChars(op, "file-read", 'f'); }
    if Contains(op, "file-write") { ContainsChars(op, "file-write", 'f'); }
    assert StartsWith(op, "process");
    FindAtStart(op, "process");
  }

  lemma MachLookupExample()
    ensures FromOperation("mach-lookup") == Mach
  {
    var op := "mach-lookup";
    assert 'n' !in op && 'f' !in op && 'r' !in op;
    if Contains(op, "network") { ContainsChars(op, "network", 'n'); }
    if Contains(op, "file-read") { ContainsChars(op, "file-read", 'f'); }
    if Contains(op, "file-write") { ContainsChars(op, "file-write", 'f'); }
    if Contains(op, "process") { ContainsChars(op, "process", 'r'); }
    assert StartsWith(op, "mach");
    FindAtStart(op, "mach");
  }

  lemma UnknownOpExample()
    ensures FromOperation("unknown-op") == Other
  {
    var op := "unknown-op";
    assert 'e' !in op && 'f' !in op && 'r' !in op && 'm' !in op;
    if Contains(op, "network") { ContainsChars(op, "network", 'e'); }
    if Contains(op, "file-read") { ContainsChars(op, "file-read", 'f'); }
    if Contains(op, "file-write") { ContainsChars(op, "file-write", 'f'); }
    if Contains(op, "process") { ContainsChars(op, "process", 'r'); }
    if Contains(op, "mach") { ContainsChars(op, "mach", 'm'); }
  }

  // ------------------------------------------------------------ stripping

  /** `char::is_ascii_alphabetic`: the letter that ends an escape sequence. */
  predicate IsAsciiAlpha(c: char)
  {
    'A' <= c <= 'Z' || 'a' <= c <= 'z'
  }

  /** The rest of an escape sequence after `ESC [`: everything up to and
      including the first ASCII letter is skipped, all of it when there is none. */
  function SkipSequence(s: string): (r: string)
    ensures |r| <= |s| && r == s[|s| - |r|..]
  {
    if s == [] then []
    else if IsAsciiAlpha(s[0]) then s[1..]
    else SkipSequence(s[1..])
  }

  /** The reference meaning of `strip_ansi_codes`, read left to right: `ESC [`
      starts a sequence that runs to the next ASCII letter; a lone ESC is
      dropped; every other character is kept. */
  function StripAnsi(s: string): (r: string)
    decreases |s|
    ensures ESC !in r
    ensures |r| <= |s|
  {
    if s == [] then []
    else if s[0] != ESC then [s[0]] + StripAnsi(s[1..])
    else if |s| >= 2 && s[1] == '[' then StripAnsi(SkipSequence(s[2..]))
    else StripAnsi(s[1..])
  }

  /** The inner loop of `strip_ansi_codes`: after `ESC [`, consume characters
      up to and including the first ASCII letter. */
  method SkipEscapeSequence(s: string, start: nat) returns (i: nat)
    requires start <= |s|
    ensures start <= i <= |s| && s[i..] == SkipSequence(s[start..])
  {
    i := start;
    while i < |s|
      invariant start <= i <= |s|
      invariant SkipSequence(s[start..]) == SkipSequence(s[i..])
    {
      var next := s[i];
      i := i + 1;
      if IsAsciiAlpha(next) {
        assert s[i - 1..][1..] == s[i..];
        break;
      }
    }
  }

  /** The three ways the first character of a non-empty string is treated. */
  lemma StripKeeps(s: string, i: nat)
    requires i < |s| && s[i] != ESC
    ensures StripAnsi(s[i..]) == [s[i]] + StripAnsi(s[i + 1..])
  {
    assert s[i..][1..] == s[i + 1..];
  }

  lemma StripSkipsSequence(s: string, i: nat)
    requires i + 1 < |s| && s[i] == ESC && s[i + 1] == '['
    ensures StripAnsi(s[i..]) == StripAnsi(SkipSequence(s[i + 2..]))
  {
    assert s[i..][2..] == s[i + 2..];
  }

  lemma StripDropsLoneEscape(s: string, i: nat)
    requires i < |s| && s[i] == ESC && !(i + 1 < |s| && s[i + 1] == '[')
    ensures StripAnsi(s[i..]) == StripAnsi(s[i + 1..])
  {
    assert s[i..][1..] == s[i + 1..];
  }

  /** `strip_ansi_codes`: a character iterator with one character of look-ahead. */
  method StripAnsiCodes(s: string) returns (result: string)
    ensures result == StripAnsi(s)
  {
    result := [];
    var i := 0;
    assert s[0..] == s;
    while i < |s|
      invariant 0 <= i <= |s|
      invariant result + StripAnsi(s[i..]) == StripAnsi(s)
    {
      var c := s[i];
      i := i + 1;
      if c == ESC {
        if i < |s| && s[i] == '[' {
          StripSkipsSequence(s, i - 1);
          i := SkipEscapeSequence(s, i + 1);
        } else {
          StripDropsLoneEscape(s, i - 1);
        }
      } else {
        StripKeeps(s, i - 1);
        assert result + StripAnsi(s[i - 1..]) == (result + [c]) + StripAnsi(s[i..]);
        result := result + [c];
      }
    }
    assert StripAnsi(s[|s|..]) == [];
  }

  /** The recursive reading of a subsequence: `a` can be obtained from `b` by
      deleting characters. */
  predicate IsSubsequence(a: string, b: string)
    decreases |b|
  {
    if b == [] then a == []
    else (a != [] && a[0] == b[0] && IsSubsequence(a[1..], b[1..])) || IsSubsequence(a, b[1..])
  }

  lemma {:induction false} SubsequenceOfSuffix(a: string, b: string, k: nat)
    requires k <= |b| && IsSubsequence(a, b[k..])
    ensures IsSubsequence(a, b)
    decreases k
  {
    if k > 0 {
      assert b[1..][k - 1..] == b[k..];
      SubsequenceOfSuffix(a, b[1..], k - 1);
    } else {
      assert b[k..] == b;
    }
  }

  /** Stripping only deletes characters: the output is a subsequence of the
      input. */
  lemma {:induction false} StripIsSubsequence(s: string)
    ensures IsSubsequence(StripAnsi(s), s)
    decreases |s|
  {
    if s != [] {
      if s[0] != ESC {
        StripIsSubsequence(s[1..]);
        var r := StripAnsi(s);
        assert r[0] == s[0] && r[1..] == StripAnsi(s[1..]);
      } else if |s| >= 2 && s[1] == '[' {
        var t := SkipSequence(s[2..]);
        StripIsSubsequence(t);
        assert t == s[|s| - |t|..];
        SubsequenceOfSuffix(StripAnsi(t), s, |s| - |t|);
      } else {
        StripIsSubsequence(s[1..]);
      }
    }
  }

  /** A string without escape characters is left as it is, so stripping twice
      is stripping once. */
  lemma {:induction false} StripIdentity(s: string)
    requires ESC !in s
    ensures StripAnsi(s) == s
    decreases |s|
  {
    if s != [] {
      assert s[0] != ESC;
      StripIdentity(s[1..]);
      assert s == [s[0]] + s[1..];
    }
  }

  lemma StripIdempotent(s: string)
    ensures StripAnsi(StripAnsi(s)) == StripAnsi(s)
  {
    StripIdentity(StripAnsi(s));
  }

  /** A string that ends on a boundary: no escape sequence is left open, and
      no lone ESC ends it. Stripping such a string and what follows it can be
      done separately. */
  predicate Complete(s: string)
    decreases |s|
  {
    if s == [] then true
    else if s[0] != ESC then Complete(s[1..])
    else if |s| >= 2 && s[1] == '[' then HasLetter(s[2..]) && Complete(SkipSequence(s[2..]))
    else |s| >= 2 && Complete(s[1..])
  }

  predicate HasLetter(s: string)
  {
    exists i :: 0 <= i < |s| && IsAsciiAlpha(s[i])
  }

  lemma {:induction false} SkipSequenceAppend(a: string, b: string)
    requires HasLetter(a)
    ensures SkipSequence(a + b) == SkipSequence(a) + b
    decreases |a|
  {
    assert a != [];
    assert (a + b)[0] == a[0];
    if IsAsciiAlpha(a[0]) {
      assert (a + b)[1..] == a[1..] + b;
    } else {
      var i :| 0 <= i < |a| && IsAsciiAlpha(a[i]);
      assert a[1..][i - 1] == a[i];
      assert (a + b)[1..] == a[1..] + b;
      SkipSequenceAppend(a[1..], b);
    }
  }

  /** Stripping distributes over a concatenation whose first part is complete. */
  lemma {:induction false} StripAppend(a: string, b: string)
    requires Complete(a)
    ensures StripAnsi(a + b) == StripAnsi(a) + StripAnsi(b)
    decreases |a|
  {
    if a == [] {
      assert a + b == b;
    } else {
      var s := a + b;
      assert s[0] == a[0];
      if a[0] != ESC {
        assert s[1..] == a[1..] + b;
        StripAppend(a[1..], b);
      } else if |a| >= 2 && a[1] == '[' {
        assert s[1] == '[' && s[2..] == a[2..] + b;
        SkipSequenceAppend(a[2..], b);
        StripAppend(SkipSequence(a[2..]), b);
      } else {
        assert s[1] == a[1] && s[1..] == a[1..] + b;
        StripAppend(a[1..], b);
      }
    }
  }

  lemma {:induction false} CompleteAppend(a: string, b: string)
    requires Complete(a) && Complete(b)
    ensures Complete(a + b)
    decreases |a|, 1
  {
    if a == [] {
      assert a + b == b;
    } else if a[0] == ESC && |a| >= 2 && a[1] == '[' {
      CompleteAppendSequence(a, b);
    } else {
      var s := a + b;
      assert s[0] == a[0] && s[1..] == a[1..] + b;
      assert a[0] == ESC ==> |a| >= 2 && s[1] == a[1];
      CompleteAppend(a[1..], b);
    }
  }

  /** The step of `CompleteAppend` for a leading escape sequence. */
  lemma {:induction false} CompleteAppendSequence(a: string, b: string)
    requires Complete(a) && Complete(b)
    requires |a| >= 2 && a[0] == ESC && a[1] == '['
    ensures Complete(a + b)
    decreases |a|, 0
  {
    var s := a + b;
    var body := a[2..];
    assert s[0] == ESC && s[1] == '[' && s[2..] == body + b;
    var i :| 0 <= i < |body| && IsAsciiAlpha(body[i]);
    assert (body + b)[i] == body[i];
    assert HasLetter(body + b);
    SkipSequenceAppend(body, b);
    CompleteAppend(SkipSequence(body), b);
  }

  /** Text without escape characters is complete. */
  lemma {:induction false} PlainComplete(s: string)
    requires ESC !in s
    ensures Complete(s) && StripAnsi(s) == s
    decreases |s|
  {
    StripIdentity(s);
    if s != [] {
      assert s[0] != ESC;
      PlainComplete(s[1..]);
    }
  }

  /** A graphic-rendition sequence whose code holds no letter is complete and
      strips to nothing. */
  lemma SgrComplete(code: string)
    requires forall i :: 0 <= i < |code| ==> !IsAsciiAlpha(code[i])
    ensures Complete(Sgr(code)) && StripAnsi(Sgr(code)) == []
  {
    var s := Sgr(code);
    var rest := code + "m";
    assert s[2..] == rest;
    assert IsAsciiAlpha(rest[|code|]);
    assert SkipSequence(rest) == [] by {
      SkipPastCode(code, "m");
    }
  }

  lemma {:induction false} SkipPastCode(code: string, tail: string)
    requires forall i :: 0 <= i < |code| ==> !IsAsciiAlpha(code[i])
    requires tail != [] && IsAsciiAlpha(tail[0])
    ensures SkipSequence(code + tail) == tail[1..]
    decreases |code|
  {
    if code == [] {
      assert code + tail == tail;
    } else {
      assert (code + tail)[1..] == code[1..] + tail;
      SkipPastCode(code[1..], tail);
    }
  }

  /** Styled text is complete and strips to the text. */
  lemma StyledStrips(code: string, text: string)
    requires forall i :: 0 <= i < |code| ==> !IsAsciiAlpha(code[i])
    requires ESC !in text
    ensures Complete(Styled(code, text)) && StripAnsi(Styled(code, text)) == text
  {
    SgrComplete(code);
    SgrComplete(ResetCode);
    PlainComplete(text);
    StripAppend(Sgr(code), text);
    CompleteAppend(Sgr(code), text);
    StripAppend(Sgr(code) + text, Sgr(ResetCode));
    CompleteAppend(Sgr(code) + text, Sgr(ResetCode));
  }

  /** Joining two complete pieces: still complete, stripped piecewise. */
  lemma Then(a: string, b: string)
    requires Complete(a) && Complete(b)
    ensures Complete(a + b) && StripAnsi(a + b) == StripAnsi(a) + StripAnsi(b)
  {
    StripAppend(a, b);
    CompleteAppend(a, b);
  }

  // ------------------------------------------------------------ formatting

  /** Nine complete pieces in a row: complete, and stripped piece by piece. */
  lemma StripNine(p1: string, p2: string, p3: string, p4: string, p5: string,
                  p6: string, p7: string, p8: string, p9: string)
    requires Complete(p1) && Complete(p2) && Complete(p3) && Complete(p4) && Complete(p5)
    requires Complete(p6) && Complete(p7) && Complete(p8) && Complete(p9)
    ensures Complete(p1 + p2 + p3 + p4 + p5 + p6 + p7 + p8 + p9)
    ensures StripAnsi(p1 + p2 + p3 + p4 + p5 + p6 + p7 + p8 + p9)
         == StripAnsi(p1) + StripAnsi(p2) + StripAnsi(p3) + StripAnsi(p4) + StripAnsi(p5)
            + StripAnsi(p6) + StripAnsi(p7) + StripAnsi(p8) + StripAnsi(p9)
  {
    Then(p1, p2);
    Then(p1 + p2, p3);
    Then(p1 + p2 + p3, p4);
    Then(p1 + p2 + p3 + p4, p5);
    Then(p1 + p2 + p3 + p4 + p5, p6);
    Then(p1 + p2 + p3 + p4 + p5 + p6, p7);
    Then(p1 + p2 + p3 + p4 + p5 + p6 + p7, p8);
    Then(p1 + p2 + p3 + p4 + p5 + p6 + p7 + p8, p9);
  }

  /** The three fields `format_violation` takes from a denial line. */
  datatype Denial = Denial(process: string, operation: string, target: string)

  const SandboxMarker := "Sandbox: "
  const DenyMarker := " deny"
  const TraceTag := "[sx:trace]"

  /** `splitn(2, ' ')`: the text before the first space, and the text after
      it (empty when there is no space). */
  function SplitAtSpace(s: string): (r: (string, string))
    ensures ' ' !in r.0
    ensures (s == r.0 && r.1 == []) || s == r.0 + " " + r.1
  {
    match Find(s, " ")
    case None =>
      forall j | 0 <= j < |s| ensures s[j] != ' ' {
        assert !OccursAt(s, " ", j) && s[j..j + 1][0] == s[j];
      }
      (s, "")
    case Some(k) =>
      forall j | 0 <= j < k ensures s[j] != ' ' {
        assert !OccursAt(s, " ", j) && s[j..j + 1][0] == s[j];
      }
      assert s == s[..k] + " " + s[k + 1..];
      (s[..k], s[k + 1..])
  }

  /** The text after the first ") ", or all of it when there is none: skips
      the "(<n>) " that follows "deny". */
  function SkipDenyCount(s: string): (r: string)
    ensures |r| <= |s| && r == s[|s| - |r|..]
  {
    match Find(s, ") ")
    case Some(e) => s[e + 2..]
    case None => s
  }

  /** The fields of "<process> deny(<n>) <operation> <target>": the trimmed
      text before the first " deny" is the process; the trimmed rest, past its
      count, splits at its first space into operation and target. */
  function DenialOf(part: string): (r: Option<Denial>)
    ensures r.None? <==> !Contains(part, DenyMarker)
    ensures r.Some? ==> ' ' !in r.value.operation
  {
    match Find(part, DenyMarker)
    case None => None
    case Some(d) => Some(Fields(part[..d], part[d + |DenyMarker|..]))
  }

  /** The fields of a denial from the text before " deny" and the text after
      it. */
  function Fields(before: string, after: string): (r: Denial)
    ensures ' ' !in r.operation
  {
    var words := SplitAtSpace(SkipDenyCount(Trim(after)));
    Denial(Trim(before), words.0, words.1)
  }

  /** The denial part of a kernel log line is what follows the first
      "Sandbox: ". */
  function ParseDenial(line: string): (r: Option<Denial>)
    ensures !Contains(line, SandboxMarker) ==> r.None?
    ensures r.Some? ==> ' ' !in r.value.operation
  {
    match Find(line, SandboxMarker)
    case None => None
    case Some(start) => DenialOf(line[start + |SandboxMarker|..])
  }

  /** A word without spaces, a space and the rest split into the word and the rest. */
  lemma SplitAtSpaceOf(word: string, rest: string)
    requires ' ' !in word
    ensures SplitAtSpace(word + " " + rest) == (word, rest)
  {
    FindFirst(word, " ", rest);
    var s := word + " " + rest;
    assert s[..|word|] == word && s[|word| + 1..] == rest;
  }

  /** A parenthesized count followed by a space is skipped. */
  lemma SkipDenyCountOf(count: string, rest: string)
    requires ')' !in count
    ensures SkipDenyCount("(" + count + ") " + rest) == rest
  {
    var open := "(" + count;
    assert ')' !in open;
    FindFirst(open, ") ", rest);
    assert "(" + count + ") " + rest == open + ") " + rest;
  }

  /** The denial part of a kernel line, "<process> deny(<count>) <operation>
      <target>", gives back its three fields when the process and the
      operation are single words, the count holds no ')', and the target does
      not end in whitespace. */
  lemma DenialOfFields(process: string, count: string, operation: string, target: string)
    requires NoWhitespace(process) && ')' !in count && NoWhitespace(operation)
    requires target != [] && !IsWhitespace(target[|target| - 1])
    ensures DenialOf(process + DenyMarker + "(" + count + ") " + operation + " " + target)
         == Some(Denial(process, operation, target))
  {
    var after := "(" + count + ") " + (operation + " " + target);
    assert process + DenyMarker + "(" + count + ") " + operation + " " + target == process + DenyMarker + after;
    DenialOfSplit(process, after);
    assert ' ' !in operation;
    FieldsOf(process, count, operation, target);
  }

  /** The fields of "<process>" and "(<count>) <operation> <target>". */
  lemma FieldsOf(process: string, count: string, operation: string, target: string)
    requires NoWhitespace(process) && ')' !in count && ' ' !in operation
    requires target != [] && !IsWhitespace(target[|target| - 1])
    ensures Fields(process, "(" + count + ") " + (operation + " " + target)) == Denial(process, operation, target)
  {
    WordsOf(count, operation, target);
    TrimIdentity(process);
  }

  /** Past its count, "(<count>) <operation> <target>" splits into the
      operation and the target. */
  lemma WordsOf(count: string, operation: string, target: string)
    requires ')' !in count && ' ' !in operation
    requires target != [] && !IsWhitespace(target[|target| - 1])
    ensures SplitAtSpace(SkipDenyCount(Trim("(" + count + ") " + (operation + " " + target)))) == (operation, target)
  {
    TrimCounted(count, operation, target);
    SkipDenyCountOf(count, operation + " " + target);
    SplitAtSpaceOf(operation, target);
  }

  /** "(<count>) <operation> <target>" has nothing to trim when the target
      does not end in whitespace. */
  lemma TrimCounted(count: string, operation: string, target: string)
    requires target != [] && !IsWhitespace(target[|target| - 1])
    ensures var rest := operation + " " + target;
      Trim("(" + count + ") " + rest) == "(" + count + ") " + rest
  {
    var rest := operation + " " + target;
    LastOfConcat(operation + " ", target);
    var s := "(" + count + ") " + rest;
    LastOfConcat("(" + count + ") ", rest);
    assert s[0] == '(';
    TrimIdentity(s);
  }

  /** The process is the text before the first " deny", the rest is what
      follows it. */
  lemma DenialOfSplit(process: string, after: string)
    requires NoWhitespace(process)
    ensures DenialOf(process + DenyMarker + after) == Some(Fields(process, after))
  {
    var part := process + DenyMarker + after;
    assert ' ' !in process;
    FindFirst(process, DenyMarker, after);
    assert part[..|process|] == process && part[|process| + |DenyMarker|..] == after;
  }

  /** A line in the kernel's denial format, "<prefix>Sandbox: <process>
      deny(<count>) <operation> <target>". */
  function KernelLine(prefix: string, process: string, count: string, operation: string, target: string): string
  {
    prefix + SandboxMarker + process + DenyMarker + "(" + count + ") " + operation + " " + target
  }

  /** The process, operation and target of a kernel line come back out when
      no "Sandbox: " starts before the marker, the process and the operation
      are single words, the count holds no ')' and the target does not end in
      whitespace. */
  lemma ParseDenialOfLine(prefix: string, process: string, count: string, operation: string, target: string)
    requires !Contains(prefix + SandboxMarker[..|SandboxMarker| - 1], SandboxMarker)
    requires NoWhitespace(process) && ')' !in count && NoWhitespace(operation)
    requires target != [] && !IsWhitespace(target[|target| - 1])
    ensures ParseDenial(KernelLine(prefix, process, count, operation, target)) == Some(Denial(process, operation, target))
  {
    var part := process + DenyMarker + "(" + count + ") " + operation + " " + target;
    var line := KernelLine(prefix, process, count, operation, target);
    assert line == prefix + SandboxMarker + part;
    FindFirstPast(prefix, SandboxMarker, part);
    assert line[|prefix| + |SandboxMarker|..] == part;
    DenialOfFields(process, count, operation, target);
  }

  /** Such a kernel line is displayed as the rendering of its denial, with the
      kind its operation names; header lines are the exception. */
  lemma FormatKernelLine(prefix: string, process: string, count: string, operation: string, target: string)
    requires !Contains(prefix + SandboxMarker[..|SandboxMarker| - 1], SandboxMarker)
    requires NoWhitespace(process) && ')' !in count && NoWhitespace(operation)
    requires target != [] && !IsWhitespace(target[|target| - 1])
    requires var line := KernelLine(prefix, process, count, operation, target);
      !StartsWith(line, "Filtering") && !StartsWith(line, "Timestamp")
    ensures FormatViolation(KernelLine(prefix, process, count, operation, target))
         == Some(Render(FromOperation(operation), Denial(process, operation, target)))
  {
    var line := KernelLine(prefix, process, count, operation, target);
    ParseDenialOfLine(prefix, process, count, operation, target);
    KernelLineShape(prefix, process, count, operation, target);
    FormatViolationOf(line, Denial(process, operation, target));
  }

  /** A kernel line mentions "deny" and is not blank. */
  lemma KernelLineShape(prefix: string, process: string, count: string, operation: string, target: string)
    requires target != [] && !IsWhitespace(target[|target| - 1])
    ensures var line := KernelLine(prefix, process, count, operation, target);
      Contains(line, "deny") && Trim(line) != []
  {
    var line := KernelLine(prefix, process, count, operation, target);
    var head := prefix + SandboxMarker + process;
    var tail := "(" + count + ") " + operation + " " + target;
    assert line == head + DenyMarker + tail;
    ContainsMiddle(head, DenyMarker, tail);
    ContainsMiddle(" ", "deny", "");
    assert DenyMarker == " " + "deny" + "";
    ContainsTrans(line, DenyMarker, "deny");
    TrimEmptyIffBlank(line);
    LastOfConcat(prefix + SandboxMarker + process + DenyMarker + "(" + count + ") " + operation + " ", target);
  }

  /** A line that is neither a header nor blank, mentions "deny" and parses to
      a denial is displayed as that denial's rendering. */
  lemma FormatViolationOf(line: string, d: Denial)
    requires !StartsWith(line, "Filtering") && !StartsWith(line, "Timestamp")
    requires Trim(line) != [] && Contains(line, "deny") && ParseDenial(line) == Some(d)
    ensures FormatViolation(line) == Some(Render(FromOperation(d.operation), d))
  {
  }

  /** The display form: a gray "[sx:trace]" tag, the coloured kind, the
      operation in bold, the target, and the process in gray parentheses. */
  function Render(kind: ViolationKind, d: Denial): (r: string)
    ensures Contains(r, Colored(kind))
    ensures Contains(r, d.operation) && Contains(r, d.target) && Contains(r, d.process)
  {
    var bold := Styled(BoldCode, d.operation);
    var paren := "(" + d.process + ")";
    var proc := Styled(GrayCode, paren);
    var text := Styled(GrayCode, TraceTag) + " " + Colored(kind) + " " + bold + " " + d.target + " " + proc;
    ContainsPieces(Styled(GrayCode, TraceTag), " ", Colored(kind), " ", bold, " ", d.target, " ", proc);
    StyledContains(BoldCode, d.operation);
    ContainsTrans(text, bold, d.operation);
    StyledContains(GrayCode, paren);
    ContainsTrans(text, proc, paren);
    ContainsMiddle("(", d.process, ")");
    ContainsTrans(text, paren, d.process);
    text
  }

  /** `format_violation`: header lines, blank lines, lines without "deny" and
      lines without a denial part give nothing; otherwise the denial is shown
      under the kind of its operation. */
  function FormatViolation(line: string): (r: Option<string>)
    ensures StartsWith(line, "Filtering") || StartsWith(line, "Timestamp") || Trim(line) == [] ==> r.None?
    ensures !Contains(line, "deny") ==> r.None?
    ensures !Contains(line, SandboxMarker) ==> r.None?
    ensures r.Some? ==> (ParseDenial(line).Some?
      && r.value == Render(FromOperation(ParseDenial(line).value.operation), ParseDenial(line).value))
  {
    if StartsWith(line, "Filtering") || StartsWith(line, "Timestamp") || Trim(line) == [] then None
    else if !Contains(line, "deny") then None
    else
      match ParseDenial(line)
      case None => None
      case Some(d) => Some(Render(FromOperation(d.operation), d))
  }

  /** The pieces at odd positions of a nine-piece concatenation occur in it. */
  lemma ContainsPieces(p1: string, p2: string, p3: string, p4: string, p5: string,
                       p6: string, p7: string, p8: string, p9: string)
    ensures var s := p1 + p2 + p3 + p4 + p5 + p6 + p7 + p8 + p9;
      Contains(s, p3) && Contains(s, p5) && Contains(s, p7) && Contains(s, p9)
  {
    var s := p1 + p2 + p3 + p4 + p5 + p6 + p7 + p8 + p9;
    assert s == (p1 + p2) + p3 + (p4 + p5 + p6 + p7 + p8 + p9);
    ContainsMiddle(p1 + p2, p3, p4 + p5 + p6 + p7 + p8 + p9);
    assert s == (p1 + p2 + p3 + p4) + p5 + (p6 + p7 + p8 + p9);
    ContainsMiddle(p1 + p2 + p3 + p4, p5, p6 + p7 + p8 + p9);
    assert s == (p1 + p2 + p3 + p4 + p5 + p6) + p7 + (p8 + p9);
    ContainsMiddle(p1 + p2 + p3 + p4 + p5 + p6, p7, p8 + p9);
    assert s == (p1 + p2 + p3 + p4 + p5 + p6 + p7 + p8) + p9 + "";
    ContainsMiddle(p1 + p2 + p3 + p4 + p5 + p6 + p7 + p8, p9, "");
  }

  lemma StyledContains(code: string, text: string)
    ensures Contains(Styled(code, text), text)
  {
    ContainsMiddle(Sgr(code), text, Sgr(ResetCode));
  }

  /** Stripping the display leaves its plain-text reading. */
  lemma StripRender(kind: ViolationKind, d: Denial)
    requires ESC !in d.process && ESC !in d.operation && ESC !in d.target
    ensures StripAnsi(Render(kind, d))
         == TraceTag + " " + Plain(kind) + " " + d.operation + " " + d.target + " " + ("(" + d.process + ")")
  {
    var tag := Styled(GrayCode, TraceTag);
    var bold := Styled(BoldCode, d.operation);
    var proc := Styled(GrayCode, "(" + d.process + ")");
    StyledStrips(GrayCode, TraceTag);
    StyledStrips(BoldCode, d.operation);
    assert ESC !in "(" + d.process + ")";
    StyledStrips(GrayCode, "(" + d.process + ")");
    PlainComplete(" ");
    PlainComplete(d.target);
    StripNine(tag, " ", Colored(kind), " ", bold, " ", d.target, " ", proc);
  }
}
