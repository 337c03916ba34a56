/** The string operations of Rust's `str` that the model relies on: `contains`,
    `find`, `starts_with`, `trim`, `split_whitespace`, `join`, counting characters.
    Strings are sequences of Unicode scalar values, indices count characters. */
module Text {
  import opened Common

  /** The escape character that starts an ANSI/ECMA-48 control sequence. */
  const ESC: char := '\U{1B}'

  /** `sub` occurs in `s` at index `i`. */
  predicate OccursAt(s: string, sub: string, i: nat)
  {
    i + |sub| <= |s| && s[i..i + |sub|] == sub
  }

  /** `str::contains`. */
  predicate Contains(s: string, sub: string)
  {
    exists i: nat :: i <= |s| && OccursAt(s, sub, i)
  }

  /** `str::starts_with`. */
  predicate StartsWith(s: string, prefix: string)
  {
    |prefix| <= |s| && s[..|prefix|] == prefix
  }

  /** `str::find`: the index of the first occurrence of `sub` at or after `from`. */
  function FindFrom(s: string, sub: string, from: nat): (r: Option<nat>)
    decreases |s| - from
    ensures r.Some? ==> from <= r.value && OccursAt(s, sub, r.value)
    ensures r.Some? ==> forall j: nat :: from <= j < r.value ==> !OccursAt(s, sub, j)
    ensures r.None? ==> forall j: nat :: from <= j ==> !OccursAt(s, sub, j)
  {
    if from + |sub| > |s| then None
    else if s[from..from + |sub|] == sub then Some(from)
    else FindFrom(s, sub, from + 1)
  }

  /** `str::find`: the index of the first occurrence of `sub` in `s`, if any. */
  function Find(s: string, sub: string): (r: Option<nat>)
    ensures r.Some? <==> Contains(s, sub)
    ensures r.Some? ==> OccursAt(s, sub, r.value)
    ensures r.Some? ==> forall j: nat :: j < r.value ==> !OccursAt(s, sub, j)
  {
    FindFrom(s, sub, 0)
  }

  /** A string that starts with `sub` finds it at index 0. */
  lemma FindAtStart(s: string, sub: string)
    requires StartsWith(s, sub)
    ensures Find(s, sub) == Some(0)
  {
    assert OccursAt(s, sub, 0);
  }

  /** `x + sub + y` finds `sub` right after `x` when no occurrence starts
      inside `x`, that is, none lies within `x` and all but the last element
      of `sub`. */
  lemma FindFirstPast(x: string, sub: string, y: string)
    requires sub != [] && !Contains(x + sub[..|sub| - 1], sub)
    ensures Find(x + sub + y, sub) == Some(|x|)
  {
    var s := x + sub + y;
    var t := x + sub[..|sub| - 1];
    assert s[|x|..|x| + |sub|] == sub;
    assert OccursAt(s, sub, |x|);
    forall j: nat | j < |x| ensures !OccursAt(s, sub, j) {
      assert s[j..j + |sub|] == t[j..j + |sub|];
      assert !OccursAt(t, sub, j);
    }
  }

  /** `sub` occurs in `x + sub + y`. */
  lemma ContainsMiddle(x: string, sub: string, y: string)
    ensures Contains(x + sub + y, sub)
  {
    assert (x + sub + y)[|x|..|x| + |sub|] == sub;
    assert OccursAt(x + sub + y, sub, |x|);
  }

  /** `sub` is found right after a prefix that lacks its first character. */
  lemma FindFirst(x: string, sub: string, y: string)
    requires sub != [] && sub[0] !in x
    ensures Find(x + sub + y, sub) == Some(|x|)
  {
    var s := x + sub + y;
    assert s[|x|..|x| + |sub|] == sub;
    assert OccursAt(s, sub, |x|);
    forall j: nat | j < |x| ensures !OccursAt(s, sub, j) {
      assert s[j] == x[j];
      if j + |sub| <= |s| {
        assert s[j..j + |sub|][0] == s[j];
      }
    }
  }

  /** An occurrence inside a part is an occurrence inside any string built around it. */
  lemma ContainsWithin(x: string, s: string, y: string, sub: string)
    requires Contains(s, sub)
    ensures Contains(x + s + y, sub)
  {
    var i: nat :| i <= |s| && OccursAt(s, sub, i);
    assert (x + s + y)[|x| + i..|x| + i + |sub|] == s[i..i + |sub|];
    assert OccursAt(x + s + y, sub, |x| + i);
  }

  /** `char::is_whitespace`: the Unicode White_Space property. */
  predicate IsWhitespace(c: char)
  {
    ('\t' <= c <= '\r') || c == ' ' || c == '\U{85}' || c == '\U{A0}' || c == '\U{1680}'
    || ('\U{2000}' <= c <= '\U{200A}') || c == '\U{2028}' || c == '\U{2029}'
    || c == '\U{202F}' || c == '\U{205F}' || c == '\U{3000}'
  }

  predicate NoWhitespace(s: string)
  {
    forall i :: 0 <= i < |s| ==> !IsWhitespace(s[i])
  }

  /** `str::trim_start`. */
  function TrimStart(s: string): (r: string)
    ensures |r| <= |s| && r == s[|s| - |r|..]
    ensures r == [] || !IsWhitespace(r[0])
    ensures forall i :: 0 <= i < |s| - |r| ==> IsWhitespace(s[i])
  {
    if s == [] || !IsWhitespace(s[0]) then s else TrimStart(s[1..])
  }

  /** `str::trim_end`. */
  function TrimEnd(s: string): (r: string)
    ensures |r| <= |s| && r == s[..|r|]
    ensures r == [] || !IsWhitespace(r[|r| - 1])
    ensures forall i :: |r| <= i < |s| ==> IsWhitespace(s[i])
  {
    if s == [] || !IsWhitespace(s[|s| - 1]) then s else TrimEnd(s[..|s| - 1])
  }

  /** `str::trim`. */
  function Trim(s: string): string
  {
    TrimEnd(TrimStart(s))
  }

  /** The last element of a concatenation with a non-empty tail is the tail's last. */
  lemma LastOfConcat<T>(a: seq<T>, b: seq<T>)
    requires b != []
    ensures (a + b)[|a + b| - 1] == b[|b| - 1]
  {
  }

  /** A string that neither starts nor ends with whitespace is its own trim. */
  lemma TrimIdentity(s: string)
    requires s == [] || (!IsWhitespace(s[0]) && !IsWhitespace(s[|s| - 1]))
    ensures Trim(s) == s
  {
  }

  /** A string trims to nothing exactly when every character is whitespace. */
  lemma TrimEmptyIffBlank(s: string)
    ensures Trim(s) == [] <==> forall i :: 0 <= i < |s| ==> IsWhitespace(s[i])
  {
    var t := TrimStart(s);
    if t != [] {
      assert s[|s| - |t|] == t[0];
    }
  }

  /** Length of the leading run of non-whitespace characters. */
  function TokenLen(s: string): (n: nat)
    ensures n <= |s|
    ensures forall i :: 0 <= i < n ==> !IsWhitespace(s[i])
    ensures n < |s| ==> IsWhitespace(s[n])
  {
    if s == [] || IsWhitespace(s[0]) then 0 else 1 + TokenLen(s[1..])
  }

  /** `str::split_whitespace`: the maximal runs of non-whitespace characters, in order. */
  function SplitWhitespace(s: string): (tokens: seq<string>)
    decreases |s|
    ensures forall k :: 0 <= k < |tokens| ==> tokens[k] != [] && NoWhitespace(tokens[k])
  {
    if s == [] then []
    else if IsWhitespace(s[0]) then SplitWhitespace(s[1..])
    else
      var n := TokenLen(s);
      [s[..n]] + SplitWhitespace(s[n..])
  }

  /** Leading whitespace does not change the tokens. */
  lemma {:induction false} SplitSkipsLeadingWhitespace(w: string, s: string)
    requires forall i :: 0 <= i < |w| ==> IsWhitespace(w[i])
    ensures SplitWhitespace(w + s) == SplitWhitespace(s)
  {
    if w != [] {
      assert (w + s)[0] == w[0] && (w + s)[1..] == w[1..] + s;
      assert SplitWhitespace(w + s) == SplitWhitespace(w[1..] + s);
      SplitSkipsLeadingWhitespace(w[1..], s);
    } else {
      assert w + s == s;
    }
  }

  /** A word followed by whitespace or by nothing is the first token. */
  lemma SplitFirstToken(word: string, rest: string)
    requires word != [] && NoWhitespace(word)
    requires rest == [] || IsWhitespace(rest[0])
    ensures SplitWhitespace(word + rest) == [word] + SplitWhitespace(rest)
  {
    var s := word + rest;
    TokenLenOfWord(word, rest);
    assert s[..|word|] == word && s[|word|..] == rest;
  }

  lemma {:induction false} TokenLenOfWord(word: string, rest: string)
    requires NoWhitespace(word)
    requires rest == [] || IsWhitespace(rest[0])
    ensures TokenLen(word + rest) == |word|
  {
    if word != [] {
      assert (word + rest)[1..] == word[1..] + rest;
      TokenLenOfWord(word[1..], rest);
    }
  }

  /** `[&str]::join`. */
  function Join(parts: seq<string>, sep: string): string
  {
    if parts == [] then ""
    else if |parts| == 1 then parts[0]
    else parts[0] + sep + Join(parts[1..], sep)
  }

  /** Concatenation of string pieces, in order. */
  function Concat(pieces: seq<string>): string
  {
    if pieces == [] then "" else Concat(pieces[..|pieces| - 1]) + pieces[|pieces| - 1]
  }

  lemma {:induction false} ConcatAppend(a: seq<string>, b: seq<string>)
    ensures Concat(a + b) == Concat(a) + Concat(b)
  {
    if b != [] {
      assert (a + b)[..|a + b| - 1] == a + b[..|b| - 1];
      ConcatAppend(a, b[..|b| - 1]);
    } else {
      assert a + b == a;
    }
  }

  lemma ConcatPair(a: string, b: string)
    ensures Concat([a, b]) == a + b
  {
    assert [a, b][..1] == [a] && [a][..0] == [];
    assert Concat([a]) == a;
  }

  /** The pieces before index `k` make up a prefix of the concatenation. */
  lemma ConcatPrefix(pieces: seq<string>, k: nat)
    requires k <= |pieces|
    ensures StartsWith(Concat(pieces), Concat(pieces[..k]))
  {
    assert pieces == pieces[..k] + pieces[k..];
    ConcatAppend(pieces[..k], pieces[k..]);
  }

  lemma StartsWithTrans(s: string, t: string, u: string)
    requires StartsWith(s, t) && StartsWith(t, u)
    ensures StartsWith(s, u)
  {
    assert s[..|u|] == s[..|t|][..|u|];
  }

  lemma StartsWithAppend(s: string, t: string)
    ensures StartsWith(s + t, s)
  {
    assert (s + t)[..|s|] == s;
  }

  /** The piece at index `k` occurs in the concatenation at the combined length
      of the pieces before it. */
  lemma PieceOccurs(pieces: seq<string>, k: nat)
    requires k < |pieces|
    ensures OccursAt(Concat(pieces), pieces[k], |Concat(pieces[..k])|)
  {
    var before, after := pieces[..k], pieces[k + 1..];
    assert pieces == before + [pieces[k]] + after;
    ConcatAppend(before + [pieces[k]], after);
    ConcatAppend(before, [pieces[k]]);
    assert Concat([pieces[k]]) == pieces[k] by {
      assert [pieces[k]][..0] == [];
    }
    var c := Concat(pieces);
    var o := |Concat(before)|;
    assert c == Concat(before) + pieces[k] + Concat(after);
    assert c[o..o + |pieces[k]|] == pieces[k];
  }

  /** Pieces occur in the concatenation in their order: a piece ends no later
      than any later piece starts. */
  lemma PieceOffsetsAscend(pieces: seq<string>, k1: nat, k2: nat)
    requires k1 < k2 <= |pieces|
    ensures |Concat(pieces[..k1])| + |pieces[k1]| <= |Concat(pieces[..k2])|
  {
    assert pieces[..k2] == pieces[..k1] + [pieces[k1]] + pieces[k1 + 1..k2];
    ConcatAppend(pieces[..k1] + [pieces[k1]], pieces[k1 + 1..k2]);
    ConcatAppend(pieces[..k1], [pieces[k1]]);
    assert [pieces[k1]][..0] == [];
  }

  /** An occurrence inside an occurrence is an occurrence. */
  lemma ContainsTrans(s: string, mid: string, sub: string)
    requires Contains(s, mid) && Contains(mid, sub)
    ensures Contains(s, sub)
  {
    var i: nat :| i <= |s| && OccursAt(s, mid, i);
    var j: nat :| j <= |mid| && OccursAt(mid, sub, j);
    assert s[i..i + |mid|] == mid;
    forall k | 0 <= k < |sub| ensures s[i + j + k] == sub[k] {
      assert s[i + j + k] == s[i..i + |mid|][j + k] == mid[j + k];
      assert mid[j + k] == mid[j..j + |sub|][k];
    }
    assert s[i + j..i + j + |sub|] == sub;
    assert OccursAt(s, sub, i + j);
  }

  /** Every piece occurs in the concatenation. */
  lemma ContainsPiece(pieces: seq<string>, x: string)
    requires x in pieces
    ensures Contains(Concat(pieces), x)
  {
    var k :| 0 <= k < |pieces| && pieces[k] == x;
    PieceOccurs(pieces, k);
  }

  /** Number of occurrences of `c` in `s`. */
  function Count(s: string, c: char): nat
  {
    if s == [] then 0 else Count(s[..|s| - 1], c) + (if s[|s| - 1] == c then 1 else 0)
  }

  lemma {:induction false} CountAppend(a: string, b: string, c: char)
    ensures Count(a + b, c) == Count(a, c) + Count(b, c)
  {
    if b != [] {
      assert (a + b)[..|a + b| - 1] == a + b[..|b| - 1];
      CountAppend(a, b[..|b| - 1], c);
    } else {
      assert a + b == a;
    }
  }

  /** A character that does not occur is counted zero times. */
  lemma {:induction false} CountAbsent(s: string, c: char)
    requires c !in s
    ensures Count(s, c) == 0
  {
    if s != [] {
      assert s == s[..|s| - 1] + [s[|s| - 1]];
      CountAbsent(s[..|s| - 1], c);
    }
  }
}
