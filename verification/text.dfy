/** String helpers with JavaScript's semantics: `||` on strings, `toLowerCase`, `includes`, `join` and `trim`. */
module Text {
  import opened Wrappers
  import opened Seqs

  /** JavaScript truthiness of a string: only the empty string is falsy. */
  predicate Truthy(s: string) {
    s != ""
  }

  /** JavaScript `value || fallback` for an optional string: absent and empty both fall through. */
  function Or(value: Option<string>, fallback: string): (r: string)
    ensures value.Some? && Truthy(value.value) ==> r == value.value
    ensures value.None? || !Truthy(value.value) ==> r == fallback
  {
    if value.Some? && Truthy(value.value) then value.value else fallback
  }

  /** ASCII lowercasing of one character; other characters are left unchanged. */
  function LowerChar(c: char): char {
    if 'A' <= c <= 'Z' then (c as int + 32) as char else c
  }

  /** `toLowerCase`, restricted to ASCII letters. */
  function Lower(s: string): (r: string)
    ensures |r| == |s|
    ensures forall i :: 0 <= i < |s| ==> r[i] == LowerChar(s[i])
  {
    seq(|s|, i requires 0 <= i < |s| => LowerChar(s[i]))
  }

  /** `sub` occurs in `text` starting at offset `i`. */
  predicate OccursAt(text: string, sub: string, i: int) {
    0 <= i && i + |sub| <= |text| && text[i..i + |sub|] == sub
  }

  /** `text.includes(sub)`: `sub` occurs in `text` at some offset. */
  predicate Contains(text: string, sub: string) {
    exists i | 0 <= i <= |text| :: OccursAt(text, sub, i)
  }

  /** A string occurs inside any text it is spliced into. */
  lemma ContainsSpliced(before: string, sub: string, after: string)
    ensures Contains(before + sub + after, sub)
  {
    assert (before + sub + after)[|before|..|before| + |sub|] == sub;
    assert OccursAt(before + sub + after, sub, |before|);
  }

  /** Lowercasing works character by character, so it distributes over concatenation. */
  lemma LowerAppend(a: string, b: string)
    ensures Lower(a + b) == Lower(a) + Lower(b)
  {
  }

  /** Text found in a part is found in any text that part is spliced into. */
  lemma ContainsWithin(before: string, part: string, after: string, sub: string)
    requires Contains(part, sub)
    ensures Contains(before + part + after, sub)
  {
    var i :| 0 <= i <= |part| && OccursAt(part, sub, i);
    assert (before + part + after)[|before| + i..|before| + i + |sub|] == part[i..i + |sub|];
    assert OccursAt(before + part + after, sub, |before| + i);
  }

  /** `parts.join(sep)`. */
  function Join(parts: seq<string>, sep: string): string {
    if |parts| == 0 then ""
    else if |parts| == 1 then parts[0]
    else parts[0] + sep + Join(parts[1..], sep)
  }

  /** A joined list with a non-empty separator is empty exactly for `[]` and `[""]`. */
  lemma JoinEmpty(parts: seq<string>, sep: string)
    requires sep != ""
    ensures Join(parts, sep) == "" <==> parts == [] || parts == [""]
  {
    if |parts| >= 2 {
      assert |Join(parts, sep)| >= |sep|;
    }
  }

  /** The concatenation of `parts`, in order (a template literal's pieces laid end to end). */
  function Concat(parts: seq<string>): (r: string)
    ensures |parts| > 0 ==> parts[0] <= r
  {
    if |parts| == 0 then "" else parts[0] + Concat(parts[1..])
  }

  /** Concatenation of a split list is the concatenation of its halves. */
  lemma {:induction false} ConcatAppend(a: seq<string>, b: seq<string>)
    ensures Concat(a + b) == Concat(a) + Concat(b)
  {
    if |a| > 0 {
      assert (a + b)[1..] == a[1..] + b;
      ConcatAppend(a[1..], b);
    } else {
      assert a + b == b;
    }
  }

  /** The concatenation seen around its `i`-th part. */
  lemma ConcatAround(parts: seq<string>, i: int)
    requires 0 <= i < |parts|
    ensures Concat(parts) == Concat(parts[..i]) + parts[i] + Concat(parts[i + 1..])
  {
    SplitAt(parts, i);
    ConcatAppend(parts[..i], parts[i..]);
    var rest := parts[i..];
    assert rest[0] == parts[i] && rest[1..] == parts[i + 1..];
    assert Concat(rest) == parts[i] + Concat(parts[i + 1..]);
  }

  /** Every part occurs in the concatenation. */
  lemma ConcatContains(parts: seq<string>, i: int)
    requires 0 <= i < |parts|
    ensures Contains(Concat(parts), parts[i])
  {
    ConcatAround(parts, i);
    ContainsSpliced(Concat(parts[..i]), parts[i], Concat(parts[i + 1..]));
  }

  /** The concatenation ends with its last part. */
  lemma ConcatEnds(parts: seq<string>)
    requires |parts| > 0
    ensures var r, last := Concat(parts), parts[|parts| - 1];
      |r| >= |last| && r[|r| - |last|..] == last
  {
    var n := |parts| - 1;
    ConcatAround(parts, n);
    assert parts[n + 1..] == [];
    var r := Concat(parts);
    assert r == Concat(parts[..n]) + parts[n];
  }

  /** An empty part contributes nothing. */
  lemma ConcatSkipsEmpty(parts: seq<string>, i: int)
    requires 0 <= i < |parts| && parts[i] == ""
    ensures Concat(parts) == Concat(parts[..i] + parts[i + 1..])
  {
    ConcatAround(parts, i);
    assert Concat(parts) == Concat(parts[..i]) + Concat(parts[i + 1..]);
    ConcatAppend(parts[..i], parts[i + 1..]);
  }

  /** The characters `String.prototype.trim` removes: JavaScript's white space (including every space separator) and line terminators. */
  predicate IsWhitespace(c: char) {
    || c == ' ' || c == '\t' || c == '\n' || c == '\r' || c == '\U{000B}' || c == '\U{000C}'
    || c == '\U{00A0}' || c == '\U{FEFF}' || c == '\U{2028}' || c == '\U{2029}'
    || c == '\U{1680}' || ('\U{2000}' <= c <= '\U{200A}') || c == '\U{202F}' || c == '\U{205F}' || c == '\U{3000}'
  }

  predicate AllWhitespace(s: string) {
    forall i :: 0 <= i < |s| ==> IsWhitespace(s[i])
  }

  function TrimStart(s: string): (r: string)
    ensures |r| <= |s|
  {
    if |s| > 0 && IsWhitespace(s[0]) then TrimStart(s[1..]) else s
  }

  function TrimEnd(s: string): (r: string)
    ensures |r| <= |s|
  {
    if |s| > 0 && IsWhitespace(s[|s| - 1]) then TrimEnd(s[..|s| - 1]) else s
  }

  /** `String.prototype.trim`. */
  function Trim(s: string): string {
    TrimEnd(TrimStart(s))
  }

  /** Trimming removes a white-space prefix and stops at the first other character. */
  lemma {:induction false} TrimStartPrefix(ws: string, x: string)
    requires AllWhitespace(ws)
    requires |x| > 0 && !IsWhitespace(x[0])
    ensures TrimStart(ws + x) == x
  {
    if |ws| > 0 {
      assert (ws + x)[1..] == ws[1..] + x;
      TrimStartPrefix(ws[1..], x);
    } else {
      assert ws + x == x;
    }
  }

  /** Trimming removes a white-space suffix and stops at the last other character. */
  lemma {:induction false} TrimEndSuffix(x: string, ws: string)
    requires AllWhitespace(ws)
    requires |x| > 0 && !IsWhitespace(x[|x| - 1])
    ensures TrimEnd(x + ws) == x
  {
    if |ws| > 0 {
      assert (x + ws)[..|x + ws| - 1] == x + ws[..|ws| - 1];
      TrimEndSuffix(x, ws[..|ws| - 1]);
    } else {
      assert x + ws == x;
    }
  }

  /** `trim` of a text framed by white space is the text itself, when the text starts and ends with other characters. */
  lemma TrimFramed(before: string, x: string, after: string)
    requires AllWhitespace(before) && AllWhitespace(after)
    requires |x| > 0 && !IsWhitespace(x[0]) && !IsWhitespace(x[|x| - 1])
    ensures Trim(before + x + after) == x
  {
    assert before + x + after == before + (x + after);
    TrimStartPrefix(before, x + after);
    TrimEndSuffix(x, after);
  }
}
