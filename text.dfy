/**
 The JavaScript string operations the admin views apply: `trim`,
 `replace` with a one-character pattern (with `indexOf`, the first-occurrence
 search it performs), `charAt(0).toUpperCase()` and `slice(0, n)`.
 */
module Text {

  /** The characters `String.prototype.trim` removes: the ECMAScript
      WhiteSpace and LineTerminator code points. */
  predicate IsWhitespace(c: char)
  {
    || c == ' ' || c == '\t' || c == '\n' || c == '\r'
    || c == '\U{000B}' || c == '\U{000C}' || c == '\U{00A0}' || c == '\U{1680}'
    || ('\U{2000}' <= c <= '\U{200A}')
    || c == '\U{2028}' || c == '\U{2029}' || c == '\U{202F}' || c == '\U{205F}'
    || c == '\U{3000}' || c == '\U{FEFF}'
  }

  predicate AllWhitespace(s: string)
  {
    forall i :: 0 <= i < |s| ==> IsWhitespace(s[i])
  }

  /** Drops the leading whitespace: the result is a suffix of `s`, what was
      dropped is whitespace, and the result does not start with whitespace. */
  function TrimStart(s: string): (r: string)
    ensures |r| <= |s| && r == s[|s| - |r|..]
    ensures forall i :: 0 <= i < |s| - |r| ==> IsWhitespace(s[i])
    ensures r == [] || !IsWhitespace(r[0])
  {
    if |s| > 0 && IsWhitespace(s[0]) then
      var r := TrimStart(s[1..]);
      DropFirst(s, |r|);
      r
    else s
  }

  /** Indexing into `s[1..]` in terms of `s`: a suffix of length `n` is the
      same in both, and position `i - 1` of the tail is position `i` of `s`. */
  lemma {:induction false} DropFirst(s: string, n: nat)
    requires 0 < |s| && n < |s|
    ensures s[1..][|s| - 1 - n..] == s[|s| - n..]
    ensures forall i :: 1 <= i < |s| ==> s[1..][i - 1] == s[i]
  {
  }

  /** Drops the trailing whitespace: the result is a prefix of `s`, what was
      dropped is whitespace, and the result does not end with whitespace. */
  function TrimEnd(s: string): (r: string)
    ensures |r| <= |s| && r == s[..|r|]
    ensures forall i :: |r| <= i < |s| ==> IsWhitespace(s[i])
    ensures r == [] || !IsWhitespace(r[|r| - 1])
  {
    if |s| > 0 && IsWhitespace(s[|s| - 1]) then
      var r := TrimEnd(s[..|s| - 1]);
      assert forall i :: 0 <= i < |s| - 1 ==> s[i] == s[..|s| - 1][i];
      r
    else s
  }

  /** `r` occurs in `s` at position `k`, and all of `s` before and after that
      occurrence is whitespace. */
  predicate WhitespacePadded(s: string, k: nat, r: string)
  {
    k + |r| <= |s| && r == s[k..k + |r|] && AllWhitespace(s[..k]) && AllWhitespace(s[k + |r|..])
  }

  /** `s.trim()`: the infix of `s` left once its leading and trailing
      whitespace is removed; it neither starts nor ends with whitespace. */
  function Trim(s: string): (r: string)
    ensures |r| <= |s|
    ensures exists k :: WhitespacePadded(s, k, r)
    ensures r != [] ==> !IsWhitespace(r[0]) && !IsWhitespace(r[|r| - 1])
  {
    var t := TrimStart(s);
    var r := TrimEnd(t);
    TrimIsInfix(s, t, r);
    r
  }

  /** What `Trim` drops around the infix it keeps is whitespace. */
  lemma {:induction false} TrimIsInfix(s: string, t: string, r: string)
    requires |t| <= |s| && t == s[|s| - |t|..]
    requires forall i :: 0 <= i < |s| - |t| ==> IsWhitespace(s[i])
    requires |r| <= |t| && r == t[..|r|]
    requires forall i :: |r| <= i < |t| ==> IsWhitespace(t[i])
    ensures WhitespacePadded(s, |s| - |t|, r)
  {
    var k := |s| - |t|;
    var lead := s[..k];
    assert forall i :: 0 <= i < |lead| ==> lead[i] == s[i];
    var dropped := s[k + |r|..];
    assert forall i :: 0 <= i < |dropped| ==> dropped[i] == t[|r| + i];
  }

  /** `s.trim()` is empty (falsy) exactly when `s` is whitespace only. */
  lemma {:induction false} TrimEmptyIff(s: string)
    ensures Trim(s) == [] <==> AllWhitespace(s)
  {
    var t := TrimStart(s);
    assert t == [] || t[0] == s[|s| - |t|];
  }

  /** Trimming is idempotent. */
  lemma {:induction false} TrimIdempotent(s: string)
    ensures Trim(Trim(s)) == Trim(s)
  {
    var r := Trim(s);
    if r != [] {
      assert TrimStart(r) == r;
      assert TrimEnd(r) == r;
    }
  }

  /** The first position of `c`, or -1, as `s.indexOf(c)` gives it: the search `replace` performs. */
  function IndexOf(s: string, c: char): (i: int)
    ensures -1 <= i < |s|
    ensures i == -1 <==> c !in s
    ensures 0 <= i ==> s[i] == c && forall j :: 0 <= j < i ==> s[j] != c
  {
    if |s| == 0 then -1
    else if s[0] == c then 0
    else
      var k := IndexOf(s[1..], c);
      if k == -1 then -1 else k + 1
  }

  /** The first occurrence of `c` is at `k` when `s[k]` is `c` and no
      earlier character is. */
  lemma {:induction false} IndexOfAt(s: string, c: char, k: nat)
    requires k < |s| && s[k] == c && c !in s[..k]
    ensures IndexOf(s, c) == k
  {
    assert c in s;
    assert forall j :: 0 <= j < k ==> s[j] == s[..k][j];
  }

  /** `s.replace(from, to)` with one-character strings: `to` is spliced in
      at the first occurrence of `from`; with no occurrence nothing changes. */
  function ReplaceFirst(s: string, from: char, to: char): (r: string)
    ensures |r| == |s|
    ensures from !in s ==> r == s
    ensures from in s ==>
              var k := IndexOf(s, from);
              r == s[..k] + [to] + s[k + 1..]
  {
    if |s| == 0 then s
    else if s[0] == from then [to] + s[1..]
    else
      var rest := ReplaceFirst(s[1..], from, to);
      assert from in s ==> from in s[1..] && IndexOf(s, from) == IndexOf(s[1..], from) + 1;
      assert from in s ==>
               var k := IndexOf(s[1..], from);
               s[..k + 1] == [s[0]] + s[1..][..k] && s[k + 2..] == s[1..][k + 1..];
      assert from !in s ==> from !in s[1..];
      [s[0]] + rest
  }

  /** `c.toUpperCase()` for a single character; only the ASCII letters are mapped. */
  function ToUpper(c: char): (u: char)
    ensures 'a' <= c <= 'z' ==> 'A' <= u <= 'Z' && u as int == c as int - 32
    ensures !('a' <= c <= 'z') ==> u == c
  {
    if 'a' <= c <= 'z' then (c as int - 32) as char else c
  }

  /** `s.charAt(0).toUpperCase() + s.slice(1)`. */
  function Capitalize(s: string): (r: string)
    ensures |r| == |s|
    ensures |s| > 0 ==> r[0] == ToUpper(s[0]) && r[1..] == s[1..]
  {
    if s == "" then "" else [ToUpper(s[0])] + s[1..]
  }

  /** `s.slice(0, n)`, on strings and on arrays. */
  function Prefix<T>(s: seq<T>, n: nat): (r: seq<T>)
    ensures |r| == if |s| <= n then |s| else n
    ensures r == s[..|r|]
  {
    if |s| <= n then s else s[..n]
  }

  /** `${id.slice(0, 8)}...`, the shortened order id the admin tables show. */
  function TruncatedId(id: string): (r: string)
    ensures |r| == (if |id| <= 8 then |id| else 8) + 3
    ensures r[..|r| - 3] == id[..|r| - 3] && r[|r| - 3..] == "..."
  {
    Prefix(id, 8) + "..."
  }
}
