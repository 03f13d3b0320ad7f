/** The JavaScript string built-ins the model relies on (`||` on strings,
    `toLowerCase`, `includes`, `startsWith`, `split`, `join`, number to
    string) and `URLSearchParams.get`.  Strings are sequences of Unicode
    characters, not of UTF-16 code units, so a length counts characters;
    only ASCII letters are case-folded. */
module JsStrings {
  import opened Wrappers

  /** JavaScript truthiness of a string: only the empty string is falsy. */
  predicate Truthy(s: string) { s != "" }

  /** Truthiness of a string that may be `undefined`/`null`. */
  predicate Present(o: Option<string>) { o.Some? && o.value != "" }

  /** `a || b` on two strings. */
  function Or(a: string, b: string): (r: string)
    ensures a != "" ==> r == a
    ensures a == "" ==> r == b
  {
    if a != "" then a else b
  }

  function LowerChar(c: char): char {
    if 'A' <= c <= 'Z' then (c as int + 32) as char else c
  }

  /** `s.toLowerCase()`, restricted to ASCII letters. */
  function Lower(s: string): (r: string)
    ensures |r| == |s|
    ensures forall i :: 0 <= i < |s| ==> r[i] == LowerChar(s[i])
  {
    seq(|s|, i requires 0 <= i < |s| => LowerChar(s[i]))
  }

  lemma LowerAppend(a: string, b: string)
    ensures Lower(a + b) == Lower(a) + Lower(b)
  {
    assert forall i :: 0 <= i < |a + b| ==> Lower(a + b)[i] == (Lower(a) + Lower(b))[i] by {
      forall i | 0 <= i < |a + b| ensures Lower(a + b)[i] == (Lower(a) + Lower(b))[i] {
        if i < |a| { assert (a + b)[i] == a[i]; } else { assert (a + b)[i] == b[i - |a|]; }
      }
    }
  }

  /** `s.startsWith(p)`. */
  predicate StartsWith(s: string, p: string) {
    |p| <= |s| && s[..|p|] == p
  }

  /** `s.includes(w)`: `w` occurs at some position of `s`. */
  predicate Contains(s: string, w: string)
    decreases |s|
  {
    StartsWith(s, w) || (s != [] && Contains(s[1..], w))
  }

  /** An occurrence of `w` at a known position makes `s` contain it. */
  lemma {:induction false} ContainsAt(s: string, i: nat, w: string)
    requires i + |w| <= |s| && s[i..i + |w|] == w
    ensures Contains(s, w)
    decreases i
  {
    if i == 0 {
      assert s[..|w|] == w;
    } else {
      assert s[1..][i - 1..i - 1 + |w|] == s[i..i + |w|];
      ContainsAt(s[1..], i - 1, w);
    }
  }

  /** Text added after `s` never removes an occurrence. */
  lemma {:induction false} ContainsAppendRight(s: string, t: string, w: string)
    requires Contains(s, w)
    ensures Contains(s + t, w)
    decreases |s|
  {
    if StartsWith(s, w) {
      assert (s + t)[..|w|] == s[..|w|];
    } else {
      assert (s + t)[1..] == s[1..] + t;
      ContainsAppendRight(s[1..], t, w);
    }
  }

  /** Text added before `s` never removes an occurrence. */
  lemma {:induction false} ContainsAppendLeft(t: string, s: string, w: string)
    requires Contains(s, w)
    ensures Contains(t + s, w)
    decreases |t|
  {
    if t == [] {
      assert t + s == s;
    } else {
      assert (t + s)[1..] == t[1..] + s;
      ContainsAppendLeft(t[1..], s, w);
    }
  }

  /** A string containing `w` contains the first character of `w`. */
  lemma {:induction false} ContainsFirstChar(s: string, w: string)
    requires w != "" && Contains(s, w)
    ensures w[0] in s
    decreases |s|
  {
    if !StartsWith(s, w) {
      ContainsFirstChar(s[1..], w);
    }
  }

  /** `words.some(w => s.includes(w))`. */
  function ContainsSome(s: string, words: seq<string>): (r: bool)
    ensures r <==> exists k :: k in words && Contains(s, k)
  {
    if words == [] then false
    else
      var rest := ContainsSome(s, words[1..]);
      assert rest <==> exists k :: k in words[1..] && Contains(s, k);
      assert forall k :: k in words <==> k == words[0] || k in words[1..];
      Contains(s, words[0]) || rest
  }

  /** Index of the first occurrence of `c` in `s`. */
  function IndexOf(s: string, c: char): (r: Option<nat>)
    ensures r.Some? ==> r.value < |s| && s[r.value] == c && c !in s[..r.value]
    ensures r.None? ==> c !in s
  {
    if s == [] then None
    else if s[0] == c then Some(0)
    else match IndexOf(s[1..], c)
      case None => None
      case Some(i) => assert s[..i + 1] == [s[0]] + s[1..][..i]; Some(i + 1)
  }

  /** `s.split(c)` for a one-character separator: the pieces between the
      occurrences of `c`, in order (so there is always at least one). */
  function SplitOn(s: string, c: char): (r: seq<string>)
    ensures |r| >= 1
    decreases |s|
  {
    match IndexOf(s, c)
    case None => [s]
    case Some(i) => [s[..i]] + SplitOn(s[i + 1..], c)
  }

  /** `parts.join(sep)`. */
  function Join(parts: seq<string>, sep: string): (r: string)
    ensures parts == [] ==> r == ""
  {
    if parts == [] then ""
    else if |parts| == 1 then parts[0]
    else parts[0] + sep + Join(parts[1..], sep)
  }

  /** Number of occurrences of `c` in `s`. */
  function CountChar(s: string, c: char): (n: nat)
    ensures n <= |s|
  {
    if s == [] then 0 else (if s[0] == c then 1 else 0) + CountChar(s[1..], c)
  }

  lemma {:induction false} CountCharAppend(a: string, b: string, c: char)
    ensures CountChar(a + b, c) == CountChar(a, c) + CountChar(b, c)
    decreases |a|
  {
    if a == [] {
      assert a + b == b;
    } else {
      assert (a + b)[1..] == a[1..] + b;
      CountCharAppend(a[1..], b, c);
    }
  }

  lemma {:induction false} CountCharAbsent(s: string, c: char)
    requires c !in s
    ensures CountChar(s, c) == 0
    decreases |s|
  {
    if s != [] {
      assert c !in s[1..];
      CountCharAbsent(s[1..], c);
    }
  }

  /** Joining k pieces that do not contain `c` with separator `c` puts
      exactly k - 1 copies of `c` into the result. */
  lemma {:induction false} JoinSeparatorCount(parts: seq<string>, c: char)
    requires |parts| >= 1
    requires forall k :: 0 <= k < |parts| ==> c !in parts[k]
    ensures CountChar(Join(parts, [c]), c) == |parts| - 1
    decreases |parts|
  {
    if |parts| == 1 {
      CountCharAbsent(parts[0], c);
    } else {
      JoinSeparatorCount(parts[1..], c);
      CountCharAbsent(parts[0], c);
      CountCharAppend(parts[0] + [c], Join(parts[1..], [c]), c);
      CountCharAppend(parts[0], [c], c);
    }
  }

  /** Joining with the empty separator gives the empty string exactly
      when every piece is empty. */
  lemma {:induction false} JoinEmptySeparator(parts: seq<string>)
    ensures Join(parts, "") == "" <==> forall k :: 0 <= k < |parts| ==> parts[k] == ""
    decreases |parts|
  {
    if |parts| > 1 {
      JoinEmptySeparator(parts[1..]);
      assert forall k :: 1 <= k < |parts| ==> parts[k] == parts[1..][k - 1];
    }
  }

  /** A join of pieces ends with its last piece. */
  lemma {:induction false} JoinEndsWithLast(parts: seq<string>, sep: string)
    requires |parts| >= 1
    ensures var r, last := Join(parts, sep), parts[|parts| - 1];
            |last| <= |r| && r[|r| - |last|..] == last
    decreases |parts|
  {
    if |parts| > 1 {
      JoinEndsWithLast(parts[1..], sep);
      var rest := Join(parts[1..], sep);
      var r := Join(parts, sep);
      assert r == (parts[0] + sep) + rest;
      assert r[|r| - |rest|..] == rest;
    }
  }

  function DigitChar(d: nat): char
    requires d < 10
  {
    "0123456789"[d]
  }

  /** A non-negative number rendered in decimal, as `String(n)` does. */
  function Decimal(n: nat): (r: string)
    ensures r != ""
    ensures forall i :: 0 <= i < |r| ==> '0' <= r[i] <= '9'
  {
    if n < 10 then [DigitChar(n)] else Decimal(n / 10) + [DigitChar(n % 10)]
  }

  /** `URLSearchParams` turns `+` into a space in names and values. */
  function PlusToSpace(s: string): (r: string)
    ensures |r| == |s|
  {
    seq(|s|, i requires 0 <= i < |s| => if s[i] == '+' then ' ' else s[i])
  }

  /** The name of one `name=value` pair (all of it when there is no `=`). */
  function PairName(pair: string): string {
    match IndexOf(pair, '=')
    case None => pair
    case Some(i) => pair[..i]
  }

  /** The value of one `name=value` pair (empty when there is no `=`). */
  function PairValue(pair: string): string {
    match IndexOf(pair, '=')
    case None => ""
    case Some(i) => pair[i + 1..]
  }

  /** The first pair named `key`; empty pairs are skipped. */
  function FirstPairValue(pairs: seq<string>, key: string): (r: Option<string>)
    ensures r.Some? ==> exists k :: 0 <= k < |pairs| && pairs[k] != "" && PlusToSpace(PairName(pairs[k])) == key
  {
    if pairs == [] then None
    else if pairs[0] != "" && PlusToSpace(PairName(pairs[0])) == key then Some(PlusToSpace(PairValue(pairs[0])))
    else FirstPairValue(pairs[1..], key)
  }

  /** `new URLSearchParams(init).get(key)`: one leading `?` is dropped,
      the rest is split on `&`, and the value of the first pair named
      `key` is returned, or `null` when there is none. */
  function UrlParam(init: string, key: string): (r: Option<string>)
  {
    var query := if init != "" && init[0] == '?' then init[1..] else init;
    FirstPairValue(SplitOn(query, '&'), key)
  }
}
