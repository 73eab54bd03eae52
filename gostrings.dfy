/**
 * The parts of Go's `strings` package the probe relies on: `Fields`, which
 * splits text around runs of white space, and `Split`, which cuts text at
 * every occurrence of a separator.  Strings are sequences of Unicode scalar
 * values; the UTF-8 decoding Go performs on its byte strings is not modelled.
 */
module GoStrings {

  /** Go's `unicode.IsSpace`: the Latin-1 spaces and the other White_Space code points. */
  predicate IsSpace(c: char)
  {
    || c == ' ' || c == '\t' || c == '\n' || c == '\r'
    || c == '\U{000B}' || c == '\U{000C}' || c == '\U{0085}' || c == '\U{00A0}'
    || c == '\U{1680}' || ('\U{2000}' <= c <= '\U{200A}')
    || c == '\U{2028}' || c == '\U{2029}' || c == '\U{202F}' || c == '\U{205F}'
    || c == '\U{3000}'
  }

  predicate NoSpace(s: string)
  {
    forall i :: 0 <= i < |s| ==> !IsSpace(s[i])
  }

  /** Length of the run of non-space characters at the front of `s`. */
  function TokenEnd(s: string): (n: nat)
    ensures n <= |s|
    ensures NoSpace(s[..n])
    ensures n < |s| ==> IsSpace(s[n])
  {
    if s == [] || IsSpace(s[0]) then 0 else 1 + TokenEnd(s[1..])
  }

  /**
   * `strings.Fields`: the maximal runs of non-space characters of `s`, in
   * order.  Every field is non-empty and holds no white space.
   */
  function Fields(s: string): (r: seq<string>)
    ensures forall k :: 0 <= k < |r| ==> r[k] != [] && NoSpace(r[k])
    decreases |s|
  {
    if s == [] then []
    else if IsSpace(s[0]) then Fields(s[1..])
    else
      var n := TokenEnd(s);
      [s[..n]] + Fields(s[n..])
  }

  /** `strings.Join`: the parts with `sep` between each neighbouring pair. */
  function Join(parts: seq<string>, sep: string): string
  {
    if parts == [] then []
    else if |parts| == 1 then parts[0]
    else parts[0] + sep + Join(parts[1..], sep)
  }

  /** Position of the first `c` in `s`, or `|s|` when there is none. */
  function IndexOf(s: string, c: char): (i: nat)
    ensures i <= |s|
    ensures c !in s[..i]
    ensures i < |s| ==> s[i] == c
  {
    if s == [] then 0
    else if s[0] == c then 0
    else 1 + IndexOf(s[1..], c)
  }

  /**
   * `strings.Split` with a one-character separator: the pieces of `s`
   * between occurrences of `sep`.  There is always at least one piece, and
   * no piece contains the separator.
   */
  function Split(s: string, sep: char): (r: seq<string>)
    ensures |r| >= 1
    ensures forall k :: 0 <= k < |r| ==> sep !in r[k]
    decreases |s|
  {
    var i := IndexOf(s, sep);
    if i == |s| then [s] else [s[..i]] + Split(s[i + 1..], sep)
  }

  /** Joining the pieces of a split with the separator gives back the text. */
  lemma {:induction false} JoinSplit(s: string, sep: char)
    ensures Join(Split(s, sep), [sep]) == s
    decreases |s|
  {
    var i := IndexOf(s, sep);
    if i < |s| {
      var rest := s[i + 1..];
      JoinSplit(rest, sep);
      JoinCons(s[..i], Split(rest, sep), [sep]);
      assert s == s[..i] + [sep] + rest;
    }
  }

  /** Joining a first part before a non-empty list puts the separator between them. */
  lemma JoinCons(first: string, rest: seq<string>, sep: string)
    requires rest != []
    ensures Join([first] + rest, sep) == first + sep + Join(rest, sep)
  {
    assert ([first] + rest)[1..] == rest;
  }

  /** Splitting text joined from separator-free pieces gives back the pieces. */
  lemma {:induction false} SplitJoin(parts: seq<string>, sep: char)
    requires |parts| >= 1
    requires forall k :: 0 <= k < |parts| ==> sep !in parts[k]
    ensures Split(Join(parts, [sep]), sep) == parts
  {
    var s := Join(parts, [sep]);
    if |parts| == 1 {
      IndexOfAbsent(parts[0], sep);
    } else {
      var rest := Join(parts[1..], [sep]);
      assert s == parts[0] + [sep] + rest;
      IndexOfAt(s, sep, |parts[0]|);
      assert s[..|parts[0]|] == parts[0];
      assert s[|parts[0]| + 1..] == rest;
      SplitJoin(parts[1..], sep);
    }
  }

  lemma IndexOfAbsent(s: string, c: char)
    requires c !in s
    ensures IndexOf(s, c) == |s|
  {
  }

  lemma IndexOfAt(s: string, c: char, i: nat)
    requires i < |s| && s[i] == c && c !in s[..i]
    ensures IndexOf(s, c) == i
  {
  }

  /**
   * The first dot-separated segment of a name, `strings.Split(name, ".")[0]`:
   * the longest prefix of `name` without a dot, which is all of `name` or is
   * followed by a dot.
   */
  function FirstSegment(name: string): (r: string)
    ensures r <= name && '.' !in r
    ensures |r| < |name| ==> name[|r|] == '.'
  {
    Split(name, '.')[0]
  }

  /** Fields of a single-space join of non-empty space-free tokens are those tokens. */
  lemma {:induction false} FieldsJoin(tokens: seq<string>)
    requires forall k :: 0 <= k < |tokens| ==> tokens[k] != [] && NoSpace(tokens[k])
    ensures Fields(Join(tokens, " ")) == tokens
  {
    if |tokens| == 1 {
      FieldsToken(tokens[0], []);
      assert tokens[0] + [] == tokens[0];
    } else if |tokens| > 1 {
      var rest := Join(tokens[1..], " ");
      FieldsToken(tokens[0], " " + rest);
      assert (" " + rest)[1..] == rest;
      FieldsJoin(tokens[1..]);
      assert tokens[0] + " " + rest == tokens[0] + (" " + rest);
    }
  }

  /** A token followed by nothing or by white space is the first field. */
  lemma FieldsToken(t: string, rest: string)
    requires t != [] && NoSpace(t)
    requires rest != [] ==> IsSpace(rest[0])
    ensures Fields(t + rest) == [t] + Fields(rest)
  {
    var s := t + rest;
    TokenEndAll(t, rest);
    assert s[..|t|] == t;
    assert s[|t|..] == rest;
  }

  /** A non-empty text without white space is a single field. */
  lemma FieldsSingle(t: string)
    requires t != [] && NoSpace(t)
    ensures Fields(t) == [t]
  {
    FieldsToken(t, []);
    assert t + [] == t;
  }

  /**
   * A white-space character separates fields: the fields of `a`, a space and
   * `b` are those of `a` followed by those of `b`.  With `Fields([]) == []`
   * and `FieldsSingle` this determines `Fields` on every text.
   */
  lemma {:induction false} FieldsSpace(a: string, c: char, b: string)
    requires IsSpace(c)
    ensures Fields(a + [c] + b) == Fields(a) + Fields(b)
    decreases |a|
  {
    var s := a + [c] + b;
    if a == [] {
      assert s[1..] == b;
    } else if IsSpace(a[0]) {
      assert s[1..] == a[1..] + [c] + b;
      FieldsSpace(a[1..], c, b);
    } else {
      TokenEndAppend(a, [c] + b);
      assert s == a + ([c] + b);
      var n := TokenEnd(a);
      assert s[..n] == a[..n];
      assert s[n..] == a[n..] + [c] + b;
      FieldsSpace(a[n..], c, b);
    }
  }

  /** Text after a token that starts with white space does not lengthen the token. */
  lemma {:induction false} TokenEndAppend(a: string, x: string)
    requires x != [] ==> IsSpace(x[0])
    ensures TokenEnd(a + x) == TokenEnd(a)
    decreases |a|
  {
    if a != [] && !IsSpace(a[0]) {
      assert (a + x)[1..] == a[1..] + x;
      TokenEndAppend(a[1..], x);
    } else if a == [] {
      assert a + x == x;
    }
  }

  lemma {:induction false} TokenEndAll(t: string, rest: string)
    requires t != [] && NoSpace(t)
    requires rest != [] ==> IsSpace(rest[0])
    ensures TokenEnd(t + rest) == |t|
    decreases |t|
  {
    var s := t + rest;
    if |t| > 1 {
      assert s[1..] == t[1..] + rest;
      TokenEndAll(t[1..], rest);
    } else {
      assert s[1..] == rest;
    }
  }
}
