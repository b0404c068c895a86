/** String operations of JavaScript that the console applies to user input:
    `split` on one character, `trim`, `indexOf`, and decimal rendering of a count. */
module Text {

  /** `parts.join(sep)`. */
  function Join(parts: seq<string>, sep: char): string
  {
    if |parts| == 0 then ""
    else if |parts| == 1 then parts[0]
    else parts[0] + [sep] + Join(parts[1..], sep)
  }

  /** `s.split(sep)` for a one-character separator: the pieces between the
      separators, in order; "" splits into [""], and a trailing separator
      leaves a trailing empty piece. */
  function Split(s: string, sep: char): (r: seq<string>)
    ensures |r| >= 1
    ensures forall i :: 0 <= i < |r| ==> sep !in r[i]
  {
    if s == [] then [""]
    else
      var rest := Split(s[1..], sep);
      if s[0] == sep then [""] + rest
      else [[s[0]] + rest[0]] + rest[1..]
  }

  /** Joining the pieces with the separator gives back the input. */
  lemma {:induction false} JoinSplit(s: string, sep: char)
    ensures Join(Split(s, sep), sep) == s
  {
    if s != [] {
      var rest := Split(s[1..], sep);
      JoinSplit(s[1..], sep);
      if s[0] == sep {
        assert Split(s, sep) == [""] + rest;
        assert ([""] + rest)[1..] == rest;
        assert s == [sep] + s[1..];
      } else {
        var r := [[s[0]] + rest[0]] + rest[1..];
        assert Split(s, sep) == r;
        if |rest| == 1 {
          assert s == [s[0]] + s[1..];
        } else {
          assert r[1..] == rest[1..];
          assert Join(rest, sep) == rest[0] + [sep] + Join(rest[1..], sep);
          assert s == [s[0]] + s[1..];
        }
      }
    }
  }

  /** One more piece than there are separators: a text of n lines has n pieces. */
  lemma {:induction false} SplitCount(s: string, sep: char)
    ensures |Split(s, sep)| == multiset(s)[sep] + 1
  {
    if s != [] {
      SplitCount(s[1..], sep);
      assert s == [s[0]] + s[1..];
      assert multiset(s) == multiset{s[0]} + multiset(s[1..]);
    }
  }

  lemma {:induction false} SplitPrefix(x: string, t: string, sep: char)
    requires sep !in x
    ensures Split(x + t, sep) == [x + Split(t, sep)[0]] + Split(t, sep)[1..]
  {
    if x == [] {
      var p := Split(t, sep);
      assert x + t == t;
      assert x + p[0] == p[0];
      assert p == [p[0]] + p[1..];
    } else {
      assert (x + t)[1..] == x[1..] + t;
      assert (x + t)[0] == x[0];
      SplitPrefix(x[1..], t, sep);
      assert [x[0]] + (x[1..] + Split(t, sep)[0]) == x + Split(t, sep)[0];
    }
  }

  /** Splitting undoes joining pieces that contain no separator: the pieces
      `Split` returns are therefore the only separator-free decomposition of `s`. */
  lemma {:induction false} SplitJoin(parts: seq<string>, sep: char)
    requires |parts| >= 1
    requires forall i :: 0 <= i < |parts| ==> sep !in parts[i]
    ensures Split(Join(parts, sep), sep) == parts
  {
    if |parts| == 1 {
      SplitPrefix(parts[0], "", sep);
      assert parts[0] + "" == parts[0];
    } else {
      var tail := Join(parts[1..], sep);
      SplitJoin(parts[1..], sep);
      SplitPrefix(parts[0], [sep] + tail, sep);
      assert parts[0] + [sep] + tail == parts[0] + ([sep] + tail);
      assert ([sep] + tail)[1..] == tail;
      assert Split([sep] + tail, sep) == [""] + Split(tail, sep);
      assert parts[0] + "" == parts[0];
      assert parts == [parts[0]] + parts[1..];
    }
  }

  /** The code points `String.prototype.trim` strips: ECMAScript's WhiteSpace
      and LineTerminator characters. */
  predicate IsWhitespace(c: char) {
    c in {'\t', '\n', '\U{B}', '\U{C}', '\r', ' ', '\U{A0}', '\U{1680}',
          '\U{2000}', '\U{2001}', '\U{2002}', '\U{2003}', '\U{2004}', '\U{2005}',
          '\U{2006}', '\U{2007}', '\U{2008}', '\U{2009}', '\U{200A}',
          '\U{2028}', '\U{2029}', '\U{202F}', '\U{205F}', '\U{3000}', '\U{FEFF}'}
  }

  predicate AllWhitespace(s: string) {
    forall i :: 0 <= i < |s| ==> IsWhitespace(s[i])
  }

  /** Leading whitespace removed. */
  function TrimStart(s: string): (r: string)
    ensures |r| <= |s|
  {
    if s != [] && IsWhitespace(s[0]) then TrimStart(s[1..]) else s
  }

  /** Trailing whitespace removed. */
  function TrimEnd(s: string): (r: string)
    ensures |r| <= |s|
  {
    if s != [] && IsWhitespace(s[|s| - 1]) then TrimEnd(s[..|s| - 1]) else s
  }

  /** `s.trim()`: never longer than `s`. */
  function Trim(s: string): (r: string)
    ensures |r| <= |s|
  {
    TrimEnd(TrimStart(s))
  }

  /** `TrimStart` drops a whitespace-only prefix and stops at the first other character. */
  lemma {:induction false} TrimStartSpec(s: string)
    ensures TrimStart(s) == s[|s| - |TrimStart(s)|..]
    ensures AllWhitespace(s[..|s| - |TrimStart(s)|])
    ensures TrimStart(s) == [] || !IsWhitespace(TrimStart(s)[0])
  {
    if s != [] && IsWhitespace(s[0]) {
      var r := TrimStart(s[1..]);
      TrimStartSpec(s[1..]);
      assert s[..|s| - |r|] == [s[0]] + s[1..][..|s| - 1 - |r|];
    }
  }

  /** `TrimEnd` drops a whitespace-only suffix and stops at the last other character. */
  lemma {:induction false} TrimEndSpec(s: string)
    ensures TrimEnd(s) == s[..|TrimEnd(s)|]
    ensures AllWhitespace(s[|TrimEnd(s)|..])
    ensures TrimEnd(s) == [] || !IsWhitespace(TrimEnd(s)[|TrimEnd(s)| - 1])
  {
    if s != [] && IsWhitespace(s[|s| - 1]) {
      var r := TrimEnd(s[..|s| - 1]);
      TrimEndSpec(s[..|s| - 1]);
      assert s[|r|..] == s[..|s| - 1][|r|..] + [s[|s| - 1]];
    }
  }

  /** `s.trim()` is the slice of `s` left once its whitespace-only prefix and
      suffix are dropped, and it neither starts nor ends with whitespace. */
  lemma TrimSpec(s: string)
    ensures var a := |s| - |TrimStart(s)|;
              a + |Trim(s)| <= |s| && Trim(s) == s[a..a + |Trim(s)|]
              && AllWhitespace(s[..a]) && AllWhitespace(s[a + |Trim(s)|..])
    ensures Trim(s) == [] || (!IsWhitespace(Trim(s)[0]) && !IsWhitespace(Trim(s)[|Trim(s)| - 1]))
  {
    var t := TrimStart(s);
    var u := TrimEnd(t);
    TrimStartSpec(s);
    TrimEndSpec(t);
    var a := |s| - |t|;
    assert t == s[a..];
    assert u == t[..|u|];
    assert u == s[a..a + |u|];
    assert s[a + |u|..] == t[|u|..];
    if u != [] {
      assert u[0] == t[0];
    }
  }

  /** `s.trim() === ''` exactly when every character of `s` is whitespace. */
  lemma TrimEmptyIff(s: string)
    ensures Trim(s) == "" <==> AllWhitespace(s)
  {
    var t := TrimStart(s);
    var u := TrimEnd(t);
    TrimStartSpec(s);
    TrimEndSpec(t);
    if u == "" {
      assert s[..|s| - |t|] == s;
    } else {
      assert u[0] == t[0];
      assert t[0] == s[|s| - |t|];
    }
  }

  lemma AllWhitespaceConcat(a: string, b: string)
    ensures AllWhitespace(a + b) <==> AllWhitespace(a) && AllWhitespace(b)
  {
    if AllWhitespace(a) && AllWhitespace(b) {
      forall i | 0 <= i < |a + b| ensures IsWhitespace((a + b)[i]) {
        if i < |a| { assert (a + b)[i] == a[i]; } else { assert (a + b)[i] == b[i - |a|]; }
      }
    }
    if AllWhitespace(a + b) {
      forall i | 0 <= i < |a| ensures IsWhitespace(a[i]) { assert (a + b)[i] == a[i]; }
      forall i | 0 <= i < |b| ensures IsWhitespace(b[i]) { assert (a + b)[|a| + i] == b[i]; }
    }
  }

  /** Joining with a whitespace separator gives whitespace only exactly when every piece is. */
  lemma {:induction false} AllWhitespaceJoin(parts: seq<string>, sep: char)
    requires IsWhitespace(sep)
    ensures AllWhitespace(Join(parts, sep)) <==> forall i :: 0 <= i < |parts| ==> AllWhitespace(parts[i])
  {
    if |parts| >= 2 {
      AllWhitespaceJoin(parts[1..], sep);
      AllWhitespaceConcat(parts[0] + [sep], Join(parts[1..], sep));
      AllWhitespaceConcat(parts[0], [sep]);
      assert forall i :: 1 <= i < |parts| ==> parts[i] == parts[1..][i - 1];
    }
  }

  /** `a` is `b` with some elements left out, order kept. */
  ghost predicate IsSubsequence<T>(a: seq<T>, b: seq<T>)
    decreases |b|
  {
    if a == [] then true
    else if b == [] then false
    else (a[0] == b[0] && IsSubsequence(a[1..], b[1..])) || IsSubsequence(a, b[1..])
  }

  /** `s.indexOf(c)`, with |s| standing for "not found". */
  function IndexOf(s: string, c: char): (i: nat)
    ensures i <= |s|
    ensures i < |s| ==> s[i] == c
    ensures forall j :: 0 <= j < i ==> s[j] != c
  {
    if s == [] then 0
    else if s[0] == c then 0
    else 1 + IndexOf(s[1..], c)
  }

  /** The index of `c` in `x + t`, when `x` does not contain it and `t` starts with it. */
  lemma IndexOfAfter(x: string, t: string, c: char)
    requires c !in x && t != [] && t[0] == c
    ensures IndexOf(x + t, c) == |x|
  {
    assert (x + t)[|x|] == c;
    assert forall j :: 0 <= j < |x| ==> (x + t)[j] == x[j];
  }

  function DigitChar(d: nat): (c: char)
    requires d < 10
    ensures '0' <= c <= '9'
    ensures c as int - '0' as int == d
  {
    "0123456789"[d]
  }

  /** The number a string of decimal digits denotes. */
  function DecimalValue(s: string): nat
    requires forall i :: 0 <= i < |s| ==> '0' <= s[i] <= '9'
  {
    if s == [] then 0
    else DecimalValue(s[..|s| - 1]) * 10 + (s[|s| - 1] as int - '0' as int)
  }

  /** `${n}` for a natural number: shortest decimal digits, read back as `n`. */
  function NatToString(n: nat): (r: string)
    ensures |r| >= 1
    ensures forall i :: 0 <= i < |r| ==> '0' <= r[i] <= '9'
    ensures r[0] == '0' ==> n == 0 && r == "0"
    ensures DecimalValue(r) == n
  {
    if n < 10 then [DigitChar(n)]
    else
      var prefix := NatToString(n / 10);
      var r := prefix + [DigitChar(n % 10)];
      assert r[..|r| - 1] == prefix;
      r
  }
}
