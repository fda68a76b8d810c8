/** Python string built-ins the parsers rely on, over `string = seq<char>`.
    Case mapping, `isupper`, the whitespace set, digits and word characters
    follow the ASCII subset of Python's Unicode rules. */
module Text {

  /* ---------------- character classes ---------------- */

  predicate IsUpperChar(c: char) { 'A' <= c <= 'Z' }
  predicate IsLowerChar(c: char) { 'a' <= c <= 'z' }
  predicate IsLetter(c: char) { IsUpperChar(c) || IsLowerChar(c) }
  predicate IsDigit(c: char) { '0' <= c <= '9' }
  /** `\w` in a regular expression: letters, digits and the underscore. */
  predicate IsWordChar(c: char) { IsLetter(c) || IsDigit(c) || c == '_' }

  /** `\s` in a regular expression and the default set of `str.strip()`:
      the ASCII characters `str.isspace()` accepts, which include the four
      separators 0x1C to 0x1F. */
  const Whitespace: set<char> :=
    {' ', '\t', '\n', '\r', '\U{000B}', '\U{000C}', '\U{001C}', '\U{001D}', '\U{001E}', '\U{001F}'}

  function LowerChar(c: char): char {
    if IsUpperChar(c) then (c as int + 32) as char else c
  }

  function UpperChar(c: char): char {
    if IsLowerChar(c) then (c as int - 32) as char else c
  }

  /* ---------------- case mapping ---------------- */

  /** `str.lower()` */
  function Lower(s: string): (r: string)
    ensures |r| == |s|
    ensures forall i :: 0 <= i < |s| ==> r[i] == LowerChar(s[i])
  {
    seq(|s|, i requires 0 <= i < |s| => LowerChar(s[i]))
  }

  /** `str.upper()` */
  function Upper(s: string): (r: string)
    ensures |r| == |s|
    ensures forall i :: 0 <= i < |s| ==> r[i] == UpperChar(s[i])
  {
    seq(|s|, i requires 0 <= i < |s| => UpperChar(s[i]))
  }

  /** `str.capitalize()`: the first character upper case, the rest lower case. */
  function Capitalize(s: string): (r: string)
    ensures |r| == |s|
  {
    if s == [] then [] else [UpperChar(s[0])] + Lower(s[1..])
  }

  /** `str.title()`: a letter that follows a letter is lowered, every other
      letter is raised. */
  function Title(s: string): (r: string)
    ensures |r| == |s|
  {
    seq(|s|, i requires 0 <= i < |s| =>
      if i > 0 && IsLetter(s[i - 1]) then LowerChar(s[i]) else UpperChar(s[i]))
  }

  /** `str.replace(old, new)` for one character replaced by a string. */
  function ReplaceChar(s: string, from: char, to: string): (r: string)
    ensures from !in to ==> from !in r
    decreases |s|
  {
    if s == [] then []
    else (if s[0] == from then to else [s[0]]) + ReplaceChar(s[1..], from, to)
  }

  /** `str.isupper()`: at least one cased character and no lower-case one. */
  predicate IsUpperStr(s: string) {
    (exists i :: 0 <= i < |s| && IsUpperChar(s[i])) &&
    (forall i :: 0 <= i < |s| ==> !IsLowerChar(s[i]))
  }

  lemma LowerIdempotent(s: string)
    ensures Lower(Lower(s)) == Lower(s)
  {
  }

  /** A text with no upper-case letter is its own lower-case form. */
  lemma LowerOfLowerCase(s: string)
    requires forall i :: 0 <= i < |s| ==> !IsUpperChar(s[i])
    ensures Lower(s) == s
  {
  }

  lemma LowerOfUpper(s: string)
    ensures Lower(Upper(s)) == Lower(s)
  {
  }

  /* ---------------- prefixes and substrings ---------------- */

  /** `s.startswith(p)` */
  predicate StartsWith(s: string, p: string) {
    |p| <= |s| && s[..|p|] == p
  }

  /** `s.endswith(p)` */
  predicate EndsWith(s: string, p: string) {
    |p| <= |s| && s[|s| - |p|..] == p
  }

  /** `sub in s` */
  predicate Contains(s: string, sub: string)
    decreases |s|
  {
    StartsWith(s, sub) || (|s| > 0 && Contains(s[1..], sub))
  }

  /** A text lacking the first character of `sub` does not contain it. */
  lemma {:induction false} NotContains(s: string, sub: string)
    requires |sub| > 0
    requires forall i :: 0 <= i < |s| ==> s[i] != sub[0]
    ensures !Contains(s, sub)
    decreases |s|
  {
    if |sub| <= |s| {
      assert s[..|sub|][0] == s[0];
    }
    if |s| > 0 {
      NotContains(s[1..], sub);
    }
  }

  lemma {:induction false} ContainsInfix(a: string, sub: string, b: string)
    ensures Contains(a + sub + b, sub)
    decreases |a|
  {
    if a == [] {
      assert (a + sub + b)[..|sub|] == sub;
    } else {
      assert (a + sub + b)[1..] == a[1..] + sub + b;
      ContainsInfix(a[1..], sub, b);
    }
  }

  /* ---------------- stripping ---------------- */

  /** `s.lstrip(cs)` */
  function TrimLeft(s: string, cs: set<char>): (r: string)
    ensures |r| <= |s|
    ensures r == [] || r[0] !in cs
    decreases |s|
  {
    if |s| > 0 && s[0] in cs then TrimLeft(s[1..], cs) else s
  }

  /** What `lstrip` leaves is a suffix, and it removed only characters of
      `cs`. */
  lemma {:induction false} TrimLeftSuffix(s: string, cs: set<char>)
    ensures TrimLeft(s, cs) == s[|s| - |TrimLeft(s, cs)|..]
    ensures forall i :: 0 <= i < |s| - |TrimLeft(s, cs)| ==> s[i] in cs
    decreases |s|
  {
    if |s| > 0 && s[0] in cs {
      TrimLeftSuffix(s[1..], cs);
      assert s[1..][|s| - 1 - |TrimLeft(s, cs)|..] == s[|s| - |TrimLeft(s, cs)|..];
      forall i | 1 <= i < |s| - |TrimLeft(s, cs)| ensures s[i] in cs {
        assert s[1..][i - 1] == s[i];
      }
    }
  }

  /** `s.rstrip(cs)` */
  function TrimRight(s: string, cs: set<char>): (r: string)
    ensures |r| <= |s|
    ensures r == [] || r[|r| - 1] !in cs
    decreases |s|
  {
    if |s| > 0 && s[|s| - 1] in cs then TrimRight(s[..|s| - 1], cs) else s
  }

  /** What `rstrip` leaves is a prefix. */
  lemma {:induction false} TrimRightPrefix(s: string, cs: set<char>)
    ensures TrimRight(s, cs) == s[..|TrimRight(s, cs)|]
    decreases |s|
  {
    if |s| > 0 && s[|s| - 1] in cs {
      TrimRightPrefix(s[..|s| - 1], cs);
      assert s[..|s| - 1][..|TrimRight(s, cs)|] == s[..|TrimRight(s, cs)|];
    }
  }

  /** Where `Strip(s, cs)` starts inside `s`. */
  function StripOffset(s: string, cs: set<char>): nat {
    |s| - |TrimLeft(s, cs)|
  }

  /** `s.strip(cs)`: the longest infix of `s` that neither starts nor ends
      with a character of `cs`. */
  function Strip(s: string, cs: set<char>): (r: string)
    ensures |r| <= |s|
    ensures r == [] || (r[0] !in cs && r[|r| - 1] !in cs)
  {
    var t := TrimLeft(s, cs);
    TrimRightPrefix(t, cs);
    TrimRight(t, cs)
  }

  /** `Strip(s, cs)` is the infix of `s` that starts at `StripOffset(s, cs)`. */
  lemma StripIsInfix(s: string, cs: set<char>)
    ensures StripOffset(s, cs) + |Strip(s, cs)| <= |s|
    ensures Strip(s, cs) == s[StripOffset(s, cs)..StripOffset(s, cs) + |Strip(s, cs)|]
  {
    var t := TrimLeft(s, cs);
    var r := TrimRight(t, cs);
    TrimLeftSuffix(s, cs);
    TrimRightPrefix(t, cs);
    assert t[..|r|] == s[|s| - |t|..|s| - |t| + |r|];
  }

  /** `s.strip()` */
  function StripWs(s: string): string {
    Strip(s, Whitespace)
  }

  /** `s.strip()` starts and ends with non-white-space characters. */
  lemma StripWsEnds(s: string)
    ensures |StripWs(s)| <= |s|
    ensures StripWs(s) == [] || (StripWs(s)[0] !in Whitespace && StripWs(s)[|StripWs(s)| - 1] !in Whitespace)
  {
  }

  /** A character absent from a text is absent from its stripped form. */
  lemma StripInfix(s: string, cs: set<char>, c: char)
    requires c !in s
    ensures c !in Strip(s, cs)
  {
    var r := Strip(s, cs);
    var o := StripOffset(s, cs);
    StripIsInfix(s, cs);
    forall i | 0 <= i < |r| ensures r[i] != c {
      assert r[i] == s[o + i];
    }
  }

  lemma {:induction false} StripOfStripped(s: string, cs: set<char>)
    requires s == [] || (s[0] !in cs && s[|s| - 1] !in cs)
    ensures Strip(s, cs) == s
  {
  }

  /** A text made only of characters of `cs` strips to nothing. */
  lemma StripAllOf(s: string, cs: set<char>)
    requires forall i :: 0 <= i < |s| ==> s[i] in cs
    ensures Strip(s, cs) == []
  {
    TrimLeftAll(s, cs);
  }

  lemma {:induction false} TrimLeftAll(s: string, cs: set<char>)
    requires forall i :: 0 <= i < |s| ==> s[i] in cs
    ensures TrimLeft(s, cs) == []
    decreases |s|
  {
    if s != [] {
      TrimLeftAll(s[1..], cs);
    }
  }

  lemma {:induction false} TrimLeftPrefix(u: string, t: string, cs: set<char>)
    requires forall i :: 0 <= i < |u| ==> u[i] in cs
    requires t == [] || t[0] !in cs
    ensures TrimLeft(u + t, cs) == t
    decreases |u|
  {
    if u == [] {
      assert u + t == t;
    } else {
      assert (u + t)[1..] == u[1..] + t;
      TrimLeftPrefix(u[1..], t, cs);
    }
  }

  lemma {:induction false} TrimRightSuffix(t: string, v: string, cs: set<char>)
    requires forall i :: 0 <= i < |v| ==> v[i] in cs
    requires t == [] || t[|t| - 1] !in cs
    ensures TrimRight(t + v, cs) == t
    decreases |v|
  {
    if v == [] {
      assert t + v == t;
    } else {
      assert (t + v)[..|t + v| - 1] == t + v[..|v| - 1];
      TrimRightSuffix(t, v[..|v| - 1], cs);
    }
  }

  /** A text whose ends lie outside `cs`, padded with characters of `cs`,
      strips back to itself. */
  lemma StripOfPadded(u: string, r: string, v: string, cs: set<char>)
    requires forall i :: 0 <= i < |u| ==> u[i] in cs
    requires forall i :: 0 <= i < |v| ==> v[i] in cs
    requires r != [] && r[0] !in cs && r[|r| - 1] !in cs
    ensures Strip(u + r + v, cs) == r
  {
    assert u + r + v == u + (r + v);
    TrimLeftPrefix(u, r + v, cs);
    TrimRightSuffix(r, v, cs);
  }

  /* ---------------- splitting and joining ---------------- */

  /** `s.split(sep)` for a non-empty separator: the pieces between the
      non-overlapping occurrences of `sep`, scanned left to right. */
  function Split(s: string, sep: string): (r: seq<string>)
    requires |sep| > 0
    ensures |r| >= 1
    decreases |s|
  {
    if StartsWith(s, sep) then [[]] + Split(s[|sep|..], sep)
    else if s == [] then [[]]
    else var rest := Split(s[1..], sep); [[s[0]] + rest[0]] + rest[1..]
  }

  /** A text in which the separator never starts is one piece. */
  lemma {:induction false} SplitWithout(s: string, sep: string)
    requires |sep| > 0
    requires forall i :: 0 <= i < |s| ==> s[i] != sep[0]
    ensures Split(s, sep) == [s]
    decreases |s|
  {
    if s != [] {
      if |sep| <= |s| {
        assert s[..|sep|][0] == s[0];
      }
      SplitWithout(s[1..], sep);
      assert [s[0]] + s[1..] == s;
    }
  }

  /** `sep.join(parts)` */
  function Join(sep: string, parts: seq<string>): string
    decreases |parts|
  {
    if parts == [] then []
    else if |parts| == 1 then parts[0]
    else parts[0] + sep + Join(sep, parts[1..])
  }

  lemma JoinCons(sep: string, x: string, rest: seq<string>)
    requires |rest| >= 1
    ensures Join(sep, [x] + rest) == x + sep + Join(sep, rest)
  {
    assert ([x] + rest)[1..] == rest;
  }

  lemma JoinConsChar(sep: string, c: char, parts: seq<string>)
    requires |parts| >= 1
    ensures Join(sep, [[c] + parts[0]] + parts[1..]) == [c] + Join(sep, parts)
  {
    if |parts| > 1 {
      JoinCons(sep, [c] + parts[0], parts[1..]);
      assert parts == [parts[0]] + parts[1..];
      JoinCons(sep, parts[0], parts[1..]);
    }
  }

  /** Joining the pieces of a split with the same separator gives back the
      text. */
  lemma {:induction false} JoinSplit(s: string, sep: string)
    requires |sep| > 0
    ensures Join(sep, Split(s, sep)) == s
    decreases |s|
  {
    if StartsWith(s, sep) {
      var rest := s[|sep|..];
      calc {
        Join(sep, Split(s, sep));
        Join(sep, [[]] + Split(rest, sep));
        { JoinCons(sep, [], Split(rest, sep)); }
        [] + sep + Join(sep, Split(rest, sep));
        { JoinSplit(rest, sep); }
        [] + sep + rest;
        { assert s == sep + rest; }
        s;
      }
    } else if s != [] {
      var rest := s[1..];
      calc {
        Join(sep, Split(s, sep));
        { JoinConsChar(sep, s[0], Split(rest, sep)); }
        [s[0]] + Join(sep, Split(rest, sep));
        { JoinSplit(rest, sep); }
        [s[0]] + rest;
        s;
      }
    }
  }

  /** Splitting on one character the join of pieces free of that character
      gives back the pieces. */
  lemma {:induction false} SplitJoin(parts: seq<string>, c: char)
    requires |parts| >= 1
    requires forall i :: 0 <= i < |parts| ==> c !in parts[i]
    ensures Split(Join([c], parts), [c]) == parts
    decreases |parts|, |parts[0]|
  {
    var p := parts[0];
    if p == [] {
      if |parts| == 1 {
      } else {
        var j := Join([c], parts);
        assert j == [c] + Join([c], parts[1..]);
        assert StartsWith(j, [c]);
        assert j[1..] == Join([c], parts[1..]);
        SplitJoin(parts[1..], c);
        assert parts == [[]] + parts[1..];
      }
    } else {
      var parts' := [p[1..]] + parts[1..];
      assert parts'[1..] == parts[1..];
      var j := Join([c], parts);
      var j' := Join([c], parts');
      assert j == [p[0]] + j' by {
        if |parts| == 1 {
        } else {
          assert j == p + [c] + Join([c], parts[1..]);
          assert j' == p[1..] + [c] + Join([c], parts[1..]);
          assert p == [p[0]] + p[1..];
        }
      }
      assert !StartsWith(j, [c]) by { assert j[0] == p[0]; assert p[0] in p; }
      assert j[1..] == j';
      forall i | 0 <= i < |parts'| ensures c !in parts'[i] {
        if i == 0 {
          assert forall x :: x in p[1..] ==> x in p;
        } else {
          assert parts'[i] == parts[i];
        }
      }
      SplitJoin(parts', c);
      assert p == [p[0]] + parts'[0];
      assert parts == [[p[0]] + parts'[0]] + parts'[1..];
    }
  }

  /** Every piece of a split on one character is free of that character. */
  lemma {:induction false} SplitPiecesFree(s: string, c: char)
    ensures forall i :: 0 <= i < |Split(s, [c])| ==> c !in Split(s, [c])[i]
    decreases |s|
  {
    if StartsWith(s, [c]) {
      SplitPiecesFree(s[1..], c);
    } else if s != [] {
      SplitPiecesFree(s[1..], c);
      assert s[0] != c;
    }
  }

  /* ---------------- numbers ---------------- */

  /** The index just past the run of decimal digits that starts at `p`. */
  function DigitRunEnd(s: string, p: nat): (e: nat)
    requires p <= |s|
    ensures p <= e <= |s|
    ensures forall i :: p <= i < e ==> IsDigit(s[i])
    ensures e == |s| || !IsDigit(s[e])
    decreases |s| - p
  {
    if p < |s| && IsDigit(s[p]) then DigitRunEnd(s, p + 1) else p
  }

  /** `int(s)` for a string of decimal digits. */
  function DigitsValue(s: string): nat
    requires forall i :: 0 <= i < |s| ==> IsDigit(s[i])
    decreases |s|
  {
    if s == [] then 0
    else
      assert IsDigit(s[|s| - 1]);
      10 * DigitsValue(s[..|s| - 1]) + (s[|s| - 1] as int - '0' as int)
  }

  function DigitChar(d: nat): (c: char)
    requires d < 10
    ensures IsDigit(c)
  {
    ('0' as int + d) as char
  }

  /** `str(n)` for a natural number. */
  function NatToString(n: nat): (r: string)
    ensures |r| >= 1
    ensures forall i :: 0 <= i < |r| ==> IsDigit(r[i])
    decreases n
  {
    if n < 10 then [DigitChar(n)] else NatToString(n / 10) + [DigitChar(n % 10)]
  }

  /** Reading back the decimal text of a number gives the number. */
  lemma {:induction false} DigitsValueOfNatToString(n: nat)
    ensures DigitsValue(NatToString(n)) == n
    decreases n
  {
    if n >= 10 {
      var r := NatToString(n);
      assert r[..|r| - 1] == NatToString(n / 10);
      DigitsValueOfNatToString(n / 10);
    }
  }
}
