/** Removal of markdown emphasis, as every extractor in agents.py does it:
    `re.sub(r'\*\*(.*?)\*\*', r'\1', s)` followed by
    `re.sub(r'\*(.*?)\*', r'\1', s)`. Without DOTALL, `.` does not match a
    newline, so a pair of markers only pairs up within one line. */
module Emphasis {
  import opened Wrappers
  import opened Text

  /** Where the closing marker of a pair opened at the start of `s` begins:
      the first occurrence of `m` at or after `k`, provided no newline comes
      first (the lazy `(.*?)` of the pattern). */
  function CloseAt(s: string, m: string, k: nat): (r: Option<nat>)
    requires 0 < |m| && k <= |s|
    requires '\n' !in m
    ensures r.Some? ==> k <= r.value && r.value + |m| <= |s| && s[r.value..r.value + |m|] == m
    ensures r.Some? ==> forall i :: k <= i < r.value ==> s[i] != '\n'
    decreases |s| - k
  {
    if k + |m| > |s| then None
    else if s[k..k + |m|] == m then Some(k)
    else if s[k] == '\n' then None
    else CloseAt(s, m, k + 1)
  }

  /** `re.sub(m + "(.*?)" + m, r"\1", s)`: scanning left to right, a marker
      that has a partner later on its line is dropped together with that
      partner; any other character is copied. */
  function Unwrap(s: string, m: string): string
    requires 0 < |m| && '\n' !in m
    decreases |s|
  {
    if s == [] then []
    else if StartsWith(s, m) && CloseAt(s, m, |m|).Some? then
      var j := CloseAt(s, m, |m|).value;
      s[|m|..j] + Unwrap(s[j + |m|..], m)
    else [s[0]] + Unwrap(s[1..], m)
  }

  /** Bold markers first, then italic markers. */
  function RemoveEmphasis(s: string): string {
    Unwrap(Unwrap(s, "**"), "*")
  }

  /** No `*` before the end of the first line of `s`. */
  predicate StarFreeLine(s: string)
    decreases |s|
  {
    s == [] || s[0] == '\n' || (s[0] != '*' && StarFreeLine(s[1..]))
  }

  /** No line of `s` holds two `*`: what is left once italic pairs are gone. */
  predicate OnePerLine(s: string)
    decreases |s|
  {
    s == [] || ((s[0] == '*' ==> StarFreeLine(s[1..])) && OnePerLine(s[1..]))
  }

  lemma {:induction false} NoCloseStarFree(s: string, k: nat)
    requires k <= |s|
    requires CloseAt(s, "*", k) == None
    ensures StarFreeLine(s[k..])
    decreases |s| - k
  {
    if k < |s| && s[k] != '\n' {
      assert s[k..k + 1] != "*";
      NoCloseStarFree(s, k + 1);
      assert s[k..][1..] == s[k + 1..];
    }
  }

  lemma {:induction false} StarFreeNoClose(s: string, k: nat)
    requires k <= |s|
    requires StarFreeLine(s[k..])
    ensures CloseAt(s, "*", k) == None
    decreases |s| - k
  {
    if k < |s| && s[k] != '\n' {
      assert s[k..][1..] == s[k + 1..];
      StarFreeNoClose(s, k + 1);
    }
  }

  lemma {:induction false} UnwrapStarFree(t: string)
    requires StarFreeLine(t)
    ensures StarFreeLine(Unwrap(t, "*"))
    decreases |t|
  {
    if t != [] {
      assert !StartsWith(t, "*");
      var u := Unwrap(t[1..], "*");
      assert Unwrap(t, "*") == [t[0]] + u;
      if t[0] != '\n' {
        UnwrapStarFree(t[1..]);
        assert ([t[0]] + u)[1..] == u;
      }
    }
  }

  lemma {:induction false} StarFreePrefix(x: string, y: string)
    requires forall i :: 0 <= i < |x| ==> x[i] != '*'
    requires OnePerLine(y)
    ensures OnePerLine(x + y)
    decreases |x|
  {
    if x != [] {
      var z := x + y;
      assert z[0] == x[0] && x[0] != '*';
      assert z[1..] == x[1..] + y;
      StarFreePrefix(x[1..], y);
      assert OnePerLine(z[1..]);
    } else {
      assert x + y == y;
    }
  }

  /** After the italic pass no line holds two `*`. */
  lemma {:induction false} UnwrapItalicOnePerLine(s: string)
    ensures OnePerLine(Unwrap(s, "*"))
    decreases |s|
  {
    if s != [] {
      if StartsWith(s, "*") && CloseAt(s, "*", 1).Some? {
        var j := CloseAt(s, "*", 1).value;
        UnwrapItalicOnePerLine(s[j + 1..]);
        var inner := s[1..j];
        forall i | 0 <= i < |inner| ensures inner[i] != '*' {
          if inner[i] == '*' {
            PairIsFirst(s, 1 + i, j);
          }
        }
        StarFreePrefix(inner, Unwrap(s[j + 1..], "*"));
      } else {
        UnwrapItalicOnePerLine(s[1..]);
        if s[0] == '*' {
          NoCloseStarFree(s, 1);
          UnwrapStarFree(s[1..]);
        }
      }
    }
  }

  /** The closing marker found is the first `*` after the opener. */
  lemma {:induction false} PairIsFirst(s: string, i: nat, j: nat)
    requires 1 <= i < |s| && CloseAt(s, "*", 1) == Some(j) && i < j
    ensures s[i] != '*'
  {
    CloseFirst(s, 1, i, j);
  }

  lemma {:induction false} CloseFirst(s: string, k: nat, i: nat, j: nat)
    requires k <= i < |s| && CloseAt(s, "*", k) == Some(j) && i < j
    ensures s[i] != '*'
    decreases i - k
  {
    if k < i {
      assert s[k..k + 1] != "*";
      CloseFirst(s, k + 1, i, j);
    } else {
      assert s[k..k + 1] != "*";
    }
  }

  /** The italic pass leaves a text with at most one `*` per line unchanged. */
  lemma {:induction false} UnwrapItalicKeeps(s: string)
    requires OnePerLine(s)
    ensures Unwrap(s, "*") == s
    decreases |s|
  {
    if s != [] {
      if s[0] == '*' {
        StarFreeNoClose(s, 1);
      }
      UnwrapItalicKeeps(s[1..]);
      assert s == [s[0]] + s[1..];
    }
  }

  /** The bold pass leaves a text with at most one `*` per line unchanged. */
  lemma {:induction false} UnwrapBoldKeeps(s: string)
    requires OnePerLine(s)
    ensures Unwrap(s, "**") == s
    decreases |s|
  {
    if s != [] {
      assert !StartsWith(s, "**") by {
        if |s| >= 2 && s[0] == '*' {
          assert StarFreeLine(s[1..]);
        }
      }
      UnwrapBoldKeeps(s[1..]);
      assert s == [s[0]] + s[1..];
    }
  }

  lemma {:induction false} StarFreeLinePrefix(s: string, b: nat)
    requires b <= |s| && StarFreeLine(s)
    ensures StarFreeLine(s[..b])
    decreases b
  {
    if b > 0 && s[0] != '\n' {
      assert s[..b][1..] == s[1..][..b - 1];
      StarFreeLinePrefix(s[1..], b - 1);
    }
  }

  lemma {:induction false} OnePerLinePrefix(s: string, b: nat)
    requires b <= |s| && OnePerLine(s)
    ensures OnePerLine(s[..b])
    decreases b
  {
    if b > 0 {
      assert s[..b][1..] == s[1..][..b - 1];
      OnePerLinePrefix(s[1..], b - 1);
      if s[0] == '*' {
        StarFreeLinePrefix(s[1..], b - 1);
      }
    }
  }

  lemma {:induction false} OnePerLineSuffix(s: string, a: nat)
    requires a <= |s| && OnePerLine(s)
    ensures OnePerLine(s[a..])
    decreases a
  {
    if a > 0 {
      assert s[a..] == s[1..][a - 1..];
      OnePerLineSuffix(s[1..], a - 1);
    }
  }

  /** Any infix of a text with at most one `*` per line has the same
      property. */
  lemma OnePerLineInfix(s: string, a: nat, b: nat)
    requires a <= b <= |s| && OnePerLine(s)
    ensures OnePerLine(s[a..b])
  {
    OnePerLineSuffix(s, a);
    OnePerLinePrefix(s[a..], b - a);
    assert s[a..][..b - a] == s[a..b];
  }

  /** Removing emphasis twice is removing it once. */
  lemma RemoveEmphasisIdempotent(s: string)
    ensures RemoveEmphasis(RemoveEmphasis(s)) == RemoveEmphasis(s)
  {
    var e := RemoveEmphasis(s);
    UnwrapItalicOnePerLine(Unwrap(s, "**"));
    UnwrapBoldKeeps(e);
    UnwrapItalicKeeps(e);
  }
}
