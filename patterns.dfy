/** The building blocks of the regular expressions in agents.py, written as
    explicit scans. A `re.search` tries start positions from left to right;
    at each start the first successful path through the pattern wins, greedy
    quantifiers taking as much as they can and lazy ones as little. */
module Patterns {
  import opened Wrappers
  import opened Text

  /** `lit` occurs at `p`. */
  predicate LitAt(s: string, p: nat, lit: string) {
    p + |lit| <= |s| && s[p..p + |lit|] == lit
  }

  /** `lit` occurs at `p`, compared as under `re.IGNORECASE`. */
  predicate LitAtCi(s: string, p: nat, lit: string) {
    p + |lit| <= |s| && Lower(s[p..p + |lit|]) == Lower(lit)
  }

  /** The first position at or after `p` where `lit` occurs, ignoring case. */
  function FindCi(s: string, lit: string, p: nat): (r: Option<nat>)
    requires p <= |s|
    ensures r.Some? ==> p <= r.value <= |s| && LitAtCi(s, r.value, lit)
    ensures r.Some? ==> forall q :: p <= q < r.value ==> !LitAtCi(s, q, lit)
    ensures r.None? ==> forall q :: p <= q <= |s| ==> !LitAtCi(s, q, lit)
    decreases |s| - p
  {
    if LitAtCi(s, p, lit) then Some(p)
    else if p == |s| then None
    else FindCi(s, lit, p + 1)
  }

  /** The class `[:\s]`. */
  const WsColon: set<char> := Whitespace + {':'}

  /** A greedy `[cs]*` starting at `p`: where it stops. */
  function SkipSet(s: string, p: nat, cs: set<char>): (q: nat)
    requires p <= |s|
    ensures p <= q <= |s|
    ensures forall i :: p <= i < q ==> s[i] in cs
    ensures q == |s| || s[q] !in cs
    decreases |s| - p
  {
    if p < |s| && s[p] in cs then SkipSet(s, p + 1, cs) else p
  }

  /** A greedy `\w+` or `\w*` from `p`: where the run of word characters
      ends. */
  function WordRunEnd(s: string, p: nat): (e: nat)
    requires p <= |s|
    ensures p <= e <= |s|
    ensures forall i :: p <= i < e ==> IsWordChar(s[i])
    ensures e == |s| || !IsWordChar(s[e])
    decreases |s| - p
  {
    if p < |s| && IsWordChar(s[p]) then WordRunEnd(s, p + 1) else p
  }

  /** A greedy `\n?` at `p`. */
  function OptNewline(s: string, p: nat): (q: nat)
    requires p <= |s|
    ensures p <= q <= |s|
  {
    if p < |s| && s[p] == '\n' then p + 1 else p
  }

  /** The end of the line holding `p`: its first newline at or after `p`, or
      the end of the text. */
  function LineEnd(s: string, p: nat): (e: nat)
    requires p <= |s|
    ensures p <= e <= |s|
    ensures forall i :: p <= i < e ==> s[i] != '\n'
    ensures e == |s| || s[e] == '\n'
    decreases |s| - p
  {
    if p < |s| && s[p] != '\n' then LineEnd(s, p + 1) else p
  }

  /** The alternatives that end a capture, each a lookahead at one
      position. */
  datatype Stop =
    | BlankLine        // \n\n
    | LetterHeader     // \n[A-Z][A-Z\s]*:   (any letter under IGNORECASE)
    | NumberedLine     // \n\d+\.
    | BoldLetter       // \n\*\*[A-Z]        (any letter under IGNORECASE)
    | HashLine         // \n#(1, 3), which needs the text `\n#1, 3`
    | LetterLine       // \n[A-Z]            (any letter under IGNORECASE)
    | KeyImprovements  // \nKEY IMPROVEMENTS
    | LineEndAnchor    // $ under MULTILINE
    | TextEndAnchor    // $ without MULTILINE

  /** `[A-Z\s]*:` from `j` (any letter under IGNORECASE): a run of letters
      and white space that ends in a colon. */
  predicate ColonAfterLetters(s: string, j: nat)
    decreases |s| - j
  {
    j < |s| && (s[j] == ':' || ((IsLetter(s[j]) || s[j] in Whitespace) && ColonAfterLetters(s, j + 1)))
  }

  predicate StopAt(s: string, k: nat, st: Stop)
    requires k <= |s|
  {
    match st
    case BlankLine => LitAt(s, k, "\n\n")
    case LetterHeader => k + 1 < |s| && s[k] == '\n' && IsLetter(s[k + 1]) && ColonAfterLetters(s, k + 2)
    case NumberedLine =>
      k + 1 < |s| && s[k] == '\n' && IsDigit(s[k + 1]) &&
      DigitRunEnd(s, k + 1) < |s| && s[DigitRunEnd(s, k + 1)] == '.'
    case BoldLetter => k + 3 < |s| && LitAt(s, k, "\n**") && IsLetter(s[k + 3])
    case HashLine => LitAt(s, k, "\n#1, 3")
    case LetterLine => k + 1 < |s| && s[k] == '\n' && IsLetter(s[k + 1])
    case KeyImprovements => k < |s| && s[k] == '\n' && LitAtCi(s, k + 1, "KEY IMPROVEMENTS")
    case LineEndAnchor => k == |s| || s[k] == '\n'
    case TextEndAnchor => k == |s| || (k == |s| - 1 && s[k] == '\n')
  }

  predicate AnyStopAt(s: string, k: nat, stops: seq<Stop>)
    requires k <= |s|
  {
    exists i :: 0 <= i < |stops| && StopAt(s, k, stops[i])
  }

  /** Where a capture that starts at `c` ends: the first position at which one
      of `stops` holds, or the end of the text. This is both the lazy
      `(.*?)(?=stops|$)` and the greedy `((?:(?!stops).)*)` under DOTALL. */
  function FirstStop(s: string, c: nat, stops: seq<Stop>): (k: nat)
    requires c <= |s|
    ensures c <= k <= |s|
    ensures forall i :: c <= i < k ==> !AnyStopAt(s, i, stops)
    ensures k == |s| || AnyStopAt(s, k, stops)
    decreases |s| - c
  {
    if c == |s| || AnyStopAt(s, c, stops) then c else FirstStop(s, c + 1, stops)
  }

  /** Every stop other than `$` needs a newline where it holds. */
  lemma NewlineLed(s: string, k: nat, st: Stop)
    requires k <= |s| && st != LineEndAnchor && st != TextEndAnchor
    requires StopAt(s, k, st)
    ensures k < |s| && s[k] == '\n'
  {
    match st
    case BlankLine => assert s[k..k + 2][0] == s[k];
    case BoldLetter => assert s[k..k + 3][0] == s[k];
    case HashLine => assert s[k..k + 6][0] == s[k];
    case _ =>
  }

  /** Under MULTILINE, a capture that may stop at `$` and otherwise only at
      newline-led alternatives runs exactly to the end of its line. */
  lemma {:induction false} FirstStopIsLineEnd(s: string, c: nat, stops: seq<Stop>)
    requires c <= |s|
    requires LineEndAnchor in stops
    ensures FirstStop(s, c, stops) == LineEnd(s, c)
    decreases |s| - c
  {
    var i :| 0 <= i < |stops| && stops[i] == LineEndAnchor;
    if c < |s| && s[c] == '\n' {
      assert StopAt(s, c, stops[i]);
    } else if c < |s| {
      assert !AnyStopAt(s, c, stops) by {
        forall j | 0 <= j < |stops| ensures !StopAt(s, c, stops[j]) {
          if StopAt(s, c, stops[j]) && stops[j] != LineEndAnchor && stops[j] != TextEndAnchor {
            NewlineLed(s, c, stops[j]);
          }
        }
      }
      FirstStopIsLineEnd(s, c + 1, stops);
    }
  }

  /** A capture with no newline after its start runs to the end of the text,
      whatever its stops. */
  lemma {:induction false} FirstStopNoNewline(s: string, c: nat, stops: seq<Stop>)
    requires c <= |s|
    requires forall i :: c <= i < |s| ==> s[i] != '\n'
    ensures FirstStop(s, c, stops) == |s|
    decreases |s| - c
  {
    if c < |s| {
      assert !AnyStopAt(s, c, stops) by {
        forall j | 0 <= j < |stops| ensures !StopAt(s, c, stops[j]) {
          if StopAt(s, c, stops[j]) && stops[j] != LineEndAnchor && stops[j] != TextEndAnchor {
            NewlineLed(s, c, stops[j]);
          }
        }
      }
      FirstStopNoNewline(s, c + 1, stops);
    }
  }

  /** A run of `n` characters of `cs` followed by one outside `cs` (or the
      end of the text) is exactly what `[cs]*` takes. */
  lemma {:induction false} SkipSetRun(s: string, p: nat, n: nat, cs: set<char>)
    requires p + n <= |s|
    requires forall i :: p <= i < p + n ==> s[i] in cs
    requires p + n == |s| || s[p + n] !in cs
    ensures SkipSet(s, p, cs) == p + n
    decreases n
  {
    if n > 0 {
      SkipSetRun(s, p + 1, n - 1, cs);
    }
  }

  /** The same for `\w+`. */
  lemma {:induction false} WordRunOf(s: string, p: nat, n: nat)
    requires p + n <= |s|
    requires forall i :: p <= i < p + n ==> IsWordChar(s[i])
    requires p + n == |s| || !IsWordChar(s[p + n])
    ensures WordRunEnd(s, p) == p + n
    decreases n
  {
    if n > 0 {
      WordRunOf(s, p + 1, n - 1);
    }
  }

  /** A left-to-right search: the value `m` yields at the first position
      from `p` up to `n` where it yields one. */
  function FirstFrom<T>(m: nat -> Option<T>, p: nat, n: nat): Option<T>
    requires p <= n
    decreases n - p
  {
    if m(p).Some? then m(p) else if p == n then None else FirstFrom(m, p + 1, n)
  }

  /** A search that succeeds stops at a position where `m` yields, and `m`
      yields nowhere before it. */
  lemma {:induction false} FirstFromWitness<T>(m: nat -> Option<T>, p: nat, n: nat) returns (q: nat)
    requires p <= n && FirstFrom(m, p, n).Some?
    ensures p <= q <= n && m(q) == FirstFrom(m, p, n)
    ensures forall k :: p <= k < q ==> m(k).None?
    decreases n - p
  {
    if m(p).Some? {
      q := p;
    } else {
      q := FirstFromWitness(m, p + 1, n);
    }
  }

  /** A position where `m` yields makes the search succeed. */
  lemma {:induction false} FirstFromHit<T>(m: nat -> Option<T>, p: nat, n: nat, q: nat)
    requires p <= q <= n && m(q).Some?
    ensures FirstFrom(m, p, n).Some?
    decreases q - p
  {
    if p < q && m(p).None? {
      FirstFromHit(m, p + 1, n, q);
    }
  }

  /** A search over positions where `m` never yields finds nothing. */
  lemma {:induction false} FirstFromNone<T>(m: nat -> Option<T>, p: nat, n: nat)
    requires p <= n
    requires forall k :: p <= k <= n ==> m(k).None?
    ensures FirstFrom(m, p, n).None?
    decreases n - p
  {
    if p < n {
      FirstFromNone(m, p + 1, n);
    }
  }
}
