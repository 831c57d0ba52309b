/**
 * The JavaScript string and array built-ins the recommender calls, stated over
 * `seq<char>`: truthiness, `includes`, `toLowerCase`, `trim` and `Array.prototype.join`.
 * Three more are not called by the recommender: `FirstIndexOf` and `LastIndexOf`
 * describe the span the greedy `/\{[\s\S]*\}/` match covers, and `Split` reads the
 * generated tools section back line by line.
 */
module Text {
  import opened Options

  /** JavaScript truthiness of an optional string: present and not the empty string. */
  predicate Truthy(v: Option<string>)
  {
    v.Some? && v.value != ""
  }

  // ---------------------------------------------------------------------------
  // Substring search: String.prototype.includes
  // ---------------------------------------------------------------------------

  /** Characters `from`, `from + 1`, ... of `k` equal the characters of `s` from index `i + from` on. */
  predicate MatchesFrom(s: string, k: string, i: nat, from: nat)
    decreases |k| - from
  {
    from >= |k| || (i + from < |s| && s[i + from] == k[from] && MatchesFrom(s, k, i, from + 1))
  }

  /** `k` occurs in `s` starting at index `i`. */
  predicate OccursAt(s: string, k: string, i: nat)
  {
    i + |k| <= |s| && MatchesFrom(s, k, i, 0)
  }

  lemma {:induction false} MatchesFromSlice(s: string, k: string, i: nat, from: nat)
    requires i + |k| <= |s| && from <= |k|
    ensures MatchesFrom(s, k, i, from) <==> s[i + from .. i + |k|] == k[from..]
    decreases |k| - from
  {
    if from < |k| {
      MatchesFromSlice(s, k, i, from + 1);
      assert s[i + from .. i + |k|] == [s[i + from]] + s[i + from + 1 .. i + |k|];
      assert k[from..] == [k[from]] + k[from + 1..];
    }
  }

  /** An occurrence is exactly a slice of `s` equal to `k`. */
  lemma OccursAtSlice(s: string, k: string, i: nat)
    ensures OccursAt(s, k, i) <==> i + |k| <= |s| && s[i .. i + |k|] == k
  {
    if i + |k| <= |s| {
      MatchesFromSlice(s, k, i, 0);
    }
  }

  /** Inside an occurrence, the text has the found string's characters. */
  lemma OccursAtIndex(s: string, k: string, i: nat, n: nat)
    requires OccursAt(s, k, i) && n < |k|
    ensures s[i + n] == k[n]
  {
    OccursAtSlice(s, k, i);
    assert s[i .. i + |k|][n] == s[i + n];
  }

  /** The left-to-right scan behind `includes`: some occurrence starts at `i` or later. */
  function IncludesFrom(s: string, k: string, i: nat): (r: bool)
    ensures r <==> exists j: nat :: i <= j && OccursAt(s, k, j)
    decreases |s| - i
  {
    i + |k| <= |s| && (OccursAt(s, k, i) || IncludesFrom(s, k, i + 1))
  }

  /** JavaScript's `s.includes(k)`: raw substring containment, not word matching. */
  function Includes(s: string, k: string): (r: bool)
    ensures r <==> exists i: nat :: OccursAt(s, k, i)
  {
    IncludesFrom(s, k, 0)
  }

  /** A string placed between any two strings is found. */
  lemma IncludesInfix(a: string, k: string, b: string)
    ensures Includes(a + k + b, k)
  {
    OccursAtSlice(a + k + b, k, |a|);
    assert (a + k + b)[|a| .. |a| + |k|] == k;
  }

  /** A slice of a string is found in every longer slice around it. */
  lemma IncludesSubslice(s: string, a: nat, b: nat, c: nat, d: nat)
    requires a <= b <= c <= d <= |s|
    ensures Includes(s[a..d], s[b..c])
  {
    assert s[a..d] == s[a..b] + s[b..c] + s[c..d];
    IncludesInfix(s[a..b], s[b..c], s[c..d]);
  }

  /** Containment is transitive: a keyword found inside a found word is found in the text. */
  lemma IncludesTransitive(s: string, w: string, k: string)
    requires Includes(s, w) && Includes(w, k)
    ensures Includes(s, k)
  {
    var i: nat :| OccursAt(s, w, i);
    var j: nat :| OccursAt(w, k, j);
    OccursAtSlice(s, w, i);
    OccursAtSlice(w, k, j);
    assert i + j + |k| <= |s|;
    forall n | 0 <= n < |k|
      ensures s[i + j + n] == k[n]
    {
      assert k[n] == w[j .. j + |k|][n] == w[j + n];
      assert w[j + n] == s[i .. i + |w|][j + n];
    }
    assert s[i + j .. i + j + |k|] == k;
    OccursAtSlice(s, k, i + j);
  }

  /** Every character of a found string occurs in the text. */
  lemma IncludesChar(s: string, k: string, n: nat)
    requires Includes(s, k) && n < |k|
    ensures k[n] in s
  {
    var i: nat :| OccursAt(s, k, i);
    OccursAtSlice(s, k, i);
    assert s[i + n] == s[i .. i + |k|][n];
  }

  /** A string without spaces is found in two space-separated parts only inside one of them. */
  lemma IncludesAcrossSpace(a: string, b: string, k: string)
    requires ' ' !in k
    ensures Includes(a + " " + b, k) <==> Includes(a, k) || Includes(b, k)
  {
    var s := a + " " + b;
    if Includes(s, k) {
      var i: nat :| OccursAt(s, k, i);
      OccursAtSlice(s, k, i);
      if i + |k| <= |a| {
        assert a[i .. i + |k|] == s[i .. i + |k|];
        OccursAtSlice(a, k, i);
      } else if i > |a| {
        var j: nat := i - |a| - 1;
        forall n | 0 <= n < |k|
          ensures b[j + n] == k[n]
        {
          assert k[n] == s[i .. i + |k|][n] == s[i + n];
        }
        assert b[j .. j + |k|] == k;
        OccursAtSlice(b, k, j);
      } else {
        OccursAtIndex(s, k, i, |a| - i);
        assert false;
      }
    }
    if Includes(a, k) {
      var i: nat :| OccursAt(a, k, i);
      OccursAtSlice(a, k, i);
      assert s[i .. i + |k|] == a[i .. i + |k|];
      OccursAtSlice(s, k, i);
    }
    if Includes(b, k) {
      var i: nat :| OccursAt(b, k, i);
      OccursAtSlice(b, k, i);
      assert s[|a| + 1 + i .. |a| + 1 + i + |k|] == b[i .. i + |k|];
      OccursAtSlice(s, k, |a| + 1 + i);
    }
  }

  /** A string without spaces is found in space-joined words exactly when it is found in one word. */
  lemma {:induction false} IncludesWords(words: seq<string>, k: string)
    requires k != "" && ' ' !in k
    ensures Includes(Join(words, " "), k) <==> exists i :: 0 <= i < |words| && Includes(words[i], k)
  {
    if |words| >= 2 {
      IncludesWords(words[1..], k);
      IncludesAcrossSpace(words[0], Join(words[1..], " "), k);
      assert forall i :: 1 <= i < |words| ==> words[i] == words[1..][i - 1];
    }
  }

  // ---------------------------------------------------------------------------
  // Case folding: String.prototype.toLowerCase
  // ---------------------------------------------------------------------------

  /** Lower-case mapping of the ASCII and Latin-1 capitals ('A'..'Z', 'À'..'Þ' except '×'). */
  function LowerChar(c: char): char
  {
    if 'A' <= c <= 'Z' || ('À' <= c <= 'Þ' && c != '×') then (c as int + 32) as char else c
  }

  /** `s.toLowerCase()`, character by character. */
  function Lower(s: string): string
  {
    seq(|s|, i requires 0 <= i < |s| => LowerChar(s[i]))
  }

  /** Lower-casing twice is lower-casing once. */
  lemma LowerIdempotent(s: string)
    ensures Lower(Lower(s)) == Lower(s)
  {
    forall i | 0 <= i < |s|
      ensures Lower(Lower(s))[i] == Lower(s)[i]
    {
      assert LowerChar(LowerChar(s[i])) == LowerChar(s[i]);
    }
  }

  /** Lower-casing works piece by piece. */
  lemma LowerAppend(a: string, b: string)
    ensures Lower(a + b) == Lower(a) + Lower(b)
  {
  }

  /** Equal concatenations around a common prefix and suffix have equal middles. */
  lemma AppendCancel(p: string, x: string, y: string, q: string)
    requires p + x + q == p + y + q
    ensures x == y
  {
    assert |x| == |y|;
    assert x == (p + x + q)[|p| .. |p| + |x|];
  }

  /** Every element lower-cased. */
  function LowerAll(words: seq<string>): seq<string>
  {
    seq(|words|, i requires 0 <= i < |words| => Lower(words[i]))
  }

  /** Lower-casing space-joined words lower-cases each word. */
  lemma {:induction false} LowerJoin(words: seq<string>)
    ensures Lower(Join(words, " ")) == Join(LowerAll(words), " ")
  {
    if |words| >= 2 {
      LowerJoin(words[1..]);
      LowerAppend(words[0] + " ", Join(words[1..], " "));
      LowerAppend(words[0], " ");
      assert Lower(" ") == " ";
      assert LowerAll(words)[1..] == LowerAll(words[1..]);
    }
  }

  // ---------------------------------------------------------------------------
  // Blank test: String.prototype.trim
  // ---------------------------------------------------------------------------

  /** The characters `trim` removes: ECMAScript WhiteSpace and LineTerminator. */
  predicate IsWhiteSpace(c: char)
  {
    || c == '\t' || c == '\n' || c == '\U{000B}' || c == '\U{000C}' || c == '\r' || c == ' '
    || c == '\U{00A0}' || c == '\U{1680}' || ('\U{2000}' <= c <= '\U{200A}')
    || c == '\U{2028}' || c == '\U{2029}' || c == '\U{202F}' || c == '\U{205F}'
    || c == '\U{3000}' || c == '\U{FEFF}'
  }

  /** Drops leading white space. */
  function TrimStart(s: string): string
  {
    if s != [] && IsWhiteSpace(s[0]) then TrimStart(s[1..]) else s
  }

  /** What `TrimStart` leaves: a suffix of `s`, after only white space, not itself starting with white space. */
  lemma {:induction false} TrimStartSpec(s: string)
    ensures |TrimStart(s)| <= |s| && TrimStart(s) == s[|s| - |TrimStart(s)|..]
    ensures forall i :: 0 <= i < |s| - |TrimStart(s)| ==> IsWhiteSpace(s[i])
    ensures TrimStart(s) != [] ==> !IsWhiteSpace(TrimStart(s)[0])
  {
    if s != [] && IsWhiteSpace(s[0]) {
      TrimStartSpec(s[1..]);
      assert forall i :: 1 <= i < |s| ==> s[i] == s[1..][i - 1];
    }
  }

  /** Drops trailing white space. */
  function TrimEnd(s: string): string
  {
    if s != [] && IsWhiteSpace(s[|s| - 1]) then TrimEnd(s[..|s| - 1]) else s
  }

  /** What `TrimEnd` leaves: a prefix of `s`, before only white space, not itself ending with white space. */
  lemma {:induction false} TrimEndSpec(s: string)
    ensures |TrimEnd(s)| <= |s| && TrimEnd(s) == s[..|TrimEnd(s)|]
    ensures forall i :: |TrimEnd(s)| <= i < |s| ==> IsWhiteSpace(s[i])
    ensures TrimEnd(s) != [] ==> !IsWhiteSpace(TrimEnd(s)[|TrimEnd(s)| - 1])
  {
    if s != [] && IsWhiteSpace(s[|s| - 1]) {
      TrimEndSpec(s[..|s| - 1]);
    }
  }

  /** `s.trim()`. */
  function Trim(s: string): string
  {
    TrimEnd(TrimStart(s))
  }

  /** `s.trim()` is empty exactly when every character of `s` is white space. */
  lemma TrimEmptyIffBlank(s: string)
    ensures Trim(s) == "" <==> forall i :: 0 <= i < |s| ==> IsWhiteSpace(s[i])
  {
    var t := TrimStart(s);
    TrimStartSpec(s);
    TrimEndSpec(t);
    if Trim(s) == "" {
      assert t == [];
    }
  }

  // ---------------------------------------------------------------------------
  // Array.prototype.join and String.prototype.split
  // ---------------------------------------------------------------------------

  /** `xs.join(sep)`: the elements in order with `sep` between neighbours. */
  function Join(xs: seq<string>, sep: string): string
  {
    if |xs| == 0 then "" else if |xs| == 1 then xs[0] else xs[0] + sep + Join(xs[1..], sep)
  }

  /** Every element of a join is found in it. */
  lemma {:induction false} JoinHasWord(ws: seq<string>, sep: string, k: nat)
    requires k < |ws|
    ensures Includes(Join(ws, sep), ws[k])
  {
    if |ws| == 1 {
      IncludesInfix("", ws[0], "");
      assert "" + ws[0] + "" == Join(ws, sep);
    } else if k == 0 {
      IncludesInfix("", ws[0], sep + Join(ws[1..], sep));
      assert "" + ws[0] + (sep + Join(ws[1..], sep)) == Join(ws, sep);
    } else {
      JoinHasWord(ws[1..], sep, k - 1);
      IncludesInfix(ws[0] + sep, Join(ws[1..], sep), "");
      assert ws[0] + sep + Join(ws[1..], sep) + "" == Join(ws, sep);
      IncludesTransitive(Join(ws, sep), Join(ws[1..], sep), ws[k]);
    }
  }

  /** With a non-empty separator, a join is empty only for no elements or one empty element. */
  lemma JoinEmpty(xs: seq<string>, sep: string)
    requires sep != ""
    ensures Join(xs, sep) == "" <==> |xs| == 0 || (|xs| == 1 && xs[0] == "")
  {
    if |xs| >= 2 {
      assert |Join(xs, sep)| >= |sep|;
    }
  }

  /** The first index at which `c` occurs in `s`, if any (`s.indexOf(c)`). */
  function FirstIndexOf(s: string, c: char): (r: Option<nat>)
    ensures r.None? <==> c !in s
    ensures r.Some? ==> r.value < |s| && s[r.value] == c && c !in s[..r.value]
  {
    if s == [] then None
    else if s[0] == c then Some(0)
    else match FirstIndexOf(s[1..], c)
      case None => None
      case Some(i) =>
        assert s[..i + 1] == [s[0]] + s[1..][..i];
        Some(i + 1)
  }

  /** The last index at which `c` occurs in `s`, if any (`s.lastIndexOf(c)`). */
  function LastIndexOf(s: string, c: char): (r: Option<nat>)
    ensures r.None? <==> c !in s
    ensures r.Some? ==> r.value < |s| && s[r.value] == c && c !in s[r.value + 1..]
  {
    if s == [] then None
    else if s[|s| - 1] == c then Some(|s| - 1)
    else
      var r := LastIndexOf(s[..|s| - 1], c);
      assert s == s[..|s| - 1] + [s[|s| - 1]];
      if r.Some? then
        assert s[r.value + 1..] == s[..|s| - 1][r.value + 1..] + [s[|s| - 1]];
        r
      else r
  }

  /** `s.split(c)`: the pieces between occurrences of `c`; always at least one piece. */
  function Split(s: string, c: char): (r: seq<string>)
    ensures |r| > 0
    decreases |s|
  {
    match FirstIndexOf(s, c)
    case None => [s]
    case Some(i) => [s[..i]] + Split(s[i + 1..], c)
  }

  /** Splitting a join at its one-character separator gives back the pieces, when no piece holds it. */
  lemma {:induction false} SplitJoin(xs: seq<string>, c: char)
    requires |xs| > 0
    requires forall i :: 0 <= i < |xs| ==> c !in xs[i]
    ensures Split(Join(xs, [c]), c) == xs
  {
    if |xs| == 1 {
    } else {
      var s := Join(xs, [c]);
      var rest := Join(xs[1..], [c]);
      assert s == xs[0] + [c] + rest;
      var f := FirstIndexOf(s, c);
      assert s[|xs[0]|] == c;
      assert s[..|xs[0]|] == xs[0];
      assert f == Some(|xs[0]|);
      assert s[|xs[0]| + 1..] == rest;
      SplitJoin(xs[1..], c);
      assert xs == [xs[0]] + xs[1..];
    }
  }
}
