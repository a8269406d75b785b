/** String operations the agent relies on: ASCII lower-casing (Python's
    `str.lower` restricted to ASCII), substring search (`w in s`), prefix test
    (`str.startswith`), and `sep.join(parts)` with its inverse `s.split(sep)`. */
module Text {

  predicate IsUpper(c: char) {
    'A' <= c <= 'Z'
  }

  function LowerChar(c: char): char {
    if IsUpper(c) then (c as int + 32) as char else c
  }

  /** ASCII lower-casing: every upper-case letter is replaced by its
      lower-case form, every other character is kept, and the length is kept. */
  function Lower(s: string): (r: string)
    ensures |r| == |s|
    ensures forall i :: 0 <= i < |s| ==> r[i] == LowerChar(s[i])
  {
    if s == [] then [] else [LowerChar(s[0])] + Lower(s[1..])
  }

  /** Lower-casing twice is lower-casing once, and no upper-case letter survives. */
  lemma {:induction false} LowerIdempotent(s: string)
    ensures Lower(Lower(s)) == Lower(s)
    ensures forall i :: 0 <= i < |s| ==> !IsUpper(Lower(s)[i])
  {
    var l := Lower(s);
    forall i | 0 <= i < |s|
      ensures Lower(l)[i] == l[i] && !IsUpper(l[i])
    {
      assert l[i] == LowerChar(s[i]);
    }
  }

  /** `w` occurs in `s` starting at index `i`. */
  ghost predicate OccursAt(s: string, w: string, i: int) {
    0 <= i && i + |w| <= |s| && s[i..i + |w|] == w
  }

  lemma OccursShift(s: string, w: string)
    requires |s| > 0
    ensures forall i :: 0 <= i ==> (OccursAt(s[1..], w, i) <==> OccursAt(s, w, i + 1))
  {
    forall i | 0 <= i ensures OccursAt(s[1..], w, i) <==> OccursAt(s, w, i + 1) {
      if 0 <= i && i + |w| <= |s| - 1 {
        assert s[1..][i..i + |w|] == s[i + 1..i + 1 + |w|];
      }
    }
  }

  /** Python's `w in s` on strings: compares `w` with each prefix-aligned
      window of `s` in turn. */
  function Contains(s: string, w: string): bool
    decreases |s|
  {
    if |s| < |w| then false
    else if s[..|w|] == w then true
    else Contains(s[1..], w)
  }

  /** `Contains` finds a word exactly when it occurs somewhere in the text. */
  lemma {:induction false} ContainsIffOccurs(s: string, w: string)
    ensures Contains(s, w) <==> exists i :: OccursAt(s, w, i)
    decreases |s|
  {
    if |s| < |w| {
    } else if s[..|w|] == w {
      assert OccursAt(s, w, 0);
    } else {
      ContainsIffOccurs(s[1..], w);
      OccursShift(s, w);
      assert !OccursAt(s, w, 0);
      assert forall i :: OccursAt(s, w, i) ==> i >= 1 && OccursAt(s[1..], w, i - 1);
    }
  }

  /** A word occurs in the lower-cased text as soon as it occurs verbatim and
      has no upper-case letter: lower-casing never destroys a lower-case match. */
  lemma ContainsLower(s: string, w: string, i: int)
    requires OccursAt(s, w, i)
    requires forall k :: 0 <= k < |w| ==> !IsUpper(w[k])
    ensures Contains(Lower(s), w)
  {
    var l := Lower(s);
    assert l[i..i + |w|] == w by {
      forall k | 0 <= k < |w| ensures l[i..i + |w|][k] == w[k] {
        assert s[i + k] == w[k];
      }
    }
    assert OccursAt(l, w, i);
    ContainsIffOccurs(l, w);
  }

  lemma OccursBetween(a: string, w: string, b: string)
    ensures OccursAt(a + w + b, w, |a|)
  {
    assert (a + w + b)[|a|..|a| + |w|] == w;
  }

  /** A word with a character that the text lacks is not in the text. */
  lemma CharAbsent(s: string, w: string, k: int)
    requires 0 <= k < |w| && w[k] !in s
    ensures !Contains(s, w)
  {
    forall i ensures !OccursAt(s, w, i) {
      if 0 <= i && i + |w| <= |s| {
        assert s[i..i + |w|][k] == s[i + k];
      }
    }
    ContainsIffOccurs(s, w);
  }

  /** A word with a lower-case letter that the text lacks in both cases is
      not in the lower-cased text. */
  lemma CharAbsentLower(s: string, w: string, k: int)
    requires 0 <= k < |w| && 'a' <= w[k] <= 'z'
    requires w[k] !in s && (w[k] as int - 32) as char !in s
    ensures !Contains(Lower(s), w)
  {
    forall i | 0 <= i < |s| ensures Lower(s)[i] != w[k] {
      assert s[i] != w[k] && s[i] != (w[k] as int - 32) as char;
    }
    CharAbsent(Lower(s), w, k);
  }

  /** A word without the character `c` is in `a + [c] + b` only if it is in
      `a` or in `b`: no occurrence can straddle `c`. */
  lemma NotContainsAcross(a: string, c: char, b: string, w: string)
    requires c !in w
    requires !Contains(a, w) && !Contains(b, w)
    ensures !Contains(a + [c] + b, w)
  {
    var s := a + [c] + b;
    ContainsIffOccurs(a, w);
    ContainsIffOccurs(b, w);
    forall i ensures !OccursAt(s, w, i) {
      if 0 <= i && i + |w| <= |a| {
        assert s[i..i + |w|] == a[i..i + |w|];
        assert !OccursAt(a, w, i);
      } else if |a| < i && i + |w| <= |s| {
        var j := i - |a| - 1;
        assert s[i..i + |w|] == b[j..j + |w|];
        assert !OccursAt(b, w, j);
      } else if 0 <= i && i + |w| <= |s| {
        assert s[i..i + |w|][|a| - i] == c && w[|a| - i] != c;
      }
    }
    ContainsIffOccurs(s, w);
  }

  /** Lower-casing works character by character, so it distributes over `+`. */
  lemma LowerConcat(a: string, b: string)
    ensures Lower(a + b) == Lower(a) + Lower(b)
  {
  }

  /** The same for the lower-cased text: a word without the lower-cased
      separator is in the lower-cased `a + [c] + b` only if it is in the
      lower-cased `a` or `b`. */
  lemma LowerNotContainsAcross(a: string, c: char, b: string, w: string)
    requires !IsUpper(c) && c !in w
    requires !Contains(Lower(a), w) && !Contains(Lower(b), w)
    ensures !Contains(Lower(a + [c] + b), w)
  {
    LowerConcat(a + [c], b);
    LowerConcat(a, [c]);
    assert Lower([c]) == [c];
    NotContainsAcross(Lower(a), c, Lower(b), w);
  }

  /** Python's `s.startswith(p)`. */
  predicate StartsWith(s: string, p: string) {
    |p| <= |s| && s[..|p|] == p
  }

  lemma StartsWithConcat(p: string, rest: string)
    ensures StartsWith(p + rest, p)
  {
    assert (p + rest)[..|p|] == p;
  }

  /** A text that starts with `head` and ends with `tail` is `head`, the
      part between them, and `tail`. */
  lemma Recompose(s: string, head: string, tail: string)
    requires |head| + |tail| <= |s|
    requires s[..|head|] == head && s[|s| - |tail|..] == tail
    ensures s == head + s[|head|..|s| - |tail|] + tail
  {
    assert s == s[..|head|] + s[|head|..|s| - |tail|] + s[|s| - |tail|..];
  }

  /** Python's `sep.join(parts)`. */
  function Join(parts: seq<string>, sep: string): string {
    if |parts| == 0 then ""
    else if |parts| == 1 then parts[0]
    else parts[0] + sep + Join(parts[1..], sep)
  }

  /** Python's `s.split(sep)` for a one-character separator: the pieces
      between separators, one more piece than there are separators. */
  function Split(s: string, sep: char): (parts: seq<string>)
    ensures |parts| >= 1
  {
    if s == [] then [""]
    else
      var rest := Split(s[1..], sep);
      if s[0] == sep then [""] + rest else [[s[0]] + rest[0]] + rest[1..]
  }

  lemma {:induction false} SplitNoSeparator(a: string, sep: char)
    requires sep !in a
    ensures Split(a, sep) == [a]
  {
    if a != [] {
      SplitNoSeparator(a[1..], sep);
      assert [a[0]] + a[1..] == a;
    }
  }

  lemma {:induction false} SplitAtSeparator(a: string, b: string, sep: char)
    requires sep !in a
    ensures Split(a + [sep] + b, sep) == [a] + Split(b, sep)
  {
    if a == [] {
      assert a + [sep] + b == [sep] + b;
      assert ([sep] + b)[1..] == b;
    } else {
      SplitAtSeparator(a[1..], b, sep);
      assert (a + [sep] + b)[1..] == a[1..] + [sep] + b;
      assert [a[0]] + a[1..] == a;
    }
  }

  /** Splitting a joined list gives the list back, provided no part holds
      the separator. */
  lemma {:induction false} SplitJoin(parts: seq<string>, sep: char)
    requires |parts| >= 1
    requires forall k :: 0 <= k < |parts| ==> sep !in parts[k]
    ensures Split(Join(parts, [sep]), sep) == parts
  {
    if |parts| == 1 {
      SplitNoSeparator(parts[0], sep);
    } else {
      SplitJoin(parts[1..], sep);
      SplitAtSeparator(parts[0], Join(parts[1..], [sep]), sep);
      assert parts[0] + [sep] + Join(parts[1..], [sep]) == Join(parts, [sep]);
      assert [parts[0]] + parts[1..] == parts;
    }
  }

  /** Joining the pieces of a split gives the string back. */
  lemma {:induction false} JoinSplit(s: string, sep: char)
    ensures Join(Split(s, sep), [sep]) == s
  {
    if s != [] {
      var rest := Split(s[1..], sep);
      JoinSplit(s[1..], sep);
      if s[0] == sep {
        assert ([""] + rest)[1..] == rest;
        assert s == [sep] + s[1..];
      } else if |rest| == 1 {
        assert s == [s[0]] + s[1..];
      } else {
        var parts := [[s[0]] + rest[0]] + rest[1..];
        assert parts[1..] == rest[1..];
        assert s == [s[0]] + s[1..];
      }
    }
  }
}
