/** String operations of the Rust standard library that the modelled code relies on:
  * `str::contains`, `str::replace`, `str::split`, `str::split_whitespace`,
  * ASCII lowercasing, `[..].join`, and decimal formatting and parsing of numbers.
  * Strings are sequences of Unicode scalar values (`char`). */
module Strings {

  // ---------------------------------------------------------------- prefixes and substrings

  predicate StartsWith(s: string, p: string) {
    |p| <= |s| && s[..|p|] == p
  }

  predicate EndsWith(s: string, t: string) {
    |t| <= |s| && s[|s| - |t|..] == t
  }

  /** `s.contains(sub)`: `sub` occurs in `s` at some position (the empty string occurs everywhere). */
  predicate Contains(s: string, sub: string)
    decreases |s|
  {
    if |s| < |sub| then false
    else StartsWith(s, sub) || (|s| > 0 && Contains(s[1..], sub))
  }

  /** The recursive `Contains` means "occurs at some index". */
  lemma {:induction false} ContainsAt(s: string, sub: string, i: nat)
    requires i + |sub| <= |s| && s[i..i + |sub|] == sub
    ensures Contains(s, sub)
    decreases i
  {
    if i == 0 {
      assert StartsWith(s, sub);
    } else {
      assert s[1..][i - 1..i - 1 + |sub|] == s[i..i + |sub|];
      ContainsAt(s[1..], sub, i - 1);
    }
  }

  lemma {:induction false} ContainsWitness(s: string, sub: string) returns (i: nat)
    requires Contains(s, sub)
    ensures i + |sub| <= |s| && s[i..i + |sub|] == sub
    decreases |s|
  {
    if StartsWith(s, sub) {
      i := 0;
    } else {
      var j := ContainsWitness(s[1..], sub);
      assert s[1..][j..j + |sub|] == s[j + 1..j + 1 + |sub|];
      i := j + 1;
    }
  }

  /** `sub` occurs in `s` starting at index `i`. */
  predicate OccursAt(s: string, sub: string, i: int) {
    0 <= i && i + |sub| <= |s| && s[i..i + |sub|] == sub
  }

  /** Some word of `words` is contained in `s` exactly when one occurs at some index of `s`. */
  lemma SomeContainedIffOccurs(s: string, words: set<string>)
    ensures (exists w :: w in words && Contains(s, w)) <==> exists w, i :: w in words && OccursAt(s, w, i)
  {
    forall w | w in words && Contains(s, w) ensures exists i :: OccursAt(s, w, i) {
      var i := ContainsWitness(s, w);
      assert OccursAt(s, w, i);
    }
    forall w, i | w in words && OccursAt(s, w, i) ensures Contains(s, w) {
      ContainsAt(s, w, i);
    }
  }

  /** A text that lacks the first character of `sub` does not contain `sub`. */
  lemma AbsentFirstChar(s: string, sub: string)
    requires |sub| > 0 && sub[0] !in s
    ensures !Contains(s, sub)
  {
    if Contains(s, sub) {
      var i := ContainsWitness(s, sub);
    }
  }

  /** A string contains itself, and a string contains any text it starts with. */
  lemma ContainsPrefix(s: string, p: string)
    requires StartsWith(s, p)
    ensures Contains(s, p)
  {
    ContainsAt(s, p, 0);
  }

  /** An occurrence in either part is an occurrence in the concatenation. */
  lemma ContainsConcat(a: string, b: string, sub: string)
    requires Contains(a, sub) || Contains(b, sub)
    ensures Contains(a + b, sub)
  {
    if Contains(a, sub) {
      var i := ContainsWitness(a, sub);
      assert (a + b)[i..i + |sub|] == a[i..i + |sub|];
      ContainsAt(a + b, sub, i);
    } else {
      var i := ContainsWitness(b, sub);
      assert (a + b)[|a| + i..|a| + i + |sub|] == b[i..i + |sub|];
      ContainsAt(a + b, sub, |a| + i);
    }
  }

  /** What occurs in an occurrence occurs in the whole text. */
  lemma ContainsTransitive(s: string, mid: string, sub: string)
    requires Contains(s, mid) && Contains(mid, sub)
    ensures Contains(s, sub)
  {
    var i := ContainsWitness(s, mid);
    var j := ContainsWitness(mid, sub);
    forall m | 0 <= m < |sub|
      ensures s[i + j + m] == sub[m]
    {
      assert sub[m] == mid[j..j + |sub|][m] == mid[j + m];
      assert mid[j + m] == s[i..i + |mid|][j + m];
    }
    assert s[i + j..i + j + |sub|] == sub;
    ContainsAt(s, sub, i + j);
  }

  /** A concatenation starts with its first part and ends with its last. */
  lemma ConcatAffixes(a: string, b: string)
    ensures StartsWith(a + b, a) && EndsWith(a + b, b)
  {
    assert (a + b)[..|a|] == a;
    assert (a + b)[|a + b| - |b|..] == b;
  }

  /** A text that starts with `p` still does once something is appended. */
  lemma StartsWithExtended(s: string, t: string, p: string)
    requires StartsWith(s, p)
    ensures StartsWith(s + t, p)
  {
    assert (s + t)[..|p|] == s[..|p|];
  }

  /** An occurrence inside `b` is an occurrence inside `a + b + c`. */
  lemma ContainsInfix(a: string, b: string, c: string, sub: string)
    requires Contains(b, sub)
    ensures Contains(a + b + c, sub)
  {
    var i := ContainsWitness(b, sub);
    assert (a + b + c)[|a| + i..|a| + i + |sub|] == b[i..i + |sub|];
    ContainsAt(a + b + c, sub, |a| + i);
  }

  // ---------------------------------------------------------------- case

  /** ASCII lowercasing of one character; every other character is kept. */
  function LowerChar(c: char): (l: char)
    ensures 'A' <= c <= 'Z' ==> l == (c as int + 32) as char
    ensures !('A' <= c <= 'Z') ==> l == c
    ensures !('A' <= l <= 'Z')
  {
    if 'A' <= c <= 'Z' then (c as int + 32) as char else c
  }

  /** `s.to_lowercase()` restricted to ASCII letters. */
  function Lower(s: string): (l: string)
    ensures |l| == |s|
    ensures forall i :: 0 <= i < |s| ==> l[i] == LowerChar(s[i])
  {
    seq(|s|, i requires 0 <= i < |s| => LowerChar(s[i]))
  }

  /** Lowercasing twice is lowercasing once, and text without ASCII capitals is its own lowercase. */
  lemma LowerIdempotent(s: string)
    ensures Lower(Lower(s)) == Lower(s)
  {
  }

  predicate NoUpper(s: string) {
    forall i :: 0 <= i < |s| ==> !('A' <= s[i] <= 'Z')
  }

  lemma LowerOfNoUpper(s: string)
    requires NoUpper(s)
    ensures Lower(s) == s
  {
  }

  // ---------------------------------------------------------------- replace

  /** `s.replace(p, r)`: every leftmost, non-overlapping occurrence of `p` is replaced by `r`. */
  function ReplaceAll(s: string, p: string, r: string): string
    requires |p| > 0
    decreases |s|
  {
    if |s| < |p| then s
    else if s[..|p|] == p then r + ReplaceAll(s[|p|..], p, r)
    else [s[0]] + ReplaceAll(s[1..], p, r)
  }

  /** Text without the pattern is returned unchanged. */
  lemma {:induction false} ReplaceAllAbsent(s: string, p: string, r: string)
    requires |p| > 0 && !Contains(s, p)
    ensures ReplaceAll(s, p, r) == s
    decreases |s|
  {
    if |s| >= |p| {
      assert !StartsWith(s, p);
      ReplaceAllAbsent(s[1..], p, r);
      assert s == [s[0]] + s[1..];
    }
  }

  /** A leading text without the pattern's first character is copied through. */
  lemma {:induction false} ReplaceAllCopiesPrefix(a: string, s: string, p: string, r: string)
    requires |p| > 0 && p[0] !in a
    ensures ReplaceAll(a + s, p, r) == a + ReplaceAll(s, p, r)
    decreases |a|
  {
    if a != [] {
      var t := a + s;
      assert t[1..] == a[1..] + s;
      assert a + ReplaceAll(s, p, r) == [a[0]] + (a[1..] + ReplaceAll(s, p, r));
      ReplaceAllCopiesPrefix(a[1..], s, p, r);
      if |t| >= |p| {
        assert t[..|p|][0] == a[0];
      } else {
        assert ReplaceAll(s, p, r) == s;
      }
    } else {
      assert a + s == s;
    }
  }

  /** A text that starts with the pattern starts with the replacement afterwards. */
  lemma ReplaceAllAtMatch(s: string, p: string, r: string)
    requires |p| > 0
    ensures ReplaceAll(p + s, p, r) == r + ReplaceAll(s, p, r)
  {
    assert (p + s)[..|p|] == p;
    assert (p + s)[|p|..] == s;
  }

  /** A single occurrence of the pattern, surrounded by text without its first character, is
    * the only thing replaced. */
  lemma ReplaceAllSingle(a: string, b: string, p: string, r: string)
    requires |p| > 0 && p[0] !in a && p[0] !in b
    ensures ReplaceAll(a + p + b, p, r) == a + r + b
  {
    AbsentFirstChar(b, p);
    ReplaceAllAbsent(b, p, r);
    ReplaceAllAtMatch(b, p, r);
    ReplaceAllCopiesPrefix(a, p + b, p, r);
    assert a + p + b == a + (p + b);
    assert a + r + b == a + (r + b);
  }

  /** One of `a`, `b` is a prefix of the other. */
  predicate Compatible(a: string, b: string) {
    if |a| <= |b| then b[..|a|] == a else a[..|b|] == b
  }

  /** No occurrence of the replacement text can begin inside `q`. */
  predicate NoReplacementInside(q: string, r: string) {
    forall j :: 0 <= j < |q| ==> !Compatible(r, q[j..])
  }

  /** No occurrence of `q` can begin inside the replacement text. */
  predicate NoOccurrenceFromReplacement(q: string, r: string) {
    forall j :: 0 <= j < |r| ==> !Compatible(r[j..], q)
  }

  /** Two texts that start the same string are compatible. */
  lemma CompatibleWithPrefix(r: string, rest: string, q: string)
    requires StartsWith(r + rest, q)
    ensures Compatible(r, q[0..])
  {
    assert q[0..] == q;
    if |r| <= |q| {
      assert (r + rest)[..|r|] == r;
    } else {
      assert (r + rest)[..|q|] == r[..|q|];
    }
  }

  /** If the replaced text starts with `q`, and `r` cannot start inside `q`, then the original text
    * started with `q` too and was copied there. */
  lemma {:induction false} PrefixOfReplaced(t: string, p: string, r: string, q: string)
    requires |p| > 0
    requires NoReplacementInside(q, r)
    requires StartsWith(ReplaceAll(t, p, r), q)
    ensures StartsWith(t, q)
    ensures q != [] ==> !StartsWith(t, p)
    decreases |t|
  {
    if q == [] {
    } else if |t| < |p| {
    } else if t[..|p|] == p {
      assert ReplaceAll(t, p, r) == r + ReplaceAll(t[|p|..], p, r);
      CompatibleWithPrefix(r, ReplaceAll(t[|p|..], p, r), q);
      assert false;
    } else {
      var rest := ReplaceAll(t[1..], p, r);
      assert ReplaceAll(t, p, r) == [t[0]] + rest;
      var q' := q[1..];
      forall j | 0 <= j < |q'|
        ensures !Compatible(r, q'[j..])
      {
        assert q'[j..] == q[j + 1..];
      }
      assert StartsWith(rest, q') by {
        assert rest[..|q'|] == ([t[0]] + rest)[1..|q|];
      }
      PrefixOfReplaced(t[1..], p, r, q');
      assert q == [t[0]] + q';
      assert t[..|q|] == [t[0]] + t[1..][..|q'|];
    }
  }

  /** An occurrence of `q` in `a + rest` that starts inside `a` makes `a`'s tail compatible with `q`. */
  lemma OccurrenceInHead(a: string, rest: string, q: string, i: nat)
    requires i < |a| && i + |q| <= |a + rest| && (a + rest)[i..i + |q|] == q
    ensures Compatible(a[i..], q)
  {
    var out := a + rest;
    if |a| - i <= |q| {
      assert out[i..|a|] == a[i..];
      assert q[..|a[i..]|] == out[i..|a|];
    } else {
      assert a[i..][..|q|] == out[i..i + |q|];
    }
  }

  /** An occurrence of `q` in `a + rest` that starts after `a` is an occurrence in `rest`. */
  lemma OccurrenceInTail(a: string, rest: string, q: string, i: nat)
    requires |a| <= i && i + |q| <= |a + rest| && (a + rest)[i..i + |q|] == q
    ensures Contains(rest, q)
  {
    assert rest[i - |a|..i - |a| + |q|] == (a + rest)[i..i + |q|];
    ContainsAt(rest, q, i - |a|);
  }

  /** Text absent from `t` is absent from every suffix of `t`. */
  lemma AbsentFromSuffix(t: string, k: nat, q: string)
    requires k <= |t| && !Contains(t, q)
    ensures !Contains(t[k..], q)
  {
    if Contains(t[k..], q) {
      var j := ContainsWitness(t[k..], q);
      assert t[k..][j..j + |q|] == t[k + j..k + j + |q|];
      ContainsAt(t, q, k + j);
    }
  }

  /** Occurrences of `q` after replacement: none arise from the replacement text, and none arise
    * at a copied position unless `q` occurred in the original text. When `q` is the pattern
    * itself, it therefore never survives `ReplaceAll`. */
  lemma {:induction false} NoOccurrenceAfterReplace(t: string, p: string, r: string, q: string)
    requires |p| > 0 && |q| > 0
    requires NoReplacementInside(q, r)
    requires NoOccurrenceFromReplacement(q, r)
    requires q == p || !Contains(t, q)
    ensures !Contains(ReplaceAll(t, p, r), q)
    decreases |t|
  {
    var out := ReplaceAll(t, p, r);
    if Contains(out, q) {
      var i := ContainsWitness(out, q);
      if |t| < |p| {
        // here out == t, which has no occurrence of q
      } else if t[..|p|] == p {
        var rest := ReplaceAll(t[|p|..], p, r);
        assert out == r + rest;
        if i < |r| {
          OccurrenceInHead(r, rest, q, i);
        } else {
          OccurrenceInTail(r, rest, q, i);
          if q != p {
            AbsentFromSuffix(t, |p|, q);
          }
          NoOccurrenceAfterReplace(t[|p|..], p, r, q);
        }
      } else {
        var rest := ReplaceAll(t[1..], p, r);
        assert out == [t[0]] + rest;
        if i == 0 {
          PrefixOfReplaced(t, p, r, q);
          if q != p {
            ContainsPrefix(t, q);
          }
        } else {
          OccurrenceInTail([t[0]], rest, q, i);
          if q != p {
            AbsentFromSuffix(t, 1, q);
          }
          NoOccurrenceAfterReplace(t[1..], p, r, q);
        }
      }
    }
  }

  // ---------------------------------------------------------------- split and join

  /** `s.split(c)` on a character separator: always at least one (possibly empty) field. */
  function Split(s: string, c: char): (fields: seq<string>)
    ensures |fields| >= 1
    ensures forall k :: 0 <= k < |fields| ==> c !in fields[k]
    decreases |s|
  {
    if s == [] then [[]]
    else
      var rest := Split(s[1..], c);
      if s[0] == c then [[]] + rest
      else [[s[0]] + rest[0]] + rest[1..]
  }

  /** `fields.join(sep)`. */
  function Join(fields: seq<string>, sep: string): string
    decreases |fields|
  {
    if |fields| == 0 then []
    else if |fields| == 1 then fields[0]
    else fields[0] + sep + Join(fields[1..], sep)
  }

  /** Each field occurs in the joined text. */
  lemma {:induction false} JoinContainsField(fields: seq<string>, sep: string, k: nat)
    requires k < |fields|
    ensures Contains(Join(fields, sep), fields[k])
    decreases |fields|
  {
    if |fields| == 1 {
      ContainsPrefix(fields[0], fields[0]);
    } else if k == 0 {
      assert Join(fields, sep) == fields[0] + (sep + Join(fields[1..], sep));
      ConcatAffixes(fields[0], sep + Join(fields[1..], sep));
      ContainsPrefix(Join(fields, sep), fields[0]);
    } else {
      JoinContainsField(fields[1..], sep, k - 1);
      ContainsConcat(fields[0] + sep, Join(fields[1..], sep), fields[k]);
    }
  }

  /** Every field occurs in the joined text, which is therefore empty only when the fields
    * are all empty. */
  lemma JoinContainsFields(fields: seq<string>, sep: string)
    ensures forall k :: 0 <= k < |fields| ==> Contains(Join(fields, sep), fields[k])
  {
    forall k | 0 <= k < |fields| ensures Contains(Join(fields, sep), fields[k]) {
      JoinContainsField(fields, sep, k);
    }
  }

  /** Joining the fields of a split with the separator gives back the original text. */
  lemma {:induction false} JoinSplit(s: string, c: char)
    ensures Join(Split(s, c), [c]) == s
    decreases |s|
  {
    if s != [] {
      var rest := Split(s[1..], c);
      JoinSplit(s[1..], c);
      if s[0] == c {
        assert Split(s, c) == [[]] + rest;
        assert Join([[]] + rest, [c]) == [] + [c] + Join(rest, [c]);
      } else {
        var fs := [[s[0]] + rest[0]] + rest[1..];
        assert Split(s, c) == fs;
        if |rest| == 1 {
          assert Join(fs, [c]) == [s[0]] + rest[0];
        } else {
          assert fs[1..] == rest[1..];
          assert Join(fs, [c]) == [s[0]] + rest[0] + [c] + Join(rest[1..], [c]);
          assert Join(rest, [c]) == rest[0] + [c] + Join(rest[1..], [c]);
        }
      }
    }
  }

  /** Splitting `x + [c] + y` where `x` has no `c` puts `x` first. */
  lemma {:induction false} SplitAtFirst(x: string, y: string, c: char)
    requires c !in x
    ensures Split(x + [c] + y, c) == [x] + Split(y, c)
    decreases |x|
  {
    if x == [] {
      assert x + [c] + y == [c] + y;
      assert ([c] + y)[1..] == y;
    } else {
      var t := x + [c] + y;
      assert t[1..] == x[1..] + [c] + y;
      SplitAtFirst(x[1..], y, c);
      assert t[0] == x[0] && x[0] != c;
      assert [x[0]] + x[1..] == x;
    }
  }

  /** A text that lacks some character of `sub` does not contain `sub`. */
  lemma AbsentChar(s: string, sub: string, j: nat)
    requires j < |sub| && sub[j] !in s
    ensures !Contains(s, sub)
  {
    if Contains(s, sub) {
      var i := ContainsWitness(s, sub);
    }
  }

  /** Under an occurrence of `sub` at `i`, the last character of `sub` sits at `i + |sub| - 1`. */
  lemma LastUnder(s: string, sub: string, i: nat)
    requires 0 < |sub| && i + |sub| <= |s| && s[i..i + |sub|] == sub
    ensures sub[|sub| - 1] in s[|sub| - 1..]
  {
    assert s[|sub| - 1..][i] == s[i..i + |sub|][|sub| - 1];
  }

  /** A text whose tail from position `|sub| - 1` on lacks the last character of `sub` does not
    * contain `sub`. */
  lemma LateLast(s: string, sub: string)
    requires 0 < |sub| <= |s| && sub[|sub| - 1] !in s[|sub| - 1..]
    ensures !Contains(s, sub)
  {
    if Contains(s, sub) {
      var i := ContainsWitness(s, sub);
      LastUnder(s, sub, i);
    }
  }

  /** A text without the separator is a single field. */
  lemma {:induction false} SplitAbsent(s: string, c: char)
    requires c !in s
    ensures Split(s, c) == [s]
    decreases |s|
  {
    if s != [] {
      SplitAbsent(s[1..], c);
      assert [s[0]] + s[1..] == s;
    }
  }

  /** Splitting a join of separator-free fields gives the fields back. */
  lemma {:induction false} SplitJoin(fields: seq<string>, c: char)
    requires |fields| >= 1
    requires forall k :: 0 <= k < |fields| ==> c !in fields[k]
    ensures Split(Join(fields, [c]), c) == fields
    decreases |fields|
  {
    if |fields| == 1 {
      SplitAbsent(fields[0], c);
    } else {
      SplitJoin(fields[1..], c);
      SplitAtFirst(fields[0], Join(fields[1..], [c]), c);
      assert [fields[0]] + fields[1..] == fields;
    }
  }

  // ---------------------------------------------------------------- whitespace

  /** Unicode `White_Space`, as used by `str::split_whitespace`. */
  predicate IsWhitespace(c: char) {
    var n := c as int;
    n == 0x20 || 0x09 <= n <= 0x0D || n == 0x85 || n == 0xA0 || n == 0x1680
    || 0x2000 <= n <= 0x200A || n == 0x2028 || n == 0x2029 || n == 0x202F
    || n == 0x205F || n == 0x3000
  }

  /** The first index from `i` on that holds no whitespace, or `|s|`. */
  function FirstSolid(s: string, i: nat): (k: nat)
    requires i <= |s|
    ensures i <= k <= |s|
    ensures forall m :: i <= m < k ==> IsWhitespace(s[m])
    ensures k < |s| ==> !IsWhitespace(s[k])
    decreases |s| - i
  {
    if i == |s| || !IsWhitespace(s[i]) then i else FirstSolid(s, i + 1)
  }

  /** The end, no lower than `lo`, of `s[..j]` once its trailing whitespace is dropped. */
  function SolidEnd(s: string, lo: nat, j: nat): (k: nat)
    requires lo <= j <= |s|
    ensures lo <= k <= j
    ensures forall m :: k <= m < j ==> IsWhitespace(s[m])
    ensures k > lo ==> !IsWhitespace(s[k - 1])
    decreases j
  {
    if j == lo || !IsWhitespace(s[j - 1]) then j else SolidEnd(s, lo, j - 1)
  }

  /** `str::trim`: `s` without its leading and trailing whitespace. The result is the slice
    * `s[i..j]` that keeps every character from the first to the last non-whitespace one. */
  function Trim(s: string): (t: string)
    ensures exists i, j :: 0 <= i <= j <= |s| && t == s[i..j]
    ensures t == [] <==> forall k :: 0 <= k < |s| ==> IsWhitespace(s[k])
    ensures t != [] ==> !IsWhitespace(t[0]) && !IsWhitespace(t[|t| - 1])
  {
    var i := FirstSolid(s, 0);
    var j := SolidEnd(s, i, |s|);
    assert i < |s| ==> i < j;
    s[i..j]
  }

  /** The longest prefix of `s` without whitespace. */
  function WordPrefix(s: string): (w: string)
    ensures |w| <= |s| && w == s[..|w|]
    ensures forall k :: 0 <= k < |w| ==> !IsWhitespace(w[k])
    ensures |w| < |s| ==> IsWhitespace(s[|w|])
    decreases |s|
  {
    if s == [] || IsWhitespace(s[0]) then [] else [s[0]] + WordPrefix(s[1..])
  }

  /** `s.split_whitespace()`: the maximal non-empty runs of non-whitespace characters, in order. */
  function Words(s: string): (ws: seq<string>)
    ensures forall k :: 0 <= k < |ws| ==> |ws[k]| > 0
    ensures forall k, m :: 0 <= k < |ws| && 0 <= m < |ws[k]| ==> !IsWhitespace(ws[k][m])
    decreases |s|
  {
    if s == [] then []
    else if IsWhitespace(s[0]) then Words(s[1..])
    else
      var w := WordPrefix(s);
      [w] + Words(s[|w|..])
  }

  /** Whatever a suffix of `s` contains, `s` contains. */
  lemma ContainsInSuffix(s: string, j: nat, sub: string)
    requires j <= |s| && Contains(s[j..], sub)
    ensures Contains(s, sub)
  {
    var i := ContainsWitness(s[j..], sub);
    assert s[j..][i..i + |sub|] == s[j + i..j + i + |sub|];
    ContainsAt(s, sub, j + i);
  }

  /** Every word of `s` occurs in `s`. */
  lemma {:induction false} WordsContained(s: string, k: nat)
    requires k < |Words(s)|
    ensures Contains(s, Words(s)[k])
    decreases |s|
  {
    if IsWhitespace(s[0]) {
      WordsContained(s[1..], k);
      ContainsInSuffix(s, 1, Words(s)[k]);
    } else {
      var w := WordPrefix(s);
      if k == 0 {
        ContainsAt(s, w, 0);
      } else {
        WordsContained(s[|w|..], k - 1);
        ContainsInSuffix(s, |w|, Words(s)[k]);
      }
    }
  }

  // ---------------------------------------------------------------- UTF-8 length

  /** Number of bytes the UTF-8 encoding of `c` takes. */
  function Utf8Width(c: char): (n: nat)
    ensures 1 <= n <= 4
  {
    if (c as int) < 0x80 then 1
    else if (c as int) < 0x800 then 2
    else if (c as int) < 0x10000 then 3
    else 4
  }

  /** `s.len()` on a Rust `str`: its length in UTF-8 bytes. */
  function Utf8Len(s: string): (n: nat)
    ensures |s| <= n <= 4 * |s|
    decreases |s|
  {
    if s == [] then 0 else Utf8Width(s[0]) + Utf8Len(s[1..])
  }

  // ---------------------------------------------------------------- decimal numbers

  predicate IsDigit(c: char) {
    '0' <= c <= '9'
  }

  predicate AllDigits(s: string) {
    forall k :: 0 <= k < |s| ==> IsDigit(s[k])
  }

  function DigitValue(c: char): (d: nat)
    requires IsDigit(c)
    ensures d < 10
  {
    c as int - '0' as int
  }

  function DigitChar(d: nat): (c: char)
    requires d < 10
    ensures IsDigit(c) && DigitValue(c) == d
  {
    ('0' as int + d) as char
  }

  /** The value of a string of decimal digits, most significant first. */
  function DigitsValue(s: string): nat
    requires AllDigits(s)
    decreases |s|
  {
    if s == [] then 0 else 10 * DigitsValue(s[..|s| - 1]) + DigitValue(s[|s| - 1])
  }

  /** `format!("{}", n)` for a non-negative integer: no sign and no leading zeros. */
  function NatToString(n: nat): (s: string)
    ensures |s| > 0 && AllDigits(s)
    ensures s[0] == '0' ==> n == 0
    decreases n
  {
    if n < 10 then [DigitChar(n)] else NatToString(n / 10) + [DigitChar(n % 10)]
  }

  /** Parsing back what `NatToString` printed gives the number. */
  lemma {:induction false} NatToStringRoundTrip(n: nat)
    ensures DigitsValue(NatToString(n)) == n
    decreases n
  {
    if n >= 10 {
      var s := NatToString(n);
      NatToStringRoundTrip(n / 10);
      assert s[..|s| - 1] == NatToString(n / 10);
    }
  }

  /** Different numbers print differently. */
  lemma NatToStringInjective(m: nat, n: nat)
    requires NatToString(m) == NatToString(n)
    ensures m == n
  {
    NatToStringRoundTrip(m);
    NatToStringRoundTrip(n);
  }
}
