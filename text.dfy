/** String helpers with Python's meaning: `str.isspace`, `str.strip`,
    `sep.join`, `str.replace`, `str.startswith` and ASCII `str.lower`. */
module Text {

  /** Python's `str.isspace` for one character. */
  predicate IsSpace(c: char) {
    c == ' ' || ('\t' <= c <= '\r') || ('\U{1c}' <= c <= '\U{1f}') ||
    c == '\U{85}' || c == '\U{a0}' || c == '\U{1680}' ||
    ('\U{2000}' <= c <= '\U{200a}') || c == '\U{2028}' || c == '\U{2029}' ||
    c == '\U{202f}' || c == '\U{205f}' || c == '\U{3000}'
  }

  predicate AllSpace(s: string) {
    forall k :: 0 <= k < |s| ==> IsSpace(s[k])
  }

  /** `s.lstrip()`: the longest suffix of `s` that does not start with whitespace. */
  function TrimLeft(s: string): (r: string)
    ensures |r| <= |s| && r == s[|s| - |r|..]
    ensures AllSpace(s[..|s| - |r|])
    ensures r != [] ==> !IsSpace(r[0])
  {
    if s != [] && IsSpace(s[0]) then
      var r := TrimLeft(s[1..]);
      assert s[..|s| - |r|] == [s[0]] + s[1..][..|s| - 1 - |r|];
      r
    else s
  }

  /** `s.rstrip()`: the longest prefix of `s` that does not end with whitespace. */
  function TrimRight(s: string): (r: string)
    ensures |r| <= |s| && r == s[..|r|]
    ensures AllSpace(s[|r|..])
    ensures r != [] ==> !IsSpace(r[|r| - 1])
  {
    if s != [] && IsSpace(s[|s| - 1]) then
      var r := TrimRight(s[..|s| - 1]);
      assert s[|r|..] == s[..|s| - 1][|r|..] + [s[|s| - 1]];
      r
    else s
  }

  /** How many whitespace characters `s` starts with. */
  function Leading(s: string): (n: nat)
    ensures n <= |s| && AllSpace(s[..n])
    ensures n < |s| ==> !IsSpace(s[n])
  {
    if s != [] && IsSpace(s[0]) then
      var n := 1 + Leading(s[1..]);
      assert s[..n] == [s[0]] + s[1..][..n - 1];
      n
    else 0
  }

  /** `lstrip` drops exactly the leading whitespace. */
  lemma {:induction false} TrimLeftLeading(s: string)
    ensures TrimLeft(s) == s[Leading(s)..]
  {
    if s != [] && IsSpace(s[0]) {
      TrimLeftLeading(s[1..]);
    }
  }

  /** `r` is the slice of `s` starting at `i`, with only whitespace after it. */
  predicate SliceAt(s: string, i: nat, r: string) {
    i + |r| <= |s| && r == s[i..i + |r|] && AllSpace(s[i + |r|..])
  }

  /** `r` is the slice of `s` after its `Leading(s)` whitespace characters,
      with only whitespace after it. */
  predicate TrimmedOf(s: string, r: string) {
    SliceAt(s, Leading(s), r)
  }

  /** `s.strip()`: what is left of `s` once the whitespace at both ends is removed. */
  function Strip(s: string): (r: string)
    ensures |r| <= |s| && TrimmedOf(s, r)
    ensures r != [] ==> !IsSpace(r[0]) && !IsSpace(r[|r| - 1])
  {
    TrimBoth(s);
    TrimRight(TrimLeft(s))
  }

  /** Trimming both ends leaves the slice after the leading whitespace. */
  lemma TrimBoth(s: string)
    ensures TrimmedOf(s, TrimRight(TrimLeft(s)))
  {
    var i := Leading(s);
    assert TrimLeft(s) == s[i..] by { TrimLeftLeading(s); }
    TrimRightOfSuffix(s, i);
  }

  /** `rstrip` of a suffix of `s` is a slice of `s` followed by whitespace only. */
  lemma TrimRightOfSuffix(s: string, i: nat)
    requires i <= |s|
    ensures SliceAt(s, i, TrimRight(s[i..]))
  {
    var l := s[i..];
    var r := TrimRight(l);
    SuffixSlices(s, i, |r|);
    assert l[|r|..] == s[i + |r|..];
  }

  /** Slices of a suffix are slices of the whole. */
  lemma SuffixSlices(s: string, i: nat, m: nat)
    requires i + m <= |s|
    ensures s[i..][..m] == s[i..i + m] && s[i..][m..] == s[i + m..]
  {
  }

  /** Every character of `s.strip()` comes from `s`. */
  lemma StripIsSlice(s: string)
    ensures forall c :: c in Strip(s) ==> c in s
  {
    var r, i := Strip(s), Leading(s);
    assert SliceAt(s, i, r);
    SliceMembers(s, i, r);
  }

  /** Every character of a slice of `s` is a character of `s`. */
  lemma SliceMembers(s: string, i: nat, r: string)
    requires SliceAt(s, i, r)
    ensures forall c :: c in r ==> c in s
  {
    forall c | c in r ensures c in s {
      var k :| 0 <= k < |r| && r[k] == c;
      assert s[i + k] == c;
    }
  }

  /** `s.strip()` is empty exactly when `s` is all whitespace. */
  lemma StripEmptyIff(s: string)
    ensures Strip(s) == [] <==> AllSpace(s)
  {
    var l := TrimLeft(s);
    if Strip(s) == [] {
      assert AllSpace(l[0..]);
      assert l == [];
      assert s[..|s| - |l|] == s;
    }
  }

  /** Stripping a stripped string changes nothing. */
  lemma StripIdempotent(s: string)
    ensures Strip(Strip(s)) == Strip(s)
  {
    var r := Strip(s);
    assert TrimLeft(r) == r;
    assert TrimRight(r) == r;
  }

  /** A string with no whitespace at either end is its own strip. */
  lemma StripUnpadded(s: string)
    requires s != [] ==> !IsSpace(s[0]) && !IsSpace(s[|s| - 1])
    ensures Strip(s) == s
  {
  }

  /** A word with one trailing space strips back to the word. */
  lemma StripTrailingSpace(w: string)
    requires w != [] && !IsSpace(w[0]) && !IsSpace(w[|w| - 1])
    ensures Strip(w + " ") == w
  {
    var raw := w + " ";
    assert TrimLeft(raw) == raw;
    assert raw[..|raw| - 1] == w;
    StripUnpadded(w);
  }

  /** `lstrip` removes exactly the leading whitespace `pad`. */
  lemma {:induction false} TrimLeftPadded(pad: string, t: string)
    requires AllSpace(pad) && (t != [] ==> !IsSpace(t[0]))
    ensures TrimLeft(pad + t) == t
  {
    if pad != [] {
      assert (pad + t)[1..] == pad[1..] + t;
      TrimLeftPadded(pad[1..], t);
    }
  }

  /** `rstrip` removes exactly the trailing whitespace `pad`. */
  lemma {:induction false} TrimRightPadded(t: string, pad: string)
    requires AllSpace(pad) && (t != [] ==> !IsSpace(t[|t| - 1]))
    ensures TrimRight(t + pad) == t
  {
    if pad != [] {
      assert (t + pad)[..|t + pad| - 1] == t + pad[..|pad| - 1];
      TrimRightPadded(t, pad[..|pad| - 1]);
    } else {
      assert t + pad == t;
    }
  }

  /** `sep.join(xs)`. */
  function Join(sep: string, xs: seq<string>): (r: string)
    ensures |xs| == 1 ==> r == xs[0]
    ensures xs == [] ==> r == ""
  {
    if xs == [] then ""
    else if |xs| == 1 then xs[0]
    else xs[0] + sep + Join(sep, xs[1..])
  }

  /** Joining with a separator adds the separator between neighbours only. */
  lemma {:induction false} JoinLength(sep: string, xs: seq<string>)
    requires xs != []
    ensures |Join(sep, xs)| == SumLengths(xs) + (|xs| - 1) * |sep|
  {
    if |xs| > 1 {
      JoinLength(sep, xs[1..]);
    }
  }

  function SumLengths(xs: seq<string>): nat {
    if xs == [] then 0 else |xs[0]| + SumLengths(xs[1..])
  }

  /** Appending one more element puts exactly one separator in front of it. */
  lemma {:induction false} JoinSnoc(sep: string, xs: seq<string>, x: string)
    requires xs != []
    ensures Join(sep, xs + [x]) == Join(sep, xs) + sep + x
  {
    if |xs| == 1 {
      assert xs + [x] == [xs[0], x];
    } else {
      assert (xs + [x])[1..] == xs[1..] + [x];
      JoinSnoc(sep, xs[1..], x);
    }
  }

  /** `s.replace(c, "")` for a single character `c`. */
  function RemoveChar(s: string, c: char): (r: string)
    ensures c !in r
    ensures |r| <= |s|
    ensures c !in s ==> r == s
    ensures multiset(r) == multiset(s)[c := 0]
  {
    if s == [] then ""
    else
      assert s == [s[0]] + s[1..];
      if s[0] == c then RemoveChar(s[1..], c)
      else [s[0]] + RemoveChar(s[1..], c)
  }

  /** Removing a character from a concatenation removes it from each part. */
  lemma {:induction false} RemoveCharAppend(a: string, b: string, c: char)
    ensures RemoveChar(a + b, c) == RemoveChar(a, c) + RemoveChar(b, c)
    decreases |a|
  {
    if a == [] {
      assert a + b == b;
    } else {
      assert (a + b)[0] == a[0] && (a + b)[1..] == a[1..] + b;
      RemoveCharAppend(a[1..], b, c);
      if a[0] != c {
        assert [a[0]] + RemoveChar(a[1..], c) + RemoveChar(b, c) == [a[0]] + (RemoveChar(a[1..], c) + RemoveChar(b, c));
      }
    }
  }

  predicate StartsWith(s: string, prefix: string) {
    |prefix| <= |s| && s[..|prefix|] == prefix
  }

  /** `s.replace(pat, "", 1)`: the first occurrence of `pat` removed. */
  function RemoveFirst(s: string, pat: string): (r: string)
    requires pat != []
    ensures StartsWith(s, pat) ==> r == s[|pat|..]
    ensures |r| == |s| || |r| == |s| - |pat|
    decreases |s|
  {
    if |s| < |pat| then s
    else if StartsWith(s, pat) then s[|pat|..]
    else [s[0]] + RemoveFirst(s[1..], pat)
  }

  /** `pat` occurs in `s` at index `i`. */
  predicate OccursAt(s: string, pat: string, i: int) {
    0 <= i && i + |pat| <= |s| && s[i..i + |pat|] == pat
  }

  /** An occurrence after the first character is an occurrence in the rest. */
  lemma OccursShift(s: string, pat: string, i: int)
    requires s != [] && 0 < i
    ensures OccursAt(s, pat, i) <==> OccursAt(s[1..], pat, i - 1)
  {
    if i + |pat| <= |s| {
      assert s[i..i + |pat|] == s[1..][i - 1..i - 1 + |pat|];
    }
  }

  /** `replace(pat, "", 1)` leaves a string in which `pat` does not occur unchanged. */
  lemma {:induction false} RemoveFirstAbsent(s: string, pat: string)
    requires pat != [] && forall i :: !OccursAt(s, pat, i)
    ensures RemoveFirst(s, pat) == s
    decreases |s|
  {
    if |pat| <= |s| {
      assert !OccursAt(s, pat, 0);
      forall i ensures !OccursAt(s[1..], pat, i) {
        if 0 <= i { OccursShift(s, pat, i + 1); }
      }
      RemoveFirstAbsent(s[1..], pat);
      assert [s[0]] + s[1..] == s;
    }
  }

  /** `replace(pat, "", 1)` cuts out the first occurrence of `pat`. */
  lemma {:induction false} RemoveFirstAt(s: string, pat: string, i: nat)
    requires pat != [] && OccursAt(s, pat, i)
    requires forall j :: 0 <= j < i ==> !OccursAt(s, pat, j)
    ensures RemoveFirst(s, pat) == s[..i] + s[i + |pat|..]
  {
    if i > 0 {
      var t := s[1..];
      assert RemoveFirst(s, pat) == [s[0]] + RemoveFirst(t, pat) by {
        assert !OccursAt(s, pat, 0);
      }
      assert RemoveFirst(t, pat) == t[..i - 1] + t[i - 1 + |pat|..] by {
        OccursShift(s, pat, i);
        forall j | 0 <= j < i - 1 ensures !OccursAt(t, pat, j) {
          OccursShift(s, pat, j + 1);
        }
        RemoveFirstAt(t, pat, i - 1);
      }
      assert [s[0]] + t[..i - 1] == s[..i];
      assert t[i - 1 + |pat|..] == s[i + |pat|..];
    }
  }

  /** ASCII lower-casing, as Python's `str.lower` does for ASCII letters. */
  function LowerChar(c: char): char {
    if 'A' <= c <= 'Z' then (c as int + 32) as char else c
  }

  function Lower(s: string): (r: string)
    ensures |r| == |s|
    ensures forall k :: 0 <= k < |s| ==> r[k] == LowerChar(s[k])
  {
    if s == [] then "" else [LowerChar(s[0])] + Lower(s[1..])
  }

  /** What reading a file in text mode (universal newlines) yields: each
      "\r\n" and each lone "\r" becomes "\n". */
  function Universal(t: string): (r: string)
    ensures '\r' !in r
    ensures |r| <= |t|
    decreases |t|
  {
    if t == [] then ""
    else if t[0] == '\r' then "\n" + Universal(if |t| > 1 && t[1] == '\n' then t[2..] else t[1..])
    else [t[0]] + Universal(t[1..])
  }

  /** A "\r\n" pair reads as one "\n". */
  lemma UniversalCrLf(t: string)
    ensures Universal("\r\n" + t) == "\n" + Universal(t)
  {
    assert ("\r\n" + t)[2..] == t;
  }

  /** A "\r" not followed by "\n" reads as "\n". */
  lemma UniversalLoneCr(t: string)
    requires t == [] || t[0] != '\n'
    ensures Universal("\r" + t) == "\n" + Universal(t)
  {
    assert ("\r" + t)[1..] == t;
  }

  /** Any other character reads as itself. */
  lemma UniversalOther(c: char, t: string)
    requires c != '\r'
    ensures Universal([c] + t) == [c] + Universal(t)
  {
    assert ([c] + t)[1..] == t;
  }

  /** Text without carriage returns reads back unchanged. */
  lemma {:induction false} UniversalPlain(t: string)
    requires '\r' !in t
    ensures Universal(t) == t
    decreases |t|
  {
    if t != [] {
      UniversalPlain(t[1..]);
    }
  }

  /** Translating twice is translating once. */
  lemma UniversalIdempotent(t: string)
    ensures Universal(Universal(t)) == Universal(t)
  {
    UniversalPlain(Universal(t));
  }
}
