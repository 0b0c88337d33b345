/**
 * The Python `str` operations the deployment code relies on, over `seq<char>`:
 * `strip()`, `rstrip(c)`, `split(c)[-1]`, `replace(p, "")`, `in` (substring),
 * `lower()` and the ordering `<` that `sorted` uses on strings.
 */
module Text {

  /** Python's `str.isspace()` for one character: the characters `str.strip()` removes. */
  predicate IsSpace(c: char) {
    || c == ' '
    || ('\t' <= c <= '\r')
    || ('\U{1C}' <= c <= '\U{1F}')
    || c == '\U{85}' || c == '\U{A0}' || c == '\U{1680}'
    || ('\U{2000}' <= c <= '\U{200A}')
    || c == '\U{2028}' || c == '\U{2029}' || c == '\U{202F}' || c == '\U{205F}' || c == '\U{3000}'
  }

  predicate AllSpace(s: string) {
    forall i :: 0 <= i < |s| ==> IsSpace(s[i])
  }

  /** The length of the longest all-whitespace prefix of `s`. */
  function LeadingSpaces(s: string): (k: nat)
    ensures k <= |s| && AllSpace(s[..k])
    ensures k == |s| || !IsSpace(s[k])
  {
    if s != [] && IsSpace(s[0]) then
      var k := 1 + LeadingSpaces(s[1..]);
      assert s[..k] == [s[0]] + s[1..][..k - 1];
      k
    else
      0
  }

  /** `s.lstrip()`: drops the longest all-whitespace prefix. */
  function LStrip(s: string): (r: string)
    ensures |r| <= |s| && r == s[|s| - |r|..]
    ensures r == [] || !IsSpace(r[0])
    ensures AllSpace(s[..|s| - |r|])
  {
    s[LeadingSpaces(s)..]
  }

  /** `s.rstrip()`: drops the longest all-whitespace suffix. */
  function RStrip(s: string): (r: string)
    ensures |r| <= |s| && r == s[..|r|]
    ensures r == [] || !IsSpace(r[|r| - 1])
    ensures AllSpace(s[|r|..])
  {
    if s != [] && IsSpace(s[|s| - 1]) then
      var r := RStrip(s[..|s| - 1]);
      assert s[|r|..] == s[..|s| - 1][|r|..] + [s[|s| - 1]];
      r
    else
      s
  }

  /**
   * `s.strip()`: the part of `s` between its longest all-whitespace prefix and the
   * longest all-whitespace suffix after it, which starts and ends with other characters.
   */
  function Strip(s: string): (r: string)
    ensures LeadingSpaces(s) + |r| <= |s| && r == s[LeadingSpaces(s)..LeadingSpaces(s) + |r|]
    ensures r == [] || (!IsSpace(r[0]) && !IsSpace(r[|r| - 1]))
    ensures AllSpace(s[..LeadingSpaces(s)]) && AllSpace(s[LeadingSpaces(s) + |r|..])
  {
    var k := LeadingSpaces(s);
    var l := LStrip(s);
    var r := RStrip(l);
    assert s[k + |r|..] == l[|r|..];
    r
  }

  lemma {:induction false} LeadingSpacesPadded(lead: string, t: string)
    requires AllSpace(lead)
    requires t == [] || !IsSpace(t[0])
    ensures LeadingSpaces(lead + t) == |lead|
  {
    if lead == [] {
      assert lead + t == t;
    } else {
      assert (lead + t)[1..] == lead[1..] + t;
      LeadingSpacesPadded(lead[1..], t);
    }
  }

  lemma LStripPadded(lead: string, t: string)
    requires AllSpace(lead)
    requires t == [] || !IsSpace(t[0])
    ensures LStrip(lead + t) == t
  {
    LeadingSpacesPadded(lead, t);
    assert (lead + t)[|lead|..] == t;
  }

  lemma {:induction false} RStripPadded(t: string, trail: string)
    requires AllSpace(trail)
    requires t == [] || !IsSpace(t[|t| - 1])
    ensures RStrip(t + trail) == t
  {
    if trail == [] {
      assert t + trail == t;
    } else {
      var s := t + trail;
      assert s[..|s| - 1] == t + trail[..|trail| - 1];
      RStripPadded(t, trail[..|trail| - 1]);
    }
  }

  /** Stripping removes exactly the whitespace around a text that starts and ends with a non-space. */
  lemma StripPadded(lead: string, t: string, trail: string)
    requires AllSpace(lead) && AllSpace(trail)
    requires t != [] && !IsSpace(t[0]) && !IsSpace(t[|t| - 1])
    ensures Strip(lead + t + trail) == t
  {
    assert lead + t + trail == lead + (t + trail);
    LStripPadded(lead, t + trail);
    RStripPadded(t, trail);
  }

  /** `s.rstrip(c)` for a single character `c`. */
  function TrimEnd(s: string, c: char): (r: string)
    ensures |r| <= |s| && r == s[..|r|]
    ensures r == [] || r[|r| - 1] != c
    ensures forall i :: |r| <= i < |s| ==> s[i] == c
  {
    if s != [] && s[|s| - 1] == c then TrimEnd(s[..|s| - 1], c) else s
  }

  /** `s.split(sep)[-1]`: the text after the last `sep`, or all of `s` when there is none. */
  function AfterLast(s: string, sep: char): (r: string)
    ensures |r| <= |s| && r == s[|s| - |r|..]
    ensures sep !in r
    ensures |r| < |s| ==> s[|s| - |r| - 1] == sep
  {
    if s == [] || s[|s| - 1] == sep then [] else AfterLast(s[..|s| - 1], sep) + [s[|s| - 1]]
  }

  /** A text without `sep` is its own last segment. */
  lemma {:induction false} AfterLastWithoutSeparator(s: string, sep: char)
    requires sep !in s
    ensures AfterLast(s, sep) == s
  {
    if s != [] {
      var init, last := s[..|s| - 1], s[|s| - 1];
      assert s == init + [last];
      assert last != sep && sep !in init;
      AfterLastWithoutSeparator(init, sep);
      assert AfterLast(s, sep) == AfterLast(init, sep) + [last];
    }
  }

  lemma TrimEndDropsTrailing(s: string, c: char)
    ensures TrimEnd(s + [c], c) == TrimEnd(s, c)
  {
    assert (s + [c])[..|s|] == s;
  }

  /** The last segment of `prefix + [sep] + name` is `name` when `name` holds no `sep`. */
  lemma {:induction false} AfterLastSegment(prefix: string, sep: char, name: string)
    requires sep !in name
    ensures AfterLast(prefix + [sep] + name, sep) == name
  {
    var s := prefix + [sep] + name;
    if name != [] {
      var init := name[..|name| - 1];
      assert s[..|s| - 1] == prefix + [sep] + init;
      assert sep !in init by {
        assert forall c :: c in init ==> c in name;
      }
      AfterLastSegment(prefix, sep, init);
      assert name == init + [name[|name| - 1]];
    }
  }

  predicate StartsWith(s: string, p: string) {
    |p| <= |s| && s[..|p|] == p
  }

  /** Python's `p in s` on strings. */
  predicate Contains(s: string, p: string)
    decreases |s|
  {
    StartsWith(s, p) || (s != [] && Contains(s[1..], p))
  }

  lemma {:induction false} ContainsInfix(a: string, p: string, b: string)
    ensures Contains(a + p + b, p)
  {
    if a == [] {
      assert (a + p + b)[..|p|] == p;
    } else {
      assert (a + p + b)[1..] == a[1..] + p + b;
      ContainsInfix(a[1..], p, b);
    }
  }

  /** `s.replace(pat, "")`: deletes the occurrences of `pat` found scanning left to right, without overlap. */
  function DeleteAll(s: string, pat: string): (r: string)
    requires pat != []
    ensures |r| <= |s|
    ensures forall c :: c in r ==> c in s
    decreases |s|
  {
    if s == [] then []
    else if StartsWith(s, pat) then DeleteAll(s[|pat|..], pat)
    else [s[0]] + DeleteAll(s[1..], pat)
  }

  /** No occurrence of `pat` starts in `s`. */
  predicate Free(s: string, pat: string) {
    forall i :: 0 <= i < |s| ==> !StartsWith(s[i..], pat)
  }

  lemma {:induction false} DeleteAllFree(s: string, pat: string)
    requires pat != [] && Free(s, pat)
    ensures DeleteAll(s, pat) == s
    decreases |s|
  {
    if s != [] {
      assert !StartsWith(s[0..], pat);
      assert Free(s[1..], pat) by {
        forall i | 0 <= i < |s| - 1
          ensures !StartsWith(s[1..][i..], pat)
        {
          assert s[1..][i..] == s[i + 1..];
        }
      }
      DeleteAllFree(s[1..], pat);
    }
  }

  lemma DeleteAllSkipsHead(c: char, rest: string, pat: string)
    requires pat != [] && !StartsWith([c] + rest, pat)
    ensures DeleteAll([c] + rest, pat) == [c] + DeleteAll(rest, pat)
  {
    assert ([c] + rest)[1..] == rest;
  }

  lemma DeleteAllDropsLeading(pat: string, rest: string)
    requires pat != []
    ensures DeleteAll(pat + rest, pat) == DeleteAll(rest, pat)
  {
    assert (pat + rest)[..|pat|] == pat && (pat + rest)[|pat|..] == rest;
  }

  /** Deleting `pat` from `name + pat` leaves `name`, when no occurrence starts inside `name`. */
  lemma {:induction false} DeleteAllTrailing(name: string, pat: string)
    requires pat != []
    requires forall i :: 0 <= i < |name| ==> !StartsWith((name + pat)[i..], pat)
    ensures DeleteAll(name + pat, pat) == name
    decreases |name|
  {
    var s := name + pat;
    if name == [] {
      assert s == pat && s[..|pat|] == pat;
      assert s[|pat|..] == [];
    } else {
      assert s[0..] == s;
      assert s[1..] == name[1..] + pat;
      forall i | 0 <= i < |name| - 1
        ensures !StartsWith((name[1..] + pat)[i..], pat)
      {
        assert (name[1..] + pat)[i..] == s[i + 1..];
      }
      DeleteAllTrailing(name[1..], pat);
      assert name == [name[0]] + name[1..];
    }
  }

  /**
   * Python's `str.lower()` on one character, for the characters whose lower case is a single
   * ASCII letter: the ASCII capitals and U+212A KELVIN SIGN (lower-cased to 'k').
   * Every other character is returned unchanged.
   */
  function LowerChar(c: char): char {
    if 'A' <= c <= 'Z' then (c as int + 32) as char
    else if c == '\U{212A}' then 'k'
    else c
  }

  function Lower(s: string): (r: string)
    ensures |r| == |s|
    ensures forall i :: 0 <= i < |s| ==> r[i] == LowerChar(s[i])
  {
    seq(|s|, i requires 0 <= i < |s| => LowerChar(s[i]))
  }

  lemma LowerIdempotent(s: string)
    ensures Lower(Lower(s)) == Lower(s)
  {
  }

  /** Python's `a < b` on strings: lexicographic by code point, a proper prefix first. */
  predicate Less(a: string, b: string) {
    b != [] && (a == [] || a[0] < b[0] || (a[0] == b[0] && Less(a[1..], b[1..])))
  }

  lemma {:induction false} LessIrreflexive(a: string)
    ensures !Less(a, a)
  {
    if a != [] {
      LessIrreflexive(a[1..]);
    }
  }

  lemma {:induction false} LessTransitive(a: string, b: string, c: string)
    requires Less(a, b) && Less(b, c)
    ensures Less(a, c)
  {
    if a != [] && a[0] == b[0] && b[0] == c[0] {
      LessTransitive(a[1..], b[1..], c[1..]);
    }
  }

  lemma {:induction false} LessTrichotomy(a: string, b: string)
    ensures a == b || Less(a, b) || Less(b, a)
  {
    if a != [] && b != [] && a[0] == b[0] {
      LessTrichotomy(a[1..], b[1..]);
      if a[1..] == b[1..] {
        assert a == [a[0]] + a[1..] && b == [b[0]] + b[1..];
      }
    }
  }
}
