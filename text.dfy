/**
 * The string built-ins the bot relies on: `str.strip()`, `str.lower()`,
 * `str.upper()`, the substring test `p in s`, `str.replace(c, "")`,
 * `str.isdigit()`, `int(...)` on a digit string, `str(n)` and the BINARY
 * text order SQLite uses for `ORDER BY`.
 */
module Text {

  import opened Wrappers

  /** Whitespace as Python's `str.strip()` and `str.isspace()` see it. */
  predicate IsSpace(c: char) {
    ('\t' <= c <= '\r') || ('\U{001C}' <= c <= ' ') || c == '\U{0085}' || c == '\U{00A0}'
    || c == '\U{1680}' || ('\U{2000}' <= c <= '\U{200A}') || c == '\U{2028}' || c == '\U{2029}'
    || c == '\U{202F}' || c == '\U{205F}' || c == '\U{3000}'
  }

  /** Number of whitespace characters at the start of `s`. */
  function LeadingSpace(s: string): (n: nat)
    ensures n <= |s|
    ensures forall k :: 0 <= k < n ==> IsSpace(s[k])
    ensures n < |s| ==> !IsSpace(s[n])
  {
    if s == [] || !IsSpace(s[0]) then 0 else 1 + LeadingSpace(s[1..])
  }

  /** Length of `s` without its trailing whitespace. */
  function TrailingCut(s: string): (n: nat)
    ensures n <= |s|
    ensures forall k :: n <= k < |s| ==> IsSpace(s[k])
    ensures 0 < n ==> !IsSpace(s[n - 1])
  {
    if s == [] || !IsSpace(s[|s| - 1]) then |s| else TrailingCut(s[..|s| - 1])
  }

  /**
   * `s.strip()`: the infix of `s` that starts at its first non-whitespace
   * character; everything cut away is whitespace and the kept part neither
   * starts nor ends with whitespace.
   */
  function Trim(s: string): (r: string)
    ensures |r| <= |s|
    ensures LeadingSpace(s) + |r| <= |s| && r == s[LeadingSpace(s)..LeadingSpace(s) + |r|]
    ensures forall k :: 0 <= k < |s| && !(LeadingSpace(s) <= k < LeadingSpace(s) + |r|) ==> IsSpace(s[k])
    ensures r != [] ==> !IsSpace(r[0]) && !IsSpace(r[|r| - 1])
  {
    var i := LeadingSpace(s);
    if i == |s| then [] else s[i..TrailingCut(s)]
  }

  /** A string with no whitespace at either end is its own `strip()`. */
  lemma {:induction false} TrimOfUnspaced(s: string)
    requires s != [] ==> !IsSpace(s[0]) && !IsSpace(s[|s| - 1])
    ensures Trim(s) == s
  {
  }

  function LowerChar(c: char): char {
    if 'A' <= c <= 'Z' then (c as int + 32) as char else c
  }

  function UpperChar(c: char): char {
    if 'a' <= c <= 'z' then (c as int - 32) as char else c
  }

  /**
   * `s.lower()` on the ASCII letters: each capital moves 32 code points
   * up to its small letter, every other character is kept, and no
   * capital is left.
   */
  function Lower(s: string): (r: string)
    ensures |r| == |s|
    ensures forall i :: 0 <= i < |s| && 'A' <= s[i] <= 'Z' ==> r[i] as int == s[i] as int + 32
    ensures forall i :: 0 <= i < |s| && !('A' <= s[i] <= 'Z') ==> r[i] == s[i]
    ensures forall i :: 0 <= i < |r| ==> !('A' <= r[i] <= 'Z')
  {
    seq(|s|, i requires 0 <= i < |s| => LowerChar(s[i]))
  }

  /**
   * `s.upper()` on the ASCII letters: each small letter moves 32 code
   * points down to its capital, every other character is kept, and no small
   * letter is left.
   */
  function Upper(s: string): (r: string)
    ensures |r| == |s|
    ensures forall i :: 0 <= i < |s| && 'a' <= s[i] <= 'z' ==> r[i] as int == s[i] as int - 32
    ensures forall i :: 0 <= i < |s| && !('a' <= s[i] <= 'z') ==> r[i] == s[i]
    ensures forall i :: 0 <= i < |r| ==> !('a' <= r[i] <= 'z')
  {
    seq(|s|, i requires 0 <= i < |s| => UpperChar(s[i]))
  }

  /** Lower-casing forgets a previous upper-casing, and the other way round. */
  lemma CaseRoundTrip(s: string)
    ensures Lower(Upper(s)) == Lower(s)
    ensures Upper(Lower(s)) == Upper(s)
  {
  }

  /**
   * For a word of small ASCII letters, the upper-cased text is the word's
   * capitals exactly when the lower-cased text is the word: comparing
   * `t.upper()` with "YA" accepts "ya", "Ya", "yA" and "YA" alike.
   */
  lemma {:induction false} UpperMatchesWord(t: string, w: string)
    requires forall k :: 0 <= k < |w| ==> 'a' <= w[k] <= 'z'
    ensures Upper(t) == Upper(w) <==> Lower(t) == w
  {
    if Upper(t) == Upper(w) {
      forall k | 0 <= k < |w| ensures Lower(t)[k] == w[k] {
        assert Upper(t)[k] == Upper(w)[k];
      }
    }
    if Lower(t) == w {
      forall k | 0 <= k < |w| ensures Upper(t)[k] == Upper(w)[k] {
        assert Lower(t)[k] == w[k];
      }
    }
  }

  predicate StartsWith(s: string, p: string) {
    |p| <= |s| && s[..|p|] == p
  }

  /** `p` occurs in `s` starting at position `i`. */
  predicate OccursAt(s: string, p: string, i: nat) {
    i + |p| <= |s| && s[i..i + |p|] == p
  }

  /** Python's substring test `p in s`: `p` occurs at some position of `s`. */
  predicate Contains(s: string, p: string)
    ensures Contains(s, p) <==> exists i :: OccursAt(s, p, i)
    decreases |s|
  {
    assert s != [] ==> forall j: nat :: OccursAt(s[1..], p, j) <==> OccursAt(s, p, j + 1);
    assert StartsWith(s, p) <==> OccursAt(s, p, 0);
    assert forall i: nat :: OccursAt(s, p, i) && i > 0 ==> OccursAt(s[1..], p, i - 1);
    StartsWith(s, p) || (s != [] && Contains(s[1..], p))
  }

  /** A pattern whose first character appears at no possible starting position does not occur. */
  lemma {:induction false} NotContainsFirst(s: string, p: string)
    requires p != []
    requires forall i :: 0 <= i && i + |p| <= |s| ==> s[i] != p[0]
    ensures !Contains(s, p)
  {
    if |p| <= |s| {
      assert s[..|p|][0] == s[0];
    }
    if s != [] {
      forall i | 0 <= i && i + |p| <= |s[1..]|
        ensures s[1..][i] != p[0]
      {
        assert s[1..][i] == s[i + 1];
      }
      NotContainsFirst(s[1..], p);
    }
  }

  /** Substring occurrences survive lower-casing both sides. */
  lemma ContainsLower(s: string, p: string)
    requires Contains(s, p)
    ensures Contains(Lower(s), Lower(p))
  {
    var i: nat :| OccursAt(s, p, i);
    assert Lower(s)[i..i + |p|] == Lower(p);
    assert OccursAt(Lower(s), Lower(p), i);
  }

  /** Substring occurrences survive upper-casing both sides. */
  lemma ContainsUpper(s: string, p: string)
    requires Contains(s, p)
    ensures Contains(Upper(s), Upper(p))
  {
    var i: nat :| OccursAt(s, p, i);
    assert Upper(s)[i..i + |p|] == Upper(p);
    assert OccursAt(Upper(s), Upper(p), i);
  }

  /**
   * `s.replace(c, "")`: every `c` is gone and every other character keeps
   * its number of occurrences.
   */
  function RemoveChar(s: string, c: char): (r: string)
    ensures |r| <= |s|
    ensures forall k :: 0 <= k < |r| ==> r[k] != c
    ensures forall x :: x in r ==> x in s
    ensures forall x :: x != c ==> multiset(r)[x] == multiset(s)[x]
    ensures (forall k :: 0 <= k < |s| ==> s[k] != c) ==> r == s
  {
    if s == [] then []
    else
      assert s == [s[0]] + s[1..];
      if s[0] == c then RemoveChar(s[1..], c) else [s[0]] + RemoveChar(s[1..], c)
  }

  /** A single character is dropped when it is `c` and kept otherwise. */
  lemma RemoveCharSingle(x: char, c: char)
    ensures RemoveChar([x], c) == if x == c then [] else [x]
  {
  }

  /** Removal works piecewise, so the kept characters stay in their order. */
  lemma {:induction false} RemoveCharConcat(a: string, b: string, c: char)
    ensures RemoveChar(a + b, c) == RemoveChar(a, c) + RemoveChar(b, c)
  {
    if a == [] {
      assert a + b == b;
    } else {
      assert (a + b)[0] == a[0] && (a + b)[1..] == a[1..] + b;
      RemoveCharConcat(a[1..], b, c);
    }
  }

  predicate IsDigitChar(c: char) {
    '0' <= c <= '9'
  }

  /**
   * `s.isdigit()` on ASCII digits: at least one character, and every
   * character a digit. A digit string holds no whitespace and no
   * thousands separator.
   */
  predicate IsDigits(s: string)
    ensures IsDigits(s) <==> s != [] && forall c :: c in s ==> IsDigitChar(c)
    ensures IsDigits(s) ==> forall k :: 0 <= k < |s| ==> !IsSpace(s[k]) && s[k] != '.' && s[k] != ','
  {
    |s| > 0 && forall k :: 0 <= k < |s| ==> IsDigitChar(s[k])
  }

  /** The number a string of decimal digits denotes. */
  function DigitsValue(s: string): nat
    requires forall k :: 0 <= k < |s| ==> IsDigitChar(s[k])
    decreases |s|
  {
    if s == [] then 0
    else
      assert IsDigitChar(s[|s| - 1]);
      DigitsValue(s[..|s| - 1]) * 10 + (s[|s| - 1] as int - '0' as int)
  }

  /** `int(s)` restricted to digit strings; anything else is no number. */
  function ParseNat(s: string): (r: Option<nat>)
    ensures r.Some? <==> IsDigits(s)
  {
    if IsDigits(s) then Some(DigitsValue(s)) else None
  }

  function DigitChar(d: nat): (c: char)
    requires d < 10
    ensures IsDigitChar(c) && c as int - '0' as int == d
  {
    (d + '0' as int) as char
  }

  /** `str(n)`: decimal digits, no leading zero except for 0 itself. */
  function NatToString(n: nat): (r: string)
    ensures IsDigits(r)
    ensures n >= 10 ==> r[0] != '0'
    ensures |r| == 1 <==> n < 10
  {
    if n < 10 then [DigitChar(n)] else NatToString(n / 10) + [DigitChar(n % 10)]
  }

  /** Parsing what `str(n)` printed gives back `n`. */
  lemma {:induction false} ParseNatToString(n: nat)
    ensures ParseNat(NatToString(n)) == Some(n)
  {
    var s := NatToString(n);
    if n < 10 {
      assert s[..|s| - 1] == [];
    } else {
      ParseNatToString(n / 10);
      assert s[..|s| - 1] == NatToString(n / 10);
      assert DigitsValue(s) == (n / 10) * 10 + n % 10;
    }
  }

  /** A digit string is no whitespace at either end, so `strip()` keeps it. */
  lemma TrimOfDigits(s: string)
    requires IsDigits(s)
    ensures Trim(s) == s
  {
    TrimOfUnspaced(s);
  }

  /**
   * Text order with SQLite's BINARY collation: UTF-8 byte order, which is
   * code-point order, a proper prefix coming first.
   */
  predicate StrLe(a: string, b: string)
    decreases |a|
  {
    a == [] || (b != [] && (a[0] < b[0] || (a[0] == b[0] && StrLe(a[1..], b[1..]))))
  }

  lemma {:induction false} StrLeRefl(a: string)
    ensures StrLe(a, a)
  {
    if a != [] { StrLeRefl(a[1..]); }
  }

  lemma {:induction false} StrLeTotal(a: string, b: string)
    ensures StrLe(a, b) || StrLe(b, a)
  {
    if a != [] && b != [] && a[0] == b[0] { StrLeTotal(a[1..], b[1..]); }
  }

  lemma {:induction false} StrLeTrans(a: string, b: string, c: string)
    requires StrLe(a, b) && StrLe(b, c)
    ensures StrLe(a, c)
  {
    if a != [] && a[0] == b[0] && b[0] == c[0] { StrLeTrans(a[1..], b[1..], c[1..]); }
  }
}
