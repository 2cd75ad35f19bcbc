/** The string operations the library applies: `to_lowercase`, `contains`,
    `replace` with a one-character pattern, and `trim`. */
module Text {

  function ToLowerChar(c: char): char {
    if 'A' <= c <= 'Z' then (c as int + 32) as char else c
  }

  /** `str::to_lowercase`, on the letters A to Z. */
  function ToLower(s: string): (r: string)
    ensures |r| == |s|
    ensures forall i :: 0 <= i < |s| ==> r[i] == ToLowerChar(s[i])
  {
    if s == [] then [] else [ToLowerChar(s[0])] + ToLower(s[1..])
  }

  lemma ToLowerIdempotent(s: string)
    ensures ToLower(ToLower(s)) == ToLower(s)
  {
  }

  /** `str::contains` with a string pattern: `sub` occurs somewhere in `s`. */
  predicate Contains(s: string, sub: string)
    decreases |s|
  {
    |sub| <= |s| && (s[..|sub|] == sub || (s != [] && Contains(s[1..], sub)))
  }

  /** `sub` occurs in `s` starting at index `i`. */
  predicate OccursAt(s: string, sub: string, i: nat) {
    i + |sub| <= |s| && s[i..i + |sub|] == sub
  }

  /** The position-based reading of `Contains`. */
  lemma {:induction false} ContainsAt(s: string, sub: string)
    ensures Contains(s, sub) <==> exists i: nat :: OccursAt(s, sub, i)
    decreases |s|
  {
    if |sub| <= |s| {
      if s[..|sub|] == sub {
        assert OccursAt(s, sub, 0);
      } else if s != [] {
        ContainsAt(s[1..], sub);
        if Contains(s[1..], sub) {
          var i: nat :| OccursAt(s[1..], sub, i);
          assert s[i + 1..i + 1 + |sub|] == s[1..][i..i + |sub|];
          assert OccursAt(s, sub, i + 1);
        }
        if exists i: nat :: OccursAt(s, sub, i) {
          var i: nat :| OccursAt(s, sub, i);
          assert i != 0;
          assert s[1..][i - 1..i - 1 + |sub|] == s[i..i + |sub|];
          assert OccursAt(s[1..], sub, i - 1);
        }
      }
    }
  }

  /** A string with no capital letter A to Z is its own lowercase form. */
  lemma {:induction false} ToLowerNoCapitals(s: string)
    requires forall i :: 0 <= i < |s| ==> !('A' <= s[i] <= 'Z')
    ensures ToLower(s) == s
  {
    if s != [] {
      ToLowerNoCapitals(s[1..]);
    }
  }

  /** A string missing one character of `sub` does not contain `sub`. */
  lemma {:induction false} MissingCharNotContained(s: string, sub: string, k: nat)
    requires k < |sub| && sub[k] !in s
    ensures !Contains(s, sub)
    decreases |s|
  {
    if |sub| <= |s| {
      assert s[..|sub|][k] == s[k];
      if s != [] {
        assert forall c :: c in s[1..] ==> c in s;
        MissingCharNotContained(s[1..], sub, k);
      }
    }
  }

  /** Every string contains itself and the empty string. */
  lemma ContainsSelf(s: string)
    ensures Contains(s, s) && Contains(s, [])
  {
  }

  /** A number written in decimal, as `{}` formats it. */
  function Decimal(n: nat): (r: string)
    ensures |r| >= 1 && forall i :: 0 <= i < |r| ==> '0' <= r[i] <= '9'
    decreases n
  {
    if n < 10 then ["0123456789"[n]] else Decimal(n / 10) + ["0123456789"[n % 10]]
  }

  /** `str::replace` with a one-character pattern: every `c` becomes `w`. */
  function ReplaceChar(s: string, c: char, w: string): (r: string)
  {
    if s == [] then []
    else (if s[0] == c then w else [s[0]]) + ReplaceChar(s[1..], c, w)
  }

  lemma {:induction false} ReplaceCharAbsent(s: string, c: char, w: string)
    requires c !in s
    ensures ReplaceChar(s, c, w) == s
  {
    if s != [] {
      ReplaceCharAbsent(s[1..], c, w);
    }
  }

  lemma {:induction false} ReplaceCharAppend(a: string, b: string, c: char, w: string)
    ensures ReplaceChar(a + b, c, w) == ReplaceChar(a, c, w) + ReplaceChar(b, c, w)
  {
    if a == [] {
      assert a + b == b;
    } else {
      assert (a + b)[1..] == a[1..] + b;
      ReplaceCharAppend(a[1..], b, c, w);
    }
  }

  /** The characters `str::trim` removes from either end (ASCII white space). */
  predicate IsWhiteSpace(c: char) {
    c == ' ' || c == '\t' || c == '\n' || c == '\r' || c == '\U{B}' || c == '\U{C}'
  }

  function TrimStart(s: string): (r: string)
    ensures r == [] || !IsWhiteSpace(r[0])
    ensures |r| <= |s| && r == s[|s| - |r|..]
  {
    if s != [] && IsWhiteSpace(s[0]) then TrimStart(s[1..]) else s
  }

  function TrimEnd(s: string): (r: string)
    ensures r == [] || !IsWhiteSpace(r[|r| - 1])
    ensures |r| <= |s| && r == s[..|r|]
  {
    if s != [] && IsWhiteSpace(s[|s| - 1]) then TrimEnd(s[..|s| - 1]) else s
  }

  /** `str::trim`. */
  function Trim(s: string): (r: string)
    ensures r == [] || (!IsWhiteSpace(r[0]) && !IsWhiteSpace(r[|r| - 1]))
    ensures exists i, j :: 0 <= i <= j <= |s| && r == s[i..j]
  {
    var t := TrimStart(s);
    var r := TrimEnd(t);
    assert r != [] ==> r[0] == t[0];
    var k := |s| - |t|;
    assert r == s[k..k + |r|];
    r
  }
}
