/** Values and string operations shared by the decision engines.

    A pandas row is read with `row.get(key)` or `row.get(key, default)`; a cell is
    then either absent (the column does not exist, so the default applies), a
    not-a-number value (every ordered comparison with it is false), or a number.
 */
module Common {

  datatype Option<+T> = None | Some(value: T)

  /** One numeric cell of a pandas row. */
  datatype Cell = Missing | NaN | Num(x: real)

  /** `row.get(key, default)`: the default only for an absent column; None stands for NaN. */
  function GetOr(c: Cell, default: real): (r: Option<real>)
    ensures r.Some? <==> !c.NaN?
    ensures c.Num? ==> r == Some(c.x)
    ensures c.Missing? ==> r == Some(default)
  {
    match c
    case Missing => Some(default)
    case NaN => None
    case Num(x) => Some(x)
  }

  /** `row.get(key)` without a default: both an absent column and NaN are unknown. */
  function Known(c: Cell): (r: Option<real>)
    ensures r.Some? <==> c.Num?
  {
    if c.Num? then Some(c.x) else None
  }

  /** `a > b` where an unknown operand (NaN) makes the comparison false. */
  predicate Gt(a: Option<real>, b: real)
  {
    a.Some? && a.value > b
  }

  /** `a < b` where an unknown operand (NaN) makes the comparison false. */
  predicate Lt(a: Option<real>, b: real)
  {
    a.Some? && a.value < b
  }

  /** `row.get(key, default) > b` on the cell: an absent cell compares its default. */
  lemma GetOrAbove(c: Cell, default: real, b: real)
    ensures Gt(GetOr(c, default), b) <==> (c.Num? && c.x > b) || (c.Missing? && default > b)
  {
  }

  /** `a > b` between two possibly unknown operands. */
  predicate Gt2(a: Option<real>, b: Option<real>)
  {
    a.Some? && b.Some? && a.value > b.value
  }

  // ---------------------------------------------------------------------------
  // Substrings (Python's `pat in s`)
  // ---------------------------------------------------------------------------

  predicate OccursAt(s: string, pat: string, i: int)
  {
    0 <= i && i + |pat| <= |s| && s[i..i + |pat|] == pat
  }

  /** Python's `pat in s`, searched from the left. */
  function Contains(s: string, pat: string): (b: bool)
    ensures b <==> exists i :: OccursAt(s, pat, i)
    decreases |s|
  {
    if |s| < |pat| then false
    else if s[..|pat|] == pat then
      assert OccursAt(s, pat, 0);
      true
    else
      var rest := Contains(s[1..], pat);
      assert rest ==> exists i :: OccursAt(s, pat, i) by {
        if rest {
          var j :| OccursAt(s[1..], pat, j);
          assert s[1..][j..j + |pat|] == s[j + 1..j + 1 + |pat|];
          assert OccursAt(s, pat, j + 1);
        }
      }
      assert (exists i :: OccursAt(s, pat, i)) ==> rest by {
        if exists i :: OccursAt(s, pat, i) {
          var i :| OccursAt(s, pat, i);
          assert i != 0;
          assert s[1..][i - 1..i - 1 + |pat|] == s[i..i + |pat|];
          assert OccursAt(s[1..], pat, i - 1);
        }
      }
      rest
  }

  lemma OccursIn(s: string, pat: string, i: int)
    requires OccursAt(s, pat, i)
    ensures Contains(s, pat)
  {
  }

  /** A piece of an occurrence occurs too: if `sub` sits at offset `off` of `pat`, then it
      occurs in `s` wherever `pat` does, `off` further on. */
  lemma OccursInside(s: string, pat: string, i: int, sub: string, off: nat)
    requires OccursAt(s, pat, i)
    requires off + |sub| <= |pat| && forall k :: 0 <= k < |sub| ==> pat[off + k] == sub[k]
    ensures Contains(s, sub)
  {
    forall k | 0 <= k < |sub|
      ensures s[i + off + k] == sub[k]
    {
      assert s[i + off + k] == s[i..i + |pat|][off + k];
    }
    assert s[i + off..i + off + |sub|] == sub;
    OccursIn(s, sub, i + off);
  }

  /** What occurs in a part occurs in the whole. */
  lemma {:induction false} ContainsInConcat(a: string, b: string, c: string, pat: string)
    requires Contains(b, pat)
    ensures Contains(a + b + c, pat)
  {
    var i :| OccursAt(b, pat, i);
    assert (a + b + c)[|a| + i..|a| + i + |pat|] == b[i..i + |pat|];
    OccursIn(a + b + c, pat, |a| + i);
  }

  /** `s` has no character `x` immediately followed by `y`. */
  ghost predicate NoPair(s: string, x: char, y: char)
  {
    forall i, j :: 0 <= i < |s| && j == i + 1 && j < |s| && s[i] == x ==> s[j] != y
  }

  /** A pattern that starts with the pair `x y` cannot occur in a string free of that pair. */
  lemma NoPairNotContains(s: string, pat: string)
    requires |pat| >= 2 && NoPair(s, pat[0], pat[1])
    ensures !Contains(s, pat)
  {
    forall i | 0 <= i && i + |pat| <= |s|
      ensures !OccursAt(s, pat, i)
    {
      var w := s[i..i + |pat|];
      assert w[0] == s[i] && w[1] == s[i + 1];
    }
  }

  lemma NoPairConcat(a: string, b: string, x: char, y: char)
    requires NoPair(a, x, y) && NoPair(b, x, y)
    requires |a| == 0 || a[|a| - 1] != x
    ensures NoPair(a + b, x, y)
  {
    forall i | 0 <= i < |a + b| - 1 && (a + b)[i] == x
      ensures (a + b)[i + 1] != y
    {
      if i + 1 < |a| {
        assert a[i] == x;
      } else if i + 1 >= |a| + 1 {
        assert b[i - |a|] == x;
      }
    }
  }

  // ---------------------------------------------------------------------------
  // Joining, stripping, case mapping
  // ---------------------------------------------------------------------------

  /** Python's `sep.join(parts)`. */
  function Join(parts: seq<string>, sep: string): (r: string)
    decreases |parts|
  {
    if |parts| == 0 then ""
    else if |parts| == 1 then parts[0]
    else parts[0] + sep + Join(parts[1..], sep)
  }

  /** The characters Python's `str.isspace` accepts, which `str.strip()` removes. */
  predicate IsSpace(c: char)
  {
    c == ' ' || ('\t' <= c <= '\r') || ('\U{1C}' <= c <= '\U{1F}') || c == '\U{85}'
    || c == '\U{A0}' || c == '\U{1680}' || ('\U{2000}' <= c <= '\U{200A}')
    || c == '\U{2028}' || c == '\U{2029}' || c == '\U{202F}' || c == '\U{205F}' || c == '\U{3000}'
  }

  function StripLeft(s: string): (r: string)
    ensures |r| <= |s| && r == s[|s| - |r|..]
    ensures |r| > 0 ==> !IsSpace(r[0])
    ensures forall i :: 0 <= i < |s| - |r| ==> IsSpace(s[i])
  {
    if |s| > 0 && IsSpace(s[0]) then StripLeft(s[1..]) else s
  }

  function StripRight(s: string): (r: string)
    ensures |r| <= |s| && r == s[..|r|]
    ensures |r| > 0 ==> !IsSpace(r[|r| - 1])
    ensures forall i :: |r| <= i < |s| ==> IsSpace(s[i])
  {
    if |s| > 0 && IsSpace(s[|s| - 1]) then StripRight(s[..|s| - 1]) else s
  }

  /** Python's `s.strip()`. */
  function Strip(s: string): string
  {
    StripRight(StripLeft(s))
  }

  /** Python's `str.lower()` on one character, for the characters whose lower case is ASCII:
      the ASCII capitals and the Kelvin sign (U+212A, lower-cased to 'k'). */
  function LowerChar(c: char): char
  {
    if 'A' <= c <= 'Z' then (c as int + 32) as char
    else if c == '\U{212A}' then 'k'
    else c
  }

  function Lower(s: string): (r: string)
    ensures |r| == |s| && forall i :: 0 <= i < |s| ==> r[i] == LowerChar(s[i])
  {
    if |s| == 0 then "" else [LowerChar(s[0])] + Lower(s[1..])
  }

  /** Python's `str.upper()` on one character, for the characters whose upper case is one
      ASCII character: the ASCII small letters, the dotless i (U+0131) and the long s (U+017F). */
  function UpperChar(c: char): char
  {
    if 'a' <= c <= 'z' then (c as int - 32) as char
    else if c == '\U{131}' then 'I'
    else if c == '\U{17F}' then 'S'
    else c
  }

  function Upper(s: string): (r: string)
    ensures |r| == |s| && forall i :: 0 <= i < |s| ==> r[i] == UpperChar(s[i])
  {
    if |s| == 0 then "" else [UpperChar(s[0])] + Upper(s[1..])
  }

  /** Number of true values: Python's `sum(list_of_bools)`. */
  function CountTrue(bs: seq<bool>): (n: nat)
    ensures n <= |bs|
    ensures n == 0 <==> forall i :: 0 <= i < |bs| ==> !bs[i]
    ensures n == |bs| <==> forall i :: 0 <= i < |bs| ==> bs[i]
  {
    if |bs| == 0 then 0 else (if bs[0] then 1 else 0) + CountTrue(bs[1..])
  }
}
