/** String primitives of JavaScript that the core relies on, over `seq<char>`:
    ASCII `toLowerCase`, `includes`, `indexOf`, first-occurrence `replace`,
    `Array.prototype.join`, `substring` and the decimal rendering of a
    non-negative integer. */
module Text {
  import opened Wrappers

  function LowerChar(c: char): char {
    if 'A' <= c <= 'Z' then (c as int + 32) as char else c
  }

  /** `String.prototype.toLowerCase`, restricted to ASCII letters. */
  function Lower(s: string): (r: string)
    ensures |r| == |s|
    ensures forall i :: 0 <= i < |s| ==> r[i] == LowerChar(s[i])
  {
    seq(|s|, i requires 0 <= i < |s| => LowerChar(s[i]))
  }

  /** `p` occurs in `s` starting at position `i`. */
  predicate OccursAt(s: string, p: string, i: int) {
    0 <= i <= |s| && p <= s[i..]
  }

  function Shift(o: Option<nat>, n: nat): Option<nat> {
    match o
    case None => None
    case Some(i) => Some(i + n)
  }

  /** `s.indexOf(p)`: the first position at which `p` occurs, if any. */
  function IndexOf(s: string, p: string): (r: Option<nat>)
    ensures r.Some? ==> OccursAt(s, p, r.value)
    ensures r.Some? ==> forall j :: 0 <= j < r.value ==> !OccursAt(s, p, j)
    ensures r.None? ==> forall j :: 0 <= j <= |s| ==> !OccursAt(s, p, j)
    decreases |s|
  {
    if p <= s then Some(0)
    else if |s| == 0 then None
    else
      var rest := IndexOf(s[1..], p);
      assert forall j :: 1 <= j <= |s| ==> (OccursAt(s, p, j) <==> OccursAt(s[1..], p, j - 1)) by {
        forall j | 1 <= j <= |s| ensures s[j..] == s[1..][j - 1..] { }
      }
      match rest
      case None => None
      case Some(i) => Some(i + 1)
  }

  /** Unfolding of `IndexOf` at a position where `p` does not start. */
  lemma IndexOfStep(s: string, p: string)
    requires |s| > 0 && !(p <= s)
    ensures IndexOf(s, p) == Shift(IndexOf(s[1..], p), 1)
  {
  }

  lemma IndexOfCons(c: char, t: string, p: string)
    requires |p| >= 2 && (|t| == 0 || t[0] != p[1])
    ensures IndexOf([c] + t, p) == Shift(IndexOf(t, p), 1)
  {
    var s := [c] + t;
    assert s[1..] == t;
    assert !(p <= s) by {
      if |t| > 0 { assert s[1] == t[0]; }
    }
    IndexOfStep(s, p);
  }

  /** `s.includes(p)`. */
  predicate Contains(s: string, p: string) {
    IndexOf(s, p).Some?
  }

  /** `includes` holds exactly when `p` occurs somewhere in `s`. */
  lemma ContainsIffOccurs(s: string, p: string)
    ensures Contains(s, p) <==> exists j :: 0 <= j <= |s| && OccursAt(s, p, j)
  {
  }

  /** `s.replace(p, rep)` with a string pattern: only the first occurrence of `p`
      is replaced (JavaScript's `$` replacement patterns are not modelled). */
  function ReplaceFirst(s: string, p: string, rep: string): (r: string)
    ensures (forall j :: 0 <= j <= |s| ==> !OccursAt(s, p, j)) ==> r == s
    ensures forall i :: OccursAt(s, p, i) && (forall j :: 0 <= j < i ==> !OccursAt(s, p, j)) ==>
              r == s[..i] + rep + s[i + |p|..]
  {
    var idx := IndexOf(s, p);
    if idx.None? then s
    else
      assert forall i :: OccursAt(s, p, i) && (forall j :: 0 <= j < i ==> !OccursAt(s, p, j)) ==> i == idx.value;
      s[..idx.value] + rep + s[idx.value + |p|..]
  }

  /** When the first character of `p` does not appear in `x`, the search for `p`
      in `x + z` skips `x` entirely. */
  lemma {:induction false} IndexOfSkipsPrefix(x: string, z: string, p: string)
    requires |p| > 0 && p[0] !in x
    ensures IndexOf(x + z, p) == Shift(IndexOf(z, p), |x|)
    decreases |x|
  {
    if |x| == 0 {
      assert x + z == z;
      ShiftShift(IndexOf(z, p), 0, 0);
    } else {
      var t := x[1..] + z;
      assert x + z == [x[0]] + t;
      assert x[0] != p[0];
      IndexOfHead(x[0], t, p);
      IndexOfSkipsPrefix(x[1..], z, p);
      ShiftShift(IndexOf(z, p), |x| - 1, 1);
    }
  }

  /** A first character other than `p`'s cannot start an occurrence. */
  lemma IndexOfHead(c: char, t: string, p: string)
    requires |p| > 0 && c != p[0]
    ensures IndexOf([c] + t, p) == Shift(IndexOf(t, p), 1)
  {
    var s := [c] + t;
    assert s[0] == c;
    assert s[1..] == t;
    IndexOfStep(s, p);
  }

  /** A slot `[head] + tail` whose second character differs from the pattern's,
      and whose tail holds no copy of the pattern's first character, is skipped
      as a whole. */
  lemma SkipsSlot(head: char, tail: string, y: string, p: string)
    requires |p| >= 2 && |tail| > 0 && tail[0] != p[1] && p[0] !in tail
    ensures IndexOf([head] + tail + y, p) == Shift(IndexOf(y, p), 1 + |tail|)
  {
    var t := tail + y;
    assert [head] + tail + y == [head] + t;
    IndexOfCons(head, t, p);
    IndexOfSkipsPrefix(tail, y, p);
    ShiftShift(IndexOf(y, p), |tail|, 1);
  }

  /** Shifting twice shifts by the sum. */
  lemma ShiftShift(o: Option<nat>, m: nat, n: nat)
    ensures Shift(Shift(o, m), n) == Shift(o, m + n)
  {
  }

  /** Replacing the first occurrence of `p` in `x + p + z`, where `x` holds no
      copy of `p`'s first character, replaces exactly the displayed `p`. */
  lemma ReplaceAfterPrefix(x: string, p: string, z: string, rep: string)
    requires |p| > 0 && p[0] !in x
    ensures ReplaceFirst(x + p + z, p, rep) == x + rep + z
  {
    assert x + p + z == x + (p + z);
    IndexOfSkipsPrefix(x, p + z, p);
    assert p <= p + z;
    var s := x + p + z;
    assert IndexOf(s, p) == Some(|x|);
    assert s[..|x|] == x;
    assert s[|x| + |p|..] == z;
  }

  /** A text that starts with `p` has its first occurrence replaced there. */
  lemma ReplaceAtStart(p: string, z: string, rep: string)
    ensures ReplaceFirst(p + z, p, rep) == rep + z
  {
    var s := p + z;
    assert p <= s;
    assert IndexOf(s, p) == Some(0);
    assert s[..0] + rep + s[|p|..] == rep + z;
  }

  /** The contents of `s[..k]` are among those of `s`. */
  lemma PrefixKeepsAbsence(s: string, k: nat, c: char)
    requires k <= |s| && c !in s
    ensures c !in s[..k]
  {
  }

  function Digit(d: nat): (c: char)
    requires d < 10
    ensures '0' <= c <= '9'
  {
    "0123456789"[d]
  }

  /** `String(n)` for a non-negative integer: its decimal digits, most
      significant first, with no leading zero. */
  function NatToString(n: nat): (r: string)
    ensures |r| > 0
    ensures forall i :: 0 <= i < |r| ==> '0' <= r[i] <= '9'
    ensures n > 0 ==> r[0] != '0'
    decreases n
  {
    if n < 10 then [Digit(n)]
    else NatToString(n / 10) + [Digit(n % 10)]
  }

  function DigitValue(c: char): nat {
    if '0' <= c <= '9' then c as int - '0' as int else 0
  }

  /** The number a string of decimal digits denotes. */
  function DigitsValue(s: string): nat
    decreases |s|
  {
    if |s| == 0 then 0 else DigitsValue(s[..|s| - 1]) * 10 + DigitValue(s[|s| - 1])
  }

  lemma DigitRoundTrip(d: nat)
    requires d < 10
    ensures DigitValue(Digit(d)) == d
  {
    var ds := "0123456789";
    assert ds[0] == '0' && ds[1] == '1' && ds[2] == '2' && ds[3] == '3' && ds[4] == '4';
    assert ds[5] == '5' && ds[6] == '6' && ds[7] == '7' && ds[8] == '8' && ds[9] == '9';
  }

  /** Reading back the digits of `NatToString(n)` gives `n`. */
  lemma {:induction false} NatToStringRoundTrip(n: nat)
    ensures DigitsValue(NatToString(n)) == n
    decreases n
  {
    var r := NatToString(n);
    if n < 10 {
      DigitRoundTrip(n);
      assert r[..0] == [];
    } else {
      NatToStringRoundTrip(n / 10);
      DigitRoundTrip(n % 10);
      assert r[..|r| - 1] == NatToString(n / 10);
    }
  }

  /** `items.join(sep)`. */
  function Join(items: seq<string>, sep: string): (r: string)
    ensures |items| == 0 ==> r == ""
    ensures |items| == 1 ==> r == items[0]
    decreases |items|
  {
    if |items| == 0 then ""
    else if |items| == 1 then items[0]
    else items[0] + sep + Join(items[1..], sep)
  }

  /** A character absent from every item and from the separator is absent from
      the join. */
  lemma {:induction false} JoinKeepsAbsence(items: seq<string>, sep: string, c: char)
    requires c !in sep
    requires forall k :: 0 <= k < |items| ==> c !in items[k]
    ensures c !in Join(items, sep)
    decreases |items|
  {
    if |items| > 1 {
      JoinKeepsAbsence(items[1..], sep, c);
    }
  }

  /** A character outside the Basic Multilingual Plane, which JavaScript
      stores as a surrogate pair. */
  predicate Astral(c: char) {
    c as int > 0xFFFF
  }

  /** `s.length` in JavaScript: the number of UTF-16 code units, two for an
      astral character and one for any other. */
  function Utf16Length(s: string): (n: nat)
    ensures |s| <= n <= 2 * |s|
    decreases |s|
  {
    if s == [] then 0 else (if Astral(s[0]) then 2 else 1) + Utf16Length(s[1..])
  }

  /** Without astral characters the JavaScript length is the number of
      characters. */
  lemma {:induction false} Utf16LengthBmp(s: string)
    requires forall i :: 0 <= i < |s| ==> !Astral(s[i])
    ensures Utf16Length(s) == |s|
    decreases |s|
  {
    if s != [] {
      Utf16LengthBmp(s[1..]);
    }
  }

  /** A string of astral characters only is twice as long in JavaScript. */
  lemma {:induction false} Utf16LengthAstral(s: string)
    requires forall i :: 0 <= i < |s| ==> Astral(s[i])
    ensures Utf16Length(s) == 2 * |s|
    decreases |s|
  {
    if s != [] {
      Utf16LengthAstral(s[1..]);
    }
  }

  /** `s.substring(0, n)` for a non-negative `n`. */
  function Take(s: string, n: nat): (r: string)
    ensures |r| == if n <= |s| then n else |s|
    ensures r <= s
  {
    if n <= |s| then s[..n] else s
  }
}
