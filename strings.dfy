/**
 * Text helpers the tile pipeline relies on: Python's `str(int)` for tile
 * coordinates, `str.split` on a single separator character, and the
 * `"x_y_z"` tile key that every JSON file and datastore chunk uses.
 */
module Strings {

  function DigitChar(d: nat): char
    requires d < 10
  {
    (48 + d) as char
  }

  predicate IsDigit(c: char) {
    '0' <= c <= '9'
  }

  /** Decimal digits of a natural number, most significant first, no leading zeros. */
  function NatToString(n: nat): (s: string)
    ensures |s| >= 1 && IsDigit(s[0])
    ensures forall i :: 0 <= i < |s| ==> IsDigit(s[i])
    decreases n
  {
    if n < 10 then [DigitChar(n)] else NatToString(n / 10) + [DigitChar(n % 10)]
  }

  /** Python's `str(n)` for an integer: an optional minus sign followed by the decimal digits. */
  function IntToString(n: int): (s: string)
    ensures |s| >= 1
    ensures '_' !in s
    ensures n < 0 <==> s[0] == '-'
  {
    if n < 0 then "-" + NatToString(-n) else NatToString(n)
  }

  function DigitValue(c: char): nat {
    if IsDigit(c) then c as int - 48 else 0
  }

  /** Reads decimal digits back; the inverse of NatToString. */
  function ParseNat(s: string): nat {
    if |s| == 0 then 0 else ParseNat(s[..|s| - 1]) * 10 + DigitValue(s[|s| - 1])
  }

  function ParseInt(s: string): int {
    if |s| > 0 && s[0] == '-' then -(ParseNat(s[1..]) as int) else ParseNat(s)
  }

  lemma {:induction false} ParseNatToString(n: nat)
    ensures ParseNat(NatToString(n)) == n
    decreases n
  {
    if n >= 10 {
      var s := NatToString(n);
      assert s[..|s| - 1] == NatToString(n / 10);
      ParseNatToString(n / 10);
    }
  }

  /** Reading `str(n)` back gives `n`. */
  lemma ParseIntToString(n: int)
    ensures ParseInt(IntToString(n)) == n
  {
    if n < 0 {
      assert IntToString(n)[1..] == NatToString(-n);
      ParseNatToString(-n);
    } else {
      ParseNatToString(n);
    }
  }

  /** Distinct integers print differently. */
  lemma IntToStringInjective(a: int, b: int)
    requires IntToString(a) == IntToString(b)
    ensures a == b
  {
    ParseIntToString(a);
    ParseIntToString(b);
  }

  /** Python's `s.split(sep)` for a one-character separator: every occurrence splits, empty parts are kept. */
  function Split(s: string, sep: char): (parts: seq<string>)
    ensures |parts| >= 1
  {
    if |s| == 0 then [""]
    else
      var rest := Split(s[1..], sep);
      if s[0] == sep then [""] + rest else [[s[0]] + rest[0]] + rest[1..]
  }

  /** `sep.join(parts)` */
  function Join(parts: seq<string>, sep: char): string
    requires |parts| >= 1
  {
    if |parts| == 1 then parts[0] else parts[0] + [sep] + Join(parts[1..], sep)
  }

  lemma {:induction false} SplitWithoutSeparator(s: string, sep: char)
    requires sep !in s
    ensures Split(s, sep) == [s]
    decreases |s|
  {
    if |s| > 0 {
      SplitWithoutSeparator(s[1..], sep);
      assert [s[0]] + s[1..] == s;
    }
  }

  lemma {:induction false} SplitAfterPart(a: string, sep: char, b: string)
    requires sep !in a
    ensures Split(a + [sep] + b, sep) == [a] + Split(b, sep)
    decreases |a|
  {
    if |a| == 0 {
      assert a + [sep] + b == [sep] + b;
      assert ([sep] + b)[1..] == b;
    } else {
      var s := a + [sep] + b;
      assert s[1..] == a[1..] + [sep] + b;
      SplitAfterPart(a[1..], sep, b);
      assert [a[0]] + a[1..] == a;
    }
  }

  /** Joining the parts of a split gives the original text back. */
  lemma {:induction false} JoinSplit(s: string, sep: char)
    ensures Join(Split(s, sep), sep) == s
    decreases |s|
  {
    if |s| > 0 {
      JoinSplit(s[1..], sep);
      var rest := Split(s[1..], sep);
      if s[0] == sep {
        assert Split(s, sep)[1..] == rest;
      } else {
        var parts := Split(s, sep);
        assert parts[0] == [s[0]] + rest[0];
        if |rest| > 1 {
          assert parts[1..] == rest[1..];
        }
      }
    }
  }

  /** The `f"{x}_{y}_{z}"` key under which a tile is stored. */
  function TileKey(x: string, y: string, z: string): string {
    x + "_" + y + "_" + z
  }

  /** Splitting a tile key on `_` gives its three parts back, when no part holds `_`. */
  lemma SplitTileKey(x: string, y: string, z: string)
    requires '_' !in x && '_' !in y && '_' !in z
    ensures Split(TileKey(x, y, z), '_') == [x, y, z]
  {
    assert TileKey(x, y, z) == x + ['_'] + (y + ['_'] + z);
    SplitAfterPart(x, '_', y + ['_'] + z);
    SplitAfterPart(y, '_', z);
    SplitWithoutSeparator(z, '_');
  }

  /** A key that splits into exactly three parts is the tile key of those parts. */
  lemma TileKeyOfSplit(k: string)
    requires |Split(k, '_')| == 3
    ensures var p := Split(k, '_'); TileKey(p[0], p[1], p[2]) == k
  {
    var p := Split(k, '_');
    JoinSplit(k, '_');
    assert p[1..][1..] == [p[2]];
    assert Join(p[1..], '_') == p[1] + ['_'] + p[2];
  }

  /** The key of an integer tile: `"x_y_z"` with Python's decimal rendering. */
  function IntTileKey(x: int, y: int, z: int): string {
    TileKey(IntToString(x), IntToString(y), IntToString(z))
  }

  /** Distinct integer tiles have distinct keys. */
  lemma IntTileKeyInjective(x: int, y: int, z: int, x': int, y': int, z': int)
    requires IntTileKey(x, y, z) == IntTileKey(x', y', z')
    ensures x == x' && y == y' && z == z'
  {
    SplitTileKey(IntToString(x), IntToString(y), IntToString(z));
    SplitTileKey(IntToString(x'), IntToString(y'), IntToString(z'));
    IntToStringInjective(x, x');
    IntToStringInjective(y, y');
    IntToStringInjective(z, z');
  }
}
