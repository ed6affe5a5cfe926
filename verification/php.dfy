/** The few PHP value and string semantics the scenario code relies on. */
module Php {
  import opened Wrappers

  /** A PHP value as it appears in record data, configuration arrays and
      page-tree data. `NewId(t)` is the placeholder string that
      `StringUtility::getUniqueId('NEW')` returns, kept symbolic: distinct
      tokens are distinct strings. `List` and `Dict` are both PHP arrays. */
  datatype Value =
    | Null
    | Int(i: int)
    | Str(s: string)
    | NewId(token: nat)
    | List(items: seq<Value>)
    | Dict(entries: map<string, Value>)

  /** The PHP literal `[]`. */
  const EmptyArray: Value := List([])

  predicate IsArray(v: Value) {
    v.List? || v.Dict?
  }

  /** `in_array($needle, $haystack, true)`: strict comparison against the
      array's values. */
  predicate InArrayStrict(needle: Value, haystack: Value)
    requires IsArray(haystack)
  {
    match haystack
    case List(items) => needle in items
    case Dict(entries) => needle in entries.Values
  }

  /** `isset($m[$k])`: the key is present and not null. */
  predicate IsSet(m: map<string, Value>, k: string) {
    k in m && m[k] != Null
  }

  /** `$m[$k] ?? $default`. */
  function Coalesce(m: map<string, Value>, k: string, default: Value): (r: Value)
    ensures IsSet(m, k) ==> r == m[k]
    ensures !IsSet(m, k) ==> r == default
  {
    if IsSet(m, k) then m[k] else default
  }

  /** A key holding `null` reads like a missing key, and setting a key to a
      non-null value makes `??` return that value whatever the default. */
  lemma CoalesceNullLikeMissing(m: map<string, Value>, k: string, default: Value, v: Value)
    ensures Coalesce(m[k := Null], k, default) == Coalesce(m - {k}, k, default) == default
    ensures v != Null ==> Coalesce(m[k := v], k, default) == v
  {
  }

  /** `empty($s)` for a string: true for "" and for "0". */
  predicate EmptyString(s: string) {
    s == "" || s == "0"
  }

  /** `str_starts_with($s, $prefix)`. */
  predicate StartsWith(s: string, prefix: string) {
    |prefix| <= |s| && s[..|prefix|] == prefix
  }

  /** `ltrim($s, $c)` for a single character. */
  function LTrim(s: string, c: char): (r: string)
    ensures |r| <= |s| && r == s[|s| - |r|..]
    ensures |r| > 0 ==> r[0] != c
    ensures forall k :: 0 <= k < |s| - |r| ==> s[k] == c
  {
    if |s| > 0 && s[0] == c then LTrim(s[1..], c) else s
  }

  /** The byte-wise ASCII upper case of `strtoupper` and `ucfirst`. */
  function UpperChar(c: char): (u: char)
    ensures 'a' <= c <= 'z' ==> u as int == c as int - 32
    ensures !('a' <= c <= 'z') ==> u == c
    ensures !('a' <= u <= 'z')
  {
    if 'a' <= c <= 'z' then (c as int - 32) as char else c
  }

  /** `strtoupper($s)`. */
  function Upper(s: string): (r: string)
    ensures |r| == |s|
    ensures forall k :: 0 <= k < |s| ==> r[k] == UpperChar(s[k])
  {
    seq(|s|, k requires 0 <= k < |s| => UpperChar(s[k]))
  }

  /** `ucfirst($s)`: only the first character is upper-cased. */
  function UcFirst(s: string): (r: string)
    ensures |r| == |s|
    ensures |s| > 0 ==> r[0] == UpperChar(s[0]) && r[1..] == s[1..]
  {
    if |s| == 0 then s else [UpperChar(s[0])] + s[1..]
  }

  /** `strtoupper` leaves no lower-case ASCII letter, is idempotent, and
      changes a string exactly when it holds one. */
  lemma UpperNormalizes(s: string)
    ensures forall k :: 0 <= k < |s| ==> !('a' <= Upper(s)[k] <= 'z')
    ensures Upper(Upper(s)) == Upper(s)
    ensures Upper(s) == s <==> forall k :: 0 <= k < |s| ==> !('a' <= s[k] <= 'z')
  {
    if Upper(s) == s {
      forall k | 0 <= k < |s|
        ensures !('a' <= s[k] <= 'z')
      {
        assert s[k] == Upper(s)[k];
      }
    }
  }

  /** `ucfirst` is idempotent, and upper-casing its result is upper-casing
      the original string: it only ever does part of `strtoupper`'s work. */
  lemma UcFirstAgreesWithUpper(s: string)
    ensures UcFirst(UcFirst(s)) == UcFirst(s)
    ensures Upper(UcFirst(s)) == Upper(s)
    ensures |s| > 0 ==> UcFirst(s)[..1] == Upper(s)[..1]
  {
    if |s| > 0 {
      assert UcFirst(s)[0] == UpperChar(s[0]);
      assert UpperChar(UpperChar(s[0])) == UpperChar(s[0]);
      forall k | 0 <= k < |s|
        ensures Upper(UcFirst(s))[k] == Upper(s)[k]
      {
        if k > 0 {
          assert UcFirst(s)[k] == UcFirst(s)[1..][k - 1] == s[1..][k - 1] == s[k];
        }
      }
    }
  }

  // ---------------------------------------------------------------------
  // Decimal rendering of integers (string concatenation of an int) and
  // the comma-separated id lists that site configurations store.

  predicate IsDigit(c: char) {
    '0' <= c <= '9'
  }

  predicate AllDigits(s: string) {
    forall k :: 0 <= k < |s| ==> IsDigit(s[k])
  }

  function DigitChar(d: nat): (c: char)
    requires d < 10
    ensures IsDigit(c)
  {
    "0123456789"[d]
  }

  function DigitValue(c: char): (d: nat)
    requires IsDigit(c)
    ensures d < 10
  {
    (c as int - '0' as int) as nat
  }

  lemma DigitRoundTrip(d: nat)
    requires d < 10
    ensures DigitValue(DigitChar(d)) == d
  {
  }

  /** Decimal digits of `n`, most significant first, no leading zeros. */
  function NatToString(n: nat): (r: string)
    ensures 0 < |r|
    ensures AllDigits(r)
    decreases n
  {
    if n < 10 then [DigitChar(n)] else NatToString(n / 10) + [DigitChar(n % 10)]
  }

  /** PHP's `(string)$i` for an integer. */
  function IntToString(i: int): (r: string)
    ensures 0 < |r|
  {
    if i < 0 then "-" + NatToString(-i) else NatToString(i)
  }

  /** The value of a non-empty digit string. */
  function ParseNat(s: string): nat
    requires 0 < |s| && AllDigits(s)
    decreases |s|
  {
    if |s| == 1 then DigitValue(s[0])
    else ParseNat(s[..|s| - 1]) * 10 + DigitValue(s[|s| - 1])
  }

  /** Parsing undoes rendering. */
  lemma {:induction false} ParseNatToString(n: nat)
    ensures ParseNat(NatToString(n)) == n
    decreases n
  {
    if n < 10 {
      DigitRoundTrip(n);
    } else {
      var p := NatToString(n / 10);
      var s := p + [DigitChar(n % 10)];
      assert s[..|s| - 1] == p;
      ParseNatToString(n / 10);
      DigitRoundTrip(n % 10);
    }
  }

  /** Rendering is injective, so two distinct ids never render alike. */
  lemma NatToStringInjective(a: nat, b: nat)
    requires NatToString(a) == NatToString(b)
    ensures a == b
  {
    ParseNatToString(a);
    ParseNatToString(b);
  }

  /** The pieces of `s` between commas (`explode(',', $s)`). */
  function SplitComma(s: string): (r: seq<string>)
    ensures 0 < |r|
    ensures forall k :: 0 <= k < |r| ==> ',' !in r[k]
    decreases |s|
  {
    if |s| == 0 then [""]
    else
      var rest := SplitComma(s[1..]);
      if s[0] == ',' then [""] + rest
      else [[s[0]] + rest[0]] + rest[1..]
  }

  lemma {:induction false} SplitCommaNoComma(x: string)
    requires ',' !in x
    ensures SplitComma(x) == [x]
    decreases |x|
  {
    if |x| > 0 {
      assert ',' !in x[1..];
      SplitCommaNoComma(x[1..]);
      assert [x[0]] + x[1..] == x;
    }
  }

  lemma {:induction false} SplitCommaJoin(x: string, y: string)
    requires ',' !in x
    ensures SplitComma(x + "," + y) == [x] + SplitComma(y)
    decreases |x|
  {
    if |x| == 0 {
      assert x + "," + y == [','] + y;
      assert (x + "," + y)[1..] == y;
    } else {
      var s := x + "," + y;
      assert s[0] == x[0];
      assert s[1..] == x[1..] + "," + y;
      assert ',' !in x[1..];
      SplitCommaJoin(x[1..], y);
      assert [x[0]] + x[1..] == x;
    }
  }

  /** A comma-separated list of language ids, as in a site language's
      `fallbacks`; `None` when some piece is not a decimal number. The empty
      string is the empty list. */
  function ParseIdList(s: string): (r: Option<seq<nat>>)
    ensures r.Some? && s != "" ==> |r.value| == |SplitComma(s)|
  {
    if s == "" then Some([]) else ParsePieces(SplitComma(s))
  }

  function ParsePieces(pieces: seq<string>): (r: Option<seq<nat>>)
    ensures r.Some? ==> |r.value| == |pieces|
  {
    if |pieces| == 0 then Some([])
    else if |pieces[0]| == 0 || !AllDigits(pieces[0]) then None
    else match ParsePieces(pieces[1..])
      case None => None
      case Some(rest) => Some([ParseNat(pieces[0])] + rest)
  }

  lemma NatToStringNoComma(n: nat)
    ensures ',' !in NatToString(n)
  {
  }

  lemma SinglePiece(x: string)
    requires 0 < |x| && AllDigits(x)
    ensures ParsePieces([x]) == Some([ParseNat(x)])
  {
    var ps := [x];
    assert ps[1..] == [];
    var n: nat := ParseNat(x);
    assert [n] + [] == [n];
    assert ParsePieces(ps) == Some([n]);
  }

  /** A single rendered id parses back to itself. */
  lemma ParseIdListSingle(a: nat)
    ensures ParseIdList(NatToString(a)) == Some([a])
  {
    var x := NatToString(a);
    NatToStringNoComma(a);
    SplitCommaNoComma(x);
    ParseNatToString(a);
    assert x != "";
    assert SplitComma(x) == [x];
    SinglePiece(x);
  }

  /** Two rendered ids joined by a comma parse back to both, in order. */
  lemma ParseIdListPair(a: nat, b: nat)
    ensures ParseIdList(NatToString(a) + "," + NatToString(b)) == Some([a, b])
  {
    var x, y := NatToString(a), NatToString(b);
    NatToStringNoComma(a);
    NatToStringNoComma(b);
    SplitCommaJoin(x, y);
    SplitCommaNoComma(y);
    ParseNatToString(a);
    ParseNatToString(b);
    var pieces := [x, y];
    assert SplitComma(y) == [y];
    assert SplitComma(x + "," + y) == pieces;
    assert x + "," + y != "";
    assert pieces[1..] == [y];
    SinglePiece(y);
    var m: nat, n: nat := ParseNat(x), ParseNat(y);
    assert [m] + [n] == [m, n];
    assert ParsePieces(pieces) == Some([m, n]);
  }
}
