/**
 * JavaScript building blocks the adapters rely on: JSON values as they arrive
 * from the upstream service, `Number()` and `String()` restricted to integers,
 * `String.prototype.trim` and `String.prototype.split` on one character, and the
 * nullish-coalescing field lookup `a.x ?? a.y ?? d`.
 */
module JsCore {

  datatype Option<+T> = None | Some(value: T) {
    /** `x ?? d`: the value when present, otherwise the default. */
    function GetOr(default: T): T {
      match this
      case Some(v) => v
      case None => default
    }
  }

  /** A JSON value. Numbers are restricted to integers. */
  datatype Json =
    | JNull
    | JBool(b: bool)
    | JNum(n: int)
    | JStr(s: string)
    | JArr(items: seq<Json>)
    | JObj(fields: map<string, Json>)

  /** Result of JavaScript's `Number(s)` on a string: an integer or NaN. */
  datatype Num = Int(v: int) | NaN

  // ---------------------------------------------------------------------------
  // Property lookup and `??`

  /** `obj[key]` read through `??`: absent keys and `null` both count as missing. */
  function Field(m: map<string, Json>, key: string): (r: Option<Json>)
    ensures r.Some? <==> key in m && m[key] != JNull
    ensures r.Some? ==> r.value == m[key]
  {
    if key in m && m[key] != JNull then Some(m[key]) else None
  }

  /** `m.k0 ?? m.k1 ?? ... ?? default`: the first key whose value is neither absent nor null. */
  function FirstPresent(m: map<string, Json>, keys: seq<string>): (r: Option<Json>)
    ensures r.None? <==> forall i :: 0 <= i < |keys| ==> Field(m, keys[i]).None?
    ensures r.Some? ==> exists i :: 0 <= i < |keys| && Field(m, keys[i]) == r
                          && forall j :: 0 <= j < i ==> Field(m, keys[j]).None?
  {
    if keys == [] then None
    else if Field(m, keys[0]).Some? then
      Field(m, keys[0])
    else
      var rest := FirstPresent(m, keys[1..]);
      if rest.Some? then
        var i :| 0 <= i < |keys[1..]| && Field(m, keys[1..][i]) == rest
                 && forall j :: 0 <= j < i ==> Field(m, keys[1..][j]).None?;
        assert Field(m, keys[i + 1]) == rest;
        assert forall j :: 0 <= j < i + 1 ==> Field(m, keys[j]).None? by {
          forall j | 0 <= j < i + 1 ensures Field(m, keys[j]).None? {
            if j > 0 { assert keys[j] == keys[1..][j - 1]; }
          }
        }
        rest
      else
        assert forall i :: 0 <= i < |keys| ==> Field(m, keys[i]).None? by {
          forall i | 0 <= i < |keys| ensures Field(m, keys[i]).None? {
            if i > 0 { assert keys[i] == keys[1..][i - 1]; }
          }
        }
        rest
  }

  /** A priority lookup is decided by its first key when that key is present. */
  lemma FirstPresentHead(m: map<string, Json>, keys: seq<string>)
    requires keys != [] && Field(m, keys[0]).Some?
    ensures FirstPresent(m, keys) == Field(m, keys[0])
  {
  }

  /** `m.a ?? m.b`: the first key when present, else the second. */
  lemma FirstPresentOfTwo(m: map<string, Json>, a: string, b: string)
    ensures FirstPresent(m, [a, b]) == if Field(m, a).Some? then Field(m, a) else Field(m, b)
  {
    assert [a, b][1..] == [b];
    assert [b][1..] == [];
  }

  /** Keys that are not consulted do not influence a priority lookup. */
  lemma {:induction false} FirstPresentIgnores(m: map<string, Json>, keys: seq<string>, k: string, v: Json)
    requires k !in keys
    ensures FirstPresent(m[k := v], keys) == FirstPresent(m, keys)
  {
    if keys != [] {
      assert Field(m[k := v], keys[0]) == Field(m, keys[0]);
      FirstPresentIgnores(m, keys[1..], k, v);
    }
  }

  // ---------------------------------------------------------------------------
  // Decimal rendering (`String(n)`) and parsing (`Number(s)`) of integers

  function DigitChar(d: nat): (c: char)
    requires d < 10
    ensures '0' <= c <= '9' && (c as int) - ('0' as int) == d
  {
    ['0', '1', '2', '3', '4', '5', '6', '7', '8', '9'][d]
  }

  predicate IsDigit(c: char) {
    '0' <= c <= '9'
  }

  /** `String(n)` for a non-negative integer: its shortest decimal digits. */
  function NatToString(n: nat): (r: string)
    ensures |r| >= 1
    ensures forall i :: 0 <= i < |r| ==> IsDigit(r[i])
    ensures r[0] == '0' ==> n == 0
  {
    if n < 10 then [DigitChar(n)] else NatToString(n / 10) + [DigitChar(n % 10)]
  }

  /** `String(n)` for any integer. */
  function IntToString(n: int): (r: string)
    ensures |r| >= 1
    ensures n >= 0 <==> r[0] != '-'
  {
    if n < 0 then "-" + NatToString(-n) else NatToString(n)
  }

  /** The value of a string of decimal digits. */
  function DigitsValue(s: string): (v: nat)
    requires forall i :: 0 <= i < |s| ==> IsDigit(s[i])
  {
    if s == [] then 0
    else
      assert IsDigit(s[|s| - 1]);
      DigitsValue(s[..|s| - 1]) * 10 + ((s[|s| - 1] as int) - ('0' as int))
  }

  lemma {:induction false} DigitsValueOfNatToString(n: nat)
    ensures DigitsValue(NatToString(n)) == n
  {
    var s := NatToString(n);
    if n >= 10 {
      DigitsValueOfNatToString(n / 10);
      assert s[..|s| - 1] == NatToString(n / 10);
    }
  }

  predicate AllDigits(s: string) {
    forall i :: 0 <= i < |s| ==> IsDigit(s[i])
  }

  /**
   * `Number(s)` for the strings this model handles: surrounding JavaScript
   * whitespace is ignored, the empty string is 0, and an optional sign followed
   * by decimal digits is that integer. Every other string is read as NaN.
   */
  function ToNumber(s: string): (r: Num)
    ensures s != [] && AllDigits(s) ==> r == Int(DigitsValue(s))
  {
    DigitsHaveNoSpaceEnds(s);
    var t := Trim(s);
    if t == [] then Int(0)
    else if AllDigits(t) then Int(DigitsValue(t))
    else if |t| > 1 && (t[0] == '+' || t[0] == '-') && AllDigits(t[1..]) then
      (if t[0] == '-' then Int(-(DigitsValue(t[1..]) as int)) else Int(DigitsValue(t[1..])))
    else NaN
  }

  /** `Number(String(n)) == n`: rendering an integer and reading it back is the identity. */
  lemma IntToStringRoundTrip(n: int)
    ensures ToNumber(IntToString(n)) == Int(n)
  {
    if n < 0 {
      NegativeRoundTrip(n);
    } else {
      NonNegativeRoundTrip(n);
    }
  }

  lemma NonNegativeRoundTrip(n: int)
    requires n >= 0
    ensures ToNumber(IntToString(n)) == Int(n)
  {
    var d := NatToString(n);
    assert IntToString(n) == d;
    assert AllDigits(d);
    DigitsValueOfNatToString(n);
  }

  lemma NegativeRoundTrip(n: int)
    requires n < 0
    ensures ToNumber(IntToString(n)) == Int(n)
  {
    var m: nat := -n;
    DigitsValueOfNatToString(m);
    NegativeDigitsNumber(NatToString(m), n);
    NegativeToString(n, m);
  }

  lemma NegativeToString(n: int, m: nat)
    requires n < 0 && m == -n
    ensures IntToString(n) == "-" + NatToString(m)
  {
  }

  /** A minus sign before the digits of `-v` reads back as `v`. */
  lemma NegativeDigitsNumber(d: string, v: int)
    requires d != [] && AllDigits(d) && DigitsValue(d) == -v
    ensures ToNumber("-" + d) == Int(v)
  {
    var s := "-" + d;
    assert s[1..] == d && s[|s| - 1] == d[|d| - 1];
    assert IsDigit(d[|d| - 1]);
    TrimOfNoSpaceEnds(s);
    assert !IsDigit(s[0]);
  }

  lemma DigitsHaveNoSpaceEnds(s: string)
    ensures s != [] && AllDigits(s) ==> Trim(s) == s
  {
    if s != [] && AllDigits(s) {
      assert IsDigit(s[0]) && IsDigit(s[|s| - 1]);
      TrimOfNoSpaceEnds(s);
    }
  }

  /** `String(n)` is injective on integers. */
  lemma IntToStringInjective(a: int, b: int)
    requires IntToString(a) == IntToString(b)
    ensures a == b
  {
    IntToStringRoundTrip(a);
    IntToStringRoundTrip(b);
  }

  // ---------------------------------------------------------------------------
  // String.prototype.trim

  /** The ECMAScript WhiteSpace and LineTerminator code points removed by `trim()`. */
  predicate IsJsSpace(c: char) {
    if c <= '\U{0020}' then
      ('\U{0009}' <= c <= '\U{000D}') || c == '\U{0020}'
    else if c < '\U{00A0}' then false
    else
      || c == '\U{00A0}' || c == '\U{1680}' || ('\U{2000}' <= c <= '\U{200A}')
      || c == '\U{2028}' || c == '\U{2029}' || c == '\U{202F}' || c == '\U{205F}'
      || c == '\U{3000}' || c == '\U{FEFF}'
  }

  function TrimStart(s: string): (r: string)
    ensures |r| <= |s| && r == s[|s| - |r|..]
    ensures r != [] ==> !IsJsSpace(r[0])
    ensures forall i :: 0 <= i < |s| - |r| ==> IsJsSpace(s[i])
  {
    if s != [] && IsJsSpace(s[0]) then
      var r := TrimStart(s[1..]);
      assert forall i :: 1 <= i < |s| - |r| ==> s[i] == s[1..][i - 1];
      r
    else s
  }

  function TrimEnd(s: string): (r: string)
    ensures |r| <= |s| && r == s[..|r|]
    ensures r != [] ==> !IsJsSpace(r[|r| - 1])
    ensures forall i :: |r| <= i < |s| ==> IsJsSpace(s[i])
  {
    if s != [] && IsJsSpace(s[|s| - 1]) then TrimEnd(s[..|s| - 1]) else s
  }

  /** How many whitespace characters `trimStart()` removes from the front of `s`. */
  function LeadingSpaces(s: string): (n: nat)
    ensures n <= |s|
  {
    |s| - |TrimStart(s)|
  }

  /**
   * `trim()`: the slice of `s` that starts after its leading whitespace, with
   * only whitespace after it, and no whitespace at either of its ends.
   */
  function Trim(s: string): (r: string)
    ensures |r| <= |s|
    ensures r != [] ==> !IsJsSpace(r[0]) && !IsJsSpace(r[|r| - 1])
    ensures LeadingSpaces(s) + |r| <= |s| && r == s[LeadingSpaces(s)..LeadingSpaces(s) + |r|]
    ensures forall k :: 0 <= k < LeadingSpaces(s) ==> IsJsSpace(s[k])
    ensures forall k :: LeadingSpaces(s) + |r| <= k < |s| ==> IsJsSpace(s[k])
  {
    var a := TrimStart(s);
    var r := TrimEnd(a);
    assert r != [] ==> r[0] == a[0];
    TrimIsMiddle(s, a, r);
    r
  }

  /** Trimming the start, then the end, leaves a slice with only whitespace after it. */
  lemma TrimIsMiddle(s: string, a: string, r: string)
    requires |a| <= |s| && a == s[|s| - |a|..]
    requires |r| <= |a| && r == a[..|r|] && forall k :: |r| <= k < |a| ==> IsJsSpace(a[k])
    ensures r == s[|s| - |a|..|s| - |a| + |r|]
    ensures forall k :: |s| - |a| + |r| <= k < |s| ==> IsJsSpace(s[k])
  {
    var i := |s| - |a|;
    forall k | i + |r| <= k < |s| ensures IsJsSpace(s[k]) {
      assert s[k] == a[k - i];
    }
  }

  /** A string of whitespace only trims to the empty string, and only such strings do. */
  lemma TrimEmptyIff(s: string)
    ensures Trim(s) == [] <==> forall k :: 0 <= k < |s| ==> IsJsSpace(s[k])
  {
    var a := TrimStart(s);
    if a != [] {
      assert s[|s| - |a|] == a[0];
    }
  }

  /** A string that neither starts nor ends with whitespace is its own trim. */
  lemma TrimOfNoSpaceEnds(s: string)
    requires s != [] ==> !IsJsSpace(s[0]) && !IsJsSpace(s[|s| - 1])
    ensures Trim(s) == s
  {
  }

  /** Trimming is idempotent. */
  lemma TrimIdempotent(s: string)
    ensures Trim(Trim(s)) == Trim(s)
  {
    TrimOfNoSpaceEnds(Trim(s));
  }

  // ---------------------------------------------------------------------------
  // String.prototype.split on a single separator character

  /** `s.split(sep)` for a one-character separator. */
  function Split(s: string, sep: char): (parts: seq<string>)
    ensures |parts| >= 1
    ensures forall p :: p in parts ==> sep !in p
  {
    if sep !in s then [s]
    else
      var i := IndexOf(s, sep);
      [s[..i]] + Split(s[i + 1..], sep)
  }

  function IndexOf(s: string, c: char): (i: nat)
    requires c in s
    ensures i < |s| && s[i] == c && c !in s[..i]
  {
    if s[0] == c then 0 else 1 + IndexOf(s[1..], c)
  }

  /** The number of occurrences of `c` in `s`. */
  function Count(s: string, c: char): nat {
    if s == [] then 0 else (if s[0] == c then 1 else 0) + Count(s[1..], c)
  }

  lemma {:induction false} CountAppend(a: string, b: string, c: char)
    ensures Count(a + b, c) == Count(a, c) + Count(b, c)
  {
    if a != [] {
      calc {
        Count(a + b, c);
        (if a[0] == c then 1 else 0) + Count((a + b)[1..], c);
        { assert (a + b)[1..] == a[1..] + b; }
        (if a[0] == c then 1 else 0) + Count(a[1..] + b, c);
        { CountAppend(a[1..], b, c); }
        Count(a, c) + Count(b, c);
      }
    } else {
      assert a + b == b;
    }
  }

  lemma {:induction false} CountAbsent(s: string, c: char)
    requires c !in s
    ensures Count(s, c) == 0
  {
    if s != [] { CountAbsent(s[1..], c); }
  }

  /** Joining parts with a separator character. */
  function Join(parts: seq<string>, sep: char): string
    requires |parts| >= 1
  {
    if |parts| == 1 then parts[0] else parts[0] + [sep] + Join(parts[1..], sep)
  }

  /** Splitting yields one more part than there are separators. */
  lemma {:induction false} SplitCount(s: string, sep: char)
    ensures |Split(s, sep)| == Count(s, sep) + 1
    decreases |s|
  {
    if sep !in s {
      CountAbsent(s, sep);
    } else {
      var i := IndexOf(s, sep);
      assert s == s[..i] + [sep] + s[i + 1..];
      CountAppend(s[..i] + [sep], s[i + 1..], sep);
      CountAppend(s[..i], [sep], sep);
      CountAbsent(s[..i], sep);
      SplitCount(s[i + 1..], sep);
    }
  }

  /** Splitting and joining back with the same separator restores the string. */
  lemma {:induction false} SplitJoin(s: string, sep: char)
    ensures Join(Split(s, sep), sep) == s
    decreases |s|
  {
    if sep in s {
      var i := IndexOf(s, sep);
      var rest := Split(s[i + 1..], sep);
      SplitJoin(s[i + 1..], sep);
      JoinCons(s[..i], rest, sep);
      SplitAround(s, i);
    }
  }

  /** A string is the part before position `i`, the character there, and the part after. */
  lemma SplitAround(s: string, i: nat)
    requires i < |s|
    ensures s == s[..i] + [s[i]] + s[i + 1..]
  {
  }

  /** Joining a first part in front of further parts puts one separator between them. */
  lemma JoinCons(p: string, rest: seq<string>, sep: char)
    requires |rest| >= 1
    ensures Join([p] + rest, sep) == p + [sep] + Join(rest, sep)
  {
    assert ([p] + rest)[1..] == rest;
  }

  lemma {:induction false} JoinAppend(parts: seq<string>, x: string, sep: char)
    requires |parts| >= 1
    ensures Join(parts + [x], sep) == Join(parts, sep) + ([sep] + x)
  {
    if |parts| > 1 {
      assert (parts + [x])[1..] == parts[1..] + [x];
      JoinAppend(parts[1..], x, sep);
    }
  }

  /** Joining parts that do not contain the separator and splitting again gives the parts back. */
  lemma {:induction false} JoinSplit(parts: seq<string>, sep: char)
    requires |parts| >= 1 && forall i :: 0 <= i < |parts| ==> sep !in parts[i]
    ensures Split(Join(parts, sep), sep) == parts
  {
    if |parts| > 1 {
      var p, rest := parts[0], Join(parts[1..], sep);
      JoinSplit(parts[1..], sep);
      SplitAtFirst(p, rest, sep);
      assert [p] + parts[1..] == parts;
    }
  }

  /** Splitting at a separator that follows a separator-free part cuts off exactly that part. */
  lemma SplitAtFirst(p: string, rest: string, sep: char)
    requires sep !in p
    ensures Split(p + [sep] + rest, sep) == [p] + Split(rest, sep)
  {
    var s := p + [sep] + rest;
    assert s[|p|] == sep;
    var i := IndexOf(s, sep);
    assert s[..|p|] == p;
    assert s[..i] == p && s[i + 1..] == rest;
  }

  // ---------------------------------------------------------------------------
  // String(value) and object spread on JSON values

  /** `String(v)`: how a JSON value is written into a template string or URL path. */
  function JsString(v: Json): string {
    match v
    case JNull => "null"
    case JBool(b) => if b then "true" else "false"
    case JNum(n) => IntToString(n)
    case JStr(s) => s
    case JArr(items) => JoinItems(items)
    case JObj(_) => "[object Object]"
  }

  /** `Array.prototype.join(',')` as `String()` uses it: a null element becomes `''`. */
  function JoinItems(items: seq<Json>): string
    decreases items, 0
  {
    if items == [] then ""
    else
      var first := if items[0].JNull? then "" else JsString(items[0]);
      if |items| == 1 then first else first + "," + JoinItems(items[1..])
  }

  /**
   * `{ ...v }`: the own enumerable properties of a JSON value as an object.
   * `null`, numbers and booleans have none, strings and arrays contribute one
   * entry per index, and an object contributes its own properties.
   */
  function Spread(v: Json): (r: map<string, Json>)
    ensures v.JObj? ==> r == v.fields
    ensures v.JNull? || v.JBool? || v.JNum? ==> r == map[]
  {
    match v
    case JNull => map[]
    case JBool(_) => map[]
    case JNum(_) => map[]
    case JStr(s) => Indexed(seq(|s|, i requires 0 <= i < |s| => JStr([s[i]])))
    case JArr(items) => Indexed(items)
    case JObj(m) => m
  }

  /** The index-keyed object `{ "0": xs[0], "1": xs[1], ... }`. */
  function Indexed(xs: seq<Json>): (m: map<string, Json>)
    ensures forall i :: 0 <= i < |xs| ==> IntToString(i) in m && m[IntToString(i)] == xs[i]
    ensures m.Keys == IndexKeys(|xs|)
    ensures forall k :: k in m ==> k != [] && AllDigits(k)
  {
    if xs == [] then map[]
    else
      var n := |xs| - 1;
      var rest := Indexed(xs[..n]);
      IndexedValues(rest, xs);
      IndexKeysStep(n);
      IndexedDigits(rest, n, xs[n]);
      rest[IntToString(n) := xs[n]]
  }

  /** The keys `"0"`, ..., the decimal rendering of `n - 1`. */
  function IndexKeys(n: nat): set<string> {
    set i | 0 <= i < n :: IntToString(i)
  }

  lemma IndexKeysStep(n: nat)
    ensures IndexKeys(n + 1) == IndexKeys(n) + {IntToString(n)}
  {
    assert forall k :: k in IndexKeys(n + 1) ==> k in IndexKeys(n) + {IntToString(n)};
  }

  /** Adding the last element under its index keeps every earlier entry. */
  lemma IndexedValues(m: map<string, Json>, xs: seq<Json>)
    requires xs != []
    requires forall i :: 0 <= i < |xs| - 1 ==> IntToString(i) in m && m[IntToString(i)] == xs[..|xs| - 1][i]
    ensures var n := |xs| - 1;
            forall i :: 0 <= i < |xs| ==> IntToString(i) in m[IntToString(n) := xs[n]]
                                          && m[IntToString(n) := xs[n]][IntToString(i)] == xs[i]
  {
    var n := |xs| - 1;
    forall i | 0 <= i < n ensures IntToString(i) != IntToString(n) {
      if IntToString(i) == IntToString(n) { IntToStringInjective(i, n); }
    }
  }

  lemma IndexedDigits(m: map<string, Json>, n: nat, x: Json)
    requires forall k :: k in m ==> k != [] && AllDigits(k)
    ensures forall k :: k in m[IntToString(n) := x] ==> k != [] && AllDigits(k)
  {
    assert IntToString(n) == NatToString(n);
  }
}
