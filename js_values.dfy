/**
 * The slice of JavaScript's runtime semantics that the decoding and CSV code
 * relies on: numbers (integral values and NaN), loosely typed JSON values,
 * truthiness, `toString`, and the string operations `indexOf`, `split` and
 * `join`.
 */
module JsValues {
  import opened Wrappers

  /** A JavaScript number. Integral values are modelled exactly; NaN is its own value. */
  datatype Number = Int(n: int) | NaN

  /** A value as it arrives in the platform's JSON. `Undefined` is a missing slot or key. */
  datatype Wire =
    | Undefined
    | Null
    | Bool(b: bool)
    | Num(num: Number)
    | Str(s: string)
    | Arr(items: seq<Wire>)

  /** JavaScript truthiness: what `if (w)` and `w ? x : y` test. */
  predicate Truthy(w: Wire) {
    match w
    case Undefined => false
    case Null => false
    case Bool(b) => b
    case Num(x) => x.Int? && x.n != 0
    case Str(s) => s != ""
    case Arr(_) => true
  }

  function DigitChar(d: nat): (c: char)
    requires d < 10
    ensures '0' <= c <= '9'
  {
    ('0' as int + d) as char
  }

  /** Decimal digits of a natural number, most significant first. */
  function Digits(n: nat): (r: string)
    ensures 1 <= |r|
    ensures forall k :: 0 <= k < |r| ==> '0' <= r[k] <= '9'
    decreases n
  {
    if n < 10 then [DigitChar(n)] else Digits(n / 10) + [DigitChar(n % 10)]
  }

  /** `Number.prototype.toString()` on the modelled numbers. */
  function NumberToString(x: Number): (r: string)
    ensures r != ""
    ensures ',' !in r && '\n' !in r && '\r' !in r
  {
    match x
    case NaN => "NaN"
    case Int(n) => if n < 0 then "-" + Digits(-n) else Digits(n)
  }

  /**
   * `w.toString()`: None where JavaScript throws a TypeError (undefined, null).
   * Arrays render as their elements joined by ",", undefined and null elements as "".
   */
  function StringOf(w: Wire): (r: Option<string>)
    ensures r.None? <==> w.Undefined? || w.Null?
    decreases w, 1, 0
  {
    match w
    case Undefined => None
    case Null => None
    case Bool(b) => Some(if b then "true" else "false")
    case Num(x) => Some(NumberToString(x))
    case Str(s) => Some(s)
    case Arr(items) => Some(JoinItems(w, 0))
  }

  /** `Array.prototype.join(",")` on the elements of `w` from position `k` on. */
  function JoinItems(w: Wire, k: nat): string
    requires w.Arr? && k <= |w.items|
    decreases w, 0, |w.items| - k
  {
    if k == |w.items| then ""
    else
      var item := w.items[k];
      var head := if item.Undefined? || item.Null? then "" else StringOf(item).value;
      head + (if k + 1 == |w.items| then "" else "," + JoinItems(w, k + 1))
  }

  /** `String(w)`, the property key `obj[w]` looks up: unlike `toString`, it names undefined and null. */
  function PropertyKey(w: Wire): string {
    match w
    case Undefined => "undefined"
    case Null => "null"
    case _ => StringOf(w).value
  }

  /**
   * The element of an array of `len` elements that property key `key` names:
   * position `n` exactly when the key is the decimal text of `n`, without a
   * sign or a leading zero; any other key names no element
   * (`ArrayIndexFinds` states the converse).
   */
  function ArrayIndex(key: string, len: nat): (r: Option<nat>)
    ensures r.Some? ==> r.value < len && Digits(r.value) == key
  {
    IndexFrom(key, 0, len)
  }

  function IndexFrom(key: string, n: nat, len: nat): (r: Option<nat>)
    requires n <= len
    ensures r.Some? ==> n <= r.value < len && Digits(r.value) == key
    decreases len - n
  {
    if n == len then None
    else if Digits(n) == key then Some(n)
    else IndexFrom(key, n + 1, len)
  }

  /** The decimal text of a position below `len` names that position. */
  lemma ArrayIndexFinds(key: string, len: nat, n: nat)
    requires n < len && key == Digits(n)
    ensures ArrayIndex(key, len) == Some(n)
  {
    IndexFromFinds(key, 0, len, n);
    DigitsInjective(ArrayIndex(key, len).value, n);
  }

  lemma {:induction false} IndexFromFinds(key: string, from: nat, len: nat, n: nat)
    requires from <= n < len && key == Digits(n)
    ensures IndexFrom(key, from, len).Some?
    decreases len - from
  {
    if Digits(from) != key {
      IndexFromFinds(key, from + 1, len, n);
    }
  }

  /** Different numbers have different decimal texts. */
  lemma {:induction false} DigitsInjective(a: nat, b: nat)
    requires Digits(a) == Digits(b)
    ensures a == b
    decreases a
  {
    if a >= 10 && b >= 10 {
      var da := Digits(a);
      assert da == Digits(a / 10) + [DigitChar(a % 10)] == Digits(b / 10) + [DigitChar(b % 10)];
      assert Digits(a / 10) == da[..|da| - 1] == Digits(b / 10);
      DigitsInjective(a / 10, b / 10);
    }
  }

  /** Only zero is written with a leading `0`. */
  lemma {:induction false} DigitsLeadingZero(n: nat)
    requires Digits(n)[0] == '0'
    ensures n == 0
    decreases n
  {
    if n >= 10 {
      assert Digits(n)[0] == Digits(n / 10)[0];
      DigitsLeadingZero(n / 10);
    }
  }

  /**
   * `s.indexOf(c)` on strings, `s.findIndex(v => v == c)` on arrays: the
   * first position of `c` in `s`, or -1.
   */
  function IndexOf<T(==)>(s: seq<T>, c: T): (r: int)
    ensures -1 <= r < |s|
    ensures r == -1 <==> c !in s
    ensures 0 <= r ==> s[r] == c && c !in s[..r]
  {
    if |s| == 0 then -1
    else if s[0] == c then 0
    else
      var k := IndexOf(s[1..], c);
      if k < 0 then -1
      else
        assert s[..k + 1] == [s[0]] + s[1..][..k];
        k + 1
  }

  /** `s.findIndex(p)`: the first position whose element satisfies `p`, or -1. */
  function FindIndex<T>(s: seq<T>, p: T -> bool): (r: int)
    ensures -1 <= r < |s|
    ensures r == -1 <==> forall k :: 0 <= k < |s| ==> !p(s[k])
    ensures 0 <= r ==> p(s[r]) && forall k :: 0 <= k < r ==> !p(s[k])
  {
    if |s| == 0 then -1
    else if p(s[0]) then 0
    else
      var k := FindIndex(s[1..], p);
      if k == -1 then -1 else k + 1
  }

  /** `s.find(p)`: the first element satisfying `p`, or undefined. */
  function Find<T>(s: seq<T>, p: T -> bool): (r: Option<T>)
    ensures r.None? <==> forall k :: 0 <= k < |s| ==> !p(s[k])
    ensures r.Some? ==> p(r.value) && r.value in s
    ensures r.Some? ==> exists k :: 0 <= k < |s| && r.value == s[k] && forall j :: 0 <= j < k ==> !p(s[j])
  {
    var k := FindIndex(s, p);
    if k == -1 then None else Some(s[k])
  }

  /** `parts.join(sep)`. */
  function Join(parts: seq<string>, sep: string): string {
    if |parts| == 0 then ""
    else if |parts| == 1 then parts[0]
    else parts[0] + sep + Join(parts[1..], sep)
  }

  /** Joining one more part appends the separator and that part. */
  lemma {:induction false} JoinSnoc(parts: seq<string>, x: string, sep: string)
    requires |parts| >= 1
    ensures Join(parts + [x], sep) == Join(parts, sep) + sep + x
  {
    if |parts| > 1 {
      JoinSnoc(parts[1..], x, sep);
      assert (parts + [x])[1..] == parts[1..] + [x];
    }
  }

  /**
   * `s.split(c)` for a one-character separator: the pieces between the
   * occurrences of `c`, never an empty list, and joining them back gives `s`.
   */
  function Split(s: string, c: char): (parts: seq<string>)
    ensures 1 <= |parts|
    ensures forall k :: 0 <= k < |parts| ==> c !in parts[k]
    ensures Join(parts, [c]) == s
    decreases |s|
  {
    var k := IndexOf(s, c);
    if k < 0 then [s]
    else
      var rest := Split(s[k + 1..], c);
      assert s == s[..k] + [c] + s[k + 1..];
      [s[..k]] + rest
  }
}
