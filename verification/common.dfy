/** Shared vocabulary of the model: optional values, JavaScript numbers that
    may be NaN, `Math.round`, and the few string operations the application
    takes from the JavaScript runtime (`trim`, ASCII upper-casing, `slice`). */
module Common {

  datatype Option<+T> = None | Some(value: T)

  /** A JavaScript number as produced by `Number(text)`: a finite value or NaN. */
  datatype JsNum = NaN | Num(v: real)

  /** JavaScript truthiness of a number: neither NaN nor zero. */
  predicate Truthy(n: JsNum)
  {
    n.Num? && n.v != 0.0
  }

  /** `n || d` for a number `n` and a default `d`. */
  function OrDefault(n: JsNum, d: real): (r: real)
    ensures Truthy(n) ==> r == n.v
    ensures !Truthy(n) ==> r == d
  {
    if Truthy(n) then n.v else d
  }

  /** `Math.round`: round half up, also for negative values. */
  function Round(x: real): (r: int)
    ensures x - 0.5 < r as real <= x + 0.5
  {
    (x + 0.5).Floor
  }

  lemma RoundMonotone(x: real, y: real)
    requires x <= y
    ensures Round(x) <= Round(y)
  {
  }

  lemma RoundOfInt(n: int)
    ensures Round(n as real) == n
  {
  }

  function Max(a: int, b: int): int
  {
    if a >= b then a else b
  }

  /** How many UTF-16 code units encode `c`: two for a character outside
      the Basic Multilingual Plane (a surrogate pair), one otherwise. */
  function UnidadesUtf16(c: char): nat
  {
    if c as int >= 0x10000 then 2 else 1
  }

  /** A JavaScript string's `length`: the number of UTF-16 code units of
      `s`, between one and two per character, and one per character exactly
      when none lies outside the Basic Multilingual Plane. */
  function LargoUtf16(s: string): (n: nat)
    ensures |s| <= n <= 2 * |s|
    ensures n == |s| <==> forall i :: 0 <= i < |s| ==> UnidadesUtf16(s[i]) == 1
  {
    if s == [] then 0
    else
      var n := UnidadesUtf16(s[0]) + LargoUtf16(s[1..]);
      assert forall i :: 0 < i < |s| ==> s[i] == s[1..][i - 1];
      n
  }

  /** Two emoji are two characters but four UTF-16 code units. */
  lemma DosEmojisSonCuatroUnidades()
    ensures |"\U{1F600}\U{1F600}"| == 2
    ensures LargoUtf16("\U{1F600}\U{1F600}") == 4
  {
    var s := "\U{1F600}\U{1F600}";
    assert s[1..][1..] == [];
  }

  /** The characters JavaScript's `String.prototype.trim` removes: white space
      and line terminators. */
  predicate IsJsSpace(c: char)
  {
    var k := c as int;
    (9 <= k <= 13) || k == 0x20 || k == 0xA0 || k == 0x1680
    || (0x2000 <= k <= 0x200A) || k == 0x2028 || k == 0x2029
    || k == 0x202F || k == 0x205F || k == 0x3000 || k == 0xFEFF
  }

  function TrimStart(s: string): (r: string)
    ensures |r| <= |s| && r == s[|s| - |r|..]
    ensures r == [] || !IsJsSpace(r[0])
    ensures forall i :: 0 <= i < |s| - |r| ==> IsJsSpace(s[i])
  {
    if s != [] && IsJsSpace(s[0]) then TrimStart(s[1..]) else s
  }

  function TrimEnd(s: string): (r: string)
    ensures |r| <= |s| && r == s[..|r|]
    ensures r == [] || !IsJsSpace(r[|r| - 1])
    ensures forall i :: |r| <= i < |s| ==> IsJsSpace(s[i])
  {
    if s != [] && IsJsSpace(s[|s| - 1]) then TrimEnd(s[..|s| - 1]) else s
  }

  /** `s.trim()` */
  function Trim(s: string): (r: string)
    ensures |r| <= |s|
    ensures r == [] || (!IsJsSpace(r[0]) && !IsJsSpace(r[|r| - 1]))
    // a slice of `s` with only white space around it
    ensures exists a, b ::
      && 0 <= a <= b <= |s| && r == s[a..b]
      && (forall i :: 0 <= i < a ==> IsJsSpace(s[i]))
      && (forall i :: b <= i < |s| ==> IsJsSpace(s[i]))
  {
    var t := TrimStart(s);
    var r := TrimEnd(t);
    RecorteEsTajada(s, t, r);
    r
  }

  /** A string that neither starts nor ends with white space is its own
      trimmed form. */
  lemma TrimSinBordes(s: string)
    requires s != [] && !IsJsSpace(s[0]) && !IsJsSpace(s[|s| - 1])
    ensures Trim(s) == s
  {
    assert TrimStart(s) == s;
  }

  /** Removing white space from the front of `s` to get `t`, then from the
      back of `t` to get `r`, leaves a slice of `s`. */
  lemma RecorteEsTajada(s: string, t: string, r: string)
    requires |t| <= |s| && t == s[|s| - |t|..]
    requires forall i :: 0 <= i < |s| - |t| ==> IsJsSpace(s[i])
    requires |r| <= |t| && r == t[..|r|]
    requires forall i :: |r| <= i < |t| ==> IsJsSpace(t[i])
    ensures exists a, b ::
      && 0 <= a <= b <= |s| && r == s[a..b]
      && (forall i :: 0 <= i < a ==> IsJsSpace(s[i]))
      && (forall i :: b <= i < |s| ==> IsJsSpace(s[i]))
  {
    var a := |s| - |t|;
    var b := a + |r|;
    assert r == s[a..b];
    assert forall i :: b <= i < |s| ==> s[i] == t[i - a];
  }

  predicate IsAsciiLower(c: char)
  {
    'a' <= c <= 'z'
  }

  predicate IsAsciiUpper(c: char)
  {
    'A' <= c <= 'Z'
  }

  /** `toUpperCase` restricted to ASCII letters. */
  function UpperChar(c: char): (r: char)
    ensures IsAsciiLower(c) ==> IsAsciiUpper(r)
    ensures !IsAsciiLower(c) ==> r == c
  {
    if IsAsciiLower(c) then (c as int - 32) as char else c
  }

  function Upper(s: string): (r: string)
    ensures |r| == |s|
    ensures forall i :: 0 <= i < |s| ==> r[i] == UpperChar(s[i])
  {
    if s == [] then [] else [UpperChar(s[0])] + Upper(s[1..])
  }

  /** `s.slice(0, n)` for a non-negative `n`. */
  function Take<T>(s: seq<T>, n: nat): (r: seq<T>)
    ensures |r| == if n < |s| then n else |s|
    ensures r == s[..|r|]
  {
    if n < |s| then s[..n] else s
  }

  /** Whether `sub` occurs in `s` (`s.includes(sub)`). */
  predicate Contains(s: string, sub: string)
  {
    StartsWith(s, sub) || (s != [] && Contains(s[1..], sub))
  }

  /** `s.startsWith(p)` */
  predicate StartsWith(s: string, p: string)
  {
    |p| <= |s| && s[..|p|] == p
  }

  /** Decimal rendering of an integer, as a template literal shows it. */
  function NatToString(n: nat): (r: string)
    ensures |r| >= 1
    decreases n
  {
    var d := ['0' + (n % 10) as char];
    if n < 10 then d else NatToString(n / 10) + d
  }
}
