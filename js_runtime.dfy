/**
 * The pieces of the JavaScript runtime that the three scripts lean on:
 * SHA-256 and JSON.stringify (kept abstract, supplied by the caller),
 * the Number-to-String conversion used when a nonce or index is
 * concatenated into a hash preimage, Math.random-based getRandomInt, and
 * the error outcome of dereferencing `undefined`.
 */
module JsRuntime {

  /** A value the scripts may store in a block payload or roster. */
  datatype Value = Num(n: int) | Str(s: string)

  /** A plain object literal such as `{ amount: 100 }`: its properties in insertion order. */
  type Payload = seq<(string, Value)>

  /** A payload read from an object literal names every property once. */
  predicate DistinctKeys(p: Payload) {
    forall i, j :: 0 <= i < j < |p| ==> p[i].0 != p[j].0
  }

  /**
   * `obj.key = v` on a payload whose keys are not integer-like: an
   * existing property keeps its place and takes the new value; a missing
   * one is appended.
   */
  function SetField(p: Payload, key: string, v: Value): (q: Payload)
    requires DistinctKeys(p)
    ensures DistinctKeys(q)
    ensures (key, v) in q
    ensures forall e :: e in q && e.0 == key ==> e.1 == v
    ensures forall e :: e in p && e.0 != key ==> e in q
    ensures forall e :: e in q && e.0 != key ==> e in p
  {
    if p == [] then [(key, v)]
    else if p[0].0 == key then
      assert forall e :: e in p[1..] ==> e.0 != key by {
        forall e | e in p[1..] ensures e.0 != key {
          var k :| 0 <= k < |p[1..]| && p[1..][k] == e;
          assert p[k + 1] == e;
        }
      }
      [(key, v)] + p[1..]
    else
      var rest := SetField(p[1..], key, v);
      assert forall e :: e in rest ==> e.0 != p[0].0 by {
        forall e | e in rest ensures e.0 != p[0].0 {
          if e.0 != key {
            var k :| 0 <= k < |p[1..]| && p[1..][k] == e;
            assert p[k + 1] == e;
          }
        }
      }
      [p[0]] + rest
  }

  /** The outcome of a script function: a value, or the TypeError raised by `undefined.name`. */
  datatype Result<T> = Success(value: T) | Failure(error: string)

  const TypeError: string := "TypeError"

  datatype Option<T> = None | Some(value: T)

  /**
   * The library functions the scripts call but whose internals are out of
   * scope: `crypto.createHash('sha256').update(s).digest('hex')` and
   * `JSON.stringify`. Every operation that hashes takes one of these.
   */
  datatype Js = Js(sha256: string -> string, stringify: Payload -> string)

  predicate IsHexDigit(c: char) {
    '0' <= c <= '9' || 'a' <= c <= 'f'
  }

  /** What `.digest('hex')` of SHA-256 produces: 64 lower-case hex digits. */
  predicate IsHexDigest(s: string) {
    |s| == 64 && forall i :: 0 <= i < |s| ==> IsHexDigit(s[i])
  }

  ghost predicate DigestsAreHex(js: Js) {
    forall s :: IsHexDigest(js.sha256(s))
  }

  /** SHA-256 and JSON.stringify never map two different inputs to one output. */
  ghost predicate CollisionFree(js: Js) {
    (forall s, t :: js.sha256(s) == js.sha256(t) ==> s == t) &&
    (forall p, q :: js.stringify(p) == js.stringify(q) ==> p == q)
  }

  function DigitChar(d: nat): (c: char)
    requires d < 10
    ensures '0' <= c <= '9' && c as int - '0' as int == d
  {
    ['0', '1', '2', '3', '4', '5', '6', '7', '8', '9'][d]
  }

  /**
   * `"" + n` for a non-negative integer n: its decimal digits, most
   * significant first, with no leading zero.
   */
  function NatToString(n: nat): (s: string)
    ensures 1 <= |s|
    ensures forall i :: 0 <= i < |s| ==> '0' <= s[i] <= '9'
    ensures s[|s| - 1] as int - '0' as int == n % 10
    ensures 10 <= n ==> 2 <= |s| && s[0] != '0'
    ensures n < 10 <==> |s| == 1
  {
    if n < 10 then [DigitChar(n)] else NatToString(n / 10) + [DigitChar(n % 10)]
  }

  /** Different numbers print differently, so a preimage ending in the nonce determines the nonce. */
  lemma {:induction false} NatToStringInjective(m: nat, n: nat)
    requires NatToString(m) == NatToString(n)
    ensures m == n
  {
    if 10 <= m && 10 <= n {
      var sm, sn := NatToString(m), NatToString(n);
      assert sm[..|sm| - 1] == NatToString(m / 10);
      assert sn[..|sn| - 1] == NatToString(n / 10);
      NatToStringInjective(m / 10, n / 10);
    }
  }

  /** `a + x + b == a + y + b` forces `x == y`. */
  lemma CancelAround(a: string, x: string, y: string, b: string)
    requires a + x + b == a + y + b
    ensures x == y
  {
    var s := a + x + b;
    assert |x| == |y|;
    assert x == s[|a|..|a| + |x|];
    assert y == (a + y + b)[|a|..|a| + |y|];
  }

  /** Math.random() as the integer u / 2^53 it is built from: u < RandomScale. */
  const RandomScale: nat := 0x20_0000_0000_0000

  /**
   * `getRandomInt(min, max)`, i.e. `Math.floor(Math.random() * (max - min + 1) + min)`,
   * with Math.random() == u / RandomScale. For `min <= max` the result lies in
   * `[min, max]`; for `max == min - 1` (an empty range) it is `min`.
   */
  function GetRandomInt(min: int, max: int, u: nat): (r: int)
    requires u < RandomScale
    ensures min <= max ==> min <= r <= max
    ensures max == min - 1 ==> r == min
  {
    var width := max - min + 1;
    assert 0 < width ==> 0 <= (u * width) / RandomScale < width by {
      if 0 < width { DrawBelow(u, width); }
    }
    (u * width) / RandomScale + min
  }

  /** `floor(u * n / RandomScale)` is an index below n. */
  lemma DrawBelow(u: nat, n: nat)
    requires u < RandomScale && 0 < n
    ensures 0 <= (u * n) / RandomScale < n
  {
    assert u * n < RandomScale * n by {
      assert (RandomScale - u) * n > 0;
    }
    var q := (u * n) / RandomScale;
    assert q * RandomScale <= u * n;
  }

  /** `Array(n + 1).join('0')`: the string of n zeros. */
  function Zeros(n: nat): (z: string)
    ensures |z| == n
    ensures forall i :: 0 <= i < n ==> z[i] == '0'
  {
    if n == 0 then "" else Zeros(n - 1) + "0"
  }

  /** `s.substring(0, end)` for `end >= 0`: the end is clamped to the length. */
  function Prefix(s: string, end: nat): (p: string)
    ensures |p| == if end <= |s| then end else |s|
    ensures p <= s
  {
    if end <= |s| then s[..end] else s
  }
}
