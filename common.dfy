/** Small shared datatypes: optional values and the content of a browser storage key. */
module Common {

  /** A JavaScript value that may be null or undefined. */
  datatype Option<+T> = None | Some(value: T) {
    function GetOr(default: T): T {
      match this
      case Some(v) => v
      case None => default
    }
  }

  /** What `JSON.parse(localStorage.getItem(key))` yields: the key is absent or holds the
      empty string (both falsy), the text does not parse, or it parses to a value. */
  datatype Stored<+T> = Missing | Corrupt | Parsed(value: T)

  /** JavaScript `s || d` for a string that may be missing: '' is falsy. */
  function OrDefault(s: Option<string>, d: string): (r: string)
    ensures s.Some? && s.value != "" ==> r == s.value
    ensures (s.None? || s.value == "") ==> r == d
  {
    if s.Some? && s.value != "" then s.value else d
  }

  /** JavaScript `s || null` for a string that may be missing. */
  function OrNull(s: Option<string>): (r: Option<string>)
    ensures r.Some? <==> s.Some? && s.value != ""
    ensures r.Some? ==> r == s
  {
    if s.Some? && s.value != "" then s else None
  }

  /** A present, non-empty string: what a JavaScript `if (s)` accepts. */
  predicate Truthy(s: Option<string>) {
    s.Some? && s.value != ""
  }

  /** Integer quotient by repeated subtraction, so that its properties follow by
      induction without non-linear arithmetic. */
  function Quot(n: nat, d: nat): nat
    requires d > 0
    decreases n
  {
    if n < d then 0 else 1 + Quot(n - d, d)
  }

  lemma {:induction false} QuotSpec(n: nat, d: nat)
    requires d > 0
    ensures Quot(n, d) * d <= n < (Quot(n, d) + 1) * d
    decreases n
  {
    if n >= d {
      QuotSpec(n - d, d);
    }
  }

  lemma {:induction false} QuotAtMost(n: nat, d: nat, k: nat)
    requires d > 0 && n < (k + 1) * d
    ensures Quot(n, d) <= k
    decreases n
  {
    if n >= d {
      QuotAtMost(n - d, d, k - 1);
    }
  }

  lemma {:induction false} QuotAdd(n: nat, d: nat, k: nat)
    requires d > 0
    ensures Quot(n + k * d, d) == k + Quot(n, d)
  {
    if k > 0 {
      QuotAdd(n, d, k - 1);
      assert n + k * d - d == n + (k - 1) * d;
    }
  }

  lemma {:induction false} QuotMonotone(m: nat, n: nat, d: nat)
    requires d > 0 && m <= n
    ensures Quot(m, d) <= Quot(n, d)
    decreases n
  {
    if m >= d {
      QuotMonotone(m - d, n - d, d);
    }
  }

  /** `Math.round(part / whole * 100)` taken over exact rationals: the integer nearest to
      100·part/whole, halves rounded up.  JavaScript rounds the double instead, which is
      one less when that double falls just below a half (23 of 40 gives 57 there). */
  function RoundPercent(part: nat, whole: nat): (r: nat)
    requires whole > 0
    ensures 2 * whole * r <= 200 * part + whole < 2 * whole * (r + 1)
  {
    QuotSpec(200 * part + whole, 2 * whole);
    Quot(200 * part + whole, 2 * whole)
  }

  /** A share of a whole rounds to a percentage in 0..100: 0 for none, 100 for all. */
  lemma RoundPercentRange(part: nat, whole: nat)
    requires 0 < whole && part <= whole
    ensures RoundPercent(part, whole) <= 100
    ensures part == 0 ==> RoundPercent(part, whole) == 0
    ensures part == whole ==> RoundPercent(part, whole) == 100
  {
    QuotAtMost(200 * part + whole, 2 * whole, 100);
    if part == whole {
      QuotAdd(whole, 2 * whole, 100);
      assert 200 * part + whole == whole + 100 * (2 * whole);
    }
  }

  /** More completed parts never round to a smaller percentage. */
  lemma RoundPercentMonotone(a: nat, b: nat, whole: nat)
    requires 0 < whole && a <= b
    ensures RoundPercent(a, whole) <= RoundPercent(b, whole)
  {
    QuotMonotone(200 * a + whole, 200 * b + whole, 2 * whole);
  }
}
