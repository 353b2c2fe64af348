/** The NVS store as a map from names to texts (src/drv_nvs.c, every call succeeding and atomic), and the
    zero-padded decimals that file names and counters are written with. */
module Flash {
  import opened Pattern

  type Store = map<string, string>

  // drv_nvs_check with drv_nvs_get: the text, if there is such a file.
  function At(f: Store, key: string): Option<string> {
    if key in f then Some(f[key]) else None
  }

  // drv_nvs_get into a zeroed buffer.
  function TextAt(f: Store, key: string): string {
    if key in f then f[key] else ""
  }

  function Clear(f: Store, key: string): Store {
    f - {key}
  }

  // drv_nvs_rename: nothing happens when there is no such file.
  function Rename(f: Store, from: string, to: string): Store {
    if from in f then Clear(f, from)[to := f[from]] else f
  }

  // ---------------------------------------------------------------- "%03d", "%04d" and atoi

  function Pow10(w: nat): (p: nat)
    ensures p >= 1
  {
    if w == 0 then 1 else 10 * Pow10(w - 1)
  }

  // n in w digits.
  function Decimal(n: nat, w: nat): (s: string)
    requires n < Pow10(w)
    ensures |s| == w
    ensures forall i :: 0 <= i < |s| ==> IsDigit(s[i])
  {
    if w == 0 then "" else Decimal(n / 10, w - 1) + [(48 + n % 10) as char]
  }

  lemma {:induction false} NumeralAppend(acc: nat, s: string, c: char)
    requires IsDigit(c) && forall i :: 0 <= i < |s| ==> IsDigit(s[i])
    ensures NumeralFrom(acc, s + [c]) == NumeralFrom(acc, s) * 10 + Digit(c)
    decreases |s|
  {
    if s == "" {
      assert ("" + [c])[1..] == "";
    } else {
      assert (s + [c])[1..] == s[1..] + [c];
      NumeralAppend(acc * 10 + Digit(s[0]), s[1..], c);
    }
  }

  /** Reading a counter back gives the number that was written. */
  lemma {:induction false} NumeralOfDecimal(n: nat, w: nat)
    requires n < Pow10(w)
    ensures Numeral(Decimal(n, w)) == n
  {
    if w > 0 {
      NumeralOfDecimal(n / 10, w - 1);
      NumeralAppend(0, Decimal(n / 10, w - 1), (48 + n % 10) as char);
    }
  }

  /** Different numbers have different names. */
  lemma DecimalInjective(m: nat, n: nat, w: nat)
    requires m < Pow10(w) && n < Pow10(w) && Decimal(m, w) == Decimal(n, w)
    ensures m == n
  {
    NumeralOfDecimal(m, w);
    NumeralOfDecimal(n, w);
  }
}
