/**
 * The input checks of the conversation steps: the destination number,
 * the QR top-up amount, the admin's new price and the nominal of a new
 * redemption code.
 */
module Validation {

  import opened Wrappers
  import opened Text

  /** `input_tujuan_step`: the stripped reply, if it is at least 8 ASCII digits. */
  function Tujuan(text: string): (r: Option<string>)
    ensures r.Some? <==> |Trim(text)| >= 8 && forall k :: 0 <= k < |Trim(text)| ==> IsDigitChar(Trim(text)[k])
    ensures r.Some? ==> r.value == Trim(text)
  {
    var t := Trim(text);
    if IsDigits(t) && |t| >= 8 then Some(t) else None
  }

  /** An accepted destination is accepted again, unchanged, when re-entered. */
  lemma TujuanIdempotent(text: string)
    requires Tujuan(text).Some?
    ensures Tujuan(Tujuan(text).value) == Tujuan(text)
  {
    TrimOfDigits(Trim(text));
  }

  /**
   * `text.replace(".", "").replace(",", "")`: the thousands separators
   * dropped, every other character kept as often as it occurred.
   */
  function StripSeparators(text: string): (r: string)
    ensures forall k :: 0 <= k < |r| ==> r[k] != '.' && r[k] != ','
    ensures forall x :: x != '.' && x != ',' ==> multiset(r)[x] == multiset(text)[x]
  {
    var noDots := RemoveChar(text, '.');
    var r := RemoveChar(noDots, ',');
    assert forall k :: 0 <= k < |r| ==> r[k] in noDots;
    r
  }

  /** Stripping works piecewise, so the kept characters stay in their order. */
  lemma StripSeparatorsConcat(a: string, b: string)
    ensures StripSeparators(a + b) == StripSeparators(a) + StripSeparators(b)
  {
    RemoveCharConcat(a, b, '.');
    RemoveCharConcat(RemoveChar(a, '.'), RemoveChar(b, '.'), ',');
  }

  /** A single character is dropped when it is a separator and kept otherwise. */
  lemma StripSeparatorsSingle(x: char)
    ensures StripSeparators([x]) == if x == '.' || x == ',' then [] else [x]
  {
    RemoveCharSingle(x, '.');
    if x != '.' {
      RemoveCharSingle(x, ',');
    }
  }

  /** A separator anywhere in the text is dropped as if it were not there. */
  lemma SeparatorDropped(a: string, x: char, b: string)
    requires x == '.' || x == ','
    ensures StripSeparators(a + [x] + b) == StripSeparators(a + b)
  {
    var l, r := StripSeparators(a), StripSeparators(b);
    StripSeparatorsConcat(a + [x], b);
    StripSeparatorsConcat(a, [x]);
    StripSeparatorsConcat(a, b);
    StripSeparatorsSingle(x);
    assert l + [] + r == l + r;
  }

  /**
   * Every amount check ignores a separator anywhere in the reply:
   * "1.000.000", "1,000,000" and "1000000" are read alike.
   */
  lemma SeparatorIgnored(a: string, x: char, b: string)
    requires x == '.' || x == ','
    ensures TopupNominal(a + [x] + b) == TopupNominal(a + b)
    ensures AdminHarga(a + [x] + b) == AdminHarga(a + b)
    ensures KodeNominal(a + [x] + b) == KodeNominal(a + b)
  {
    SeparatorDropped(a, x, b);
  }

  /** A digit string has no separators to strip. */
  lemma StripSeparatorsOfDigits(s: string)
    requires IsDigits(s)
    ensures StripSeparators(s) == s
  {
  }

  /** The amount rule of `topup_amount_step`. */
  predicate TopupAmountOk(n: int) {
    10000 <= n <= 5000000 && n % 1000 == 0
  }

  /** `topup_amount_step`'s parse and amount rule. */
  function TopupNominal(text: string): (r: Option<nat>)
    ensures r.Some? ==> TopupAmountOk(r.value)
    ensures r.Some? <==> (ParseNat(StripSeparators(text)).Some? && TopupAmountOk(ParseNat(StripSeparators(text)).value))
    ensures r.Some? ==> r == ParseNat(StripSeparators(text))
  {
    var n := ParseNat(StripSeparators(text));
    if n.Some? && TopupAmountOk(n.value) then n else None
  }

  /** A plain decimal amount is accepted exactly when the amount rule holds, and read back as itself. */
  lemma TopupNominalOfNumber(n: nat)
    ensures TopupNominal(NatToString(n)).Some? <==> TopupAmountOk(n)
    ensures TopupNominal(NatToString(n)).Some? ==> TopupNominal(NatToString(n)).value == n
  {
    StripSeparatorsOfDigits(NatToString(n));
    ParseNatToString(n);
  }

  /**
   * The surcharge keeps the amount inside its range and sits in the last
   * three digits, so the total names the requested amount and the
   * surcharge both.
   */
  lemma SurchargeRecoverable(n: int, u: int)
    requires TopupAmountOk(n) && 100 <= u <= 999
    ensures 10100 <= n + u <= 5000999
    ensures (n + u) % 1000 == u
    ensures (n + u) - (n + u) % 1000 == n
  {
  }

  /** `admin_edit_harga_step`: a digit string, separators dropped, above 0. */
  function AdminHarga(text: string): (r: Option<nat>)
    ensures r.Some? ==> r.value > 0
    ensures r.Some? <==> IsDigits(StripSeparators(text)) && DigitsValue(StripSeparators(text)) > 0
    ensures r.Some? ==> r == ParseNat(StripSeparators(text))
  {
    var t := StripSeparators(text);
    if IsDigits(t) && DigitsValue(t) > 0 then Some(DigitsValue(t)) else None
  }

  /** A plain decimal price is accepted exactly when it is positive. */
  lemma AdminHargaOfNumber(n: nat)
    ensures AdminHarga(NatToString(n)) == if n > 0 then Some(n) else None
  {
    StripSeparatorsOfDigits(NatToString(n));
    ParseNatToString(n);
  }

  /** The redemption-code nominal below which `admin_generate_kode_step` refuses. */
  const KodeMinimum := 10000

  datatype NominalCheck = NotANumber | BelowMinimum | Nominal(n: nat)

  /** `admin_generate_kode_step`'s parse (a `ValueError` is no number) and minimum. */
  function KodeNominal(text: string): (r: NominalCheck)
    ensures r.Nominal? ==> r.n >= KodeMinimum
    ensures r.NotANumber? <==> ParseNat(StripSeparators(text)).None?
    ensures r.BelowMinimum? <==>
              ParseNat(StripSeparators(text)).Some? && ParseNat(StripSeparators(text)).value < KodeMinimum
    ensures r.Nominal? ==> ParseNat(StripSeparators(text)) == Some(r.n)
  {
    match ParseNat(StripSeparators(text))
    case None => NotANumber
    case Some(n) => if n < KodeMinimum then BelowMinimum else Nominal(n)
  }
}
