/**
 * The free-text status labels of the transaction log, read the way the
 * webhook handler and the history screens read them: by substring tests
 * on the case-folded label.
 */
module Status {

  import opened Text

  /** The outcome a provider label announces. */
  datatype Outcome = Success | Failure | Cancelled | Unrecognized

  /**
   * The webhook's classification of a reported status: "sukses" first,
   * then "gagal", then "batal", all on the lower-cased label. It acts on
   * exactly the labels the finality guard calls final, and a success word
   * wins over any failure word in the same label.
   */
  function Classify(status: string): (o: Outcome)
    ensures o != Unrecognized <==> IsFinal(status)
    ensures o == Success <==> Contains(Lower(status), "sukses")
    ensures o == Failure ==> Contains(Lower(status), "gagal")
    ensures o == Cancelled ==> Contains(Lower(status), "batal") && !Contains(Lower(status), "gagal")
  {
    var l := Lower(status);
    if Contains(l, "sukses") then Success
    else if Contains(l, "gagal") then Failure
    else if Contains(l, "batal") then Cancelled
    else Unrecognized
  }

  /**
   * The webhook's finality guard on the stored label, on the lower-cased
   * label. It calls final exactly the records the history screens, which
   * test the upper-cased label, do not show as waiting.
   */
  predicate IsFinal(stored: string)
    ensures IsFinal(stored) <==> HistoryMark(stored) != Waiting
  {
    var l := Lower(stored);
    Contains(l, "sukses") || Contains(l, "gagal") || Contains(l, "batal")
  }

  /** Storing a label upper-cased does not change how it is classified. */
  lemma {:induction false} ClassifyUpper(status: string)
    ensures Classify(Upper(status)) == Classify(status)
  {
    CaseRoundTrip(status);
  }

  /**
   * A label that triggered a ledger adjustment, stored upper-cased, makes
   * the record final, so a later callback for it is refused by the guard.
   */
  lemma {:induction false} TerminalLabelSticks(status: string)
    requires Classify(status) != Unrecognized
    ensures IsFinal(Upper(status))
  {
    ClassifyUpper(status);
  }

  /** The mark the history screens show next to a record. */
  datatype Mark = Done | Failed | Waiting

  /**
   * The history screens' substring tests on the upper-cased label. They
   * pick the same marks as the same words tested on the lower-cased label.
   */
  function HistoryMark(stored: string): (m: Mark)
    ensures m == Done <==> Contains(Lower(stored), "sukses")
    ensures m == Failed <==>
              !Contains(Lower(stored), "sukses") && (Contains(Lower(stored), "gagal") || Contains(Lower(stored), "batal"))
    ensures m == Waiting <==>
              !Contains(Lower(stored), "sukses") && !Contains(Lower(stored), "gagal") && !Contains(Lower(stored), "batal")
  {
    assert Lower("SUKSES") == "sukses" && Upper("sukses") == "SUKSES";
    assert Lower("GAGAL") == "gagal" && Upper("gagal") == "GAGAL";
    assert Lower("BATAL") == "batal" && Upper("batal") == "BATAL";
    ContainsEitherCase(stored, "sukses", "SUKSES");
    ContainsEitherCase(stored, "gagal", "GAGAL");
    ContainsEitherCase(stored, "batal", "BATAL");
    var u := Upper(stored);
    if Contains(u, "SUKSES") then Done
    else if Contains(u, "GAGAL") || Contains(u, "BATAL") then Failed
    else Waiting
  }

  /** Upper-case and lower-case substring tests agree. */
  lemma {:induction false} ContainsEitherCase(s: string, lower: string, upper: string)
    requires Lower(upper) == lower && Upper(lower) == upper
    ensures Contains(Upper(s), upper) <==> Contains(Lower(s), lower)
  {
    CaseRoundTrip(s);
    if Contains(Upper(s), upper) {
      ContainsLower(Upper(s), upper);
    }
    if Contains(Lower(s), lower) {
      ContainsUpper(Lower(s), lower);
    }
  }

  /** The history mark shows exactly the outcome the webhook reads from the same label. */
  lemma {:induction false} HistoryMarkAgrees(stored: string)
    ensures HistoryMark(stored) == Done <==> Classify(stored) == Success
    ensures HistoryMark(stored) == Failed <==> Classify(stored) in {Failure, Cancelled}
    ensures HistoryMark(stored) == Waiting <==> Classify(stored) == Unrecognized
  {
  }
}
