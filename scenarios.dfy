/**
 * Concrete runs of the handlers on a fresh database, each stating the
 * balances and outcomes it ends with.
 */
module Scenarios {

  import opened Wrappers
  import opened Text
  import opened Status
  import opened Store
  import opened Validation
  import opened Bot

  const Buyer := 7
  const Admin := 1

  /** The default label a purchase is recorded with is not final. */
  lemma DefaultStatusNotFinal()
    ensures !IsFinal(DefaultStatus)
  {
    var l := "pending";
    assert Lower(DefaultStatus) == l;
    NotContainsFirst(l, "sukses");
    NotContainsFirst(l, "gagal");
    NotContainsFirst(l, "batal");
  }

  /** The reply "YA" confirms. */
  lemma YaConfirms()
    ensures ConfirmWord("YA") == "YA"
  {
    TrimOfUnspaced("YA");
    assert Lower("YA") == "ya";
  }

  lemma GagalIsFailure()
    ensures Classify("Gagal") == Failure
  {
  }

  lemma SuksesIsSuccess()
    ensures Classify("Sukses") == Success
  {
    assert Lower("Sukses") == "sukses";
    assert OccursAt("sukses", "sukses", 0);
  }

  /** A buyer with balance 0 confirms a purchase priced 50,000: refused, balance still 0. */
  method InsufficientPurchase() returns (out: KonfirmasiOutcome, after: int)
    ensures out == InsufficientSaldo && after == 0
  {
    var db := new Db();
    db.TambahUser(Buyer, "budi", "Budi");
    var harga;
    YaConfirms();
    out, harga := KonfirmasiStep(db, "YA", Buyer, "XLA14", "081234567890", 50000, [], TransportError, "rc-1", "2024-05-01 10:00:00");
    after := db.GetSaldo(Buyer);
  }

  const Reff := "rc-1"
  const Waktu := "2024-05-01 10:00:00"

  /** Balance 100,000 and a purchase of 30,000 dispatched; the provider answered without a status. */
  method PendingPurchase() returns (db: Db, afterDispatch: int)
    ensures fresh(db) && db.Valid()
    ensures afterDispatch == 70000 && db.saldo == map[Buyer := 70000]
    ensures db.riwayat == map[Reff := Trx(Buyer, "XLA14", "081234567890", 30000, Waktu, DefaultStatus, DefaultKeterangan)]
  {
    db := new Db();
    db.TambahUser(Buyer, "budi", "Budi");
    db.TambahSaldo(Buyer, 100000);
    YaConfirms();
    var out, harga := KonfirmasiStep(db, "YA", Buyer, "XLA14", "081234567890", 30000, [],
                                     Response(None, None), Reff, Waktu);
    afterDispatch := db.GetSaldo(Buyer);
  }

  /**
   * After that purchase a "Gagal" callback gives the price back, and a
   * repeated one changes nothing.
   */
  method FailedCallbackRefunds() returns (afterDispatch: int, afterCallback: int, repeat: WebhookReply, afterRepeat: int)
    ensures afterDispatch == 70000 && afterCallback == 100000
    ensures repeat == AlreadyFinal && afterRepeat == 100000
  {
    var db;
    db, afterDispatch := PendingPurchase();
    DefaultStatusNotFinal();
    GagalIsFailure();
    var first := WebhookHandler(db, Parsed(Reff, "Gagal", " stok habis "));
    afterCallback := db.GetSaldo(Buyer);
    TerminalLabelSticks("Gagal");
    repeat := WebhookHandler(db, Parsed(Reff, "Gagal", "stok habis"));
    afterRepeat := db.GetSaldo(Buyer);
  }

  /** As written, a "Sukses" callback after that purchase takes the price a second time: 100,000 ends at 40,000. */
  method SuccessCallbackDebitsAgain() returns (afterDispatch: int, afterCallback: int)
    ensures afterDispatch == 70000 && afterCallback == 40000
  {
    var db;
    db, afterDispatch := PendingPurchase();
    DefaultStatusNotFinal();
    SuksesIsSuccess();
    var r := WebhookHandler(db, Parsed(Reff, "Sukses", "SN 123"));
    afterCallback := db.GetSaldo(Buyer);
  }

  /**
   * As written, a provider that answers the purchase with a final label
   * such as "gagal" has that label stored, so the refund callback that
   * follows is refused as already final and the debit stays.
   */
  method FinalReplyKeepsDebit() returns (afterDispatch: int, reply: WebhookReply, afterCallback: int)
    ensures afterDispatch == 70000
    ensures reply == AlreadyFinal && afterCallback == 70000
  {
    var db := new Db();
    db.TambahUser(Buyer, "budi", "Budi");
    db.TambahSaldo(Buyer, 100000);
    YaConfirms();
    var out, harga := KonfirmasiStep(db, "YA", Buyer, "XLA14", "081234567890", 30000, [],
                                     Response(Some("gagal"), None), Reff, Waktu);
    afterDispatch := db.GetSaldo(Buyer);
    assert Classify("gagal") == Failure;
    reply := WebhookHandler(db, Parsed(Reff, "Gagal", "stok habis"));
    afterCallback := db.GetSaldo(Buyer);
  }

  /** The admin's reply "20000" is a nominal of 20,000, and code number 123 prints as "123". */
  lemma IssueFacts()
    ensures KodeNominal("20000") == Nominal(20000)
    ensures NatToString(123) == "123" && Trim("123") == "123"
  {
    assert NatToString(20000) == "20000";
    StripSeparatorsOfDigits("20000");
    ParseNatToString(20000);
    assert NatToString(123) == "123";
    TrimOfDigits("123");
  }

  /** The admin issues code 123 worth 20,000 to a registered buyer with balance 0. */
  method IssuedCode() returns (db: Db, made: GenerateOutcome)
    ensures fresh(db) && db.Valid()
    ensures made == KodeCreated("123", 20000)
    ensures db.saldo == map[Buyer := 0]
    ensures db.kodes == map["123" := KodeUnik(Admin, 20000, 0, "2024-05-01 09:00:00", None)]
  {
    db := new Db();
    db.TambahUser(Buyer, "budi", "Budi");
    IssueFacts();
    made := AdminGenerateKodeStep(db, Admin, "20000", 123, "2024-05-01 09:00:00");
  }

  /** That code typed twice credits once; the second attempt is refused. */
  method RedeemOnce() returns (first: RedeemOutcome, second: RedeemOutcome, after: int)
    ensures first == Redeemed(20000) && second == KodeAlreadyUsed && after == 20000
  {
    var db, made := IssuedCode();
    IssueFacts();
    first := InputKodeUnikStep(db, Buyer, "123", "2024-05-01 09:05:00");
    second := InputKodeUnikStep(db, Buyer, "123", "2024-05-01 09:06:00");
    after := db.GetSaldo(Buyer);
  }

  /** As written, approving the same top-up request twice credits it twice. */
  method ApproveTwice() returns (after: int)
    ensures after == 20246
  {
    var db := new Db();
    db.TambahUser(Buyer, "budi", "Budi");
    var inserted := db.InsertTopupPending("tp-1", Buyer, "budi", "Budi", 10123, "2024-05-01 11:00:00", "pending");
    var a := AdminTopupAction(db, "approve", "tp-1");
    var b := AdminTopupAction(db, "approve", "tp-1");
    after := db.GetSaldo(Buyer);
  }

  /** A line the pattern rejects is answered with 200 and touches no table. */
  method MalformedCallback() returns (reply: WebhookReply, code: int, after: int)
    ensures reply == FormatUnknown && code == 200 && after == 100000
  {
    var db := new Db();
    db.TambahUser(Buyer, "budi", "Budi");
    db.TambahSaldo(Buyer, 100000);
    reply := WebhookHandler(db, Malformed);
    code := HttpStatus(reply);
    after := db.GetSaldo(Buyer);
  }
}
