/**
 * The conversation steps and the provider callback that move money and
 * records: purchase confirmation, provider callbacks, QR top-up requests,
 * redemption codes, admin approval of top-ups and admin price edits.
 * Chat replies are reduced to an outcome value; the provider, the QR
 * service, the clock, the id generator and the random surcharge are
 * parameters.
 */
module Bot {

  import opened Wrappers
  import opened Text
  import opened Ledger
  import opened Status
  import opened Pricing
  import opened Validation
  import opened Store

  /** What the provider's purchase endpoint answered, or a transport failure. */
  datatype ProviderReply = TransportError | Response(status: Option<string>, message: Option<string>)

  datatype KonfirmasiOutcome =
    | Aborted
    | Reprompt
    | InsufficientSaldo
    | DispatchFailed
    | Dispatched(statusText: string, keterangan: string)

  const DefaultStatus := "PENDING"
  const DefaultKeterangan := "Transaksi sedang diproses."

  /**
   * The confirmation reply as `konfirmasi_step` compares it: stripped and
   * upper-cased, so "YA" and "BATAL" match the stripped reply in any mix
   * of cases.
   */
  function ConfirmWord(reply: string): (w: string)
    ensures w == "YA" <==> Lower(Trim(reply)) == "ya"
    ensures w == "BATAL" <==> Lower(Trim(reply)) == "batal"
  {
    assert Upper("ya") == "YA" && Upper("batal") == "BATAL";
    UpperMatchesWord(Trim(reply), "ya");
    UpperMatchesWord(Trim(reply), "batal");
    Upper(Trim(reply))
  }

  /**
   * `konfirmasi_step` after the reply "YA": resolve the price, check the
   * balance, debit, dispatch, and either compensate a transport failure
   * or record the transaction. `chosenHarga` is the price remembered when
   * the product was chosen, `catalog` the stock list a re-resolution
   * scans, `provider` the purchase endpoint's answer and `reffid` the
   * fresh correlation id. `harga` is the price the step charged.
   */
  method ConfirmedPurchase(db: Db, u: UserId, kode: string, tujuan: string, chosenHarga: int,
                           catalog: seq<CatalogEntry>, provider: ProviderReply, reffid: string, waktu: string)
    returns (out: KonfirmasiOutcome, harga: int)
    requires db.Valid()
    requires reffid !in db.riwayat
    modifies db`saldo, db`riwayat
    ensures db.Valid()
    ensures out in {InsufficientSaldo, DispatchFailed} || out.Dispatched?
    ensures chosenHarga > 0 ==> harga == chosenHarga
    ensures chosenHarga <= 0 ==> IsHargaProduk(db.produkAdmin, kode, None, catalog, harga)
    ensures out == InsufficientSaldo <==> BalanceOf(old(db.saldo), u) < harga
    ensures out == DispatchFailed <==> BalanceOf(old(db.saldo), u) >= harga && provider.TransportError?
    ensures out == InsufficientSaldo ==> db.saldo == old(db.saldo) && db.riwayat == old(db.riwayat)
    ensures out == DispatchFailed ==>
              db.saldo == Credit(Debit(old(db.saldo), u, harga), u, harga) && db.riwayat == old(db.riwayat)
    ensures out == DispatchFailed && (u in old(db.saldo) || u in db.users) ==> db.saldo == old(db.saldo)
    ensures out.Dispatched? && (u in old(db.saldo) || u in db.users) ==>
              BalanceOf(db.saldo, u) == BalanceOf(old(db.saldo), u) - harga
    ensures out.Dispatched? ==>
              && out.statusText == provider.status.GetOr(DefaultStatus)
              && out.keterangan == provider.message.GetOr(DefaultKeterangan)
              && db.saldo == Debit(old(db.saldo), u, harga)
              && db.riwayat == old(db.riwayat)[reffid := Trx(u, kode, tujuan, harga, waktu, out.statusText, out.keterangan)]
  {
    harga := chosenHarga;
    if harga <= 0 {
      harga := GetHargaProduk(db.produkAdmin, kode, None, catalog);
    }
    var s := db.GetSaldo(u);
    if s < harga {
      return InsufficientSaldo, harga;
    }
    db.KurangSaldo(u, harga);
    match provider {
      case TransportError =>
        db.TambahSaldo(u, harga);
        if u in old(db.saldo) {
          CreditUndoesDebit(old(db.saldo), u, harga);
        }
        return DispatchFailed, harga;
      case Response(status, message) =>
        var statusText := status.GetOr(DefaultStatus);
        var keterangan := message.GetOr(DefaultKeterangan);
        var logged := db.LogRiwayat(reffid, Trx(u, kode, tujuan, harga, waktu, statusText, keterangan));
        return Dispatched(statusText, keterangan), harga;
    }
  }

  /**
   * `konfirmasi_step`: "BATAL" aborts, anything but "YA" re-prompts, and
   * "YA" goes on with `ConfirmedPurchase`.
   */
  method KonfirmasiStep(db: Db, reply: string, u: UserId, kode: string, tujuan: string, chosenHarga: int,
                        catalog: seq<CatalogEntry>, provider: ProviderReply, reffid: string, waktu: string)
    returns (out: KonfirmasiOutcome, harga: int)
    requires db.Valid()
    requires reffid !in db.riwayat
    modifies db`saldo, db`riwayat
    ensures db.Valid()
    ensures out == Aborted <==> ConfirmWord(reply) == "BATAL"
    ensures out == Reprompt <==> ConfirmWord(reply) != "BATAL" && ConfirmWord(reply) != "YA"
    ensures ConfirmWord(reply) == "YA" && chosenHarga > 0 ==> harga == chosenHarga
    ensures ConfirmWord(reply) == "YA" && chosenHarga <= 0 ==> IsHargaProduk(db.produkAdmin, kode, None, catalog, harga)
    ensures out == InsufficientSaldo <==> ConfirmWord(reply) == "YA" && BalanceOf(old(db.saldo), u) < harga
    ensures out == DispatchFailed <==>
              ConfirmWord(reply) == "YA" && BalanceOf(old(db.saldo), u) >= harga && provider.TransportError?
    ensures out.Dispatched? <==>
              ConfirmWord(reply) == "YA" && BalanceOf(old(db.saldo), u) >= harga && provider.Response?
    ensures out in {Aborted, Reprompt, InsufficientSaldo} ==>
              db.saldo == old(db.saldo) && db.riwayat == old(db.riwayat)
    ensures out == DispatchFailed ==>
              db.saldo == Credit(Debit(old(db.saldo), u, harga), u, harga) && db.riwayat == old(db.riwayat)
    ensures out == DispatchFailed && (u in old(db.saldo) || u in db.users) ==> db.saldo == old(db.saldo)
    ensures out.Dispatched? && (u in old(db.saldo) || u in db.users) ==>
              BalanceOf(db.saldo, u) == BalanceOf(old(db.saldo), u) - harga
    ensures out.Dispatched? ==>
              && out.statusText == provider.status.GetOr(DefaultStatus)
              && out.keterangan == provider.message.GetOr(DefaultKeterangan)
              && db.saldo == Debit(old(db.saldo), u, harga)
              && db.riwayat == old(db.riwayat)[reffid := Trx(u, kode, tujuan, harga, waktu, out.statusText, out.keterangan)]
  {
    var word := ConfirmWord(reply);
    harga := 0;
    if word == "BATAL" {
      return Aborted, harga;
    }
    if word != "YA" {
      return Reprompt, harga;
    }
    out, harga := ConfirmedPurchase(db, u, kode, tujuan, chosenHarga, catalog, provider, reffid, waktu);
  }

  /** The notification as delivered: no message, a line the pattern rejects, or the fields it extracted. */
  datatype WebhookInput =
    | NoMessage
    | Malformed
    | Parsed(reffid: string, statusText: string, keterangan: string)

  datatype WebhookReply = EmptyMessage | FormatUnknown | TrxNotFound | AlreadyFinal | Received

  /** The HTTP status of each reply. */
  function HttpStatus(r: WebhookReply): (code: int)
    ensures code == 400 <==> r == EmptyMessage
    ensures code == 200 <==> r != EmptyMessage
  {
    if r == EmptyMessage then 400 else 200
  }

  /**
   * The ledger adjustment of a callback whose record was not yet final.
   * Only the record's owner can be affected, and a label the classifier
   * does not act on moves nothing.
   */
  function Settle(saldo: map<UserId, int>, t: Trx, reported: string): (r: map<UserId, int>)
    ensures r.Keys <= saldo.Keys + {t.user}
    ensures forall v :: v != t.user ==> BalanceOf(r, v) == BalanceOf(saldo, v)
    ensures Classify(reported) == Unrecognized ==> r == saldo
  {
    match Classify(reported)
    case Success => Debit(saldo, t.user, t.harga)
    case Failure => Credit(saldo, t.user, t.harga)
    case Cancelled => Credit(saldo, t.user, t.harga)
    case Unrecognized => saldo
  }

  /** `webhook_handler` after the pattern match. */
  method WebhookHandler(db: Db, input: WebhookInput) returns (reply: WebhookReply)
    requires db.Valid()
    modifies db`saldo, db`riwayat
    ensures db.Valid()
    ensures reply == EmptyMessage <==> input.NoMessage?
    ensures reply == FormatUnknown <==> input.Malformed?
    ensures reply == TrxNotFound <==> input.Parsed? && input.reffid !in old(db.riwayat)
    ensures reply == AlreadyFinal <==>
              input.Parsed? && input.reffid in old(db.riwayat) && IsFinal(old(db.riwayat)[input.reffid].statusText)
    ensures reply != Received ==> db.saldo == old(db.saldo) && db.riwayat == old(db.riwayat)
    ensures reply == Received ==>
              && input.Parsed? && input.reffid in old(db.riwayat)
              && var t := old(db.riwayat)[input.reffid];
              && db.riwayat == old(db.riwayat)[input.reffid :=
                                 t.(statusText := Upper(input.statusText), keterangan := Trim(input.keterangan))]
              && db.saldo == Settle(old(db.saldo), t, input.statusText)
  {
    match input {
      case NoMessage => return EmptyMessage;
      case Malformed => return FormatUnknown;
      case Parsed(reffid, statusText, keterangan) =>
        var ket := Trim(keterangan);
        if reffid !in db.riwayat {
          return TrxNotFound;
        }
        var t := db.riwayat[reffid];
        var current := Lower(t.statusText);
        if Contains(current, "sukses") || Contains(current, "gagal") || Contains(current, "batal") {
          return AlreadyFinal;
        }
        db.UpdateRiwayatStatus(reffid, Upper(statusText), ket);
        var reported := Lower(statusText);
        if Contains(reported, "sukses") {
          db.KurangSaldo(t.user, t.harga);
        } else if Contains(reported, "gagal") || Contains(reported, "batal") {
          db.TambahSaldo(t.user, t.harga);
        }
        return Received;
    }
  }

  /**
   * Balance effect of a callback on a pending record of a user with a
   * row: a success label takes the price a second time, a failure or
   * cancellation label gives it back, any other label moves nothing, and
   * no other user's balance moves.
   */
  lemma SettleEffect(saldo: map<UserId, int>, t: Trx, reported: string)
    requires t.user in saldo
    ensures Classify(reported) == Success ==> BalanceOf(Settle(saldo, t, reported), t.user) == saldo[t.user] - t.harga
    ensures Classify(reported) in {Failure, Cancelled} ==>
              BalanceOf(Settle(saldo, t, reported), t.user) == saldo[t.user] + t.harga
    ensures Classify(reported) == Unrecognized ==> Settle(saldo, t, reported) == saldo
    ensures forall v :: v != t.user ==> BalanceOf(Settle(saldo, t, reported), v) == BalanceOf(saldo, v)
  {
  }

  /**
   * The same terminal callback delivered twice: the second delivery finds
   * the record final and changes nothing, so the ledger is adjusted at
   * most once per record. `afterFirstSaldo` and `afterFirstRiwayat` are
   * the tables between the two deliveries.
   */
  method RepeatedCallback(db: Db, input: WebhookInput)
    returns (first: WebhookReply, second: WebhookReply,
             afterFirstSaldo: map<UserId, int>, afterFirstRiwayat: map<string, Trx>)
    requires db.Valid()
    requires input.Parsed? && Classify(input.statusText) != Unrecognized
    modifies db`saldo, db`riwayat
    ensures db.Valid()
    ensures input.reffid !in old(db.riwayat) ==> first == TrxNotFound && second == TrxNotFound
    ensures input.reffid in old(db.riwayat) ==> second == AlreadyFinal
    ensures first == Received ==>
              afterFirstSaldo == Settle(old(db.saldo), old(db.riwayat)[input.reffid], input.statusText)
    ensures first != Received ==> afterFirstSaldo == old(db.saldo) && afterFirstRiwayat == old(db.riwayat)
    ensures db.saldo == afterFirstSaldo && db.riwayat == afterFirstRiwayat
  {
    first := WebhookHandler(db, input);
    afterFirstSaldo, afterFirstRiwayat := db.saldo, db.riwayat;
    if first == Received {
      TerminalLabelSticks(input.statusText);
    }
    second := WebhookHandler(db, input);
  }

  /** The QR service's answer for the surcharged amount. */
  datatype QrReply = QrFailed | QrUndecodable | QrImage

  datatype TopupAmountOutcome = BadAmount | QrError | QrDecodeError | TopupCreated(nominal: int)

  /**
   * `topup_amount_step`. `surcharge` is the random three-digit distinguishing
   * amount, `qr` the QR service's answer for the surcharged total and
   * `topupId` the fresh request id.
   */
  method TopupAmountStep(db: Db, u: UserId, username: string, nama: string, text: string,
                         surcharge: int, qr: QrReply, topupId: string, waktu: string)
    returns (out: TopupAmountOutcome)
    requires 100 <= surcharge <= 999
    requires topupId !in db.topups
    modifies db`topups
    ensures out == BadAmount <==> TopupNominal(text).None?
    ensures out == QrError <==> TopupNominal(text).Some? && qr == QrFailed
    ensures out == QrDecodeError <==> TopupNominal(text).Some? && qr == QrUndecodable
    ensures out.TopupCreated? ==>
              && qr == QrImage && TopupNominal(text).Some?
              && out.nominal == TopupNominal(text).value + surcharge
              && db.topups == old(db.topups)[topupId := Topup(u, username, nama, out.nominal, waktu, "pending", "", "")]
    ensures !out.TopupCreated? ==> db.topups == old(db.topups)
  {
    var n := TopupNominal(text);
    if n.None? {
      return BadAmount;
    }
    var total := n.value + surcharge;
    match qr {
      case QrFailed => return QrError;
      case QrUndecodable => return QrDecodeError;
      case QrImage =>
        var inserted := db.InsertTopupPending(topupId, u, username, nama, total, waktu, "pending");
        return TopupCreated(total);
    }
  }

  /** What `topup_upload_step` did with the message. */
  datatype UploadOutcome = NoTopupChosen | PhotoRequired | ProofStored

  /**
   * `topup_upload_step`: `topupId` is the request the user chose (None
   * when the conversation lost it; an empty id counts as missing too) and
   * `photoFileId` the largest photo of the message (None when no photo
   * was sent).
   */
  method TopupUploadStep(db: Db, topupId: Option<string>, photoFileId: Option<string>, caption: Option<string>)
    returns (out: UploadOutcome)
    modifies db`topups
    ensures out == NoTopupChosen <==> topupId.None? || topupId.value == ""
    ensures out == PhotoRequired <==> topupId.Some? && topupId.value != "" && photoFileId.None?
    ensures out != ProofStored ==> db.topups == old(db.topups)
    ensures out == ProofStored ==>
              && topupId.Some? && topupId.value != "" && photoFileId.Some?
              && var id := topupId.value;
              && db.topups == if id in old(db.topups)
                              then old(db.topups)[id := old(db.topups)[id].(buktiFileId := photoFileId.value,
                                                                            buktiCaption := caption.GetOr(""))]
                              else old(db.topups)
  {
    if topupId.None? || topupId.value == "" {
      return NoTopupChosen;
    }
    if photoFileId.None? {
      return PhotoRequired;
    }
    db.UpdateTopupBukti(topupId.value, photoFileId.value, caption.GetOr(""));
    return ProofStored;
  }

  datatype RedeemOutcome = KodeNotFound | KodeAlreadyUsed | Redeemed(nominal: int)

  /**
   * `input_kode_unik_step`: the stripped reply is looked up; an unused
   * code credits its nominal to the user who typed it and is marked used.
   */
  method InputKodeUnikStep(db: Db, u: UserId, text: string, now: string) returns (out: RedeemOutcome)
    requires db.Valid()
    modifies db`saldo, db`kodes
    ensures db.Valid()
    ensures out == KodeNotFound <==> Trim(text) !in old(db.kodes)
    ensures out == KodeAlreadyUsed <==> Trim(text) in old(db.kodes) && old(db.kodes)[Trim(text)].digunakan != 0
    ensures !out.Redeemed? ==> db.saldo == old(db.saldo) && db.kodes == old(db.kodes)
    ensures out.Redeemed? ==>
              && var kode := Trim(text);
              && kode in old(db.kodes) && old(db.kodes)[kode].digunakan == 0
              && out.nominal == old(db.kodes)[kode].nominal
              && db.saldo == Credit(old(db.saldo), u, out.nominal)
              && db.kodes == old(db.kodes)[kode := old(db.kodes)[kode].(digunakan := 1, digunakanPada := Some(now))]
  {
    var kode := Trim(text);
    if kode !in db.kodes {
      return KodeNotFound;
    }
    var k := db.kodes[kode];
    if k.digunakan != 0 {
      return KodeAlreadyUsed;
    }
    db.TambahSaldo(u, k.nominal);
    db.GunakanKodeUnik(kode, now);
    return Redeemed(k.nominal);
  }

  datatype TopupActionOutcome = TopupNotFound | Approved | Rejected | NoAction

  /**
   * `admin_topup_action`: "approve" credits the stored nominal to the
   * stored user and marks the request approved, whatever its status was;
   * "reject" marks it rejected; any other action changes nothing.
   */
  method AdminTopupAction(db: Db, action: string, id: string) returns (out: TopupActionOutcome)
    requires db.Valid()
    modifies db`saldo, db`topups
    ensures db.Valid()
    ensures out == TopupNotFound <==> id !in old(db.topups)
    ensures out == Approved <==> id in old(db.topups) && action == "approve"
    ensures out == Rejected <==> id in old(db.topups) && action == "reject"
    ensures out in {TopupNotFound, NoAction} ==> db.saldo == old(db.saldo) && db.topups == old(db.topups)
    ensures out == Approved ==>
              && db.saldo == Credit(old(db.saldo), old(db.topups)[id].user, old(db.topups)[id].nominal)
              && db.topups == old(db.topups)[id := old(db.topups)[id].(status := "approved")]
    ensures out == Rejected ==>
              && db.saldo == old(db.saldo)
              && db.topups == old(db.topups)[id := old(db.topups)[id].(status := "rejected")]
  {
    if id !in db.topups {
      return TopupNotFound;
    }
    var r := db.topups[id];
    if action == "approve" {
      db.TambahSaldo(r.user, r.nominal);
      db.UpdateTopupStatus(id, "approved");
      return Approved;
    } else if action == "reject" {
      db.UpdateTopupStatus(id, "rejected");
      return Rejected;
    }
    return NoAction;
  }

  /** `admin_edit_harga_step`: an accepted price replaces the override price and keeps the description. */
  method AdminEditHargaStep(db: Db, kode: string, text: string) returns (accepted: Option<nat>)
    modifies db`produkAdmin
    ensures accepted == AdminHarga(text)
    ensures accepted.None? ==> db.produkAdmin == old(db.produkAdmin)
    ensures accepted.Some? ==>
              && kode in db.produkAdmin
              && db.produkAdmin[kode].harga == accepted.value > 0
              && db.produkAdmin[kode].deskripsi == (if kode in old(db.produkAdmin) then old(db.produkAdmin)[kode].deskripsi else "")
              && (forall k :: k != kode ==> (k in db.produkAdmin <==> k in old(db.produkAdmin)))
              && (forall k :: k != kode && k in db.produkAdmin ==> db.produkAdmin[k] == old(db.produkAdmin)[k])
  {
    accepted := AdminHarga(text);
    if accepted.Some? {
      db.SetProdukAdminHarga(kode, accepted.value);
    }
  }

  /** `admin_edit_deskripsi_step`: the stripped text replaces the description and keeps the price. */
  method AdminEditDeskripsiStep(db: Db, kode: string, text: string)
    modifies db`produkAdmin
    ensures kode in db.produkAdmin
    ensures db.produkAdmin[kode].deskripsi == Trim(text)
    ensures db.produkAdmin[kode].harga == (if kode in old(db.produkAdmin) then old(db.produkAdmin)[kode].harga else 0)
    ensures forall k :: k != kode ==> (k in db.produkAdmin <==> k in old(db.produkAdmin))
    ensures forall k :: k != kode && k in db.produkAdmin ==> db.produkAdmin[k] == old(db.produkAdmin)[k]
  {
    db.SetProdukAdminDeskripsi(kode, Trim(text));
  }

  datatype GenerateOutcome = InvalidNumber | TooSmall | KodeCreated(kode: string, nominal: nat) | StoreError

  /**
   * `admin_generate_kode_step`. `code` is the random three-digit number the
   * code is printed from; an INSERT that collides with an existing code
   * raises and is reported as an error with nothing stored.
   */
  method AdminGenerateKodeStep(db: Db, admin: UserId, text: string, code: nat, now: string)
    returns (out: GenerateOutcome)
    requires 100 <= code <= 999
    modifies db`kodes
    ensures out == InvalidNumber <==> KodeNominal(text).NotANumber?
    ensures out == TooSmall <==> KodeNominal(text).BelowMinimum?
    ensures out == StoreError <==> KodeNominal(text).Nominal? && NatToString(code) in old(db.kodes)
    ensures !out.KodeCreated? ==> db.kodes == old(db.kodes)
    ensures out.KodeCreated? ==>
              && KodeNominal(text) == Nominal(out.nominal) && out.kode == NatToString(code)
              && out.kode !in old(db.kodes)
              && db.kodes == old(db.kodes)[out.kode := KodeUnik(admin, out.nominal, 0, now, None)]
  {
    match KodeNominal(text) {
      case NotANumber => return InvalidNumber;
      case BelowMinimum => return TooSmall;
      case Nominal(n) =>
        var kode := NatToString(code);
        var ok := db.SimpanKodeUnik(kode, admin, n, now);
        if !ok {
          return StoreError;
        }
        return KodeCreated(kode, n);
    }
  }

  /** A generated code, typed back as the bot printed it, names the stored row. */
  lemma GeneratedKodeTypedBack(code: nat)
    ensures Trim(NatToString(code)) == NatToString(code)
  {
    TrimOfDigits(NatToString(code));
  }
}
