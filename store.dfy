/**
 * The bot's database: six tables, each a map from its primary key to the
 * rest of its row, and the store functions that read and update them.
 */
module Store {

  import opened Wrappers
  import opened Ledger
  import opened Pricing
  import opened Listing

  /** A row of `users`. */
  datatype UserRow = UserRow(username: string, nama: string)

  /** A row of `riwayat_transaksi`, keyed by the provider correlation id. */
  datatype Trx = Trx(user: UserId, produk: string, tujuan: string, harga: int, waktu: string,
                     statusText: string, keterangan: string)

  /** A row of `topup_pending`. */
  datatype Topup = Topup(user: UserId, username: string, nama: string, nominal: int, waktu: string,
                         status: string, buktiFileId: string, buktiCaption: string)

  /** A row of `kode_unik_topup`; `digunakan` is the INTEGER used flag. */
  datatype KodeUnik = KodeUnik(creator: UserId, nominal: int, digunakan: int, dibuatPada: string,
                               digunakanPada: Option<string>)

  /** Creation times of the transactions, of one owner or of all. */
  function TrxTimes(riwayat: map<string, Trx>, owner: Option<UserId>): map<string, string> {
    map id | id in riwayat && (owner.None? || riwayat[id].user == owner.value) :: riwayat[id].waktu
  }

  /** Creation times of the top-up requests of one owner, or of all those still 'pending'. */
  function TopupTimes(topups: map<string, Topup>, owner: Option<UserId>): map<string, string> {
    map id | id in topups && (if owner.Some? then topups[id].user == owner.value else topups[id].status == "pending")
      :: topups[id].waktu
  }

  /** Creation times of the redemption codes recorded with `owner`. */
  function KodeTimes(kodes: map<string, KodeUnik>, owner: UserId): map<string, string> {
    map k | k in kodes && kodes[k].creator == owner :: kodes[k].dibuatPada
  }

  /** The ids of the transactions `u` owns. */
  function OwnedIds(riwayat: map<string, Trx>, u: UserId): set<string> {
    set id | id in riwayat && riwayat[id].user == u
  }

  /** The transactions of `u` are among all transactions, and there is one exactly when `u` owns one. */
  lemma OwnedCount(riwayat: map<string, Trx>, u: UserId)
    ensures |OwnedIds(riwayat, u)| <= |riwayat.Keys|
    ensures |OwnedIds(riwayat, u)| == 0 <==> forall id :: id in riwayat ==> riwayat[id].user != u
  {
    var owned := OwnedIds(riwayat, u);
    var rest := riwayat.Keys - owned;
    assert riwayat.Keys == owned + rest;
    if exists id :: id in riwayat && riwayat[id].user == u {
      var id :| id in riwayat && riwayat[id].user == u;
      assert id in owned;
    }
  }

  /** A new transaction under a fresh id counts once for its owner and for nobody else. */
  lemma OwnedAfterInsert(riwayat: map<string, Trx>, id: string, t: Trx, v: UserId)
    requires id !in riwayat
    ensures |OwnedIds(riwayat[id := t], v)| == |OwnedIds(riwayat, v)| + if v == t.user then 1 else 0
  {
    if v == t.user {
      assert OwnedIds(riwayat[id := t], v) == OwnedIds(riwayat, v) + {id};
    } else {
      assert OwnedIds(riwayat[id := t], v) == OwnedIds(riwayat, v);
    }
  }

  /** Rewriting a transaction without changing its owner changes nobody's count. */
  lemma OwnedAfterRewrite(riwayat: map<string, Trx>, id: string, t: Trx, v: UserId)
    requires id in riwayat && t.user == riwayat[id].user
    ensures OwnedIds(riwayat[id := t], v) == OwnedIds(riwayat, v)
  {
  }

  class Db {
    var users: map<UserId, UserRow>
    var saldo: map<UserId, int>
    var riwayat: map<string, Trx>
    var topups: map<string, Topup>
    var produkAdmin: map<string, ProdukAdmin>
    var kodes: map<string, KodeUnik>

    /** Every registered user has a balance row: `tambah_user` creates both and nothing deletes. */
    ghost predicate Valid()
      reads this
    {
      users.Keys <= saldo.Keys
    }

    /** `init_db` on a fresh database file: every table empty. */
    constructor ()
      ensures Valid()
      ensures users == map[] && saldo == map[] && riwayat == map[]
      ensures topups == map[] && produkAdmin == map[] && kodes == map[]
    {
      users, saldo, riwayat := map[], map[], map[];
      topups, produkAdmin, kodes := map[], map[], map[];
    }

    /** `tambah_user`: INSERT OR IGNORE into `users`, and a 0 balance row unless one exists. */
    method TambahUser(u: UserId, username: string, nama: string)
      requires Valid()
      modifies this`users, this`saldo
      ensures Valid() && u in users && u in saldo
      ensures users == if u in old(users) then old(users) else old(users)[u := UserRow(username, nama)]
      ensures saldo == if u in old(saldo) then old(saldo) else old(saldo)[u := 0]
      ensures forall v :: BalanceOf(saldo, v) == BalanceOf(old(saldo), v)
    {
      if u !in users {
        users := users[u := UserRow(username, nama)];
      }
      if u !in saldo {
        saldo := saldo[u := 0];
      }
    }

    /** `get_saldo`: the stored balance, 0 for a user without a row. */
    method GetSaldo(u: UserId) returns (s: int)
      ensures u in saldo ==> s == saldo[u]
      ensures u !in saldo ==> s == 0
    {
      s := if u in saldo then saldo[u] else 0;
    }

    /** `tambah_saldo`. */
    method TambahSaldo(u: UserId, amount: int)
      requires Valid()
      modifies this`saldo
      ensures Valid()
      ensures saldo == Credit(old(saldo), u, amount)
    {
      saldo := saldo[u := BalanceOf(saldo, u) + amount];
    }

    /** `kurang_saldo`. */
    method KurangSaldo(u: UserId, amount: int)
      requires Valid()
      modifies this`saldo
      ensures Valid()
      ensures saldo == Debit(old(saldo), u, amount)
    {
      if u in saldo {
        saldo := saldo[u := saldo[u] - amount];
      }
    }

    /** `log_riwayat`: a plain INSERT, refused when the id is already taken. */
    method LogRiwayat(id: string, t: Trx) returns (ok: bool)
      modifies this`riwayat
      ensures ok <==> id !in old(riwayat)
      ensures riwayat == if ok then old(riwayat)[id := t] else old(riwayat)
      ensures forall v :: RiwayatJml(v) == old(RiwayatJml(v)) + if ok && v == t.user then 1 else 0
    {
      ok := id !in riwayat;
      if ok {
        forall v ensures |OwnedIds(riwayat[id := t], v)| == |OwnedIds(riwayat, v)| + if v == t.user then 1 else 0 {
          OwnedAfterInsert(riwayat, id, t, v);
        }
        riwayat := riwayat[id := t];
      }
    }

    /** `update_riwayat_status`: sets the label and remark of an existing record. */
    method UpdateRiwayatStatus(id: string, statusText: string, keterangan: string)
      modifies this`riwayat
      ensures riwayat == if id in old(riwayat)
                         then old(riwayat)[id := old(riwayat)[id].(statusText := statusText, keterangan := keterangan)]
                         else old(riwayat)
      ensures forall v :: RiwayatJml(v) == old(RiwayatJml(v))
    {
      if id in riwayat {
        var t := riwayat[id].(statusText := statusText, keterangan := keterangan);
        forall v ensures OwnedIds(riwayat[id := t], v) == OwnedIds(riwayat, v) {
          OwnedAfterRewrite(riwayat, id, t, v);
        }
        riwayat := riwayat[id := t];
      }
    }

    /** `insert_topup_pending`: a plain INSERT with empty proof fields. */
    method InsertTopupPending(id: string, u: UserId, username: string, nama: string, nominal: int,
                              waktu: string, status: string) returns (ok: bool)
      modifies this`topups
      ensures ok <==> id !in old(topups)
      ensures topups == if ok then old(topups)[id := Topup(u, username, nama, nominal, waktu, status, "", "")]
                        else old(topups)
    {
      ok := id !in topups;
      if ok {
        topups := topups[id := Topup(u, username, nama, nominal, waktu, status, "", "")];
      }
    }

    /** `update_topup_bukti`: records the proof of payment of an existing request. */
    method UpdateTopupBukti(id: string, fileId: string, caption: string)
      modifies this`topups
      ensures topups == if id in old(topups)
                        then old(topups)[id := old(topups)[id].(buktiFileId := fileId, buktiCaption := caption)]
                        else old(topups)
    {
      if id in topups {
        topups := topups[id := topups[id].(buktiFileId := fileId, buktiCaption := caption)];
      }
    }

    /** `update_topup_status`. */
    method UpdateTopupStatus(id: string, status: string)
      modifies this`topups
      ensures topups == if id in old(topups) then old(topups)[id := old(topups)[id].(status := status)]
                        else old(topups)
    {
      if id in topups {
        topups := topups[id := topups[id].(status := status)];
      }
    }

    /** `set_produk_admin_harga`: insert-or-ignore with an empty description, then set the price. */
    method SetProdukAdminHarga(kode: string, harga: int)
      modifies this`produkAdmin
      ensures produkAdmin == old(produkAdmin)[kode := ProdukAdmin(harga,
                               if kode in old(produkAdmin) then old(produkAdmin)[kode].deskripsi else "")]
    {
      if kode !in produkAdmin {
        produkAdmin := produkAdmin[kode := ProdukAdmin(harga, "")];
      }
      produkAdmin := produkAdmin[kode := produkAdmin[kode].(harga := harga)];
    }

    /** `set_produk_admin_deskripsi`: insert-or-ignore with price 0, then set the description. */
    method SetProdukAdminDeskripsi(kode: string, deskripsi: string)
      modifies this`produkAdmin
      ensures produkAdmin == old(produkAdmin)[kode := ProdukAdmin(
                               if kode in old(produkAdmin) then old(produkAdmin)[kode].harga else 0, deskripsi)]
    {
      if kode !in produkAdmin {
        produkAdmin := produkAdmin[kode := ProdukAdmin(0, deskripsi)];
      }
      produkAdmin := produkAdmin[kode := produkAdmin[kode].(deskripsi := deskripsi)];
    }

    /** `get_all_produk_admin`: the rows copied into a dictionary one by one. */
    method GetAllProdukAdmin() returns (d: map<string, ProdukAdmin>)
      ensures d == produkAdmin
    {
      d := map[];
      var rows := produkAdmin.Keys;
      while rows != {}
        invariant rows <= produkAdmin.Keys
        invariant d.Keys == produkAdmin.Keys - rows
        invariant forall k :: k in d ==> d[k] == produkAdmin[k]
        decreases |rows|
      {
        var k :| k in rows;
        d := d[k := produkAdmin[k]];
        rows := rows - {k};
      }
    }

    /** `simpan_kode_unik`: a plain INSERT of an unused code, refused when the code exists. */
    method SimpanKodeUnik(kode: string, creator: UserId, nominal: int, now: string) returns (ok: bool)
      modifies this`kodes
      ensures ok <==> kode !in old(kodes)
      ensures kodes == if ok then old(kodes)[kode := KodeUnik(creator, nominal, 0, now, None)] else old(kodes)
    {
      ok := kode !in kodes;
      if ok {
        kodes := kodes[kode := KodeUnik(creator, nominal, 0, now, None)];
      }
    }

    /** `gunakan_kode_unik`: marks a code used at `now`. */
    method GunakanKodeUnik(kode: string, now: string)
      modifies this`kodes
      ensures kodes == if kode in old(kodes)
                       then old(kodes)[kode := old(kodes)[kode].(digunakan := 1, digunakanPada := Some(now))]
                       else old(kodes)
    {
      if kode in kodes {
        kodes := kodes[kode := kodes[kode].(digunakan := 1, digunakanPada := Some(now))];
      }
    }

    /**
     * `get_riwayat_jml`: how many transactions `u` owns. `LogRiwayat` and
     * `UpdateRiwayatStatus` state how every user's count moves.
     */
    function RiwayatJml(u: UserId): (n: nat)
      reads this
      ensures n <= |riwayat.Keys|
      ensures n == 0 <==> forall id :: id in riwayat ==> riwayat[id].user != u
    {
      OwnedCount(riwayat, u);
      |OwnedIds(riwayat, u)|
    }

    /** `get_riwayat_user` (`owner` given) and `get_all_riwayat` (`owner` None): newest first, at most `limit`. */
    method GetRiwayat(owner: Option<UserId>, limit: nat) returns (rows: seq<(string, Trx)>)
      ensures IsNewestFirst(TrxTimes(riwayat, owner), limit, KeysOf(rows))
      ensures forall i :: 0 <= i < |rows| ==> rows[i].0 in riwayat && rows[i].1 == riwayat[rows[i].0]
      ensures forall i :: 0 <= i < |rows| ==> owner.Some? ==> rows[i].1.user == owner.value
    {
      var table := riwayat;
      var ks := Newest(TrxTimes(table, owner), limit);
      rows := seq(|ks|, i requires 0 <= i < |ks| && ks[i] in table => (ks[i], table[ks[i]]));
      assert KeysOf(rows) == ks;
    }

    /**
     * `get_topup_pending_by_user` (`owner` given: that user's requests in any
     * status) and `get_topup_pending_all` (`owner` None: every request still
     * 'pending'): newest first, at most `limit`.
     */
    method GetTopups(owner: Option<UserId>, limit: nat) returns (rows: seq<(string, Topup)>)
      ensures IsNewestFirst(TopupTimes(topups, owner), limit, KeysOf(rows))
      ensures forall i :: 0 <= i < |rows| ==> rows[i].0 in topups && rows[i].1 == topups[rows[i].0]
      ensures forall i :: 0 <= i < |rows| ==>
                if owner.Some? then rows[i].1.user == owner.value else rows[i].1.status == "pending"
    {
      var table := topups;
      var ks := Newest(TopupTimes(table, owner), limit);
      rows := seq(|ks|, i requires 0 <= i < |ks| && ks[i] in table => (ks[i], table[ks[i]]));
      assert KeysOf(rows) == ks;
    }

    /** `get_kode_unik_user`: the codes recorded with `owner`, newest first, copied row by row. */
    method GetKodeUnikUser(owner: UserId, limit: nat) returns (rows: seq<(string, KodeUnik)>)
      ensures IsNewestFirst(KodeTimes(kodes, owner), limit, KeysOf(rows))
      ensures forall i :: 0 <= i < |rows| ==> rows[i].0 in kodes && rows[i].1 == kodes[rows[i].0]
      ensures forall i :: 0 <= i < |rows| ==> rows[i].1.creator == owner
    {
      var ks := Newest(KodeTimes(kodes, owner), limit);
      rows := [];
      var i := 0;
      while i < |ks|
        invariant i <= |ks| && |rows| == i
        invariant forall j :: 0 <= j < i ==> rows[j] == (ks[j], kodes[ks[j]])
      {
        rows := rows + [(ks[i], kodes[ks[i]])];
        i := i + 1;
      }
      assert KeysOf(rows) == ks;
    }
  }
}
