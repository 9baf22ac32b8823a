/**
 * Price resolution: an admin override from the `produk_admin` table, the
 * price of the product the caller already holds, or the price found by
 * scanning the provider's stock list.
 */
module Pricing {

  import opened Wrappers

  /**
   * A product of the provider's stock list, reduced to what price
   * resolution reads: its `type` key (None when the key is missing) and
   * its `harga` key (None when missing).
   */
  datatype CatalogEntry = CatalogEntry(kind: Option<string>, harga: Option<int>)

  /** A row of `produk_admin`. */
  datatype ProdukAdmin = ProdukAdmin(harga: int, deskripsi: string)

  /** `int(produk.get("harga", 0))`. */
  function HargaOrZero(e: CatalogEntry): int {
    e.harga.GetOr(0)
  }

  /**
   * The stock-list scan of `get_harga_produk`: the price of the first entry
   * whose type is `kode`. An entry without a `type` raises inside the
   * scan's `try`, which then yields 0, as does reaching the end. A price
   * other than 0 is always the `harga` of an entry of type `kode`.
   */
  function CatalogHarga(catalog: seq<CatalogEntry>, kode: string): (h: int)
    ensures h == 0 || exists i :: 0 <= i < |catalog| && catalog[i].kind == Some(kode) && catalog[i].harga == Some(h)
  {
    if catalog == [] then 0
    else match catalog[0].kind
      case None => 0
      case Some(t) => if t == kode then HargaOrZero(catalog[0]) else CatalogHarga(catalog[1..], kode)
  }

  /** Every entry before position `i` has a type, and none of them is `kode`. */
  predicate ScannedPast(catalog: seq<CatalogEntry>, kode: string, i: nat)
    requires i <= |catalog|
  {
    forall j :: 0 <= j < i ==> catalog[j].kind.Some? && catalog[j].kind.value != kode
  }

  /** The first entry of type `kode` gives the price. */
  lemma {:induction false} CatalogHargaFirstMatch(catalog: seq<CatalogEntry>, kode: string, i: nat)
    requires i < |catalog| && catalog[i].kind == Some(kode) && ScannedPast(catalog, kode, i)
    ensures CatalogHarga(catalog, kode) == HargaOrZero(catalog[i])
  {
    if i > 0 {
      assert ScannedPast(catalog[1..], kode, i - 1) by {
        forall j | 0 <= j < i - 1 ensures catalog[1..][j] == catalog[j + 1] { }
      }
      CatalogHargaFirstMatch(catalog[1..], kode, i - 1);
    }
  }

  /** An entry without a type reached before any match ends the scan with 0. */
  lemma {:induction false} CatalogHargaUntyped(catalog: seq<CatalogEntry>, kode: string, i: nat)
    requires i < |catalog| && catalog[i].kind.None? && ScannedPast(catalog, kode, i)
    ensures CatalogHarga(catalog, kode) == 0
  {
    if i > 0 {
      assert ScannedPast(catalog[1..], kode, i - 1) by {
        forall j | 0 <= j < i - 1 ensures catalog[1..][j] == catalog[j + 1] { }
      }
      CatalogHargaUntyped(catalog[1..], kode, i - 1);
    }
  }

  /** A list without an entry of type `kode` gives 0. */
  lemma {:induction false} CatalogHargaNoMatch(catalog: seq<CatalogEntry>, kode: string)
    requires ScannedPast(catalog, kode, |catalog|)
    ensures CatalogHarga(catalog, kode) == 0
  {
    if catalog != [] {
      assert ScannedPast(catalog[1..], kode, |catalog| - 1) by {
        forall j | 0 <= j < |catalog| - 1 ensures catalog[1..][j] == catalog[j + 1] { }
      }
      CatalogHargaNoMatch(catalog[1..], kode);
    }
  }

  /** The loop of `get_harga_produk` over the stock list. */
  method LookupCatalog(catalog: seq<CatalogEntry>, kode: string) returns (h: int)
    ensures h == CatalogHarga(catalog, kode)
  {
    var i := 0;
    while i < |catalog|
      invariant i <= |catalog|
      invariant CatalogHarga(catalog[i..], kode) == CatalogHarga(catalog, kode)
    {
      assert catalog[i..][1..] == catalog[i + 1..];
      match catalog[i].kind {
        case None => return 0;
        case Some(t) =>
          if t == kode {
            return HargaOrZero(catalog[i]);
          }
      }
      i := i + 1;
    }
    return 0;
  }

  /** An override price counts only when it is positive. */
  predicate OverrideApplies(admin: map<string, ProdukAdmin>, kode: string) {
    kode in admin && admin[kode].harga > 0
  }

  /**
   * The precedence `get_harga_produk` applies: a positive override, else
   * the `harga` of the product handed in, else the stock-list scan.
   */
  predicate IsHargaProduk(admin: map<string, ProdukAdmin>, kode: string, api: Option<CatalogEntry>,
                          catalog: seq<CatalogEntry>, h: int)
  {
    if OverrideApplies(admin, kode) then h == admin[kode].harga
    else if api.Some? && api.value.harga.Some? then h == api.value.harga.value
    else h == CatalogHarga(catalog, kode)
  }

  /**
   * `get_harga_produk(kode, api_produk)`. `catalog` is the list the scan
   * reads: the cached list, or the freshly fetched one when the cache is
   * empty (an empty list when that fetch fails).
   */
  method GetHargaProduk(admin: map<string, ProdukAdmin>, kode: string, api: Option<CatalogEntry>,
                        catalog: seq<CatalogEntry>) returns (h: int)
    ensures IsHargaProduk(admin, kode, api, catalog, h)
    ensures OverrideApplies(admin, kode) ==> h > 0
  {
    if kode in admin && admin[kode].harga > 0 {
      return admin[kode].harga;
    }
    if api.Some? && api.value.harga.Some? {
      return api.value.harga.value;
    }
    h := LookupCatalog(catalog, kode);
  }
}
