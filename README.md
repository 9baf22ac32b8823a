# Akrab storefront bot: the money-and-records core in Dafny

This is a model of the part of the Telegram storefront bot
`bot_akrab_step_inline.py` that moves money and keeps records. The bot
sells prepaid XL/Axis data packages. Users hold an internal balance
(`saldo`) and top it up in two ways: by paying a QR code that an admin
then approves, or by typing a redemption code (`kode unik`) that an
admin issued. Buying a package works in two steps. The bot debits the
balance just before the order is dispatched to the provider. The
provider's later callback (the `/webhook` route) then settles the order.

The model keeps the bot's six SQLite tables as map fields of one class,
`Store.Db`:

- `users`
- `saldo`
- `riwayat` (`riwayat_transaksi`)
- `topups` (`topup_pending`)
- `produkAdmin` (`produk_admin`)
- `kodes` (`kode_unik_topup`)

Each store function of the bot that writes a table is a method of `Db`. Its `modifies`
clause names only the tables it writes. Its `ensures` clause gives the
new table in terms of the old one.

The conversation steps that change those tables live in module `Bot`:

- purchase confirmation;
- the provider callback after its pattern match;
- the QR top-up request and its proof upload;
- redemption;
- admin approval;
- price and description edits;
- issuing codes.

Every step returns the branch it took as an outcome value. Outside
inputs are parameters:

- the provider's answer;
- the QR service's answer;
- the fresh `uuid4` id;
- the `random.randint` values;
- the timestamp.

The pure rules are functions with lemmas about them:

- price precedence (`Pricing`);
- input validation (`Validation`);
- status-label classification (`Status`);
- the text primitives they rely on (`Text`), such as `str.strip`,
  ASCII `lower`/`upper`, substring tests, the digit-string parse and
  `str(int)`.

`Listing` models `ORDER BY … DESC LIMIT n` as a selection of the newest
keys by binary text order. `Scenarios` states, for concrete calls of the handlers on a fresh
database, the balances and outcomes they end with.

The bot's quirks are modelled as written, not fixed:

- A "sukses" callback debits the price a second time, after the debit
  at dispatch. `Bot.SettleEffect` states this, and
  `Scenarios.SuccessCallbackDebitsAgain` shows it: 100,000 ends at
  40,000 after one purchase of 30,000. The comment at line 1511 reads
  "Potong saldo, karena ini adalah konfirmasi SUKSES pertama" ("debit
  the balance, because this is the first SUKSES confirmation"), but the
  dispatch at line 683 has already debited the price. This looks like a double charge; the
  model keeps it as the code does (line 1512).
- "approve" credits the request every time, with no check of its
  current status. `Scenarios.ApproveTwice` credits twice.
- `kurang_saldo` on a user without a balance row changes nothing. The
  compensating `tambah_saldo` then creates the row.
  `Ledger.CompensationWithoutRow` states this.
- A redemption credits the user who typed the code, not the user id
  stored with it.
- A provider that answers the purchase request with a final label, such
  as `"status": "gagal"`, has that label stored at line 700. The refund
  callback that follows is then refused by the guard at line 1503, so
  the debit stays. `Scenarios.FinalReplyKeepsDebit` shows it: 100,000
  ends at 70,000.

## Model

| member | source | states |
|---|---|---|
| Ledger.Credit | bot_akrab_step_inline.py:96-102 | the result has the old keys plus `u`; `u`'s balance rises by exactly `amount`; every other balance is unchanged |
| Ledger.Debit | bot_akrab_step_inline.py:104-109 | the key set is unchanged; `u`'s balance drops by `amount` when `u` has a row; without a row the table is returned unchanged; every other balance is unchanged; no sufficiency check |
| Ledger.CreditUndoesDebit | bot_akrab_step_inline.py:683-692 | for a user with a row, the compensating credit after a debit restores the table exactly |
| Ledger.CompensationWithoutRow | bot_akrab_step_inline.py:683-692 | for a user without a row, debit then compensation leaves the user `amount` richer than before |
| Text.Trim | bot_akrab_step_inline.py:636 | `str.strip()`: the result is the infix of the input that starts after its leading whitespace; everything outside it is whitespace; its first and last characters are not |
| Text.TrimOfUnspaced | bot_akrab_step_inline.py:636 | a string without whitespace at either end is stripped to itself |
| Text.Lower | bot_akrab_step_inline.py:1502-1510 | `str.lower()` on ASCII: same length, each capital moved up by 32 code points, every other character kept, no capital left |
| Text.Upper | bot_akrab_step_inline.py:661 | `str.upper()` on ASCII: same length, each small letter moved down by 32 code points, every other character kept, no small letter left |
| Text.UpperMatchesWord | bot_akrab_step_inline.py:661-665 | comparing `upper()` of a reply with an upper-case word is the same as comparing `lower()` of the reply with the lower-case word |
| Text.Contains | bot_akrab_step_inline.py:1503 | the `in` test on strings: `p` occurs in `s` exactly when some position of `s` starts a copy of `p` |
| Text.IsDigits | bot_akrab_step_inline.py:637 | `str.isdigit()` on ASCII: non-empty and every character a digit; a digit string has no whitespace and no separator |
| Text.RemoveChar | bot_akrab_step_inline.py:811 | `str.replace(c, "")`: `c` no longer occurs; every other character keeps its count; a string without `c` is returned unchanged |
| Text.RemoveCharSingle | bot_akrab_step_inline.py:811 | a one-character string loses that character exactly when it is `c` |
| Text.RemoveCharConcat | bot_akrab_step_inline.py:811 | removal distributes over concatenation, so the kept characters stay in their order |
| Text.ParseNat | bot_akrab_step_inline.py:1022 | the digit-string `int()` succeeds exactly on non-empty strings of ASCII digits |
| Text.NatToString | bot_akrab_step_inline.py:266 | `str(n)` is a digit string with no leading zero, one character long exactly when `n < 10` |
| Text.ParseNatToString | bot_akrab_step_inline.py:266 | parsing `str(n)` gives back `n` |
| Text.TrimOfDigits | bot_akrab_step_inline.py:980 | a digit string is stripped to itself |
| Text.StrLeTotal | bot_akrab_step_inline.py:114 | the text order used by `ORDER BY waktu` relates any two strings |
| Text.StrLeTrans | bot_akrab_step_inline.py:114 | that order is transitive |
| Status.Classify | bot_akrab_step_inline.py:1510-1526 | the webhook branch: success exactly when the lower-cased label contains "sukses"; failure only when it contains "gagal"; cancellation only when it contains "batal" and not "gagal"; a branch is taken exactly when the label is final |
| Status.IsFinal | bot_akrab_step_inline.py:1502-1503 | the finality guard holds exactly when the history screen marks the label done or failed rather than waiting |
| Status.HistoryMark | bot_akrab_step_inline.py:1296-1297 | the history screens' mark (also lines 1315-1316): done exactly when the lower-cased label contains "sukses"; failed exactly when it does not but contains "gagal" or "batal"; waiting exactly when it contains none of the three |
| Status.ClassifyUpper | bot_akrab_step_inline.py:1508-1510 | storing a label upper-cased does not change how it is classified |
| Status.TerminalLabelSticks | bot_akrab_step_inline.py:1502-1508 | a success, failure or cancellation label, stored upper-cased, makes the record final |
| Status.HistoryMarkAgrees | bot_akrab_step_inline.py:1296-1297 | the history screen's upper-case mark is done, failed or waiting exactly when the webhook's lower-case classification is success, failure/cancel or unrecognised |
| Pricing.CatalogHargaFirstMatch | bot_akrab_step_inline.py:480-490 | the first stock-list entry whose type is `kode` gives the price, or 0 when that entry has no `harga` |
| Pricing.CatalogHargaUntyped | bot_akrab_step_inline.py:480-492 | an entry without `type` reached before any match yields 0, since the `KeyError` is swallowed |
| Pricing.CatalogHargaNoMatch | bot_akrab_step_inline.py:480-494 | a list without an entry of type `kode` yields 0 |
| Pricing.CatalogHarga | bot_akrab_step_inline.py:480-494 | the stock-list scan yields 0 or the `harga` of some entry whose type is `kode` |
| Pricing.LookupCatalog | bot_akrab_step_inline.py:481-484 | the scan loop returns the stock-list price of `kode` |
| Pricing.GetHargaProduk | bot_akrab_step_inline.py:470-494 | the precedence: a positive override, else the handed-in product's `harga`, else the stock-list scan, else 0; an override price returned is positive |
| Validation.Tujuan | bot_akrab_step_inline.py:636-637 | the destination is accepted exactly when the stripped reply is at least 8 ASCII digits, and the accepted value is the stripped reply |
| Validation.TujuanIdempotent | bot_akrab_step_inline.py:636-640 | an accepted destination, entered again, is accepted unchanged |
| Validation.StripSeparators | bot_akrab_step_inline.py:811 | the result contains neither '.' nor ','; every other character keeps its count |
| Validation.StripSeparatorsConcat | bot_akrab_step_inline.py:811 | stripping distributes over concatenation, so the digits keep their order |
| Validation.StripSeparatorsSingle | bot_akrab_step_inline.py:811 | a one-character string loses that character exactly when it is '.' or ',' |
| Validation.SeparatorDropped | bot_akrab_step_inline.py:811 | one separator anywhere in the text strips to the same result as the text without it |
| Validation.SeparatorIgnored | bot_akrab_step_inline.py:811-812 | inserting one '.' or ',' anywhere changes neither the top-up amount, the admin price nor the code nominal that is read |
| Validation.StripSeparatorsOfDigits | bot_akrab_step_inline.py:811 | a digit string has nothing to strip |
| Validation.TopupNominal | bot_akrab_step_inline.py:1022-1024 | an amount is accepted exactly when the separator-free text parses to `n` with 10000 <= n <= 5000000 and n % 1000 == 0, and the accepted value is that `n` |
| Validation.TopupNominalOfNumber | bot_akrab_step_inline.py:1022-1023 | a plain decimal amount is accepted exactly when the amount rule holds, and is read back as itself |
| Validation.SurchargeRecoverable | bot_akrab_step_inline.py:1032-1033 | an accepted amount plus a surcharge of 100..999 lies in 10100..5000999, and its last three digits are the surcharge while the rest is the requested amount |
| Validation.AdminHarga | bot_akrab_step_inline.py:811-816 | a new price is accepted exactly when the separator-free text is all digits with a value above 0, and the accepted value is that parse |
| Validation.AdminHargaOfNumber | bot_akrab_step_inline.py:811-812 | a plain decimal price `n` is accepted as `n` exactly when `n > 0` |
| Validation.KodeNominal | bot_akrab_step_inline.py:1262-1265 | no number exactly when the separator-free text does not parse; below the minimum exactly when it parses to less than 10000; otherwise the nominal is the parsed value |
| Listing.Newest | bot_akrab_step_inline.py:114 | `ORDER BY … DESC LIMIT n`: min(n, rows) distinct keys of the table, newest first, and no row left out is newer than a row taken |
| Store.OwnedCount | bot_akrab_step_inline.py:169-175 | a user's transactions are at most all transactions, and there are none exactly when the user owns none |
| Store.OwnedAfterInsert | bot_akrab_step_inline.py:169-175 | adding a record under a fresh id raises its owner's count by one and no other user's count |
| Store.OwnedAfterRewrite | bot_akrab_step_inline.py:169-175 | rewriting a record while keeping its owner changes no user's set of ids |
| Store.Db.constructor | bot_akrab_step_inline.py:54-77 | a fresh database has every table empty |
| Store.Db.TambahUser | bot_akrab_step_inline.py:80-86 | insert-or-ignore into `users`, and a balance row of 0 unless one exists; no balance changes |
| Store.Db.GetSaldo | bot_akrab_step_inline.py:88-94 | the stored balance, or 0 for a user without a row |
| Store.Db.TambahSaldo | bot_akrab_step_inline.py:96-102 | the balance table becomes `Credit` of the old one |
| Store.Db.KurangSaldo | bot_akrab_step_inline.py:104-109 | the balance table becomes `Debit` of the old one |
| Store.Db.LogRiwayat | bot_akrab_step_inline.py:127-135 | the record is inserted under its id exactly when the id is new, raising its owner's `RiwayatJml` by one and no other user's; otherwise nothing changes |
| Store.Db.UpdateRiwayatStatus | bot_akrab_step_inline.py:137-143 | an existing record gets the new label and remark, its other fields kept, and no user's `RiwayatJml` moves; an unknown id changes nothing |
| Store.Db.InsertTopupPending | bot_akrab_step_inline.py:177-185 | a request with empty proof fields is inserted exactly when its id is new |
| Store.Db.UpdateTopupBukti | bot_akrab_step_inline.py:187-193 | an existing request gets the proof file id and caption, its other fields kept |
| Store.Db.UpdateTopupStatus | bot_akrab_step_inline.py:195-200 | an existing request gets the new status, its other fields kept |
| Store.Db.SetProdukAdminHarga | bot_akrab_step_inline.py:236-242 | the override gets the new price and keeps its description, or `''` for a new row; other overrides unchanged |
| Store.Db.SetProdukAdminDeskripsi | bot_akrab_step_inline.py:244-250 | the override gets the new description and keeps its price, or 0 for a new row; other overrides unchanged |
| Store.Db.GetAllProdukAdmin | bot_akrab_step_inline.py:252-262 | the dictionary built row by row equals the table |
| Store.Db.SimpanKodeUnik | bot_akrab_step_inline.py:268-276 | an unused code with its creator, nominal and time is inserted exactly when the code is new |
| Store.Db.GunakanKodeUnik | bot_akrab_step_inline.py:295-301 | an existing code is marked used, with the time of use |
| Store.Db.RiwayatJml | bot_akrab_step_inline.py:169-175 | the count is the number of ids owned by the user, at most the number of transactions, and 0 exactly when the user owns none; `LogRiwayat` and `UpdateRiwayatStatus` state how it moves |
| Store.Db.GetRiwayat | bot_akrab_step_inline.py:111-125 | the user's transactions (or all of them), newest first, at most `limit`, each row as stored |
| Store.Db.GetTopups | bot_akrab_step_inline.py:202-216 | a user's requests in any status, or all requests still 'pending', newest first, at most `limit`, each as stored |
| Store.Db.GetKodeUnikUser | bot_akrab_step_inline.py:303-320 | the codes recorded with the user, newest by creation time first, at most `limit`, copied row by row |
| Bot.ConfirmWord | bot_akrab_step_inline.py:661-665 | the stripped, upper-cased reply is "YA" exactly when its lower-case form is "ya", and "BATAL" exactly when it is "batal" |
| Bot.KonfirmasiStep | bot_akrab_step_inline.py:660-700 | "BATAL" aborts and anything but "YA" re-prompts, both with no change; after "YA" it does what `ConfirmedPurchase` states |
| Bot.ConfirmedPurchase | bot_akrab_step_inline.py:666-700 | a price <= 0 is re-resolved; a balance below the price changes nothing; a transport failure leaves the balance as it was (for a known user) and records nothing; otherwise the balance drops by exactly the price and exactly one record is added under the fresh id, with status and remark defaulting to "PENDING" and "Transaksi sedang diproses." |
| Bot.HttpStatus | bot_akrab_step_inline.py:1476-1483 | only a missing message is answered 400; every other reply is 200 |
| Bot.Settle | bot_akrab_step_inline.py:1510-1528 | the settled balances add at most the buyer's row, leave every other user's balance as it was, and equal the old ones for an unrecognised label |
| Bot.WebhookHandler | bot_akrab_step_inline.py:1475-1545 | no message, an unmatched line, an unknown id or a record already final each change nothing; otherwise the record gets the upper-cased label and the stripped remark, and the balances become `Settle` of the old ones |
| Bot.SettleEffect | bot_akrab_step_inline.py:1510-1543 | a success label debits the price again, a failure or cancellation label credits it back, any other label moves no balance, and no other user's balance moves |
| Bot.RepeatedCallback | bot_akrab_step_inline.py:1492-1545 | the same final-label callback delivered twice: an unknown id is refused both times; for a known id the second delivery is refused as already final and changes nothing after the first |
| Bot.TopupAmountStep | bot_akrab_step_inline.py:1020-1068 | a bad amount, a QR failure or an undecodable QR reply changes nothing; otherwise one 'pending' request for amount plus surcharge is inserted under the fresh id |
| Bot.TopupUploadStep | bot_akrab_step_inline.py:1086-1113 | with no request chosen (a missing or empty id) or no photo, nothing changes; otherwise the chosen request gets the largest photo's file id and the caption, or `''` when there is no caption |
| Bot.InputKodeUnikStep | bot_akrab_step_inline.py:979-995 | an unknown or used code changes nothing; an unused code credits its nominal to the redeeming user and is marked used |
| Bot.AdminTopupAction | bot_akrab_step_inline.py:1211-1245 | an unknown id changes nothing; "approve" credits the stored nominal to the stored user and sets 'approved', whatever the prior status; "reject" sets 'rejected' and moves no balance; any other action changes nothing |
| Bot.AdminEditHargaStep | bot_akrab_step_inline.py:808-817 | a rejected price changes nothing; an accepted one becomes the override price, keeping the description and every other override |
| Bot.AdminEditDeskripsiStep | bot_akrab_step_inline.py:867-872 | the stripped text becomes the description, keeping the price and every other override |
| Bot.AdminGenerateKodeStep | bot_akrab_step_inline.py:1260-1268 | no number or a nominal below 10000 changes nothing; otherwise the three-digit code is stored as unused with the admin and the nominal, or nothing is stored when the code already exists |
| Bot.GeneratedKodeTypedBack | bot_akrab_step_inline.py:980-984 | a generated code typed back as printed is looked up as itself |
| Scenarios.DefaultStatusNotFinal | bot_akrab_step_inline.py:696-700 | a purchase recorded with the default label "PENDING" is not final |
| Scenarios.GagalIsFailure | bot_akrab_step_inline.py:1526 | the label "Gagal" is a failure |
| Scenarios.SuksesIsSuccess | bot_akrab_step_inline.py:1510 | the label "Sukses" is a success |
| Scenarios.InsufficientPurchase | bot_akrab_step_inline.py:677-680 | a buyer with balance 0 is refused a purchase of 50,000 and keeps 0 |
| Scenarios.PendingPurchase | bot_akrab_step_inline.py:683-700 | 100,000 minus a dispatched purchase of 30,000 leaves 70,000 and one "PENDING" record |
| Scenarios.FailedCallbackRefunds | bot_akrab_step_inline.py:1526-1528 | a "Gagal" callback restores 100,000, and a repeated one is refused as final with the balance unchanged |
| Scenarios.SuccessCallbackDebitsAgain | bot_akrab_step_inline.py:1510-1512 | a "Sukses" callback takes the price a second time: 70,000 becomes 40,000 |
| Scenarios.FinalReplyKeepsDebit | bot_akrab_step_inline.py:696-700 | a purchase of 30,000 whose provider reply is "gagal" leaves 70,000, and the "Gagal" callback after it is refused as already final, so the balance stays at 70,000 |
| Scenarios.IssueFacts | bot_akrab_step_inline.py:1262-1267 | the reply "20000" is a nominal of 20,000, and code 123 prints as "123" |
| Scenarios.IssuedCode | bot_akrab_step_inline.py:1260-1268 | issuing code 123 worth 20,000 stores exactly that unused code |
| Scenarios.RedeemOnce | bot_akrab_step_inline.py:989-995 | the code typed twice credits 20,000 once, and the second attempt is refused as used |
| Scenarios.ApproveTwice | bot_akrab_step_inline.py:1220-1222 | approving the same request of 10,123 twice credits 20,246 |
| Scenarios.MalformedCallback | bot_akrab_step_inline.py:1480-1483 | a line the pattern rejects is answered 200 and leaves the balance at 100,000 |

## Left out

- Telegram presentation is not modelled: keyboards, message texts, HTML, menus, broadcast and help. They show data but change no table.
- `callback_router` (lines 1386-1449) is not modelled. It only dispatches button presses to the modelled steps, for example `admin_topup_action|…` to `admin_topup_action` (lines 1425-1426) and the price and description edits into the states whose steps write overrides. Neither the router nor the admin steps (lines 808-872, 1211-1245 and 1260-1283) check the caller against `ADMIN_IDS`; only the menu choice at line 397 does. Any chat that sends such a callback reaches them. The model's `Bot.AdminTopupAction`, `Bot.AdminEditHargaStep` and `Bot.AdminEditDeskripsiStep` carry no caller identity, and `Bot.AdminGenerateKodeStep` takes the caller only as the code's stored creator, never as a permission check, matching the source.
- The `ConversationHandler` wiring is not modelled. It decides which step runs, and at lines 1588-1590 it changes what the bot can do; see `Bot.AdminGenerateKodeStep` below.
- Bot.AdminGenerateKodeStep: lines 1588-1590 register `input_kode_unik_step` before `admin_generate_kode_step` in state `INPUT_KODE_UNIK`, with the same filter, so the first handler takes every text and the admin step is never reached in the wired bot. The model states what the step does when it is called directly. `Scenarios.IssuedCode` and `Scenarios.RedeemOnce` call it that way, a path the wired bot cannot take.
- The Flask transport and the `RX` pattern are not modelled. The handler receives `NoMessage`, `Malformed` or the already-extracted fields. A line the pattern rejects gets "format tidak dikenali" with status 200 and no change, which is `Malformed`.
- The handler's catch-all 500 reply is not modelled. Every modelled step of the handler is total.
- HTTP calls to the provider, the stock API and the QR service are not modelled. Their answers are parameters: `ProviderReply`, the `catalog` sequence and `QrReply`.
- Bot.KonfirmasiStep: a provider reply that is valid JSON but not an object raises outside the `try`. The debit then stays and no record is written. The model treats every non-transport reply as a `Response` with optional fields, so it also inherits the gap of `Bot.ConfirmedPurchase` below.
- Bot.ConfirmedPurchase: a reply whose `status` is present but JSON null is not modelled. `data.get('status', 'PENDING')` at line 696 returns None for it, line 700 stores NULL, and the `.upper()` at line 707 raises after the debit and the record. Every later callback for that id then raises at line 1502 and gets the catch-all 500, so the record is never settled and a failure is never refunded; the history screens raise at lines 1296 and 1315. The model reads `None` only as an absent key, stores "PENDING" and lets callbacks settle. A null `message` is likewise read as absent. Other non-string values are not modelled either: a number or boolean `status` is stored at line 700, then the `.upper()` at line 707 raises after the debit and the record, and every later callback for that id raises on `.lower()` at line 1502 and gets 500, so the order is never settled and a failure never refunded; a list or object `status` or `message` cannot be bound by `log_riwayat` at line 700, so the call raises after the debit at line 683, the balance stays debited and no record is written. The model reads every `Response` as holding strings or absent fields.
- Bot.KonfirmasiStep: the price the conversation remembered is a parameter, and the model does not ask how it was chosen. The product search of `pilih_produk_callback` is not part of this model.
- SQLite is not modelled: connections, commits, durability and the schema details of `init_db`. The tables are maps, and a failed `INSERT` on a taken key is a `false` result or a precondition.
- Concurrency is not modelled. Each step runs to completion alone, so the races between the callback thread and the chat loop, and between two redemptions of one code, are outside the model.
- `produk_cache`, its refresh timer and the background refresh thread are not modelled, because they use float time and threads. The stock list a price lookup scans is a parameter.
- `uuid4`, `random.randint` and `datetime.now()` are not modelled. They are parameters with preconditions: a fresh id, a number in 100..999 and an opaque timestamp.
- Configuration loading and logging are not modelled. They change no table.
- Text.ParseNat: Python's `int()` also accepts a sign, surrounding whitespace, underscores and non-ASCII digits. The model parses ASCII digit strings only, so `TopupNominal`, `AdminHarga` and `KodeNominal` refuse such input.
- Validation.Tujuan: `isdigit()` at line 637 also accepts non-ASCII digits, such as fullwidth or Arabic-Indic digits. The model accepts ASCII digits only, so it refuses destinations the source accepts.
- Text.Lower: `lower()` is modelled on ASCII letters only. A non-ASCII letter whose case mapping is ASCII, such as the Kelvin sign, is not folded.
- Text.Upper: `upper()` is modelled on ASCII letters only. A non-ASCII letter whose upper case is ASCII, such as 'ſ' becoming 'S', is not mapped.
- Text.IsDigits: `isdigit()` is modelled on ASCII digits only. Other Unicode digits, such as fullwidth or Arabic-Indic digits, are refused.
- Pricing.GetHargaProduk: on the handed-in product (line 477), a `harga` that `int()` cannot convert, or a JSON null, raises out of the function. In the stock-list scan (lines 484 and 490) the same error is inside the `try` and yields 0. The model reads `harga` as an integer or absent, so neither error path is modelled.
- `get_user`, `get_all_users`, `get_riwayat_by_refid`, `get_topup_by_id`, `get_kode_unik` and `get_produk_admin` have no methods of their own. They are plain map reads (`db.riwayat[id]`, `id in db.topups`, …) inside the steps that use them.
- Listing.Newest: SQLite's order among rows with equal timestamps is not specified. The model allows any order between ties.
- The balance, price and nominal columns are modelled as unbounded integers. SQLite's 64-bit limit is not modelled.
