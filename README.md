# Stock performance dashboard — a Dafny model of its core

The dashboard keeps a personal log of Taiwan-stock trades in the browser.
From that log it computes a portfolio, rebuilds a day-by-day history of cash
and investment, caches daily quotes and names, and encrypts what it stores
in `localStorage` under a per-browser master key. Two server endpoints answer
quote requests and the full stock list from the public TWSE/TPEx and FinMind
services.

This project models the seven files that carry that logic:

- `composables/useCrypto.ts` is modelled in `crypto.dfy`. It covers:
  - the master key, drawn from 32 random bytes and kept hex-encoded;
  - the salt and IV drawn for each encryption;
  - the base64 conversions;
  - encrypt, decrypt and the self-test.

  The AES-GCM cipher and PBKDF2 are an abstract `Platform`. Its lawfulness
  predicate states the one law the code relies on: opening what was sealed
  with the same password, salt and IV gives back the text. A failing
  platform call yields what it throws, and encrypt and decrypt report an
  `Error`'s message or, for any other thrown value, their own fallback text.
- `composables/useSecureStorage.ts` is modelled in `secure_storage.dfy`. It covers:
  - setItem and getItem with their plain-text fallback;
  - removeItem, hasItem and migration;
  - listing and clearing the encrypted keys;
  - backup and restore.
- `composables/useStockPrice.ts` is modelled in `stock_price.dfy`. It covers:
  - the daily cache keys;
  - the same-day cache rule for prices and names;
  - the forced refresh;
  - clearing the cache.
- `composables/useTransactions.ts` is modelled in `transactions.dfy`. It covers:
  - the transaction log, with load, save, add and delete;
  - renaming stocks and recording live prices;
  - the portfolio fold, the totals and the recent entries.
- `composables/useAssetHistory.ts` is modelled in `asset_history.dfy`. It covers:
  - the initial setup and the snapshots;
  - the rebuild of the history by undoing trades newest first;
  - the trend, minimum and maximum;
  - the per-stock holding history.
- `server/api/stock.ts` is modelled in `stock_api.dfy`. It covers:
  - symbol validation;
  - the price stage with its OTC fallback;
  - the name stage;
  - the response.
- `server/api/stock-list.ts` is modelled in `stock_list_api.dfy`. It covers:
  - the 24-hour list cache;
  - gathering the TWSE and OTC lists;
  - filtering and sorting;
  - the stale-cache fallback.

Helper modules:

- `wrappers.dfy`: Option and Result.
- `json.dfy`: JSON values, with `JSON.parse`/`JSON.stringify` as an abstract codec whose law is the round trip.
- `text.dfy`: `String(n)`, `padStart`, `trim`, and string order.
- `sorting.dfy`: `Array.prototype.sort` as a stable insertion sort. It is proved ordered and a permutation.
- `seqs.dfy`: small sequence facts.
- `storage.dfy`: the browser's `localStorage`, as an ordered list of key/value pairs.

Code that changes state in place is modelled as classes whose methods change it:

- the transaction log (`Transactions.Ledger`);
- the asset history (`AssetHistory.AssetTracker`);
- the quote cache (`StockPrice.QuoteCache`);
- the stock-list endpoint with its module-level cache (`StockListApi.StockListEndpoint`);
- `localStorage` and the random source.

Each such method is proved equal to a specification function. The properties
the source promises are lemmas about those functions.

Randomness is a fixed infinite byte stream read from a cursor. Each draw
takes the next bytes, so two draws never share bytes. The clock, upstream
HTTP answers and quotes are parameters.

## Model

| member | source | states |
|---|---|---|
| Crypto.RecordShape | composables/useCrypto.ts:20-22 | The JSON of an encrypted record is recognised as encrypted data exactly when its data, IV and salt are all non-empty. |
| Crypto.PlainObjectNotRecord | composables/useCrypto.ts:20-22 | An object without an `encrypted` property is never taken for an encrypted record. |
| Crypto.BtoaNonEmpty | composables/useCrypto.ts:82-89 | On a lawful platform, base64 of a non-empty binary string is non-empty. |
| Crypto.Latin1 | composables/useCrypto.ts:82-89 | The binary string built by `String.fromCharCode` has one character per byte, each below 256. |
| Crypto.CharCodes | composables/useCrypto.ts:92-99 | The `charCodeAt` loop yields one byte per character. |
| Crypto.CharCodesOfLatin1 | composables/useCrypto.ts:82-99 | Decoding the binary string of some bytes gives back exactly those bytes. |
| Crypto.Latin1OfCharCodes | composables/useCrypto.ts:82-99 | Encoding the bytes of a binary string gives back that string. |
| Crypto.ArrayBufferToBase64 | composables/useCrypto.ts:82-89 | The loop builds the binary string of the bytes and returns its base64. |
| Crypto.Base64ToArrayBuffer | composables/useCrypto.ts:92-99 | The result fails exactly when `atob` throws, carrying what it threw. Otherwise it is a fresh array holding the character codes of the decoded text. |
| Crypto.Window | composables/useCrypto.ts:26-33 | A random draw of n bytes has length n. |
| Crypto.Entropy.Draw | composables/useCrypto.ts:26-33 | `crypto.getRandomValues` yields the next n bytes of the stream and advances past them, so no byte is used twice. |
| Crypto.HexDigit | composables/useCrypto.ts:66-68 | Every digit is a lower-case hex character. |
| Crypto.HexByte | composables/useCrypto.ts:66-68 | `toString(16).padStart(2, '0')` of a byte is always its two hex digits. |
| Crypto.HexShape | composables/useCrypto.ts:66-68 | The hex text of n bytes has 2n lower-case hex characters. |
| Crypto.HexDigitInjective | composables/useCrypto.ts:66-68 | Distinct nibbles give distinct hex digits. |
| Crypto.HexInjective | composables/useCrypto.ts:66-68 | Distinct byte strings give distinct hex keys. |
| Crypto.MasterKeyLifecycle | composables/useCrypto.ts:61-79 | A stored master key is returned unchanged and nothing changes. Without one on a supporting platform, a 64-character hex key is generated from 32 fresh bytes and stored. Once stored, later requests return the same key. There is no key only when none is stored and the platform lacks support. |
| Crypto.GetMasterPassword | composables/useCrypto.ts:61-79 | The method returns the key and leaves storage and the random cursor as the lifecycle specification says. |
| Crypto.ResetEncryption | composables/useCrypto.ts:198-205 | Only the master key entry is removed. |
| Crypto.ResetForcesNewKey | composables/useCrypto.ts:198-205 | After a reset, the next key request generates a new key from the next 32 random bytes and leaves every other entry alone. |
| Crypto.Encrypt | composables/useCrypto.ts:102-137 | The method's result, storage and random cursor are those of the encryption specification. Empty data fails with "No data to encrypt". On a platform without Web Crypto, or when sealing throws, it fails with the thrown `Error`'s message, or "Encryption failed" for any other thrown value. |
| Crypto.DecodeField | composables/useCrypto.ts:147-149 | A record field is read as text, a non-string as its `String(x)` text as `atob` coerces it. The result is the character codes of its base64 decoding, or a failure carrying what `atob` threw. |
| Crypto.Decrypt | composables/useCrypto.ts:140-170 | The method's result, storage and random cursor are those of the decryption specification. A value that is not an encrypted record fails with "Invalid encrypted data format". Otherwise the key is requested and the salt, IV and data are decoded in that order, then the record is opened. The first step that throws ends it with the thrown `Error`'s message, or "Decryption failed" for any other thrown value. |
| Crypto.EncryptResultShape | composables/useCrypto.ts:102-137 | Empty data fails with "No data to encrypt" and changes nothing. On success, the record is recognised as encrypted, and its salt and IV are the base64 of the next 16 and 12 random bytes drawn after the master key. |
| Crypto.EncryptThenDecrypt | composables/useCrypto.ts:102-170 | Decrypting what was encrypted gives back the data and changes nothing, whenever the same master key is in storage. |
| Crypto.TestCrypto | composables/useCrypto.ts:173-195 | The method's result and effects are those of the self-test specification. |
| Crypto.TestCryptoPassesIffEncrypts | composables/useCrypto.ts:173-195 | On a lawful platform the self-test passes exactly when encrypting its probe text succeeds. |
| SecureStorage.SetItem | composables/useSecureStorage.ts:17-51 | The method's result and effects are those of the setItem specification. |
| SecureStorage.GetItem | composables/useSecureStorage.ts:54-98 | The method's result and effects are those of the getItem specification. |
| SecureStorage.SetEffect | composables/useSecureStorage.ts:17-51 | With the plain-text fallback, setItem always reports success. With encryption off or unsupported, the value's text (a string as is, anything else as JSON) is written unencrypted. A failure happens only when encryption was requested and supported and the fallback was refused, and then nothing but the master key changed. On success the key holds the text or an encrypted record, and no other key except the master key changed. |
| SecureStorage.GetEffect | composables/useSecureStorage.ts:54-98 | getItem changes storage at most by creating the missing master key. With the master key present it changes nothing. |
| SecureStorage.GetRepeatable | composables/useSecureStorage.ts:54-98 | A second read of the same key yields the same value and changes nothing. |
| SecureStorage.ReadbackValue | composables/useSecureStorage.ts:23-98 | A stored non-string reads back as itself. A non-empty string that is not JSON reads back as itself. An empty string reads back as the default. |
| SecureStorage.SetThenGet | composables/useSecureStorage.ts:17-98 | After a successful setItem, getItem of that key yields the value, whether it was stored encrypted or as plain text, and changes nothing. |
| SecureStorage.RemoveItem | composables/useSecureStorage.ts:101-109 | Only the key is removed, and the result is true. |
| SecureStorage.HasItem | composables/useSecureStorage.ts:112-119 | The result is true exactly when some value, even an empty one, is stored under the key. |
| SecureStorage.MigrateToEncrypted | composables/useSecureStorage.ts:122-154 | The method's result and effects are those of the migration specification. |
| SecureStorage.MigratePreservesReads | composables/useSecureStorage.ts:122-154 | After a successful migration, getItem reads the key as before. A missing key, or a platform without crypto support, leaves storage untouched with the result true. |
| SecureStorage.GetEncryptedKeys | composables/useSecureStorage.ts:157-182 | The loop returns the specification's list of keys holding encrypted records, in storage order. |
| SecureStorage.EncryptedKeysUpToExact | composables/useSecureStorage.ts:157-182 | After n storage positions, the loop has listed exactly the record-holding keys among them. |
| SecureStorage.EncryptedKeysExact | composables/useSecureStorage.ts:157-182 | A key is listed exactly when it holds an encrypted record. |
| SecureStorage.LookupRemoveAll | composables/useSecureStorage.ts:224-234 | Removing a list of keys empties exactly those keys. |
| SecureStorage.ClearEncryptedData | composables/useSecureStorage.ts:224-234 | The method removes the keys that getEncryptedKeys lists. |
| SecureStorage.ClearExact | composables/useSecureStorage.ts:224-234 | After clearing, every key that held a record is gone and every other key keeps its value. |
| SecureStorage.BudgetShrinks | composables/useSecureStorage.ts:185-201 | Each round of the backup loop lowers its bound, even when getItem adds the master key, so the loop ends. |
| SecureStorage.Backup | composables/useSecureStorage.ts:185-201 | The method's result and effects are those of the backup specification. |
| SecureStorage.BackupExact | composables/useSecureStorage.ts:185-201 | With the master key present, backup changes nothing. It exports, in storage order, each non-empty key not starting with `__crypto_`, paired with what getItem yields for it. |
| SecureStorage.BackupSkipsCryptoKeys | composables/useSecureStorage.ts:191 | No exported key starts with `__crypto_`, whatever the state of the master key. |
| SecureStorage.Restore | composables/useSecureStorage.ts:204-221 | The method's result and effects are those of the restore specification. |
| SecureStorage.RestoreOutcome | composables/useSecureStorage.ts:204-221 | restore fails only when encryption was requested and supported and the fallback was refused. With encryption off, every pair is written as plain text in order, and the result is true. |
| StockPrice.TodayStringFormat | composables/useStockPrice.ts:19-22 | The day string is `YYYY-MM-DD`: four, two and two digits separated by dashes. They denote the year, the month (counted from 1) and the day. |
| StockPrice.TodayStringInjective | composables/useStockPrice.ts:19-22 | Distinct days give distinct day strings, so yesterday's entry never passes as today's. |
| StockPrice.PriceCacheKey | composables/useStockPrice.ts:25-27 | The key is the price prefix followed by the symbol. |
| StockPrice.NameCacheKey | composables/useStockPrice.ts:30-32 | The key is the name prefix followed by the symbol. |
| StockPrice.CacheKeysDistinct | composables/useStockPrice.ts:25-32 | Price and name keys never collide with each other or with the master key. Each key determines its symbol. |
| StockPrice.QuoteApi.Request | composables/useStockPrice.ts:70-116 | Each request is logged and answered by the oracle for that request's position in the log. |
| StockPrice.PriceFromResponse | composables/useStockPrice.ts:70-94 | A quote is produced only from an OK response with a truthy body and symbol. A network error, a non-OK status or a missing body gives none. |
| StockPrice.NameFromResponse | composables/useStockPrice.ts:97-116 | A name is produced only from an OK response with a body, and it is the body's truthy `name`. A failure gives none. |
| StockPrice.CachedValue | composables/useStockPrice.ts:119-156 | A cache entry counts as a hit only when it is dated today and holds a truthy value. |
| StockPrice.EntryNotRecord | composables/useStockPrice.ts:130-162 | A stored cache entry is never mistaken for an encrypted record. |
| StockPrice.SameDayHit | composables/useStockPrice.ts:119-166 | After a lookup that found a value, a second lookup the same day returns it without fetching and changes nothing. |
| StockPrice.StoredEntryHit | composables/useStockPrice.ts:130-162 | The entry stored after a successful fetch reads back the same day as a hit on the fetched value. |
| StockPrice.FailedFetchNotCached | composables/useStockPrice.ts:119-166 | A lookup that finds nothing has fetched. Nothing is cached, so the next lookup fetches again. Only the master key may have changed. |
| StockPrice.QuoteCache.FetchStockPrice | composables/useStockPrice.ts:70-94 | One request is made, and the answer is filtered as PriceFromResponse says. |
| StockPrice.QuoteCache.FetchStockName | composables/useStockPrice.ts:97-116 | One request is made, and the answer is filtered as NameFromResponse says. |
| StockPrice.QuoteCache.LookupOn | composables/useStockPrice.ts:119-166 | Result, storage, random cursor and request log are those of the daily lookup. The result is mirrored into the in-memory map of its kind, and the other map is left alone. |
| StockPrice.QuoteCache.GetStockPrice | composables/useStockPrice.ts:147-166 | The daily lookup for today's date. The in-memory price map gains the found price, and names are untouched. |
| StockPrice.QuoteCache.GetStockName | composables/useStockPrice.ts:119-138 | The daily lookup for today's date. The in-memory name map gains the found name, and prices are untouched. |
| StockPrice.QuoteCache.ForceRefreshStockPrice | composables/useStockPrice.ts:169-182 | The symbol's stored price and name entries and both in-memory copies are dropped, then getStockPrice runs on the cleared state. |
| StockPrice.ForceRefreshFetches | composables/useStockPrice.ts:169-182 | A forced refresh always fetches, returns what the endpoint answers, and leaves no stored name for the symbol. |
| StockPrice.QuoteCache.IsValidStock | composables/useStockPrice.ts:191-194 | A stock is valid exactly when the endpoint gives it a name. |
| StockPrice.QuoteCache.ClearCache | composables/useStockPrice.ts:38-67 | The server is told to clear its cache. The in-memory maps are emptied, and the stored quote keys found by the scan are removed. |
| StockPrice.QuoteKeysUpToExact | composables/useStockPrice.ts:54-64 | After n positions, the scan has collected exactly the price and name keys among them. |
| StockPrice.ClearCacheExact | composables/useStockPrice.ts:38-67 | clearCache removes exactly the price and name entries, whatever their symbol. Every other key keeps its value, the master key included. |
| Transactions.Backfill | composables/useTransactions.ts:30-37 | Loading keeps every stored record, in order. A record with an asset type is kept exactly; a missing asset type is filled in with 'tw_stock', and nothing else is touched. |
| Transactions.SaveThenLoad | composables/useTransactions.ts:25-116 | Whatever was in memory, loading what was saved yields the saved log. |
| Transactions.FirstIndexOf | composables/useTransactions.ts:139 | `findIndex` returns the first position with the id, or nothing when no record has it. |
| Transactions.TotalInvestmentAppend | composables/useTransactions.ts:119-204 | Adding a record moves the invested total by its signed total. |
| Transactions.TotalInvestmentConcat | composables/useTransactions.ts:200-204 | The invested total of two logs joined is the sum of their totals. |
| Transactions.TotalInvestmentRemove | composables/useTransactions.ts:137-204 | Removing the record at k takes its signed total out of the invested figure. |
| Transactions.SumOfPermutation | composables/useTransactions.ts:200-209 | A sum over the records does not depend on their order. |
| Transactions.TotalInvestmentPermutation | composables/useTransactions.ts:200-204 | Reordering the log, as the history rebuild does, leaves the invested total as it was. |
| Transactions.TotalInvestmentIsSum | composables/useTransactions.ts:200-204 | The reduce over the log is the sum of the signed totals. |
| Transactions.TotalReturnRate | composables/useTransactions.ts:212-215 | The rate is 0 for a zero investment. Otherwise it is the gain as a percentage of the investment. |
| Transactions.ReverseAt | composables/useTransactions.ts:219 | Position i of the reversed list is position n-1-i of the list. |
| Transactions.RecentTransactions | composables/useTransactions.ts:218-220 | The result is the last five records (fewer when the log is shorter), newest first. |
| Transactions.Symbols | composables/useTransactions.ts:49 | Each record's symbol, in log order. |
| Transactions.DistinctSymbols | composables/useTransactions.ts:49 | Every traded symbol appears once, and nothing else appears. |
| Transactions.Positive | composables/useTransactions.ts:195 | The filter keeps exactly the entries with a positive quantity. |
| Transactions.FoldWellOrdered | composables/useTransactions.ts:148-192 | The symbol map the fold builds lists each of its keys exactly once, in order of insertion. |
| Transactions.Portfolio | composables/useTransactions.ts:147-197 | The method's loop computes the portfolio specification: fold, filter, sort. |
| Transactions.NetOfUntraded | composables/useTransactions.ts:147-197 | A symbol never traded has net quantity and cost zero. |
| Transactions.ApplyFacts | composables/useTransactions.ts:168-191 | Applying a trade moves quantity and cost by its signed amounts. The entry's average cost, value and return rate agree with them. |
| Transactions.StepSame | composables/useTransactions.ts:154-191 | A trade updates the entry of its symbol, opening it at zero with the live price (or 0) when it is new. |
| Transactions.StepOther | composables/useTransactions.ts:154-191 | A trade leaves the entries of other symbols alone. |
| Transactions.FoldKeys | composables/useTransactions.ts:148-192 | The fold has an entry exactly for each traded symbol. The entry carries its symbol and the live price, or 0 without one. |
| Transactions.FoldNet | composables/useTransactions.ts:148-192 | Each entry holds its symbol's net quantity and net cost over the whole log. |
| Transactions.FoldPositions | composables/useTransactions.ts:148-192 | An entry exists exactly for each traded symbol, holding the symbol's net position. Its average cost, value and return rate follow from that position. |
| Transactions.ByValueDescIsPreorder | composables/useTransactions.ts:196 | Ordering by current value, largest first, is a total preorder. |
| Transactions.ValuesMember | composables/useTransactions.ts:194 | The values of the map are exactly its entries. |
| Transactions.PortfolioShape | composables/useTransactions.ts:147-197 | The portfolio holds exactly the fold's entries with a positive quantity, each once, ordered from the largest current value down. |
| Transactions.CurrentValuePermutation | composables/useTransactions.ts:207-209 | The current value does not depend on the order of the entries. |
| Transactions.PortfolioValue | composables/useTransactions.ts:194-209 | The current value of the sorted portfolio equals the value of the fold's positive entries. |
| Transactions.RenameStep | composables/useTransactions.ts:58-74 | Visiting a symbol with a non-empty name renames exactly that symbol's records. The log is unchanged overall exactly when it was unchanged before and this step changed nothing. |
| Transactions.SkipStep | composables/useTransactions.ts:58-74 | Visiting a symbol without a usable name changes nothing. |
| Transactions.WithQuotesAt | composables/useTransactions.ts:91-104 | Each visited symbol with a positive quote now has that price. Every other price is as it was, so no zero or negative price is recorded. |
| Transactions.DeleteRemovesFirst | composables/useTransactions.ts:137-144 | Deleting by id removes one record, the first with that id, keeps the others in order, and takes its total out of the invested figure. |
| Transactions.Ledger.LoadTransactions | composables/useTransactions.ts:25-44 | The first call replaces the log with the backfilled stored one. It keeps the log when nothing is stored, and empties it when the stored text does not parse. Later calls change nothing. |
| Transactions.Ledger.SaveTransactions | composables/useTransactions.ts:110-116 | The encoded log is written under the transactions key. |
| Transactions.Ledger.AddTransaction | composables/useTransactions.ts:119-134 | The completed record, whose id is the current time in milliseconds, goes to the end of the log, and the log is saved. |
| Transactions.Ledger.DeleteTransaction | composables/useTransactions.ts:137-144 | The first record with the id is removed and the log saved. An unknown id changes nothing and saves nothing. |
| Transactions.Ledger.RenameSymbol | composables/useTransactions.ts:63-68 | Every record of the symbol gets the name and no other record changes. The flag is true exactly when the log changed. |
| Transactions.Ledger.UpdateStockNames | composables/useTransactions.ts:47-81 | Every record whose symbol has a non-empty name gets that name, and no other record changes. The log is saved exactly when something changed. |
| Transactions.Ledger.UpdateStockPrices | composables/useTransactions.ts:84-107 | The live prices gain each traded symbol's positive quote. The log is untouched. |
| AssetHistory.DateOrdersArePreorders | composables/useAssetHistory.ts:111-299 | The three date orders used for sorting are total preorders. |
| AssetHistory.Clamp | composables/useAssetHistory.ts:183-194 | A holding never goes negative: a negative quantity zeroes both figures, and a negative cost alone is raised to zero. |
| AssetHistory.UndoClamps | composables/useAssetHistory.ts:164-194 | Undoing a trade leaves its holding non-negative, with the trade's quantity taken back unless that went below zero. Every other holding is as it was. |
| AssetHistory.RewindFacts | composables/useAssetHistory.ts:153-214 | The loop adds one balanced snapshot per trade, dated by the trade. The cash ends raised by the log's invested total. |
| AssetHistory.FromSeedShape | composables/useAssetHistory.ts:150-226 | The snapshots are today's, then one per trade, then the starting snapshot when there were trades. All are balanced. The starting snapshot holds the initial cash plus everything invested, all as cash. |
| AssetHistory.RebuildShape | composables/useAssetHistory.ts:99-226 | The same, for the rebuild seeded from the current portfolio. The invested total is that of the unsorted log. |
| AssetHistory.RebuiltOrdered | composables/useAssetHistory.ts:229-234 | The persisted history is ordered oldest first and holds exactly the rebuilt snapshots, each balanced. |
| AssetHistory.LogReordered | composables/useAssetHistory.ts:111-113 | As a side effect, the shared log is reordered newest first. Nothing is added or lost, and the invested total is unchanged. |
| AssetHistory.HeldOn | composables/useAssetHistory.ts:306-339 | Each per-day point is dated by its snapshot and never has a negative quantity. |
| AssetHistory.OfSymbol | composables/useAssetHistory.ts:297-298 | The filter keeps exactly the symbol's transactions. |
| AssetHistory.OfSymbolSum | composables/useAssetHistory.ts:297-326 | Summing a per-symbol quantity over the filtered list equals summing it over the whole log. |
| AssetHistory.HeldOnAfterAll | composables/useAssetHistory.ts:310-326 | On a day no earlier than any of the symbol's trades, the per-day sum equals the portfolio's net quantity for the symbol. |
| AssetHistory.AssetTrend | composables/useAssetHistory.ts:251-260 | One point per snapshot, copying its figures. The cash and investment shares are percentages of the total, or 0 when the total is not positive. |
| AssetHistory.TrendSharesSum | composables/useAssetHistory.ts:251-260 | For a balanced snapshot with a positive total, the two shares add up to 100. |
| AssetHistory.CurrentAssets | composables/useAssetHistory.ts:263-266 | The last snapshot, or nothing exactly when the history is empty. |
| AssetHistory.MinTotal | composables/useAssetHistory.ts:279-282 | The smallest total among the snapshots, which is one of them, or 0 for an empty history. |
| AssetHistory.MaxTotal | composables/useAssetHistory.ts:285-288 | The largest total among the snapshots, which is one of them, or 0 for an empty history. |
| AssetHistory.AssetTracker.LoadAssetHistory | composables/useAssetHistory.ts:26-40 | Stored history and setup replace the in-memory ones when present and decodable. A history that fails to decode skips the setup as well. |
| AssetHistory.AssetTracker.SaveAssetHistory | composables/useAssetHistory.ts:43-49 | The encoded history is written under its key. |
| AssetHistory.AssetTracker.CompleteInitialSetup | composables/useAssetHistory.ts:52-70 | The setup is completed and the history becomes a single all-cash starting snapshot. Both are persisted. |
| AssetHistory.AssetTracker.AddAssetSnapshot | composables/useAssetHistory.ts:73-84 | One balanced snapshot dated today is appended and the history saved. |
| AssetHistory.AssetTracker.UpdateCashBalance | composables/useAssetHistory.ts:87-96 | Only the latest snapshot changes: its cash is set and its total recomputed. An empty history is left alone and not saved. |
| AssetHistory.AssetTracker.ResetInitialSetup | composables/useAssetHistory.ts:238-248 | Back to the blank setup and an empty history, both removed from storage. |
| AssetHistory.AssetTracker.SumInvested | composables/useAssetHistory.ts:133-138 | The loop sums the cost of the holdings with a positive quantity. |
| AssetHistory.AssetTracker.SeedHoldings | composables/useAssetHistory.ts:125-130 | The holdings map is seeded from the portfolio entries. |
| AssetHistory.AssetTracker.UndoHolding | composables/useAssetHistory.ts:164-194 | One trade is undone on the holdings, as the loop body does it. |
| AssetHistory.AssetTracker.RunReplay | composables/useAssetHistory.ts:153-214 | The loop over the newest-first log computes the replay specification. |
| AssetHistory.AssetTracker.ReplayFrom | composables/useAssetHistory.ts:141-226 | The snapshots computed from seeded holdings. |
| AssetHistory.AssetTracker.Snapshots | composables/useAssetHistory.ts:118-226 | The snapshots of a rebuild, before the final sort. |
| AssetHistory.AssetTracker.RebuildAssetHistory | composables/useAssetHistory.ts:99-235 | Without a completed setup nothing happens. Otherwise the shared log is sorted newest first, and the history becomes the rebuilt one, sorted oldest first and persisted. |
| AssetHistory.AssetTracker.SumUpTo | composables/useAssetHistory.ts:310-326 | The inner loop sums the signed quantities and totals of the trades dated no later than the day. |
| AssetHistory.AssetTracker.PointOn | composables/useAssetHistory.ts:306-338 | One point of the stock history, from the symbol's date-sorted trades. |
| AssetHistory.AssetTracker.GetStockHistory | composables/useAssetHistory.ts:291-342 | Nothing without a completed setup. Otherwise one point per snapshot holding the clamped net position of the symbol up to that day. |
| StockApi.SelectPrice | server/api/stock.ts:89-99 | The price is the close of the last row. The change and percentage are measured from the previous row's close, and are 0 for a single row. |
| StockApi.LookupPrice | server/api/stock.ts:43-105 | Stage one over the handler's variables computes the price-stage specification. |
| StockApi.LookupName | server/api/stock.ts:108-156 | Stage two over the handler's variables computes the name-stage specification. |
| StockApi.HandleStock | server/api/stock.ts:7-190 | The handler's outcome and queries are those of its specification. |
| StockApi.SymbolValidation | server/api/stock.ts:7-31 | The request is rejected exactly when the symbol is missing, empty, or not digits after trimming. A rejection is a 400 and queries nothing. The length check after the pattern never fires. Otherwise the listed-board price is queried first. |
| StockApi.OtcPriceFallback | server/api/stock.ts:43-105 | The OTC board is queried exactly when the listed board answered without rows. The stock is OTC exactly when that query found rows. A price exists exactly when either board found rows. |
| StockApi.NameFallback | server/api/stock.ts:108-156 | A failed listed lookup leaves the name empty. A listed name is used as is. Otherwise the OTC board is asked, and its rows give the name and mark the stock OTC. |
| StockApi.QuoteDefaults | server/api/stock.ts:160-179 | Nothing is found exactly when there is neither a name nor a non-zero price. Otherwise the quote carries the trimmed symbol, the name or a default one, and the price or 0. |
| StockApi.MissingQuoteIs500 | server/api/stock.ts:160-190 | As written, no reply is ever a 404: a symbol with neither name nor price gets a 500. |
| StockApi.MissingQuoteExample | server/api/stock.ts:160-190 | Any valid symbol whose upstream answers are all empty lists gets a 500. |
| StockApi.MissingQuoteIs404 | server/api/stock.ts:160-166 | As intended, a 404 is given exactly when nothing was found for the trimmed symbol. |
| StockListApi.Normalize | server/api/stock-list.ts:40-76 | A row becomes an entry of its market, with "其他" for a missing industry and "stock" for a missing type. |
| StockListApi.FromFetch | server/api/stock-list.ts:26-83 | An OK answer with a data array contributes one normalised entry per row. A failure, a non-OK status or missing data contributes nothing. |
| StockListApi.Valid | server/api/stock-list.ts:86-90 | The filter keeps exactly the entries with a symbol and a name whose symbol starts with a digit. |
| StockListApi.ValidCounts | server/api/stock-list.ts:86-90 | Each kept entry appears in the result as many times as in the input, and every other entry not at all. |
| StockListApi.BySymbolIsPreorder | server/api/stock-list.ts:93 | Ordering by symbol is a total preorder. |
| StockListApi.StockListEndpoint.PushAll | server/api/stock-list.ts:40-77 | The upstream entries are appended to those gathered so far. |
| StockListApi.StockListEndpoint.KeepValid | server/api/stock-list.ts:86-90 | The filter over the gathered entries. |
| StockListApi.StockListEndpoint.Handle | server/api/stock-list.ts:6-128 | The reply, the cache and its timestamp are those of the handler's specification. |
| StockListApi.CacheRule | server/api/stock-list.ts:11-107 | The cache answers exactly when it is non-empty and younger than 24 hours, and then nothing changes. A miss without a crash replaces the cache with the fresh listing, stamped now. Every reply's count is its length. |
| StockListApi.FailureFallback | server/api/stock-list.ts:109-127 | On a failure outside the upstream calls, a non-empty cache is served however old, with the stale warning. An empty cache gives a 500. The cache is kept. |
| StockListApi.ListingShape | server/api/stock-list.ts:86-93 | The listing is sorted by symbol and holds exactly the gathered entries that pass the filter, each as often as gathered. |
| StockListApi.NoDeduplication | server/api/stock-list.ts:85-90 | Despite the comment above the filter, a row listed twice appears twice. |
| StockListApi.OutageWipesCache | server/api/stock-list.ts:25-97 | As written, when both upstream calls give no list, a stale non-empty list is replaced by an empty one stamped now. The empty list is served once as an API answer, and the next request is not served from the cache. An error thrown later outside the upstream calls then answers 500 where the stale list would have been served. |
| StockListApi.OutageKeepsCache | server/api/stock-list.ts:109-122 | As intended, when the upstream is down, a non-empty cache is never lost: a stale one is served as the fallback and kept. Every other case behaves as written. |
| Sorting.SortCorrect | composables/useAssetHistory.ts:111-113 | `sort` with a comparator that is a total preorder returns its input ordered and as a permutation. |
| Text.Decimal | composables/useStockPrice.ts:19-22 | `String(n)` is a non-empty run of digits with the expected length. |
| Text.DecimalRoundTrip | composables/useStockPrice.ts:19-22 | The digits printed for n denote n. |
| Text.PadStart | composables/useStockPrice.ts:19-22 | `padStart` keeps the text at the end and fills the front with the pad up to the width. |
| Text.PaddedDecimalRoundTrip | composables/useStockPrice.ts:19-22 | Zero-padding a number's digits never changes the number they denote. |
| Text.Trim | server/api/stock.ts:15-16 | The trimmed text neither starts nor ends with white space. |
| Text.TrimMeaning | server/api/stock.ts:15-16 | The trimmed text is the input without its surrounding white space: a contiguous middle part of it, with only white space before and after. |
| Text.TrimKeepsTrimmed | server/api/stock.ts:15-16 | Text that neither starts nor ends with white space is left unchanged. |
| Text.StrLeTotal | server/api/stock-list.ts:93 | Any two strings are ordered one way or the other. |
| Text.StrLeTransitive | server/api/stock-list.ts:93 | The string order is transitive. |
| Text.StrLeAntisymmetric | server/api/stock-list.ts:93 | Strings ordered both ways are equal. |

## Left out

- `composables/useTheme.ts` and `server/api/clear-cache.ts` are not part of this model. They hold no logic the core depends on; `clearCache` only records its request to the server.
- AES-GCM, PBKDF2 key derivation, `TextEncoder`/`TextDecoder`, `btoa` and `atob` are an abstract platform with one stated law: opening what was sealed with the same password, salt and IV gives back the text. Cipher strength and the iteration count are not modelled.
- `isCryptoSupported` is the platform's `supported` flag, taken as all-or-nothing.
- HTTP `fetch` to the TWSE, TPEx and FinMind services, and to the app's own endpoints, is an input: the answer for each request. The date ranges and URLs of the upstream queries are not modelled.
- The clock (`Date.now`, `new Date()`, `toISOString`) is a parameter.
- The 5-minute `setInterval` refresh, `initialize`, `Promise.all` over many symbols (`getStockPrices`, `getStockNames`) and `getAllStocksHistory` are not modelled. Each only repeats the modelled single-symbol calls. `updatePortfolio` only logs.
- The asynchronous refresh of names and prices after add (for Taiwan stocks only) and after delete is not modelled.
- Vue reactivity (`ref`, `computed`, watchers) is not modelled. Computed values are functions of the state.
- The in-memory `loading` map of the quote cache is kept as a field. Only clearCache touches it, emptying it, because nothing in the source ever adds to it.
- JSON text is an abstract codec with a round-trip law. The transaction log and asset history are encoded by codecs with the same law.
- Money and quantities are real numbers, not IEEE doubles, so there is no rounding.
- StockApi.SelectPrice: with a previous close of 0 the percentage is left unconstrained, where JavaScript would give Infinity or NaN.
- `trackingDays` and the other display-only computed values are not modelled.
- `localeCompare` is taken as ordinal code-unit order, and dates are compared as ISO `YYYY-MM-DD` strings. Invalid dates are not modelled.
- Console logging is not modelled.
- Storage quota errors and `localStorage` exceptions are not modelled: writes always succeed.
- The order of `localStorage` keys is taken as insertion order; browsers leave it implementation-defined.
- Backup data is an ordered list of pairs rather than an object.
- Two transactions added in the same millisecond get the same id; the model keeps that, and `deleteTransaction` removes the first.
- The asset history rebuild reads the live price map of a fresh `useTransactions` instance, which is empty. The model passes an empty map.
- A stored history that decodes to something other than an array is not modelled.
- A `symbol` query parameter given as an array is not modelled.
- In the stock-list endpoint, an exception outside the two guarded upstream calls (a non-string `stock_id` reaching `localeCompare`, say) is an input, `crash`.
- Transactions.Ledger.UpdateStockNames: the per-symbol name lookup is an input function. The quote-cache reads, the fetches and the `stock_name_` writes through secure storage that getStockName makes are not composed here, so the method's storage frame does not cover those writes.
- Transactions.Ledger.UpdateStockPrices: the per-symbol quote lookup is an input function. The quote-cache reads, the fetches and the `stock_price_` writes through secure storage that getStockPrice makes are not composed here, so the method's frame does not cover those writes.
- StockListApi.StockListEndpoint.Handle takes both upstream answers as inputs even on a cache hit, where it makes no request.

## Findings

| source | as written | input that shows it | evidently intended | confidence | as-written member | corrected member |
|---|---|---|---|---|---|---|
| server/api/stock.ts:160-190 | The 404 thrown for a symbol with neither name nor price is caught by the handler's own `catch` and re-thrown as a 500. | A valid symbol such as "9999" for which every upstream lookup returns an empty list. | That case answers 404 "找不到股票代碼"; only real failures answer 500. | not executed | StockApi.MissingQuoteExample | StockApi.MissingQuoteIs404 |
| server/api/stock-list.ts:25-97 | When both upstream calls fail, their errors are swallowed. The empty result then overwrites the cache and its timestamp and is served once as an API answer. The stale list is lost, so a later error outside the upstream calls answers 500 instead of falling back to it. | A non-empty cache older than 24 hours, with both upstream calls throwing. | As the outer `catch` does, serve the stale cache with the warning and keep it. | not executed | StockListApi.OutageWipesCache | StockListApi.OutageKeepsCache |
