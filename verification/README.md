# Ortak collection watcher and purchase helper: a Dafny model

The repository has two Node.js tools for the Ortak marketplace:

- **The change detector** (`scheduler.js`, and its earlier version `index.js`).
  - Every few minutes it asks the marketplace for its newest collection and compares that collection's id with the id kept in a JSON state file.
  - When the collection is new, it sends a Telegram alert and overwrites the state file with the fetched record.
- **The purchase helper** (`nft_fetcher.js` with `services/curl_generator.js`).
  - It fetches one page of a collection's items and folds them into a purchase payload `{total, nfts, nftsPrices, partnerId}`.
  - It writes the payload as JSON, and writes the equivalent `curl` command as text.

This project models both tools in Dafny and proves what they promise. Each program is modelled as the source writes it:

- The change detector is a class holding the file store and the log of sent alerts. Its `ProcessData` and `StartScheduler` methods are proved against the pure functions `Cycle` and `Run`. The lemmas about those two functions state the detector's behaviour:
  - the decision rule;
  - idempotence;
  - restart safety;
  - that a failed send or a failed write is handled as best effort.
- `processNFTs` is a loop proved against the fold `Aggregate`. Lemmas prove that the total never depends on item order, and that the price map depends on it only when an id repeats with different prices.
- `generateCurl` is a pure string template. Lemmas state its layout: the prefix, the fixed header block, the token, and the body suffix. For URLs of equal length and tokens of equal length, they prove that no input is lost. Nothing is escaped, so without that restriction inputs can be lost: a token can end its own header line and carry a second `--data-raw` (`CurlGenerator.TokenInjectsBody`).
- The file helper is a class over a map from path to content. Whether a write succeeds is an input.

The HTTP replies are values of `Response` (thrown, or `ok`, `code` and items). The Telegram send and the file writes succeed or fail according to boolean inputs, one `Tick` per scheduler cycle.

Modules, one file each:

| file | module | models |
|---|---|---|
| `text.dfy` | `Text` | `${n}` for integers, and a reader that undoes it |
| `file_handler.dfy` | `FileHandler` | `services/file_handler.js` and `fs.writeFileSync` |
| `ortak.dfy` | `Ortak` | what both schedulers share: the reply envelope, the saved record, the novelty rule, the alert lines |
| `scheduler.dfy` | `Scheduler` | `scheduler.js` |
| `legacy_index.dfy` | `LegacyIndex` | `index.js` |
| `nft_fetcher.dfy` | `NftFetcher` | `nft_fetcher.js` |
| `curl_generator.dfy` | `CurlGenerator` | `services/curl_generator.js` |

## Model

| member | source | states |
|---|---|---|
| Text.NatTextRoundTrip | scheduler.js:79 | reading back the decimal digits of a natural number gives the number |
| Text.IntTextRoundTrip | scheduler.js:79 | the id printed in the alert (`ID: ${latestId}`) reads back as the id, negative ids included |
| Text.IntTextInjective | scheduler.js:79 | two different ids never print the same |
| FileHandler.Read | services/file_handler.js:84-92 | a missing file reads as null; a JSON document reads as itself; anything else is a JSON.parse throw |
| FileHandler.Write | services/file_handler.js:34-58 | a successful write replaces the file at its path; a failed write changes nothing; no other path changes |
| FileHandler.ReadAfterWrite | services/file_handler.js:46-51 | a JSON document written successfully reads back as itself, and no other path reads differently |
| FileHandler.FileStore.WriteFileSync | services/file_handler.js:48-50 | the new file map is the write's result, and the call throws exactly when the write fails |
| FileHandler.FileStore.WriteToFile | services/file_handler.js:34-58 | a failed write is swallowed and leaves the old content |
| FileHandler.FileStore.ReadFile | services/file_handler.js:84-92 | the result is the one `Read` defines on the current files |
| Ortak.ToRecord | scheduler.js:62-64 | the saved record carries the item's id, slug and name, and every other field the item had with its value |
| Ortak.FetchLatestCollection | scheduler.js:24-54 | yields an item exactly when the reply is ok, has code 0 and has at least one item, and then yields the first item (index.js:23-52 is the same code) |
| Ortak.IsNewOnNumbers | scheduler.js:74 | `!storedId \|\| latestId > storedId` holds exactly when no id is stored, the stored id is 0, or the fetched id is larger |
| Ortak.LoadId | scheduler.js:56-60 | a missing file or field gives undefined; a field that is present gives its value; content that does not parse throws |
| Ortak.SavedIdReadsBack | scheduler.js:59-63 | once the fetched record is saved, reading its `id` gives the fetched id |
| Scheduler.AlertMentions | scheduler.js:76-82 | the alert starts with the banner, contains the name line, the `ID:` line and the link `<base>/collections/<slug>/nfts`, and ends with `Homepage: <base>` |
| Scheduler.OrtakScheduler.SendTelegramMessage | scheduler.js:15-22 | one alert is appended to the log, whether or not it is delivered |
| Scheduler.OrtakScheduler.LoadStoredId | scheduler.js:56-60 | returns the `id` field of the state file as `LoadId` defines it |
| Scheduler.OrtakScheduler.SaveLatestItem | scheduler.js:62-64 | the state file becomes the whole fetched record, or stays as it was when the write fails |
| Scheduler.OrtakScheduler.ProcessData | scheduler.js:66-85 | the new files, the new alert log and the settled outcome are those of `Cycle` |
| Scheduler.OrtakScheduler.StartScheduler | scheduler.js:87-90 | successive cycles, with no overlap, give the state that `Run` defines; the sequence stops at the first rejected cycle |
| Scheduler.NoItemNoEffect | scheduler.js:66-69 | a thrown call, a non-ok status, a non-zero code or an empty list sends nothing and writes nothing |
| Scheduler.AnnouncesWhenNew | scheduler.js:74-83 | a new collection gets exactly one alert and is then saved as the whole record; a failed send does not stop the save; a write that fails before touching the file leaves the old file |
| Scheduler.SilentWhenNotNew | scheduler.js:74-85 | a collection that is not new implies a truthy stored id no smaller than the fetched one, and the cycle changes nothing |
| Scheduler.UnparsableStateRejects | scheduler.js:56-60 | when the state file does not parse, a cycle that fetched an item rejects before sending |
| Scheduler.ReannouncedIffNotSaved | scheduler.js:72-83 | after an announcement, the next cycle with the same collection announces again exactly when the write failed (before touching the file) or the id is 0 |
| Scheduler.SecondCycleSilent | scheduler.js:56-83 | after a successful save, a second cycle with the same collection sends and writes nothing (unless the id is 0) |
| Scheduler.RunOutboxGrows | scheduler.js:87-90 | over any run, the alert log only grows, by at most one alert per cycle |
| Scheduler.RunSameItemSilent | scheduler.js:66-85 | once the stored id covers the fetched collection, any number of cycles (after a restart as well) send and write nothing |
| Scheduler.RunStoredIdRises | scheduler.js:72-83 | from a positive stored id, the stored id only rises, whatever the replies are and whichever sends and writes fail (from a stored 0, any fetched id is saved, a smaller one too) |
| Scheduler.RunOnUnparsableState | scheduler.js:87-90 | a state file that does not parse is never repaired, and no cycle sends or writes |
| Scheduler.FirstRunScenario | scheduler.js:66-85 | with no state file, collection 100 is announced and id 100 is then stored |
| Scheduler.NewerIdScenario | scheduler.js:74-82 | stored id 100 and fetched id 101 give one alert carrying `ID: 101` and the link to the new slug, and id 101 is then stored |
| Scheduler.SameIdScenario | scheduler.js:74 | stored id 100 and fetched id 100: nothing happens |
| Scheduler.BadCodeScenario | scheduler.js:44-46 | application code 1: nothing happens and the cycle resolves |
| LegacyIndex.AlertMentions | index.js:77-79 | the alert starts with the banner and a blank line, contains the name and `ID:` lines, and ends with the link |
| LegacyIndex.OrtakScheduler.SendTelegramMessage | index.js:14-21 | one alert is appended to the log, whether or not it is delivered |
| LegacyIndex.OrtakScheduler.LoadStoredId | index.js:54-61 | null without a file, else the `latestId` field of the parsed content; content that does not parse throws |
| LegacyIndex.OrtakScheduler.SaveLatestItem | index.js:63-65 | the state file becomes the fetched record, or the call throws and the file stays as it was |
| LegacyIndex.OrtakScheduler.ProcessData | index.js:67-84 | the new state and the settled outcome are those of the legacy `Cycle` |
| LegacyIndex.OrtakScheduler.StartScheduler | index.js:86-89 | successive cycles give the state that the legacy `Run` defines |
| LegacyIndex.NoItemNoEffect | index.js:67-69 | a failed or empty fetch sends nothing and writes nothing |
| LegacyIndex.DecidesOnStoredId | index.js:75-83 | with a truthy numeric stored id, a larger fetched id is alerted and (when the write succeeds) saved; a fetched id no larger changes nothing, whatever the send and the write would do |
| LegacyIndex.SilentWhenNotNew | index.js:75-83 | a collection that is not new, against any stored latestId, numeric or string, implies a truthy stored id (no smaller than the fetched one when numeric), and the cycle sends and writes nothing |
| LegacyIndex.FailuresAfterAlert | index.js:75-80 | a failed send does not stop the save; a failed save rejects the cycle after the alert was sent and leaves the file |
| LegacyIndex.SavedItemReadsAbsent | index.js:54-65 | the saved item is read back through `latestId`, which it does not carry, so it reads as undefined |
| LegacyIndex.RunRepeatsAlert | index.js:67-84 | every cycle that fetches the same collection sends the same alert again, one per cycle |
| NftFetcher.RequestBody | nft_fetcher.js:13-19 | the query is `{page, collectionId, partnerId: 0}`, and the page defaults to 10 |
| NftFetcher.FetchNFTs | nft_fetcher.js:29-43 | an accepted reply yields its items; a thrown call, a non-ok status or a non-zero code yields [] |
| NftFetcher.Ids | nft_fetcher.js:56 | one id per item, in item order, with duplicates kept |
| NftFetcher.ProcessNFTs | nft_fetcher.js:46-63 | the loop returns the fold `Aggregate`: the rounded total, the ids in input order, the last price per id, and partnerId 0 |
| NftFetcher.Round10Close | nft_fetcher.js:60 | rounding to ten decimals moves the total by at most half of 10^-10 |
| NftFetcher.Round10Keeps | nft_fetcher.js:60 | a total that already has at most ten decimals is unchanged by the rounding |
| NftFetcher.SumAppend | nft_fetcher.js:55 | the running total over two lists is the total of the first plus that of the second |
| NftFetcher.SumPermutation | nft_fetcher.js:54-55 | the exact total is the same for every ordering of the items |
| NftFetcher.PriceMapKeys | nft_fetcher.js:57 | the keys of nftsPrices are exactly the ids of the items |
| NftFetcher.PriceMapLastWins | nft_fetcher.js:57 | the price recorded for an id is that of the last item with that id |
| NftFetcher.PriceMapMember | nft_fetcher.js:57 | an item whose id no different item shares has its own price in the map |
| NftFetcher.PriceMapPermutation | nft_fetcher.js:54-58 | when each id carries only one price, nftsPrices is the same for every ordering of the items |
| NftFetcher.DuplicateIdOrderMatters | nft_fetcher.js:57 | one id with two prices: each order keeps a different price |
| NftFetcher.EmptyAggregate | nft_fetcher.js:47-52 | no items give total 0, no ids, an empty map and partnerId 0 |
| NftFetcher.AggregatePermutation | nft_fetcher.js:54-60 | reordering the items does not change the rounded total, nor the map when each id has one price |
| NftFetcher.TenthsExample | nft_fetcher.js:54-60 | items priced 0.1 and 0.2 total exactly 0.3 |
| NftFetcher.TwoItemExample | nft_fetcher.js:54-60 | items priced 1.2345678901 and 2.0 give total 3.2345678901, both ids in order and both prices |
| NftFetcher.OrtakNftFetcher.Run | nft_fetcher.js:65-87 | a falsy collectionId sends no query and returns undefined; otherwise it sends `{page, collectionId, partnerId: 0}`; an empty or failed fetch returns undefined; otherwise the aggregate payload is returned; the files are those `RunFiles` defines with `GenerateCurl` as the command generator |
| NftFetcher.RunWritesNothing | nft_fetcher.js:65-79 | without a collection id, or when the fetch failed or found no items, run changes no file |
| NftFetcher.RunOutputs | nft_fetcher.js:81-86 | with items and both writes succeeding, the payload file reads back as the aggregate of the items, the curl file holds the command for that payload's JSON text, URL and token, and no other file reads differently |
| NftFetcher.RerunSameOutputs | nft_fetcher.js:65-87 | a second run with the same inputs and successful writes leaves exactly the files that the first run left |
| CurlGenerator.GenerateCurl | services/curl_generator.js:39-58 | the template itself, defined as `Assemble` on the fifteen fixed header lines; it has no contract of its own, and Layout, GenerateCurlInjective, TokenInjectsBody and HeaderLinesOfCommand state what it produces |
| CurlGenerator.HeaderBlockAppend | services/curl_generator.js:41-56 | adding a header adds its `-H` line at the end of the header block |
| CurlGenerator.Layout | services/curl_generator.js:39-58 | the command (`GenerateCurl` is this template on the fifteen fixed header lines) starts with `curl '<url>' \` and a newline, then the header block, then `  -H 'x-auth-token: `, the token verbatim and the `' \` line close, and ends with `  --data-raw '<body>'`; each part sits at an offset fixed by the input lengths, and the length is their sum |
| CurlGenerator.AssembleInjective | services/curl_generator.js:40-57 | for URLs of equal length and tokens of equal length, the template loses nothing |
| CurlGenerator.GenerateCurlInjective | services/curl_generator.js:39-58 | equal commands from URLs of equal length and tokens of equal length come only from equal body, URL and token |
| CurlGenerator.AssembleTokenInjection | services/curl_generator.js:56-57 | for any header block, a token holding `' \`, a newline and `  --data-raw '` moves its tail into the body: the command for body c and token a+opener+b equals the one for body b+opener+c and token a |
| CurlGenerator.TokenInjectsBody | services/curl_generator.js:39-58 | generateCurl escapes nothing: the token a+opener+b (longer than a) with body c gives the same command as token a with body b+opener+c, so the token can carry a second `--data-raw` |
| CurlGenerator.OneTokenHeader | services/curl_generator.js:41-56 | sixteen headers are sent; the token travels only in the last one, and no fixed header is named `x-auth-token` |
| CurlGenerator.HeaderLinesOfCommand | services/curl_generator.js:41-56 | the command's header lines are the fixed block followed by the token line |
| CurlGenerator.Run | services/curl_generator.js:71-75 | the curl path receives exactly the generated command as raw text, or is unchanged when the write fails |

## Left out

- HTTP is not modelled: `fetch`, `response.json()`, the request headers and the `statusText` messages. A reply is a value of `Response`. A reply whose `data` or `items` field is missing or not an array is not modelled.
- The Telegram bot is not modelled. A send is an entry in the alert log, carrying a delivered flag that an input decides.
- Timers are not modelled: `setInterval`, the interval lengths and overlapping cycles. `Run` is a sequence of cycles that never overlap, and it stops at the first rejected cycle, because an unhandled promise rejection ends the Node.js process.
- All `console.log` and `console.error` output is left out.
- `config.js`, `dotenv` and environment variables are not part of this model. The paths and the base URL are constructor parameters.
- JSON text is not modelled. A file holds either a document or raw text. Raw text reads back as a JSON.parse failure, because the only text the tools write is a curl command. `JSON.stringify` of the payload is an uninterpreted function (`stringify`).
- Stored records are maps to integers or strings only. Floats, booleans, null and nested values as field values are not modelled. A state file whose top-level value is not an object is not modelled either: index.js:57 throws only on a top-level null, while a number, string or boolean reads as undefined, as a missing field does.
- Ortak.Exceeds: a stored id that is a string counts as never exceeded, as a non-numeric string (NaN) is in JavaScript. A numeric string is not modelled as a number. scheduler.js always stores the fetched numeric `id`, but in index.js `latestId` can only come from the saved item's own fields, and there JavaScript compares a numeric string as a number: with a stored "50" and a fetched 100, index.js:75 alerts and saves, while the model changes nothing.
- Text.IntText: renders integers as JavaScript does below 1e21. Exponent notation is not modelled.
- NftFetcher.Aggregate: prices and the total are exact reals. The rounding of `toFixed(10)` is modelled on the exact sum. Double-precision error in the running sum, and in its decimal conversion, is not modelled.
- Command-line parsing is modelled only as `Option` values: a NaN `collectionId` is `None`, as undefined is. A NaN page (a non-numeric third argument) is not modelled.
- Directory creation in `writeToFile` is folded into the write's success flag.
- FileHandler.Write: only failures that leave the file untouched are modelled. `fs.writeFileSync` truncates the file before writing, so a failure part-way through leaves it empty or partial; JSON.parse would then throw, every later scheduler cycle that fetches an item would reject, and the file would never be repaired. That outcome is the one `Scheduler.RunOnUnparsableState` describes, but no write in the model produces it.
- NftFetcher.RunFiles: the curl command generator is a parameter, and run passes `CurlGenerator.GenerateCurl`; the lemmas about run's files hold for every generator.
- NftFetcher.PriceMapPermutation: nftsPrices is independent of item order only when each id carries one price. The code assigns prices in order, so with duplicate ids the last price wins (NftFetcher.DuplicateIdOrderMatters).

## Findings

| source | as written | input that shows it | evidently intended | confidence | as-written member | corrected member |
|---|---|---|---|---|---|---|
| index.js:57 | `loadStoredId` reads `latestId`, but `saveLatestItem` (index.js:64) stores the fetched item, whose id is under `id` | any collection without a `latestId` field, fetched in two successive cycles whose writes succeed: both cycles send the alert | read back the key that is saved (`id`, as scheduler.js:59 does), so that an unchanged collection is announced once | high, not executed | LegacyIndex.RunRepeatsAlert | Scheduler.RunSameItemSilent |
