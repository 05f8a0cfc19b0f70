# DART company-code cache and Hangul helpers, in Dafny

This project models the core of `opendart-fss-mcp`, an MCP server over the
Korean DART disclosure API. The core is the company-code cache plus a small
Hangul helper module.

- **The company-code cache** (`corp_code_cache.dfy`, module `CorpCodes`). It
  turns the parsed `<list>` items of the corp-code download into records
  (`Entry`). Each record holds the company code, the name, the name lowered once
  at load time, and an optional stock code and modify date. Blank optional
  fields become absent, and the others are stripped. A stock-code map is built
  in which a later record overwrites an earlier one with the same code.
  The class `CorpCodeCache` keeps the records, the map and the load time. It
  reloads when it holds no records or they are more than 24 hours old. It
  answers `search` and `summary`:
  - a blank query returns nothing;
  - a stripped query that is a stock code returns that single record;
  - any other query ranks the (optionally listed-only) records into exact name
    matches, then prefix matches, then substring matches, in record order
    within each tier, and cuts the result to `max_results`;
  - the summary reports the record count and the size of the stock-code map.
- **The Hangul helpers** (`korean.dfy`, module `Korean`). They extract the
  initial consonant (chosung) of every precomposed syllable, test for chosung
  characters and normalise mixed chosung queries.
- **Shared pieces.** `text.dfy` (module `Text`) holds the string primitives the
  two modules use: Python's `str.strip()` whitespace set, ASCII lower-casing, and
  prefix and substring tests. `wrappers.dfy` holds `Option`.
- **The test data set** (`cache_examples.dfy`, module `CacheExamples`). It is
  the seven companies of the cache tests. Lemmas state what the model returns on
  it for several of the searches the tests make, and for the summary; the
  searches not written out are listed under "Left out".

`search` has only the three name tiers after the stock-code lookup, and
`corp_code_cache.py` does not import `korean.py`: the Hangul helpers are a
separate module that the cache does not call.

A reload takes the download outcome as a parameter. `None` means the download
or the ZIP/XML decoding failed, and `Some(items)` holds the parsed items in
document order. The monotonic clock is read twice, as in the source: `now` at
the freshness test (line 40) and `doneAt` once the download is parsed (line
81), both integers, in seconds.

## Model

Source paths are relative to the repository root.

| member | source | states |
|---|---|---|
| Text.Strip | src/opendart_fss_mcp/corp_code_cache.py:93-95 | `str.strip()`: the result is never longer than the input, is empty exactly when the input is all whitespace, and otherwise starts and ends with a non-whitespace character |
| Text.StripSlice | src/opendart_fss_mcp/corp_code_cache.py:93 | the stripped text is a contiguous slice of the input with only whitespace before and after it |
| Text.StripTrimmed | src/opendart_fss_mcp/corp_code_cache.py:64 | a non-empty string with no whitespace at either end strips to itself |
| Text.LowerChar | src/opendart_fss_mcp/korean.py:55 | `ch.lower()` on ASCII: upper-case letters move up by 32, everything else is unchanged, and no upper-case letter is left |
| Text.Lower | src/opendart_fss_mcp/corp_code_cache.py:71 | `str.lower()`: same length, each character lowered in place |
| Text.LowerIdempotent | src/opendart_fss_mcp/corp_code_cache.py:97 | lowering twice is lowering once |
| Text.PrefixIsSubstring | src/opendart_fss_mcp/corp_code_cache.py:116-118 | a name that starts with the query also contains it |
| Korean.InitialIndex | src/opendart_fss_mcp/korean.py:31-34 | for a syllable U+AC00..U+D7A3, `(code - base) // (21 * 28)` is a valid index into the 19 chosung, and the syllable lies in that initial's block of 588 syllables |
| Korean.InitialOf | src/opendart_fss_mcp/korean.py:50-55 | a syllable maps to a chosung; any other character maps to its lowered form |
| Korean.ChosungOf | src/opendart_fss_mcp/korean.py:37-56 | reference definition of `extract_chosung`: one output character per input character, each `InitialOf` the input character |
| Korean.ExtractChosung | src/opendart_fss_mcp/korean.py:48-56 | the loop with its range test and division builds exactly `ChosungOf(text)` |
| Korean.HasChosung | src/opendart_fss_mcp/korean.py:59-61 | true exactly when some character is a chosung |
| Korean.IsPureChosung | src/opendart_fss_mcp/korean.py:64-66 | true exactly when the query is non-empty and every character is a chosung; it implies `HasChosung` |
| Korean.NormalizeMixedQuery | src/opendart_fss_mcp/korean.py:69-78 | same length; chosung characters are kept and every other character is lowered |
| Korean.ChosungIsNotSyllable | src/opendart_fss_mcp/korean.py:6-32 | the chosung jamo lie outside the syllable block and have no case |
| Korean.LowerKeepsNonChosung | src/opendart_fss_mcp/korean.py:55 | lowering a non-chosung character never produces a chosung |
| Korean.AllSyllablesGivePureChosung | src/opendart_fss_mcp/korean.py:37-56 | a non-empty all-syllable name extracts to a pure chosung string |
| Korean.NoSyllablesGiveLower | src/opendart_fss_mcp/korean.py:54-55 | with no syllables in the input, extraction is plain lowering |
| Korean.ChosungOfIdempotent | src/opendart_fss_mcp/korean.py:37-56 | extracting again from an extracted string changes nothing |
| Korean.ChosungOfMarksInitials | src/opendart_fss_mcp/korean.py:49-55 | an output position holds a chosung exactly when the input held a syllable or a chosung there |
| Korean.NormalizePureChosungIdentity | src/opendart_fss_mcp/korean.py:69-78 | normalising a pure-chosung query returns it unchanged |
| Korean.NormalizeIsLower | src/opendart_fss_mcp/korean.py:78 | because chosung have no case, normalising equals lowering |
| Korean.NormalizeFixesChosungOf | src/opendart_fss_mcp/korean.py:69-78 | normalising an extracted chosung string leaves it unchanged |
| Korean.ChosungExamples | tests/test_korean.py:16-33 | "삼성전자" → "ㅅㅅㅈㅈ", "삼성SDI" → "ㅅㅅsdi", "LG" → "lg", "LG전자" → "lgㅈㅈ", "" → "" |
| Korean.HasChosungExamples | tests/test_korean.py:39-52 | `has_chosung` is true on "ㅅㅅㅈㅈ" and "ㅅㅅSDI" and false on "삼성전자" and "" |
| Korean.PureChosungExamples | tests/test_korean.py:58-67 | `is_pure_chosung` is true on "ㅅㅅㅈㅈ" and false on "ㅅㅅSDI" and "" |
| Korean.NormalizeExamples | tests/test_korean.py:73-82 | "ㅅㅅSDI" → "ㅅㅅsdi", "ㅅㅅㅈㅈ" unchanged, "Samsung" → "samsung" |
| CorpCodes.EntryOf | src/opendart_fss_mcp/corp_code_cache.py:61-74 | the record built from one parsed item; what it guarantees is stated by `EntryOfNormalises` |
| CorpCodes.OptionalField | src/opendart_fss_mcp/corp_code_cache.py:63-66 | the field is absent exactly when the raw text is blank; otherwise it is the non-empty stripped text |
| CorpCodes.EntryOfNormalises | src/opendart_fss_mcp/corp_code_cache.py:61-74 | a built record keeps the code and the name, holds the lowered name, has no empty optional field, and lacks a stock code (modify date) exactly when the raw one is blank |
| CorpCodes.Listed | src/opendart_fss_mcp/corp_code_cache.py:105-106 | the listed-only filter never grows the list |
| CorpCodes.ListedMembers | src/opendart_fss_mcp/corp_code_cache.py:106 | a record survives the filter exactly when it is a record of the input with a stock code |
| CorpCodes.ListedAppend | src/opendart_fss_mcp/corp_code_cache.py:106 | filtering a concatenation filters each part, in order |
| CorpCodes.ListedAll | src/opendart_fss_mcp/corp_code_cache.py:106 | when all records are listed, the filter keeps the list as it is |
| CorpCodes.ListedNone | src/opendart_fss_mcp/corp_code_cache.py:106 | when no record is listed, the filter leaves nothing |
| CorpCodes.StockIndex | src/opendart_fss_mcp/corp_code_cache.py:76-77 | the map the dict writes produce; every key maps to a listed record carrying that very stock code |
| CorpCodes.StockIndexSnoc | src/opendart_fss_mcp/corp_code_cache.py:75-77 | writing one more record adds or overwrites its stock code and leaves the map alone when it has none |
| CorpCodes.EntriesLength | src/opendart_fss_mcp/corp_code_cache.py:60-75 | one record per item |
| CorpCodes.EntriesAt | src/opendart_fss_mcp/corp_code_cache.py:60-75 | the record at each position is built from the item at that position |
| CorpCodes.BuildIndex | src/opendart_fss_mcp/corp_code_cache.py:53-77 | the loading loop yields one record per item, in order, each `EntryOf` its item and well formed, plus the stock-code map `StockIndex` of those records |
| CorpCodes.StockIndexKeys | src/opendart_fss_mcp/corp_code_cache.py:76-77 | a code is a key of the map exactly when some listed record carries it |
| CorpCodes.StockIndexLastWins | src/opendart_fss_mcp/corp_code_cache.py:76-77 | each code maps to the last record that carries it, and no later record carries it |
| CorpCodes.StockIndexSize | src/opendart_fss_mcp/corp_code_cache.py:76-77 | the map has no more keys than there are listed records |
| CorpCodes.StockIndexSizeDistinct | src/opendart_fss_mcp/corp_code_cache.py:76-77 | when listed records have pairwise distinct codes, the map has exactly one key per listed record |
| CorpCodes.TierOf | src/opendart_fss_mcp/corp_code_cache.py:114-119 | the `if`/`elif` chain; a name falls into the exact or the prefix tier exactly when it starts with the lowered query |
| CorpCodes.TierMatchesSubstring | src/opendart_fss_mcp/corp_code_cache.py:114-119 | a name lands in one of the three tiers exactly when it contains the lowered query |
| CorpCodes.BucketSnoc | src/opendart_fss_mcp/corp_code_cache.py:112-119 | one more record of the pool is appended to the bucket of its own tier only |
| CorpCodes.BucketAppend | src/opendart_fss_mcp/corp_code_cache.py:112-119 | the bucket of a concatenated pool is the concatenation of the buckets |
| CorpCodes.BucketAll | src/opendart_fss_mcp/corp_code_cache.py:112-119 | a pool whose records all have tier t is its own bucket for t |
| CorpCodes.BucketNone | src/opendart_fss_mcp/corp_code_cache.py:112-119 | a pool with no record of tier t has an empty bucket for t |
| CorpCodes.Positions | src/opendart_fss_mcp/corp_code_cache.py:112-119 | the positions of a tier are ascending, in range, and hold exactly the records of that tier |
| CorpCodes.BucketSelection | src/opendart_fss_mcp/corp_code_cache.py:112-119 | each bucket is the pool restricted to its tier's positions, so it keeps pool order |
| CorpCodes.BucketTier | src/opendart_fss_mcp/corp_code_cache.py:112-119 | every record in a bucket has that bucket's tier |
| CorpCodes.Ranked | src/opendart_fss_mcp/corp_code_cache.py:121 | `exact + prefix + substring`; its properties are `RankedIsPermutation` and `RankedTierOrder` |
| CorpCodes.RankedIsPermutation | src/opendart_fss_mcp/corp_code_cache.py:112-121 | exact + prefix + substring is a permutation of the records whose name contains the query: nothing lost, nothing duplicated |
| CorpCodes.RankedTierOrder | src/opendart_fss_mcp/corp_code_cache.py:121 | along the ranking every record matches, and the tier never goes back (exact, then prefix, then substring) |
| CorpCodes.MatchingInPool | src/opendart_fss_mcp/corp_code_cache.py:112-119 | a record matches exactly when it is in the pool and its name contains the query |
| CorpCodes.Pool | src/opendart_fss_mcp/corp_code_cache.py:104-106 | all records, or the listed ones under `listed_only`; membership is stated by `ListedMembers` |
| CorpCodes.Truncate | src/opendart_fss_mcp/corp_code_cache.py:122 | `results[:max_results]`: a prefix of the ranking whose length is the smaller of the two lengths |
| CorpCodes.SearchResult | src/opendart_fss_mcp/corp_code_cache.py:93-122 | the records a search returns; its properties are `BlankQueryFindsNothing`, `StockCodeHit` and the `NameSearch` lemmas |
| CorpCodes.RankByName | src/opendart_fss_mcp/corp_code_cache.py:108-121 | the single pass filling three lists returns exactly `Ranked(pool, queryLower)` |
| CorpCodes.SearchIndex | src/opendart_fss_mcp/corp_code_cache.py:93-122 | the search over loaded data returns exactly `SearchResult` (blank → nothing, stock code → that record, else the ranking cut to `max_results`) |
| CorpCodes.BlankQueryFindsNothing | src/opendart_fss_mcp/corp_code_cache.py:93-95 | a blank or empty query returns no records |
| CorpCodes.StockCodeHit | src/opendart_fss_mcp/corp_code_cache.py:99-102 | a stripped query that is a key of the map returns that single record, whatever `max_results` and `listed_only` are |
| CorpCodes.NameSearchTruncates | src/opendart_fss_mcp/corp_code_cache.py:121-122 | the name path returns at most `max_results` records, a prefix of the ranking, and the whole ranking when it fits |
| CorpCodes.NameSearchTierOrder | src/opendart_fss_mcp/corp_code_cache.py:108-122 | in a name-path result, exact matches come before prefix matches, which come before substring matches |
| CorpCodes.NameSearchMatches | src/opendart_fss_mcp/corp_code_cache.py:104-122 | every name-path result is a pool record whose lowered name contains the lowered query; with `listed_only` it has a stock code |
| CorpCodes.NameSearchComplete | src/opendart_fss_mcp/corp_code_cache.py:104-122 | when the ranking fits in `max_results`, every matching pool record is returned |
| CorpCodes.NatDigits | src/opendart_fss_mcp/corp_code_cache.py:132 | decimal digits as an f-string writes them: non-empty, all digits, no leading zero unless the number is 0, denoting the number |
| CorpCodes.Summarize | src/opendart_fss_mcp/corp_code_cache.py:126-133 | total = number of records, listed = number of map keys, listed + unlisted = total; over a built map 0 ≤ listed ≤ listed records ≤ total, with equality when stock codes are distinct |
| CorpCodes.CorpCodeCache.constructor | src/opendart_fss_mcp/corp_code_cache.py:29-33 | an empty cache: no records, empty map, load time 0 |
| CorpCodes.CorpCodeCache.IsLoaded | src/opendart_fss_mcp/corp_code_cache.py:35-37 | `is_loaded`: the cache holds at least one record |
| CorpCodes.CorpCodeCache.IsExpired | src/opendart_fss_mcp/corp_code_cache.py:39-40 | `_is_expired`: more than 24 hours have passed since the load time |
| CorpCodes.CorpCodeCache.NeedsReload | src/opendart_fss_mcp/corp_code_cache.py:43-47 | the test made before and after taking the lock: no records, or expired |
| CorpCodes.CorpCodeCache.Load | src/opendart_fss_mcp/corp_code_cache.py:51-81 | a failed download changes nothing; a successful one replaces records, map and load time together, keeping the map the index of the records; the load time is the clock reading taken after parsing |
| CorpCodes.CorpCodeCache.EnsureLoaded | src/opendart_fss_mcp/corp_code_cache.py:42-49 | it fetches exactly when there are no records or they are older than 24 hours at the time of the test; a successful fetch installs the fetched records stamped with the reading after parsing; otherwise the state is unchanged |
| CorpCodes.CorpCodeCache.Search | src/opendart_fss_mcp/corp_code_cache.py:83-122 | after the freshness check, it returns the search over the data it then holds: the old data when it was fresh, the fetched records when it reloaded; it fails only when a needed reload fails, and then changes nothing |
| CorpCodes.CorpCodeCache.Summary | src/opendart_fss_mcp/corp_code_cache.py:124-133 | after the freshness check, it returns `Summarize` of the data it then holds (old when fresh, fetched when reloaded), with consistent counts; a failed reload changes nothing |
| CorpCodes.ReloadPolicy | tests/test_corp_code_cache.py:183-189 | a fresh cache fetches on first use; a second use fetches again exactly when more than the TTL has passed since the first load completed, so never within the TTL of the first call |
| CacheExamples.SampleBuilt | tests/test_corp_code_cache.py:30-38 | the seven test companies load with the expected lowered names and stock codes (none for the two unlisted ones) |
| CacheExamples.SampleExactName | tests/test_corp_code_cache.py:69-75 | searching "삼성전자" returns exactly one record, 00126380 with stock code 005930 |
| CacheExamples.RankedSoleExact | src/opendart_fss_mcp/corp_code_cache.py:108-121 | when one name equals the query and no other contains it, the ranking is that record alone |
| CacheExamples.ExactNameTiers | tests/test_corp_code_cache.py:113-119 | for "삼성전자", that name is the exact match and no other sample name matches |
| CacheExamples.SampleLowerName | tests/test_corp_code_cache.py:86-91 | searching "lg전자" returns exactly the record named "LG전자" |
| CacheExamples.LowerNameTiers | tests/test_corp_code_cache.py:86-91 | for "lg전자", the lowered "LG전자" is the exact match and no other sample name matches |
| CacheExamples.SampleStockLookup | tests/test_corp_code_cache.py:78-83 | searching "005930" returns only the 삼성전자 record |
| CacheExamples.SampleTiers | tests/test_corp_code_cache.py:122-132 | for "삼성", the three 삼성 names are prefix matches, "비상장삼성" is a substring match, and the rest do not match |
| CacheExamples.RankedPrefixThenSubstring | src/opendart_fss_mcp/corp_code_cache.py:108-121 | with three prefix matches, three non-matches and a last substring match, the ranking is the first three, then the last |
| CacheExamples.SamplePrefixBeforeSubstring | tests/test_corp_code_cache.py:122-132 | "삼성" with room for 20 returns 삼성전자, 삼성SDI, 삼성생명, then 비상장삼성 |
| CacheExamples.SampleMaxResults | tests/test_corp_code_cache.py:145-149 | "삼성" with room for 2 returns exactly two records, 삼성전자 and 삼성SDI |
| CacheExamples.SampleSummary | tests/test_corp_code_cache.py:174-180 | the summary of the test data is 7 records, 5 listed, 2 unlisted |

## Left out

- ZIP download and XML parsing (`_load`, lines 52-59): these are I/O and library code. A reload takes their outcome as an `Option` of parsed items, and the failure of either is `None`.
- `asyncio.Lock` and the second freshness check inside the lock (lines 45-48): concurrency is not modelled. Without interleaving, the second check always repeats the first.
- `time.monotonic()` is a float clock. Here its two readings are the integers `now` and `doneAt`, in seconds.
- Text.Lower and Text.LowerChar model `str.lower()` on ASCII only. Python also lowers non-ASCII letters (Greek, Cyrillic, full-width Latin and so on), and a few of those lower to two characters. Hangul syllables and jamo have no case, so the Korean names and queries of the tests are unaffected.
- CorpCodes.SearchIndex takes `max_results` as a natural number. A negative `max_results` would make Python's `results[:n]` drop records from the end, and that case is not modelled.
- CorpCodes.Summarize builds the message with the digits of the counts. The dictionary's key names are not modelled.
- The module-level `_cache` singleton and `get_cache` are left out because they hold no logic.
- The tool modules, `server.py`, `cli.py` and `deps.py` are left out. They are outside the cache and the Hangul helpers.
- The cache tests for the substring search "전자" (tests/test_corp_code_cache.py:104-110), for `listed_only` (135-142), for no match (159-163) and for the unlisted company (166-171) are not written out on the sample. `NameSearchMatches`, `NameSearchComplete` and `NameSearchTierOrder` state those properties for all inputs.
