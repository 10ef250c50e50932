# Monthly income of a sole proprietor, in UAH

This project models the income side of a small tax-report tool for a
Ukrainian sole proprietor ("FOP") who banks with Monobank. For a calendar
month the tool does the following:

- It asks the bank for the statements of every FOP account.
- It groups every transaction of those statements, outgoing ones and
  self-transfers included, by local calendar date.
- It fetches each date's official exchange rates once. A date that holds
  only outgoing payments or self-transfers is fetched too, and a failed
  fetch on any date aborts the month.
- Within each date it keeps the incoming transactions that do not come
  from one of the owner's own IBANs, converts EUR and USD into UAH, and
  sums the month.
- It writes twelve such monthly figures into fixed cells of a spreadsheet
  template.

An older stand-alone script (`src/mono_statement.py`) does the same sum for
a hard-wired window and three hard-wired accounts. Unlike the tool, it
skips the fetches that fail and keeps self-transfers.

The Dafny modules follow the source files:

| module | file | models |
|---|---|---|
| `Common` | common.dfy | `Option`, `Result`, distinctness of a sequence, and `MapOrFail`, a traversal that stops at the first error (the list comprehension of `fetch_statement`) |
| `Grouping` | grouping.dfy | the insertion-ordered "dictionary of lists" idiom (`if k not in d: d[k] = []; d[k].append(v)`) used by `fetch_client_info` and `get_mono_statement` |
| `Util` | util.dfy | `src/util.py`: `get_month_epoch_bounds` on the proleptic Gregorian calendar, and `fetch_with_retries` over abstract attempt outcomes |
| `Mono` | mono.dfy | `src/mono.py`: `Transaction`, `ClientInfo`, the FOP partitioning loop of `fetch_client_info`, and `fetch_statement` with its decoding of the reply |
| `Income` | income.dfy | `src/main.py`: `CURRENCY_CODES`, `calculate_total_in_uah`, `get_mono_statement`, the month guard of `get_mounth_earning` and `get_statement_by_mounth`, and the cell layout of `generate_report` |
| `LegacyStatement` | legacy_statement.dfy | `src/mono_statement.py`: `ACCOUNTS`, `get_timestamp_offset`, `fetch_exchange_rate`'s comprehension, `calculate_total_in_uah` and the skipping aggregation of `main` |

The outside world is passed in as parameters:

- A statement fetch is a function from (account id, from, to) to
  `Option<seq<Transaction>>`. `None` means the fetch raised.
- A rate fetch is a function from a day to `Option<RateTable>`. In the
  older script it is a function from a day to the raw list of rate entries.
- The host's clock and time zone become the current year, the current
  month and a fixed UTC offset in seconds.

A Python dictionary keeps its insertion order, so `ClientInfo.accounts`
and `grouped_by_date` are modelled as `Buckets(keys, groups)`. `keys` is
the insertion order and `groups` maps each key to its list. Each loop that
builds one is proved equal to `GroupPairs` of the pairs it inserts.

The central fact is `Income.GroupingPreservesTotal`. Summing the date
groups, each converted at its own date's rate table, gives the same
amount as converting every transaction at its own date's table.
`Income.StatementTotalIsPerTransactionSum` and
`LegacyStatement.LegacyMain` both rest on it.

## Model

| member | source | states |
|---|---|---|
| `Grouping.InsertValid` | src/main.py:49-51 | one "open the bucket if absent, then append" step keeps the keys distinct and equal to the map's domain, and keeps every bucket non-empty |
| `Grouping.GroupPairsValid` | src/main.py:46-51 | a dictionary of lists built by that idiom from any pair list is well formed |
| `Grouping.OpenThenAppend` | src/mono.py:53-55 | the two Python statements (create an empty list under an absent key, then append) are exactly one insertion |
| `Grouping.GroupPairsCorrect` | src/main.py:46-51 | a key is present iff some pair carries it, and its bucket is the values of the pairs with that key, in input order |
| `Grouping.GroupPairsKeyOrder` | src/main.py:46-51 | the keys are listed in the order of their first occurrence among the pairs, which is the order in which later loops visit them |
| `Grouping.GroupPairsSize` | src/mono.py:53-56 | the buckets together hold exactly as many values as there were pairs |
| `Util.DaysInMonth` | src/util.py:66 | the last day of a month is 28 to 31: 28 iff the month is a non-leap February, 29 iff it is a leap February, 30 iff it is April, June, September or November, and so 31 otherwise |
| `Util.MonthEpochBounds` | src/util.py:44-70 | a month outside 1..12 is a ValueError, and so is a year outside datetime's 1..9999. Otherwise it gives the first second of day 1 and 23:59:59 of the last day. The window spans the month's days less one second and stays under 31 days. Both ends fall on the month's first and last calendar days |
| `Util.MonthsTile` | src/util.py:44-70 | each month's end is one second before the next month's start, across December into January |
| `Util.DaysWithinMonth` | src/util.py:44-70 | every timestamp inside the window has a local date inside that month |
| `Util.KnownMonths` | src/util.py:44-70 | February 2024 at UTC gives (1706745600, 1709251199). January 1970 starts at 0. February 2023 at UTC+2 starts two hours earlier |
| `Util.FetchWithRetries` | src/util.py:29-41 | it makes at most `len(delay)` attempts, all failing except possibly the last. It returns the first response, or re-raises the last failure after exactly `len(delay)` attempts. With an empty schedule it returns no response. It sleeps `delay[1]`, `delay[2]` and so on between attempts, never `delay[0]` |
| `Mono.FopPairs` | src/mono.py:48-55 | every (currency code, id) pair comes from an account of type "fop" |
| `Mono.FopCounts` | src/mono.py:48-56 | the id list and the iban list each have exactly as many entries as there are FOP accounts |
| `Mono.NonFopIgnored` | src/mono.py:49 | an account that is not FOP changes neither the buckets nor the ibans, wherever it stands |
| `Mono.FopPairsCover` | src/mono.py:48-55 | every FOP account contributes its (currency code, id) pair |
| `Mono.FetchClientInfo` | src/mono.py:43-58 | the buckets are a well-formed dictionary of lists. A currency code is a key iff some FOP account has it. Each bucket lists that currency's FOP ids in input order. `ibans` lists the FOP ibans. The buckets hold as many ids as there are ibans |
| `Mono.ClientInfoShape` | src/mono.py:45-58 | the same properties hold for the client info built from any accounts list |
| `Mono.ClientInfoKeys` | src/mono.py:48-55 | a currency code is a key of the dictionary iff some FOP account carries it |
| `Mono.DeclaredFields` | src/mono.py:11-30 | the twelve required and the six optional field names are disjoint and together are all the declared names |
| `Mono.DecodeOutcome` | src/mono.py:68 | `Transaction(**json)` fails on an unknown key before anything else. It succeeds iff there are no unknown keys, every required field is present, and the fields have their JSON types. The transaction then takes each field from its key |
| `Mono.DecodeEncode` | src/mono.py:11-30 | decoding the full JSON object of a transaction gives that transaction back |
| `Mono.EncodeAcceptable` | src/mono.py:11-30 | the full JSON object the bank sends for any transaction is accepted by `Transaction(**json)`: it has no unknown key, every required field, and every field of its JSON type |
| `Common.MapOrFail` | src/mono.py:68 | a traversal that stops at the first error succeeds iff every element succeeds, and then yields one value per element |
| `Common.MapOrFailValues` | src/mono.py:68 | on success the i-th value is the one produced from the i-th element |
| `Common.MapOrFailFirstError` | src/mono.py:68 | on failure the error is that of the first element that fails, and every earlier element succeeds |
| `Mono.DecodeStatement` | src/mono.py:66-68 | the comprehension succeeds iff every element decodes. It then gives one Transaction per element, in order. Otherwise the error is that of the first element that fails to decode |
| `Mono.FetchStatement` | src/mono.py:60-68 | it uses the schedule [10, 20, 30, 60] with at most 4 attempts. Exhausted retries are an error carrying the last failure. A response is decoded element by element, and a malformed element is an error |
| `Income.Contribution` | src/main.py:24-32 | outgoing transactions, self-transfers (counter IBAN among the owner's) and unknown currencies add 0. UAH adds amount/100. EUR and USD add amount/100 times the date's rate, or 0 when the table lacks the currency. The result is non-negative when the rates are |
| `Income.TotalInUah` | src/main.py:22-34 | the loop's total is the sum of the contributions of the transactions |
| `Income.GroupTotalAppend` | src/main.py:22-34 | the total of a concatenation is the sum of the totals |
| `Income.UncountedAddsNothing` | src/main.py:25 | inserting an outgoing transaction or a self-transfer anywhere leaves the total unchanged |
| `Income.GroupTotalNonnegative` | src/main.py:22-34 | with non-negative rates no total is negative |
| `Income.ConversionExamples` | src/main.py:26-32 | 100.00 EUR at 43.5 gives 4350.00. 500.00 UAH needs no rate. EUR with only a USD rate gives 0 |
| `Income.DatedPairs` | src/main.py:47-48 | each transaction is paired, in order, with the local day whose 86400 seconds contain its time shifted by the UTC offset |
| `Income.InsertAddsContribution` | src/main.py:49-51 | appending one transaction to its date's group adds exactly its contribution at that date's rates |
| `Income.GroupingPreservesTotal` | src/main.py:46-56 | the sum of the per-date groups, each at its date's rates, equals the per-transaction sum at each transaction's own date's rates |
| `Income.FetchAndSum` | src/main.py:53-58 | it succeeds iff every date has a rate table, and the value is the sum of the group totals |
| `Income.FirstMissingRate` | src/main.py:53-55 | when every earlier date has a table and the next one does not, the loop fails naming that date, whatever the later dates would give |
| `Income.FetchAndSumOfGroups` | src/main.py:46-58 | the rate loop over the date groups succeeds iff every transaction's date has a table, and then yields the per-transaction sum |
| `Income.CollectStatements` | src/main.py:40-43 | collecting succeeds iff every account's statement fetch succeeds |
| `Income.FirstFailure` | src/main.py:40-43 | when every earlier account fetches and the next one does not, collecting fails naming that account, whatever the later accounts would give |
| `Income.StatementTotalIsPerTransactionSum` | src/main.py:36-58 | the monthly figure exists iff every statement and every needed date's rates could be fetched. It then equals the per-transaction sum at each transaction's own date |
| `Income.DatesAreDistinctDays` | src/main.py:46-55 | rates are requested once per distinct local date that occurs among the transactions, and for no other date |
| `Income.MonoStatement` | src/main.py:36-58 | the result equals the statement total. The accounts requested are a prefix of the account ids in bucket order. No date is requested twice. Rates are requested only after all statements were fetched. On success every account and every date was requested. On failure the requests stop at the first failed fetch: the last request is the first statement or rate fetch that failed, and the error names it |
| `Income.CollectAll` | src/main.py:40-43 | the nested account loops produce the collected statements, requesting accounts in bucket order. On failure the last account requested is the first whose fetch failed, every earlier one was fetched, and the error names it |
| `Income.GroupByDate` | src/main.py:46-51 | the loop's dictionary is the grouping of the dated transactions |
| `Income.SumByDate` | src/main.py:53-58 | the rate loop yields the fetch-and-sum result and requests dates in key order. On failure the last date requested is the first without a table, every earlier one had its table, and the error names it |
| `Income.MonthGuard` | src/main.py:67 | in past and current years the guard passes exactly the months before the current one. In a later year it also passes every month numbered below the current one |
| `Income.MonthEarning` | src/main.py:60-70 | a month the guard rejects is 0 with no statement or rate fetch. A month outside 1..12 that passes the guard is a ValueError. Otherwise the result is that month's statement total |
| `Income.CellsDistinct` | src/main.py:89 | twelve distinct cells, one per month |
| `Income.Report` | src/main.py:89-94 | writing months 1 to n succeeds iff each of those months' earnings does |
| `Income.ReportCells` | src/main.py:89-94 | a finished sheet has exactly the cells of the months written, and cell `Cells()[m-1]` holds month m's earning |
| `Income.ReportAbort` | src/main.py:93-94 | once the months before k succeed and month k fails, the report fails with month k's error, whatever the later months would give |
| `Income.GenerateReport` | src/main.py:73-94 | the loop writes the sheet `Report` gives for all twelve months, where month m's earning is the guarded statement total of `get_statement_by_mounth(m)` |
| `LegacyStatement.TimestampOffset` | src/mono_statement.py:35-45 | the fixed window runs from 2024-11-20 to 2024-12-20 UTC and is under 31 days |
| `LegacyStatement.TimestampOffsetIgnoresMonths` | src/mono_statement.py:35-45 | the window does not depend on the argument |
| `LegacyStatement.RateTableOf` | src/mono_statement.py:60 | the table's codes are exactly the codes in the reply |
| `LegacyStatement.RateTableLastWins` | src/mono_statement.py:60 | each code gets the rate of its last entry in the reply |
| `LegacyStatement.LastEntryWins` | src/mono_statement.py:60 | of two entries for the same code, the later one wins |
| `LegacyStatement.LegacyTotalInUah` | src/mono_statement.py:62-74 | the script's loop computes the same conversion as the newer one with an empty self-transfer list |
| `LegacyStatement.LegacyCountsSelfTransfers` | src/mono_statement.py:62-74 | with non-negative rates the script's total is at least the newer one's. They are equal when no transaction comes from one of the owner's ibans |
| `LegacyStatement.LegacyCollect` | src/mono_statement.py:86-91 | a transaction is collected iff it is in the statement of some account whose fetch succeeded |
| `LegacyStatement.LegacyCollectAppend` | src/mono_statement.py:86-91 | collecting over two account lists in turn is the concatenation of the two collections |
| `LegacyStatement.FailedAccountSkipped` | src/mono_statement.py:86-91 | an account whose fetch fails contributes nothing: the collection equals that of the other accounts |
| `LegacyStatement.LegacyMain` | src/mono_statement.py:76-109 | the collected statements are those of the accounts whose fetch succeeded. The printed total is the per-transaction sum at each transaction's own date's rates, with no self-transfer filter. A date whose rates cannot be fetched adds nothing |

## Left out

- The HTTP layer is not modelled: requests, headers, the token, `raise_for_status` and JSON parsing. Statement and rate fetches are parameters, and a failed fetch is `None`. For `fetch_client_info` the model takes the reply's `accounts` list, or `[]` when the reply has none.
- `load_conf` and `load_api_token` read a configuration file, so they are left out. The token only travels into requests.
- `src/nbu.py` is not part of this model. The rate table of a date is a parameter of `get_mono_statement`.
- Output is left out: printing, progress bars, the workbook's loading and saving, and the report path. `Income.GenerateReport` returns the map of cells it would write.
- `Util.FetchWithRetries`: `time.sleep` is not performed; the delays it would sleep are returned instead. `fetch_with_retries` makes `len(delay)` attempts and sleeps `delay[attempt]` before each retry, so `delay[0]` is never slept. The 10-second per-request timeout is one way an attempt can fail.
- The clock and the host time zone are inputs. `datetime.now()` becomes the current year and month. Local time is a fixed UTC offset, so daylight-saving changes inside a month are not modelled.
- `Income.Contribution`: amounts are exact reals. Python's float rounding and the `:.2f` formatting are not modelled.
- `Income.DatedPairs`: a date is a day number counted from 1970-01-01. The `%Y%m%d` string is not modelled; for years 1 to 9999 the two are in one-to-one correspondence.
- `Mono.DecodeOutcome`: a dataclass does not check field types, so Python would store a wrong JSON type unchecked. The model instead rejects it as `WrongType`.
- `Mono.DecodeEncode`: only decoding after encoding is proved. The other direction is not stated: a decoded object need not carry every optional key, so it would have to be stated up to absent optional fields.
- `LegacyStatement.LegacyMain` works on decoded transactions. The script indexes raw JSON dictionaries, which this leaves out:
  - a missing `time` would crash the grouping loop;
  - a missing `amount`, or a missing `currencyCode` on an incoming transaction, raises inside the per-date `try`, so that date would be skipped.
- `LegacyStatement.LegacyMain`: the early return when the token cannot be loaded is left out.
- `Income.MonthEarning`: `get_mounth_earning` and `generate_report` fetch the client info before the month guard, so even a month the guard rejects costs one request. In the model the client info is a parameter, so that fetch, and its failure, sit outside the model.
