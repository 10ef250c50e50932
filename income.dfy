/**
 * src/main.py: the monthly income figure in the home currency (UAH).
 *
 * A month's statements from every fop account are concatenated, grouped by
 * calendar date, each date's exchange-rate table is fetched once, and each
 * group's incoming, non-self-transfer transactions are converted and summed.
 * Every failed fetch is fatal: the first one aborts the computation.
 */
module Income {
  import opened Common
  import opened Grouping
  import opened Mono
  import Util

  /** `CURRENCY_CODES`: ISO 4217 numeric code to symbolic code. */
  const CurrencyCodes: map<int, string> := map[980 := "UAH", 978 := "EUR", 840 := "USD"]

  const HomeCurrency: string := "UAH"

  /** The exchange-rate table of one date: UAH per unit of a foreign currency. */
  type RateTable = map<string, real>

  /** The outside world: the statement reply for (account, from, to), the
      rate table of a day, `None` when the fetch raises; and the host's
      fixed UTC offset in seconds. */
  datatype Upstream = Upstream(
    statementOf: (Option<string>, int, int) -> Option<seq<Transaction>>,
    rateOf: int -> Option<RateTable>,
    utcOffset: int)

  /** Why the month's figure could not be computed. */
  datatype Error =
    | InvalidInterval(reason: Util.BoundsError)
    | StatementUnavailable(account: Option<string>)
    | RatesUnavailable(day: int)

  /** Minor units to major units: `amount / 100`. */
  function Major(amount: int): real
  {
    amount as real / 100.0
  }

  /** `CURRENCY_CODES.get(code)`. */
  function CurrencyOf(code: int): Option<string>
  {
    if code in CurrencyCodes then Some(CurrencyCodes[code]) else None
  }

  /** Incoming (`amount > 0`) and not from one of the owner's own accounts. */
  predicate Counted(t: Transaction, ibans: seq<Option<string>>)
  {
    t.amount > 0 && t.counterIban !in ibans
  }

  /** What one transaction adds to `calculate_total_in_uah`. */
  function Contribution(t: Transaction, rates: RateTable, ibans: seq<Option<string>>): (r: real)
    ensures t.amount <= 0 ==> r == 0.0
    ensures t.counterIban in ibans ==> r == 0.0
    ensures Counted(t, ibans) && t.currencyCode == 980 ==> r == Major(t.amount)
    ensures Counted(t, ibans) && t.currencyCode == 978 ==>
      r == if "EUR" in rates then Major(t.amount) * rates["EUR"] else 0.0
    ensures Counted(t, ibans) && t.currencyCode == 840 ==>
      r == if "USD" in rates then Major(t.amount) * rates["USD"] else 0.0
    ensures t.currencyCode !in {980, 978, 840} ==> r == 0.0
    ensures (forall c :: c in rates ==> rates[c] >= 0.0) ==> r >= 0.0
  {
    if t.amount > 0 && t.counterIban !in ibans then
      var amount := Major(t.amount);
      var currencyCode := CurrencyOf(t.currencyCode);
      if currencyCode == Some(HomeCurrency) then amount
      else if currencyCode.Some? && currencyCode.value in rates then amount * rates[currencyCode.value]
      else 0.0
    else 0.0
  }

  /** The sum of the contributions of a list of transactions. */
  function GroupTotal(statements: seq<Transaction>, rates: RateTable, ibans: seq<Option<string>>): real
  {
    if statements == [] then 0.0
    else
      GroupTotal(statements[..|statements| - 1], rates, ibans)
        + Contribution(statements[|statements| - 1], rates, ibans)
  }

  /** `calculate_total_in_uah(statements, exchange_rates, client_info)`. */
  method TotalInUah(statements: seq<Transaction>, exchangeRates: RateTable, clientInfo: ClientInfo)
    returns (total: real)
    ensures total == GroupTotal(statements, exchangeRates, clientInfo.ibans)
  {
    total := 0.0;
    for i := 0 to |statements|
      invariant total == GroupTotal(statements[..i], exchangeRates, clientInfo.ibans)
    {
      var transaction := statements[i];
      assert statements[..i + 1][..i] == statements[..i];
      if transaction.amount > 0 && transaction.counterIban !in clientInfo.ibans {
        var amount := Major(transaction.amount);
        var currencyCode := CurrencyOf(transaction.currencyCode);
        if currencyCode == Some(HomeCurrency) {
          total := total + amount;
        } else if currencyCode.Some? && currencyCode.value in exchangeRates {
          total := total + amount * exchangeRates[currencyCode.value];
        }
      }
    }
    assert statements[..|statements|] == statements;
  }

  /** The total is additive over concatenation (and so the empty list adds 0). */
  lemma {:induction false} GroupTotalAppend(xs: seq<Transaction>, ys: seq<Transaction>, rates: RateTable, ibans: seq<Option<string>>)
    ensures GroupTotal(xs + ys, rates, ibans) == GroupTotal(xs, rates, ibans) + GroupTotal(ys, rates, ibans)
    decreases |ys|
  {
    if ys == [] {
      assert xs + ys == xs;
    } else {
      var init := ys[..|ys| - 1];
      GroupTotalAppend(xs, init, rates, ibans);
      assert (xs + ys)[..|xs + ys| - 1] == xs + init;
    }
  }

  /** An outgoing transaction or a self-transfer changes no total, wherever it stands. */
  lemma UncountedAddsNothing(xs: seq<Transaction>, t: Transaction, ys: seq<Transaction>, rates: RateTable, ibans: seq<Option<string>>)
    requires !Counted(t, ibans)
    ensures GroupTotal(xs + [t] + ys, rates, ibans) == GroupTotal(xs + ys, rates, ibans)
  {
    GroupTotalAppend(xs + [t], ys, rates, ibans);
    GroupTotalAppend(xs, [t], rates, ibans);
    GroupTotalAppend(xs, ys, rates, ibans);
    assert GroupTotal([t], rates, ibans) == 0.0 by {
      assert [t][..0] == [];
    }
  }

  /** With non-negative rates no total is negative: only incoming money counts. */
  lemma {:induction false} GroupTotalNonnegative(xs: seq<Transaction>, rates: RateTable, ibans: seq<Option<string>>)
    requires forall c :: c in rates ==> rates[c] >= 0.0
    ensures GroupTotal(xs, rates, ibans) >= 0.0
  {
    if xs != [] {
      GroupTotalNonnegative(xs[..|xs| - 1], rates, ibans);
    }
  }

  /** 100.00 EUR at 43.5 adds 4350.00; 500.00 UAH adds 500.00 with no rate. */
  lemma ConversionExamples(t: Transaction, ibans: seq<Option<string>>)
    requires t.amount == 10000 && t.currencyCode == 978 && t.counterIban !in ibans
    ensures Contribution(t, map["EUR" := 43.5], ibans) == 4350.0
    ensures Contribution(t.(amount := 50000, currencyCode := 980), map[], ibans) == 500.0
    ensures Contribution(t, map["USD" := 41.0], ibans) == 0.0
  {
  }

  // ---------------------------------------------------------------------
  // Grouping by date and summing the groups
  // ---------------------------------------------------------------------

  /** Each transaction paired with the local calendar day of its time: the
      day whose 86400 local seconds contain the transaction's local time. */
  function DatedPairs(statements: seq<Transaction>, utcOffset: int): (r: seq<(int, Transaction)>)
    ensures |r| == |statements|
    ensures forall i :: 0 <= i < |r| ==>
      && r[i].1 == statements[i]
      && r[i].0 * Util.SecondsPerDay <= statements[i].time + utcOffset < (r[i].0 + 1) * Util.SecondsPerDay
  {
    seq(|statements|, i requires 0 <= i < |statements| => (Util.DayOf(statements[i].time, utcOffset), statements[i]))
  }

  /** One transaction converted at the rate table of the date it is paired
      with; a date without a table adds nothing. */
  function RatedContribution(day: int, t: Transaction, rateOf: int -> Option<RateTable>, ibans: seq<Option<string>>): real
  {
    match rateOf(day)
    case None => 0.0
    case Some(rates) => Contribution(t, rates, ibans)
  }

  /** The reference total: every transaction converted at its own date's rates. */
  function DatedTotal(ps: seq<(int, Transaction)>, rateOf: int -> Option<RateTable>, ibans: seq<Option<string>>): real
  {
    if ps == [] then 0.0
    else DatedTotal(ps[..|ps| - 1], rateOf, ibans) + RatedContribution(ps[|ps| - 1].0, ps[|ps| - 1].1, rateOf, ibans)
  }

  /** The sum of the group totals, each group at its own date's table (a
      date without a table adds nothing). */
  function KeysTotal(keys: seq<int>, groups: map<int, seq<Transaction>>, rateOf: int -> Option<RateTable>, ibans: seq<Option<string>>): real
    requires forall i :: 0 <= i < |keys| ==> keys[i] in groups
  {
    if keys == [] then 0.0
    else
      var k := keys[|keys| - 1];
      KeysTotal(keys[..|keys| - 1], groups, rateOf, ibans)
        + (match rateOf(k) case None => 0.0 case Some(rates) => GroupTotal(groups[k], rates, ibans))
  }

  lemma {:induction false} KeysTotalFrame(keys: seq<int>, groups: map<int, seq<Transaction>>, k: int, ts: seq<Transaction>,
                                          rateOf: int -> Option<RateTable>, ibans: seq<Option<string>>)
    requires forall i :: 0 <= i < |keys| ==> keys[i] in groups
    requires k !in keys
    ensures KeysTotal(keys, groups[k := ts], rateOf, ibans) == KeysTotal(keys, groups, rateOf, ibans)
  {
    if keys != [] {
      KeysTotalFrame(keys[..|keys| - 1], groups, k, ts, rateOf, ibans);
    }
  }

  lemma {:induction false} KeysTotalAppendAt(keys: seq<int>, groups: map<int, seq<Transaction>>, k: int, t: Transaction,
                                             rateOf: int -> Option<RateTable>, ibans: seq<Option<string>>)
    requires forall i :: 0 <= i < |keys| ==> keys[i] in groups
    requires Distinct(keys) && k in keys
    ensures KeysTotal(keys, groups[k := groups[k] + [t]], rateOf, ibans)
         == KeysTotal(keys, groups, rateOf, ibans) + RatedContribution(k, t, rateOf, ibans)
  {
    var init := keys[..|keys| - 1];
    var last := keys[|keys| - 1];
    if last == k {
      assert k !in init;
      KeysTotalFrame(init, groups, k, groups[k] + [t], rateOf, ibans);
      if rateOf(k).Some? {
        GroupTotalAppend(groups[k], [t], rateOf(k).value, ibans);
        assert [t][..0] == [];
      }
    } else {
      KeysTotalAppendAt(init, groups, k, t, rateOf, ibans);
    }
  }

  /** Adding one dated transaction to the groups adds its contribution at
      its date's rates. */
  lemma InsertAddsContribution(b: Buckets<int, Transaction>, k: int, t: Transaction,
                               rateOf: int -> Option<RateTable>, ibans: seq<Option<string>>)
    requires Valid(b)
    ensures Valid(Insert(b, k, t))
    ensures KeysTotal(Insert(b, k, t).keys, Insert(b, k, t).groups, rateOf, ibans)
         == KeysTotal(b.keys, b.groups, rateOf, ibans) + RatedContribution(k, t, rateOf, ibans)
  {
    InsertValid(b, k, t);
    if k in b.groups {
      KeysTotalAppendAt(b.keys, b.groups, k, t, rateOf, ibans);
    } else {
      assert k !in b.keys;
      KeysTotalFrame(b.keys, b.groups, k, [t], rateOf, ibans);
      var keys' := b.keys + [k];
      assert keys'[..|keys'| - 1] == b.keys;
      if rateOf(k).Some? {
        assert GroupTotal([t], rateOf(k).value, ibans) == Contribution(t, rateOf(k).value, ibans) by {
          assert [t][..0] == [];
        }
      }
    }
  }

  /** Grouping by date changes no total: summing the per-date groups, each
      at its date's rate table, equals converting every transaction at the
      table of its own date. */
  lemma {:induction false} GroupingPreservesTotal(ps: seq<(int, Transaction)>, rateOf: int -> Option<RateTable>, ibans: seq<Option<string>>)
    ensures Valid(GroupPairs(ps))
    ensures KeysTotal(GroupPairs(ps).keys, GroupPairs(ps).groups, rateOf, ibans) == DatedTotal(ps, rateOf, ibans)
  {
    GroupPairsValid(ps);
    if ps != [] {
      var init := ps[..|ps| - 1];
      GroupingPreservesTotal(init, rateOf, ibans);
      InsertAddsContribution(GroupPairs(init), ps[|ps| - 1].0, ps[|ps| - 1].1, rateOf, ibans);
    }
  }

  /** The rate fetch loop of `get_mono_statement`: the first date whose
      fetch fails aborts; otherwise the sum of the group totals. */
  function FetchAndSum(keys: seq<int>, groups: map<int, seq<Transaction>>, rateOf: int -> Option<RateTable>, ibans: seq<Option<string>>): (r: Result<real, Error>)
    requires forall i :: 0 <= i < |keys| ==> keys[i] in groups
    ensures r.Ok? <==> forall i :: 0 <= i < |keys| ==> rateOf(keys[i]).Some?
    ensures r.Ok? ==> r.value == KeysTotal(keys, groups, rateOf, ibans)
  {
    if keys == [] then Ok(0.0)
    else
      var k := keys[|keys| - 1];
      match FetchAndSum(keys[..|keys| - 1], groups, rateOf, ibans)
      case Err(e) => Err(e)
      case Ok(total) =>
        match rateOf(k)
        case None => Err(RatesUnavailable(k))
        case Some(rates) => Ok(total + GroupTotal(groups[k], rates, ibans))
  }

  // ---------------------------------------------------------------------
  // Collecting the statements of every account
  // ---------------------------------------------------------------------

  /** Every account id of the client, bucket by bucket in key order. */
  function AccountIds(clientInfo: ClientInfo): seq<Option<string>>
  {
    Flatten(clientInfo.accounts.keys, clientInfo.accounts.groups)
  }

  /** The statement loop of `get_mono_statement`: the statements of all the
      accounts concatenated in order; the first failed fetch aborts. */
  function CollectStatements(ids: seq<Option<string>>, from: int, to: int, upstream: Upstream): (r: Result<seq<Transaction>, Error>)
    ensures r.Ok? <==> forall i :: 0 <= i < |ids| ==> upstream.statementOf(ids[i], from, to).Some?
  {
    if ids == [] then Ok([])
    else
      var id := ids[|ids| - 1];
      match CollectStatements(ids[..|ids| - 1], from, to, upstream)
      case Err(e) => Err(e)
      case Ok(all) =>
        match upstream.statementOf(id, from, to)
        case None => Err(StatementUnavailable(id))
        case Some(statements) => Ok(all + statements)
  }

  /** A trace of statement requests that stops at the first failure: every
      account before the last was fetched, and the last one failed. */
  predicate StatementsStopAtFailure(requested: seq<Option<string>>, from: int, to: int, upstream: Upstream)
  {
    && requested != []
    && upstream.statementOf(requested[|requested| - 1], from, to).None?
    && forall i :: 0 <= i < |requested| - 1 ==> upstream.statementOf(requested[i], from, to).Some?
  }

  /** A trace of rate requests that stops at the first failure: every date
      before the last got its table, and the last one did not. */
  predicate RatesStopAtFailure(requested: seq<int>, rateOf: int -> Option<RateTable>)
  {
    && requested != []
    && rateOf(requested[|requested| - 1]).None?
    && forall i :: 0 <= i < |requested| - 1 ==> rateOf(requested[i]).Some?
  }

  /** `get_mono_statement(interval, client_info, conf)` as a value. */
  function StatementTotal(interval: (int, int), clientInfo: ClientInfo, upstream: Upstream): Result<real, Error>
  {
    match CollectStatements(AccountIds(clientInfo), interval.0, interval.1, upstream)
    case Err(e) => Err(e)
    case Ok(all) =>
      var ps := DatedPairs(all, upstream.utcOffset);
      GroupPairsKeyed(ps);
      FetchAndSum(GroupPairs(ps).keys, GroupPairs(ps).groups, upstream.rateOf, clientInfo.ibans)
  }

  /** The dates whose rate tables `get_mono_statement` needs. */
  function DatesOf(interval: (int, int), clientInfo: ClientInfo, upstream: Upstream): seq<int>
  {
    match CollectStatements(AccountIds(clientInfo), interval.0, interval.1, upstream)
    case Err(_) => []
    case Ok(all) => GroupPairs(DatedPairs(all, upstream.utcOffset)).keys
  }

  /** The rate fetches over the date groups succeed exactly when every
      transaction's date has a table, and then give the reference total. */
  lemma FetchAndSumOfGroups(ps: seq<(int, Transaction)>, rateOf: int -> Option<RateTable>, ibans: seq<Option<string>>)
    ensures Valid(GroupPairs(ps))
    ensures FetchAndSum(GroupPairs(ps).keys, GroupPairs(ps).groups, rateOf, ibans).Ok?
        <==> forall i :: 0 <= i < |ps| ==> rateOf(ps[i].0).Some?
    ensures FetchAndSum(GroupPairs(ps).keys, GroupPairs(ps).groups, rateOf, ibans).Ok? ==>
      FetchAndSum(GroupPairs(ps).keys, GroupPairs(ps).groups, rateOf, ibans).value == DatedTotal(ps, rateOf, ibans)
  {
    GroupPairsCorrect(ps);
    GroupingPreservesTotal(ps, rateOf, ibans);
    var b := GroupPairs(ps);
    if forall i :: 0 <= i < |ps| ==> rateOf(ps[i].0).Some? {
      forall j | 0 <= j < |b.keys| ensures rateOf(b.keys[j]).Some? {
        assert b.keys[j] in b.groups;
      }
    } else {
      var i :| 0 <= i < |ps| && rateOf(ps[i].0).None?;
      assert ps[i].0 in b.groups;
    }
  }

  /** The month's figure is the per-transaction sum at each transaction's own
      date's rates; it exists exactly when every statement and every needed
      rate table could be fetched. */
  lemma StatementTotalIsPerTransactionSum(interval: (int, int), clientInfo: ClientInfo, upstream: Upstream)
    ensures var c := CollectStatements(AccountIds(clientInfo), interval.0, interval.1, upstream);
      && (StatementTotal(interval, clientInfo, upstream).Ok? <==>
            c.Ok? && forall i :: 0 <= i < |c.value| ==> upstream.rateOf(Util.DayOf(c.value[i].time, upstream.utcOffset)).Some?)
      && (StatementTotal(interval, clientInfo, upstream).Ok? ==>
            StatementTotal(interval, clientInfo, upstream).value == DatedTotal(DatedPairs(c.value, upstream.utcOffset), upstream.rateOf, clientInfo.ibans))
  {
    var c := CollectStatements(AccountIds(clientInfo), interval.0, interval.1, upstream);
    if c.Ok? {
      FetchAndSumOfGroups(DatedPairs(c.value, upstream.utcOffset), upstream.rateOf, clientInfo.ibans);
    }
  }

  /** Same-day transactions share one rate table: the dates needed are the
      distinct dates of the transactions, each once. */
  lemma DatesAreDistinctDays(interval: (int, int), clientInfo: ClientInfo, upstream: Upstream)
    requires CollectStatements(AccountIds(clientInfo), interval.0, interval.1, upstream).Ok?
    ensures Distinct(DatesOf(interval, clientInfo, upstream))
    ensures var all := CollectStatements(AccountIds(clientInfo), interval.0, interval.1, upstream).value;
      forall d :: d in DatesOf(interval, clientInfo, upstream) <==>
        exists i :: 0 <= i < |all| && Util.DayOf(all[i].time, upstream.utcOffset) == d
  {
    var all := CollectStatements(AccountIds(clientInfo), interval.0, interval.1, upstream).value;
    var ps := DatedPairs(all, upstream.utcOffset);
    GroupPairsCorrect(ps);
  }

  /** `get_mono_statement(interval, client_info, conf)`. The ghost outputs
      record, in order, the accounts whose statements were requested and the
      dates whose rate tables were requested. */
  method MonoStatement(interval: (int, int), clientInfo: ClientInfo, upstream: Upstream)
    returns (r: Result<real, Error>, ghost accountsFetched: seq<Option<string>>, ghost datesFetched: seq<int>)
    requires forall i :: 0 <= i < |clientInfo.accounts.keys| ==> clientInfo.accounts.keys[i] in clientInfo.accounts.groups
    ensures r == StatementTotal(interval, clientInfo, upstream)
    ensures accountsFetched <= AccountIds(clientInfo)
    ensures datesFetched <= DatesOf(interval, clientInfo, upstream)
    ensures Distinct(datesFetched)
    ensures datesFetched != [] ==> accountsFetched == AccountIds(clientInfo)
    ensures r.Ok? ==> accountsFetched == AccountIds(clientInfo) && datesFetched == DatesOf(interval, clientInfo, upstream)
    ensures r.Err? && datesFetched == [] ==>
      && StatementsStopAtFailure(accountsFetched, interval.0, interval.1, upstream)
      && r.error == StatementUnavailable(accountsFetched[|accountsFetched| - 1])
    ensures r.Err? && datesFetched != [] ==>
      && RatesStopAtFailure(datesFetched, upstream.rateOf)
      && r.error == RatesUnavailable(datesFetched[|datesFetched| - 1])
  {
    var collected;
    collected, accountsFetched := CollectAll(interval, clientInfo, upstream);
    if collected.Err? {
      assert StatementTotal(interval, clientInfo, upstream) == Err(collected.error);
      return Err(collected.error), accountsFetched, [];
    }
    var allStatements := collected.value;
    var dates, groupedByDate := GroupByDate(allStatements, upstream.utcOffset);
    assert DatesOf(interval, clientInfo, upstream) == dates;
    assert StatementTotal(interval, clientInfo, upstream) == FetchAndSum(dates, groupedByDate, upstream.rateOf, clientInfo.ibans);
    r, datesFetched := SumByDate(dates, groupedByDate, clientInfo, upstream.rateOf);
    DistinctPrefix(datesFetched, dates);
  }

  /** A prefix of a sequence without repetitions has none either. */
  lemma DistinctPrefix<T>(prefix: seq<T>, s: seq<T>)
    requires prefix <= s && Distinct(s)
    ensures Distinct(prefix)
  {
    forall i, j | 0 <= i < j < |prefix| ensures prefix[i] != prefix[j] {
      assert prefix[i] == s[i] && prefix[j] == s[j];
    }
  }

  /** The first loop of `get_mono_statement`: every account's statement,
      `all_statements.extend(...)`; a failed fetch raises. */
  method CollectAll(interval: (int, int), clientInfo: ClientInfo, upstream: Upstream)
    returns (r: Result<seq<Transaction>, Error>, ghost accountsFetched: seq<Option<string>>)
    requires forall i :: 0 <= i < |clientInfo.accounts.keys| ==> clientInfo.accounts.keys[i] in clientInfo.accounts.groups
    ensures r == CollectStatements(AccountIds(clientInfo), interval.0, interval.1, upstream)
    ensures accountsFetched <= AccountIds(clientInfo)
    ensures r.Ok? ==> accountsFetched == AccountIds(clientInfo)
    ensures r.Err? ==>
      && StatementsStopAtFailure(accountsFetched, interval.0, interval.1, upstream)
      && r.error == StatementUnavailable(accountsFetched[|accountsFetched| - 1])
  {
    var (fromTimestamp, toTimestamp) := interval;
    var keys := clientInfo.accounts.keys;
    var accounts := clientInfo.accounts.groups;
    var allStatements: seq<Transaction> := [];
    accountsFetched := [];
    var i := 0;
    while i < |keys|
      invariant 0 <= i <= |keys|
      invariant accountsFetched == Flatten(keys[..i], accounts)
      invariant CollectStatements(accountsFetched, fromTimestamp, toTimestamp, upstream) == Ok(allStatements)
    {
      var accountIds := accounts[keys[i]];
      assert keys[..i + 1][..i] == keys[..i];
      ghost var before := accountsFetched;
      var j := 0;
      while j < |accountIds|
        invariant 0 <= j <= |accountIds|
        invariant accountsFetched == before + accountIds[..j]
        invariant CollectStatements(accountsFetched, fromTimestamp, toTimestamp, upstream) == Ok(allStatements)
      {
        var accountId := accountIds[j];
        assert accountIds[..j + 1] == accountIds[..j] + [accountId];
        var statements := upstream.statementOf(accountId, fromTimestamp, toTimestamp);
        if statements.None? {
          CollectAbort(keys, accounts, i, j, fromTimestamp, toTimestamp, upstream);
          assert accountsFetched + [accountId] == before + accountIds[..j + 1];
          return Err(StatementUnavailable(accountId)), accountsFetched + [accountId];
        }
        CollectStep(accountsFetched, accountId, fromTimestamp, toTimestamp, upstream, allStatements, statements.value);
        accountsFetched := accountsFetched + [accountId];
        allStatements := allStatements + statements.value;
        j := j + 1;
      }
      assert accountIds[..j] == accountIds;
      i := i + 1;
    }
    assert keys[..i] == keys;
    r := Ok(allStatements);
  }

  /** The second loop of `get_mono_statement`: `grouped_by_date`, keyed by
      the local date of each transaction. */
  method GroupByDate(allStatements: seq<Transaction>, utcOffset: int)
    returns (dates: seq<int>, groupedByDate: map<int, seq<Transaction>>)
    ensures Buckets(dates, groupedByDate) == GroupPairs(DatedPairs(allStatements, utcOffset))
    ensures Valid(Buckets(dates, groupedByDate))
  {
    dates, groupedByDate := [], map[];
    for k := 0 to |allStatements|
      invariant Buckets(dates, groupedByDate) == GroupPairs(DatedPairs(allStatements[..k], utcOffset))
    {
      var transaction := allStatements[k];
      var date := Util.DayOf(transaction.time, utcOffset);
      assert DatedPairs(allStatements[..k + 1], utcOffset) == DatedPairs(allStatements[..k], utcOffset) + [(date, transaction)];
      GroupPairsSnoc(DatedPairs(allStatements[..k], utcOffset), (date, transaction));
      OpenThenAppend(dates, groupedByDate, date, transaction);
      if date !in groupedByDate {
        dates := dates + [date];
        groupedByDate := groupedByDate[date := []];
      }
      groupedByDate := groupedByDate[date := groupedByDate[date] + [transaction]];
    }
    assert allStatements[..|allStatements|] == allStatements;
    GroupPairsValid(DatedPairs(allStatements, utcOffset));
  }

  /** The third loop of `get_mono_statement`: fetch each date's table once
      and add that group's `calculate_total_in_uah`; a failed fetch raises. */
  method SumByDate(dates: seq<int>, groupedByDate: map<int, seq<Transaction>>, clientInfo: ClientInfo, rateOf: int -> Option<RateTable>)
    returns (r: Result<real, Error>, ghost datesFetched: seq<int>)
    requires forall i :: 0 <= i < |dates| ==> dates[i] in groupedByDate
    ensures r == FetchAndSum(dates, groupedByDate, rateOf, clientInfo.ibans)
    ensures datesFetched <= dates
    ensures r.Ok? ==> datesFetched == dates
    ensures r.Err? ==>
      && RatesStopAtFailure(datesFetched, rateOf)
      && r.error == RatesUnavailable(datesFetched[|datesFetched| - 1])
  {
    datesFetched := [];
    var totalInUah := 0.0;
    for d := 0 to |dates|
      invariant datesFetched == dates[..d]
      invariant FetchAndSum(datesFetched, groupedByDate, rateOf, clientInfo.ibans) == Ok(totalInUah)
    {
      var date := dates[d];
      assert dates[..d + 1] == datesFetched + [date];
      var exchangeRates := rateOf(date);
      if exchangeRates.None? {
        FirstMissingRate(datesFetched, date, dates, groupedByDate, rateOf, clientInfo.ibans);
        return Err(RatesUnavailable(date)), datesFetched + [date];
      }
      var groupTotal := TotalInUah(groupedByDate[date], exchangeRates.value, clientInfo);
      FetchAndSumStep(datesFetched, date, groupedByDate, rateOf, clientInfo.ibans, totalInUah);
      datesFetched := datesFetched + [date];
      totalInUah := totalInUah + groupTotal;
    }
    assert dates[..|dates|] == dates;
    r := Ok(totalInUah);
  }

  /** The accounts requested so far are a prefix of all account ids. */
  lemma FetchedPrefix(keys: seq<Option<int>>, groups: map<Option<int>, seq<Option<string>>>, i: int, part: seq<Option<string>>)
    requires 0 <= i < |keys| && keys[i] in groups && part <= groups[keys[i]]
    ensures Flatten(keys[..i], groups) + part <= Flatten(keys, groups)
  {
    assert keys == keys[..i] + [keys[i]] + keys[i + 1..];
    FlattenAppend(keys[..i] + [keys[i]], keys[i + 1..], groups);
    FlattenAppend(keys[..i], [keys[i]], groups);
    assert Flatten([keys[i]], groups) == groups[keys[i]] by {
      assert [keys[i]][..0] == [];
    }
  }

  /** The failure branch of the statement loop: when the fetch of the `j`-th
      account of the `i`-th currency fails after all earlier ones succeeded,
      the ids fetched so far are a prefix of all the ids that stops at its
      first failure, and the whole collection fails on that account. */
  lemma CollectAbort(keys: seq<Option<int>>, groups: map<Option<int>, seq<Option<string>>>, i: int, j: int,
                     from: int, to: int, upstream: Upstream)
    requires 0 <= i < |keys| && keys[i] in groups && 0 <= j < |groups[keys[i]]|
    requires CollectStatements(Flatten(keys[..i], groups) + groups[keys[i]][..j], from, to, upstream).Ok?
    requires upstream.statementOf(groups[keys[i]][j], from, to).None?
    ensures Flatten(keys[..i], groups) + groups[keys[i]][..j + 1] <= Flatten(keys, groups)
    ensures StatementsStopAtFailure(Flatten(keys[..i], groups) + groups[keys[i]][..j + 1], from, to, upstream)
    ensures CollectStatements(Flatten(keys, groups), from, to, upstream) == Err(StatementUnavailable(groups[keys[i]][j]))
  {
    var done := Flatten(keys[..i], groups) + groups[keys[i]][..j];
    var id := groups[keys[i]][j];
    assert groups[keys[i]][..j + 1] == groups[keys[i]][..j] + [id];
    assert Flatten(keys[..i], groups) + groups[keys[i]][..j + 1] == done + [id];
    FetchedPrefix(keys, groups, i, groups[keys[i]][..j + 1]);
    FirstFailure(done, id, Flatten(keys, groups), from, to, upstream);
  }

  /** When a prefix of the ids fetches fine up to a failing last one, the
      whole collection fails on that one: the error names the first account
      whose fetch fails, whatever follows it. */
  lemma {:induction false} FirstFailure(fetched: seq<Option<string>>, id: Option<string>, ids: seq<Option<string>>, from: int, to: int, upstream: Upstream)
    requires fetched + [id] <= ids
    requires CollectStatements(fetched, from, to, upstream).Ok?
    requires upstream.statementOf(id, from, to).None?
    ensures CollectStatements(ids, from, to, upstream) == Err(StatementUnavailable(id))
    decreases |ids|
  {
    var n := |ids| - 1;
    if n == |fetched| {
      assert ids[..n] == fetched;
    } else {
      FirstFailure(fetched, id, ids[..n], from, to, upstream);
    }
  }

  /** One more successful statement fetch extends the collection by its statements. */
  lemma CollectStep(ids: seq<Option<string>>, id: Option<string>, from: int, to: int, upstream: Upstream,
                    all: seq<Transaction>, statements: seq<Transaction>)
    requires CollectStatements(ids, from, to, upstream) == Ok(all)
    requires upstream.statementOf(id, from, to) == Some(statements)
    ensures CollectStatements(ids + [id], from, to, upstream) == Ok(all + statements)
  {
    assert (ids + [id])[..|ids|] == ids;
  }

  /** When the rate tables of a prefix of the dates fetch fine and the next
      date's fetch fails, the whole loop fails on that date, whatever
      follows it. */
  lemma {:induction false} FirstMissingRate(fetched: seq<int>, date: int, dates: seq<int>, groups: map<int, seq<Transaction>>,
                         rateOf: int -> Option<RateTable>, ibans: seq<Option<string>>)
    requires forall i :: 0 <= i < |dates| ==> dates[i] in groups
    requires fetched + [date] <= dates
    requires forall i :: 0 <= i < |fetched| ==> fetched[i] in groups
    requires FetchAndSum(fetched, groups, rateOf, ibans).Ok?
    requires rateOf(date).None?
    ensures FetchAndSum(dates, groups, rateOf, ibans) == Err(RatesUnavailable(date))
    decreases |dates|
  {
    var n := |dates| - 1;
    if n == |fetched| {
      assert dates[..n] == fetched;
    } else {
      FirstMissingRate(fetched, date, dates[..n], groups, rateOf, ibans);
    }
  }

  /** One more successful rate fetch adds that date's group total. */
  lemma FetchAndSumStep(keys: seq<int>, date: int, groups: map<int, seq<Transaction>>,
                        rateOf: int -> Option<RateTable>, ibans: seq<Option<string>>, total: real)
    requires forall i :: 0 <= i < |keys| ==> keys[i] in groups
    requires date in groups && rateOf(date).Some?
    requires FetchAndSum(keys, groups, rateOf, ibans) == Ok(total)
    ensures forall i :: 0 <= i < |keys + [date]| ==> (keys + [date])[i] in groups
    ensures FetchAndSum(keys + [date], groups, rateOf, ibans) == Ok(total + GroupTotal(groups[date], rateOf(date).value, ibans))
  {
    assert (keys + [date])[..|keys|] == keys;
  }

  // ---------------------------------------------------------------------
  // The month guard and the report
  // ---------------------------------------------------------------------

  /** The guard of `get_mounth_earning` and `get_statement_by_mounth`. */
  predicate IsPastMonth(year: int, month: int, currentYear: int, currentMonth: int)
  {
    month < currentMonth || year < currentYear
  }

  /** The guard compared with "strictly before the current month": it agrees
      on past and current years, but in a later year it also lets through
      every month numbered below the current one. */
  lemma MonthGuard(year: int, month: int, currentYear: int, currentMonth: int)
    ensures year < currentYear ==> IsPastMonth(year, month, currentYear, currentMonth)
    ensures year == currentYear ==> (IsPastMonth(year, month, currentYear, currentMonth) <==> month < currentMonth)
    ensures year > currentYear ==> (IsPastMonth(year, month, currentYear, currentMonth) <==> month < currentMonth)
    ensures (year < currentYear || (year == currentYear && month < currentMonth)) ==> IsPastMonth(year, month, currentYear, currentMonth)
  {
  }

  /** `get_mounth_earning(year, month)` as a value: a month that is not past
      by the guard is 0 without any fetch; otherwise the month's interval
      (whose ValueError propagates) and its statement total. */
  function MonthEarningSpec(year: int, month: int, currentYear: int, currentMonth: int,
                            clientInfo: ClientInfo, upstream: Upstream): Result<real, Error>
  {
    if IsPastMonth(year, month, currentYear, currentMonth) then
      match Util.MonthEpochBounds(year, month, upstream.utcOffset)
      case Err(e) => Err(InvalidInterval(e))
      case Ok(interval) => StatementTotal(interval, clientInfo, upstream)
    else Ok(0.0)
  }

  /** `get_mounth_earning(year, month)` with the current date, the client
      info and the configuration given. */
  method MonthEarning(year: int, month: int, currentYear: int, currentMonth: int,
                      clientInfo: ClientInfo, upstream: Upstream)
    returns (r: Result<real, Error>, ghost accountsFetched: seq<Option<string>>, ghost datesFetched: seq<int>)
    requires Valid(clientInfo.accounts)
    ensures r == MonthEarningSpec(year, month, currentYear, currentMonth, clientInfo, upstream)
    ensures !IsPastMonth(year, month, currentYear, currentMonth) ==> r == Ok(0.0) && accountsFetched == [] && datesFetched == []
    ensures !(1 <= month <= 12) && IsPastMonth(year, month, currentYear, currentMonth) ==>
      r == Err(InvalidInterval(Util.MonthOutOfRange)) && accountsFetched == [] && datesFetched == []
    ensures Distinct(datesFetched)
  {
    accountsFetched, datesFetched := [], [];
    if month < currentMonth || year < currentYear {
      var bounds := Util.MonthEpochBounds(year, month, upstream.utcOffset);
      if bounds.Err? {
        return Err(InvalidInterval(bounds.error)), accountsFetched, datesFetched;
      }
      r, accountsFetched, datesFetched := MonoStatement(bounds.value, clientInfo, upstream);
    } else {
      r := Ok(0.0);
    }
  }

  /** The cells of the report template that receive months 1 to 12. */
  function Cells(): seq<string>
  {
    ["D9", "D10", "D11", "D13", "D14", "D15", "D18", "D19", "D20", "D23", "D24", "D25"]
  }

  lemma CellsDistinct()
    ensures |Cells()| == 12 && Distinct(Cells())
  {
  }

  /** The earnings of the months of `year`, by month number. */
  function MonthlyEarnings(year: int, currentYear: int, currentMonth: int,
                           clientInfo: ClientInfo, upstream: Upstream): int -> Result<real, Error>
  {
    m => MonthEarningSpec(year, m, currentYear, currentMonth, clientInfo, upstream)
  }

  /** The sheet once months 1 to `n` are written, month `m` into
      `Cells()[m - 1]`; the first month whose earning fails aborts. */
  function Report(n: nat, earning: int -> Result<real, Error>): (r: Result<map<string, real>, Error>)
    requires n <= |Cells()|
    ensures r.Ok? <==> forall m :: 1 <= m <= n ==> earning(m).Ok?
  {
    if n == 0 then Ok(map[])
    else
      match Report(n - 1, earning)
      case Err(e) => Err(e)
      case Ok(sheet) =>
        match earning(n)
        case Err(e) => Err(e)
        case Ok(v) => Ok(sheet[Cells()[n - 1] := v])
  }

  /** A finished sheet has one cell per month written, holding that
      month's earning. */
  lemma {:induction false} ReportCells(n: nat, earning: int -> Result<real, Error>)
    requires n <= |Cells()| && Report(n, earning).Ok?
    ensures Report(n, earning).value.Keys == set i | 0 <= i < n :: Cells()[i]
    ensures forall m :: 1 <= m <= n ==> Report(n, earning).value[Cells()[m - 1]] == earning(m).value
  {
    if n > 0 {
      ReportCells(n - 1, earning);
      CellsDistinct();
      var sheet := Report(n - 1, earning).value;
      assert Report(n, earning).value == sheet[Cells()[n - 1] := earning(n).value];
      forall m | 1 <= m < n
        ensures Report(n, earning).value[Cells()[m - 1]] == earning(m).value
      {
        assert Cells()[m - 1] != Cells()[n - 1];
      }
    }
  }

  /** Once months before `k` succeed and month `k` fails, the report fails
      with month `k`'s error, whatever the later months would give. */
  lemma {:induction false} ReportAbort(k: nat, n: nat, earning: int -> Result<real, Error>)
    requires 1 <= k <= n <= |Cells()|
    requires Report(k - 1, earning).Ok? && earning(k).Err?
    ensures Report(n, earning) == Err(earning(k).error)
  {
    if k < n {
      ReportAbort(k, n - 1, earning);
    }
  }

  /** `generate_report(year)` up to the workbook: the values written into the
      template's sheet, month by month. */
  method GenerateReport(year: int, currentYear: int, currentMonth: int, clientInfo: ClientInfo, upstream: Upstream)
    returns (r: Result<map<string, real>, Error>)
    requires Valid(clientInfo.accounts)
    ensures r == Report(|Cells()|, MonthlyEarnings(year, currentYear, currentMonth, clientInfo, upstream))
  {
    ghost var earning := MonthlyEarnings(year, currentYear, currentMonth, clientInfo, upstream);
    var sheet: map<string, real> := map[];
    for i := 0 to |Cells()|
      invariant Report(i, earning) == Ok(sheet)
    {
      var value;
      ghost var accountsFetched, datesFetched;
      value, accountsFetched, datesFetched := MonthEarning(year, i + 1, currentYear, currentMonth, clientInfo, upstream);
      assert earning(i + 1) == value;
      if value.Err? {
        ReportAbort(i + 1, |Cells()|, earning);
        return Err(value.error);
      }
      sheet := sheet[Cells()[i] := value.value];
    }
    r := Ok(sheet);
  }
}
