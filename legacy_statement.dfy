/**
 * src/mono_statement.py: the older stand-alone script.
 *
 * It sums the incoming money of three fixed accounts over a fixed window.
 * Unlike src/main.py, it treats failures leniently: an account whose
 * statement cannot be fetched is skipped, and so is a date whose rates
 * cannot be fetched. It also keeps self-transfers.
 */
module LegacyStatement {
  import opened Common
  import opened Mono
  import Util
  import Income

  /** `ACCOUNTS`: currency label to account id, in dictionary order. */
  function Accounts(): seq<(string, string)>
  { [
    ("UAH", "kVYWIN-Ewz1kH-RN3Sm6NA"),
    ("EUR", "Oloc2gnjYkXQh5NQsQDr_A"),
    ("USD", "TfUZpzEI_ffVNEf4n1rSPw")
  ]
  }

  /** `get_timestamp_offset(months)`. The date arithmetic is commented out
      in the script, so every call returns the same hard-wired window. It
      runs from 2024-11-20 to 2024-12-20 (UTC), 30 days and 3 seconds, which
      is within the statement API's 31-day limit. */
  function TimestampOffset(months: int): (r: (int, int))
    ensures r.0 < r.1 <= r.0 + 31 * Util.SecondsPerDay
    ensures Util.DayOf(r.0, 0) == Util.EpochDay(2024, 11, 20)
    ensures Util.DayOf(r.1, 0) == Util.EpochDay(2024, 12, 20)
  {
    (1732131471, 1734723474)
  }

  /** The window does not depend on the argument. */
  lemma TimestampOffsetIgnoresMonths(a: int, b: int)
    ensures TimestampOffset(a) == TimestampOffset(b)
  {
  }

  // ---------------------------------------------------------------------
  // Exchange rates
  // ---------------------------------------------------------------------

  /** One element of the central bank's reply: a currency's symbolic code
      and its rate in UAH. */
  datatype RateEntry = RateEntry(cc: string, rate: real)

  /** The dictionary comprehension of `fetch_exchange_rate`: later entries
      overwrite earlier entries with the same code. */
  function RateTableOf(entries: seq<RateEntry>): (r: Income.RateTable)
    ensures forall c :: c in r <==> exists i :: 0 <= i < |entries| && entries[i].cc == c
  {
    if entries == [] then map[]
    else
      var last := entries[|entries| - 1];
      RateTableOf(entries[..|entries| - 1])[last.cc := last.rate]
  }

  /** Each code is read at the rate of its last entry in the reply. */
  lemma {:induction false} RateTableLastWins(entries: seq<RateEntry>, i: int)
    requires 0 <= i < |entries|
    requires forall j :: i < j < |entries| ==> entries[j].cc != entries[i].cc
    ensures RateTableOf(entries)[entries[i].cc] == entries[i].rate
  {
    if i < |entries| - 1 {
      var init := entries[..|entries| - 1];
      assert init[i] == entries[i];
      forall j | i < j < |init| ensures init[j].cc != init[i].cc {
        assert init[j] == entries[j];
      }
      RateTableLastWins(init, i);
    }
  }

  /** The table of a date, from the reply of its fetch; `None` when the fetch raises. */
  function TablesOf(replyOf: int -> Option<seq<RateEntry>>): int -> Option<Income.RateTable>
  {
    day => match replyOf(day)
           case None => None
           case Some(entries) => Some(RateTableOf(entries))
  }

  /** A reply that names a currency twice is read at its last entry. */
  lemma LastEntryWins(entries: seq<RateEntry>, cc: string, a: real, b: real)
    ensures RateTableOf(entries + [RateEntry(cc, a), RateEntry(cc, b)])[cc] == b
  {
    var es := entries + [RateEntry(cc, a), RateEntry(cc, b)];
    assert es[|es| - 1] == RateEntry(cc, b);
  }

  // ---------------------------------------------------------------------
  // The script's calculate_total_in_uah
  // ---------------------------------------------------------------------

  /** `calculate_total_in_uah(statements, exchange_rates)`: the same
      conversion as src/main.py but without the self-transfer filter, that
      is, with no own ibans to exclude. */
  method LegacyTotalInUah(statements: seq<Transaction>, exchangeRates: Income.RateTable) returns (total: real)
    ensures total == Income.GroupTotal(statements, exchangeRates, [])
  {
    total := 0.0;
    for i := 0 to |statements|
      invariant total == Income.GroupTotal(statements[..i], exchangeRates, [])
    {
      var transaction := statements[i];
      assert statements[..i + 1][..i] == statements[..i];
      if transaction.amount > 0 {
        var amount := Income.Major(transaction.amount);
        var currencyCode := Income.CurrencyOf(transaction.currencyCode);
        if currencyCode == Some(Income.HomeCurrency) {
          total := total + amount;
        } else if currencyCode.Some? && currencyCode.value in exchangeRates {
          total := total + amount * exchangeRates[currencyCode.value];
        }
      }
    }
    assert statements[..|statements|] == statements;
  }

  /** Against the newer conversion: with non-negative rates the script
      counts at least as much, and exactly as much when no transaction
      comes from one of the owner's own ibans. */
  lemma {:induction false} LegacyCountsSelfTransfers(xs: seq<Transaction>, rates: Income.RateTable, ibans: seq<Option<string>>)
    requires forall c :: c in rates ==> rates[c] >= 0.0
    ensures Income.GroupTotal(xs, rates, ibans) <= Income.GroupTotal(xs, rates, [])
    ensures (forall i :: 0 <= i < |xs| ==> xs[i].counterIban !in ibans) ==>
      Income.GroupTotal(xs, rates, ibans) == Income.GroupTotal(xs, rates, [])
  {
    if xs != [] {
      var init := xs[..|xs| - 1];
      LegacyCountsSelfTransfers(init, rates, ibans);
      var t := xs[|xs| - 1];
      assert Income.Contribution(t, rates, ibans) <= Income.Contribution(t, rates, []);
      if forall i :: 0 <= i < |xs| ==> xs[i].counterIban !in ibans {
        assert forall i :: 0 <= i < |init| ==> init[i].counterIban !in ibans by {
          forall i | 0 <= i < |init| ensures init[i].counterIban !in ibans {
            assert init[i] == xs[i];
          }
        }
      }
    }
  }

  // ---------------------------------------------------------------------
  // The script's main
  // ---------------------------------------------------------------------

  /** The account loop of `main`: the statements of the accounts whose fetch
      succeeds, concatenated in order; a failed fetch is skipped. */
  function LegacyCollect(accounts: seq<(string, string)>, from: int, to: int,
                         statementOf: (string, int, int) -> Option<seq<Transaction>>): (r: seq<Transaction>)
    ensures forall t :: t in r <==>
      exists i :: 0 <= i < |accounts| && statementOf(accounts[i].1, from, to).Some? && t in statementOf(accounts[i].1, from, to).value
  {
    if accounts == [] then []
    else
      var init := accounts[..|accounts| - 1];
      var last := accounts[|accounts| - 1];
      LegacyCollect(init, from, to, statementOf)
        + match statementOf(last.1, from, to) case None => [] case Some(s) => s
  }

  lemma {:induction false} LegacyCollectAppend(xs: seq<(string, string)>, ys: seq<(string, string)>, from: int, to: int,
                                               statementOf: (string, int, int) -> Option<seq<Transaction>>)
    ensures LegacyCollect(xs + ys, from, to, statementOf) == LegacyCollect(xs, from, to, statementOf) + LegacyCollect(ys, from, to, statementOf)
    decreases |ys|
  {
    if ys == [] {
      assert xs + ys == xs;
    } else {
      LegacyCollectAppend(xs, ys[..|ys| - 1], from, to, statementOf);
      assert (xs + ys)[..|xs + ys| - 1] == xs + ys[..|ys| - 1];
    }
  }

  /** An account whose fetch fails contributes nothing: the collection is
      the one of the other accounts. */
  lemma FailedAccountSkipped(accounts: seq<(string, string)>, i: int, from: int, to: int,
                             statementOf: (string, int, int) -> Option<seq<Transaction>>)
    requires 0 <= i < |accounts| && statementOf(accounts[i].1, from, to).None?
    ensures LegacyCollect(accounts, from, to, statementOf) == LegacyCollect(accounts[..i] + accounts[i + 1..], from, to, statementOf)
  {
    var before, failed, after := accounts[..i], [accounts[i]], accounts[i + 1..];
    assert accounts == before + failed + after;
    assert LegacyCollect(failed, from, to, statementOf) == [] by {
      assert failed[..0] == [];
    }
    LegacyCollectAppend(before + failed, after, from, to, statementOf);
    LegacyCollectAppend(before, failed, from, to, statementOf);
    LegacyCollectAppend(before, after, from, to, statementOf);
  }

  /** `main()` after the token is loaded. The statements of the fixed
      accounts over the fixed window are collected, skipping failures, and
      grouped by local date. Each date's group is converted at that date's
      rates, and a date whose rates cannot be fetched is skipped. The total
      is the per-transaction sum at each transaction's own date. */
  method LegacyMain(statementOf: (string, int, int) -> Option<seq<Transaction>>,
                    rateReplyOf: int -> Option<seq<RateEntry>>, utcOffset: int)
    returns (totalInUah: real, allStatements: seq<Transaction>)
    ensures allStatements == LegacyCollect(Accounts(), TimestampOffset(0).0, TimestampOffset(0).1, statementOf)
    ensures totalInUah == Income.DatedTotal(Income.DatedPairs(LegacyCollect(Accounts(), TimestampOffset(0).0, TimestampOffset(0).1, statementOf), utcOffset),
                                            TablesOf(rateReplyOf), [])
  {
    var (fromTimestamp, toTimestamp) := TimestampOffset(0);
    allStatements := [];
    for a := 0 to |Accounts()|
      invariant allStatements == LegacyCollect(Accounts()[..a], fromTimestamp, toTimestamp, statementOf)
    {
      var (currency, accountId) := Accounts()[a];
      assert Accounts()[..a + 1][..a] == Accounts()[..a];
      var statements := statementOf(accountId, fromTimestamp, toTimestamp);
      if statements.Some? {
        allStatements := allStatements + statements.value;
      }
    }
    assert Accounts()[..|Accounts()|] == Accounts();

    var dates, groupedByDate := Income.GroupByDate(allStatements, utcOffset);

    var rateOf := TablesOf(rateReplyOf);
    totalInUah := 0.0;
    for d := 0 to |dates|
      invariant totalInUah == Income.KeysTotal(dates[..d], groupedByDate, rateOf, [])
    {
      var date := dates[d];
      assert dates[..d + 1][..d] == dates[..d];
      var reply := rateReplyOf(date);
      if reply.Some? {
        var exchangeRates := RateTableOf(reply.value);
        var groupTotal := LegacyTotalInUah(groupedByDate[date], exchangeRates);
        totalInUah := totalInUah + groupTotal;
      }
    }
    assert dates[..|dates|] == dates;
    Income.GroupingPreservesTotal(Income.DatedPairs(allStatements, utcOffset), rateOf, []);
  }
}
