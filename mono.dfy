/**
 * src/mono.py: the bank's records (Transaction, ClientInfo), the
 * partitioning of the client's accounts into sole-proprietor ("fop")
 * buckets by currency, and the decoding of a statement reply.
 */
module Mono {
  import opened Common
  import opened Grouping
  import Util

  /** A JSON scalar as the bank sends it. */
  datatype Json = JNull | JBool(b: bool) | JInt(i: int) | JStr(s: string)

  /** A key of a statement element: one of the eighteen names `Transaction`
      declares, or `Other(name)` for any name it does not declare. A
      declared name is always read as its own constructor, so `Other`
      never carries one of the eighteen names. */
  datatype Key =
    | Id | Time | Description | Mcc | OriginalMcc | Hold | Amount | OperationAmount
    | CurrencyCode | CommissionRate | CashbackAmount | Balance
    | Comment | ReceiptId | InvoiceId | CounterEdrpou | CounterIban | CounterName
    | Other(name: string)

  /** One JSON object of a statement reply. */
  type JsonObject = map<Key, Json>

  /** One bank-reported operation; `amount` is in minor units (cents),
      positive for incoming money. */
  datatype Transaction = Transaction(
    id: string,
    time: int,
    description: string,
    mcc: int,
    originalMcc: int,
    hold: bool,
    amount: int,
    operationAmount: int,
    currencyCode: int,
    commissionRate: int,
    cashbackAmount: int,
    balance: int,
    comment: Option<string>,
    receiptId: Option<string>,
    invoiceId: Option<string>,
    counterEdrpou: Option<string>,
    counterIban: Option<string>,
    counterName: Option<string>)

  /** One element of the `accounts` list of the client-info reply; every
      field is what `account.get(...)` yields, `None` when absent. */
  datatype Account = Account(
    accountType: Option<string>,
    currencyCode: Option<int>,
    id: Option<string>,
    iban: Option<string>)

  /** `ClientInfo`: account ids bucketed by currency code, and the owner's
      IBANs (the self-transfer exclusion list). */
  datatype ClientInfo = ClientInfo(
    accounts: Buckets<Option<int>, Option<string>>,
    ibans: seq<Option<string>>)

  // ---------------------------------------------------------------------
  // fetch_client_info
  // ---------------------------------------------------------------------

  predicate IsFop(a: Account)
  {
    a.accountType == Some("fop")
  }

  /** (currency code, id) of each fop account, in input order. */
  function FopPairs(accounts: seq<Account>): (r: seq<(Option<int>, Option<string>)>)
    ensures forall i :: 0 <= i < |r| ==>
      exists j :: 0 <= j < |accounts| && IsFop(accounts[j]) && r[i] == (accounts[j].currencyCode, accounts[j].id)
  {
    if accounts == [] then []
    else
      var a := accounts[|accounts| - 1];
      FopPairs(accounts[..|accounts| - 1]) + (if IsFop(a) then [(a.currencyCode, a.id)] else [])
  }

  /** The iban of each fop account, in input order. */
  function FopIbans(accounts: seq<Account>): seq<Option<string>>
  {
    if accounts == [] then []
    else
      var a := accounts[|accounts| - 1];
      FopIbans(accounts[..|accounts| - 1]) + (if IsFop(a) then [a.iban] else [])
  }

  /** The positions of the fop accounts. */
  function FopIndices(accounts: seq<Account>): set<int>
  {
    set j | 0 <= j < |accounts| && IsFop(accounts[j])
  }

  /** Both lists hold one entry per fop account. */
  lemma {:induction false} FopCounts(accounts: seq<Account>)
    ensures |FopPairs(accounts)| == |FopIndices(accounts)|
    ensures |FopIbans(accounts)| == |FopIndices(accounts)|
  {
    if accounts != [] {
      FopCounts(accounts[..|accounts| - 1]);
      FopIndicesSnoc(accounts);
    }
  }

  /** The last account adds its own position, and only if it is fop. */
  lemma FopIndicesSnoc(accounts: seq<Account>)
    requires accounts != []
    ensures var n := |accounts| - 1;
      && n !in FopIndices(accounts[..n])
      && FopIndices(accounts) == FopIndices(accounts[..n]) + (if IsFop(accounts[n]) then {n} else {})
  {
    var n := |accounts| - 1;
    var init := accounts[..n];
    forall j | 0 <= j < n ensures accounts[j] == init[j] { }
  }

  /** An account that is not fop adds nothing, wherever it stands. */
  lemma {:induction false} NonFopIgnored(xs: seq<Account>, a: Account, ys: seq<Account>)
    requires !IsFop(a)
    ensures FopPairs(xs + [a] + ys) == FopPairs(xs + ys)
    ensures FopIbans(xs + [a] + ys) == FopIbans(xs + ys)
    decreases |ys|
  {
    if ys == [] {
      assert (xs + [a])[..|xs + [a]| - 1] == xs;
      assert xs + [a] + [] == xs + [a];
      assert xs + [] == xs;
    } else {
      var init := ys[..|ys| - 1];
      NonFopIgnored(xs, a, init);
      assert (xs + [a] + ys)[..|xs + [a] + ys| - 1] == xs + [a] + init;
      assert (xs + ys)[..|xs + ys| - 1] == xs + init;
    }
  }

  /** `fetch_client_info`, given the `accounts` list of the reply (`[]` when
      the reply has none). */
  method FetchClientInfo(accounts: seq<Account>) returns (info: ClientInfo)
    ensures info.accounts == GroupPairs(FopPairs(accounts))
    ensures info.ibans == FopIbans(accounts)
    ensures Valid(info.accounts)
    ensures forall c :: c in info.accounts.groups <==>
      exists j :: 0 <= j < |accounts| && IsFop(accounts[j]) && accounts[j].currencyCode == c
    ensures forall c :: c in info.accounts.groups ==> info.accounts.groups[c] == ValuesAt(FopPairs(accounts), c)
    ensures TotalSize(info.accounts.keys, info.accounts.groups) == |info.ibans|
  {
    var keys: seq<Option<int>> := [];
    var currencyToFopAccounts: map<Option<int>, seq<Option<string>>> := map[];
    var ibans: seq<Option<string>> := [];
    var i := 0;
    while i < |accounts|
      invariant 0 <= i <= |accounts|
      invariant Buckets(keys, currencyToFopAccounts) == GroupPairs(FopPairs(accounts[..i]))
      invariant ibans == FopIbans(accounts[..i])
    {
      var account := accounts[i];
      assert accounts[..i + 1][..i] == accounts[..i];
      if IsFop(account) {
        assert FopPairs(accounts[..i + 1]) == FopPairs(accounts[..i]) + [(account.currencyCode, account.id)];
        GroupPairsSnoc(FopPairs(accounts[..i]), (account.currencyCode, account.id));
      } else {
        assert FopPairs(accounts[..i + 1]) == FopPairs(accounts[..i]);
      }
      if account.accountType == Some("fop") {
        var currencyCode := account.currencyCode;
        var accountId := account.id;
        var iban := account.iban;
        OpenThenAppend(keys, currencyToFopAccounts, currencyCode, accountId);
        if currencyCode !in currencyToFopAccounts {
          keys := keys + [currencyCode];
          currencyToFopAccounts := currencyToFopAccounts[currencyCode := []];
        }
        currencyToFopAccounts := currencyToFopAccounts[currencyCode := currencyToFopAccounts[currencyCode] + [accountId]];
        ibans := ibans + [iban];
      }
      i := i + 1;
    }
    assert accounts[..i] == accounts;
    info := ClientInfo(Buckets(keys, currencyToFopAccounts), ibans);
    ClientInfoShape(accounts);
  }

  /** The shape of the client info built from any accounts list. */
  lemma ClientInfoShape(accounts: seq<Account>)
    ensures Valid(GroupPairs(FopPairs(accounts)))
    ensures forall c :: c in GroupPairs(FopPairs(accounts)).groups <==>
      exists j :: 0 <= j < |accounts| && IsFop(accounts[j]) && accounts[j].currencyCode == c
    ensures forall c :: c in GroupPairs(FopPairs(accounts)).groups ==>
      GroupPairs(FopPairs(accounts)).groups[c] == ValuesAt(FopPairs(accounts), c)
    ensures TotalSize(GroupPairs(FopPairs(accounts)).keys, GroupPairs(FopPairs(accounts)).groups) == |FopIbans(accounts)|
  {
    var ps := FopPairs(accounts);
    GroupPairsCorrect(ps);
    GroupPairsSize(ps);
    FopCounts(accounts);
    ClientInfoKeys(accounts);
  }

  /** The bucket keys are exactly the currency codes of the fop accounts. */
  lemma ClientInfoKeys(accounts: seq<Account>)
    ensures forall c :: c in GroupPairs(FopPairs(accounts)).groups <==>
      exists j :: 0 <= j < |accounts| && IsFop(accounts[j]) && accounts[j].currencyCode == c
  {
    var ps := FopPairs(accounts);
    GroupPairsDomain(ps);
    forall c | c in GroupPairs(ps).groups
      ensures exists j :: 0 <= j < |accounts| && IsFop(accounts[j]) && accounts[j].currencyCode == c
    {
      var i :| 0 <= i < |ps| && ps[i].0 == c;
      var j :| 0 <= j < |accounts| && IsFop(accounts[j]) && ps[i] == (accounts[j].currencyCode, accounts[j].id);
      assert accounts[j].currencyCode == c;
    }
    forall j | 0 <= j < |accounts| && IsFop(accounts[j])
      ensures accounts[j].currencyCode in GroupPairs(ps).groups
    {
      FopPairsCover(accounts, j);
      var i :| 0 <= i < |ps| && ps[i] == (accounts[j].currencyCode, accounts[j].id);
      assert ps[i].0 == accounts[j].currencyCode;
    }
  }

  /** Each fop account contributes its own pair. */
  lemma {:induction false} FopPairsCover(accounts: seq<Account>, j: int)
    requires 0 <= j < |accounts| && IsFop(accounts[j])
    ensures exists i :: 0 <= i < |FopPairs(accounts)| && FopPairs(accounts)[i] == (accounts[j].currencyCode, accounts[j].id)
  {
    var init := accounts[..|accounts| - 1];
    if j < |accounts| - 1 {
      FopPairsCover(init, j);
      var i :| 0 <= i < |FopPairs(init)| && FopPairs(init)[i] == (init[j].currencyCode, init[j].id);
      assert FopPairs(accounts)[i] == FopPairs(init)[i];
    } else {
      assert FopPairs(accounts)[|FopPairs(init)|] == (accounts[j].currencyCode, accounts[j].id);
    }
  }

  // ---------------------------------------------------------------------
  // fetch_statement: [Transaction(**json) for json in json_array]
  // ---------------------------------------------------------------------

  /** Why `Transaction(**json)` fails. */
  datatype DecodeError = UnexpectedField | MissingField | WrongType

  /** The fields without a default: `Transaction(**json)` needs each of them. */
  const RequiredFields: set<Key> := {
    Id, Time, Description, Mcc, OriginalMcc, Hold, Amount,
    OperationAmount, CurrencyCode, CommissionRate, CashbackAmount, Balance}

  /** The `Optional[str]` fields, which default to None. */
  const OptionalFields: set<Key> := {
    Comment, ReceiptId, InvoiceId, CounterEdrpou, CounterIban, CounterName}

  /** The two field sets together are exactly the declared names. */
  lemma DeclaredFields()
    ensures RequiredFields !! OptionalFields
    ensures forall k :: k in RequiredFields + OptionalFields <==> !k.Other?
  {
  }

  predicate IsStr(obj: JsonObject, f: Key) { f in obj && obj[f].JStr? }
  predicate IsInt(obj: JsonObject, f: Key) { f in obj && obj[f].JInt? }
  predicate IsOptStr(obj: JsonObject, f: Key) { f !in obj || obj[f].JNull? || obj[f].JStr? }

  /** Every present field has the JSON type its Transaction field expects. */
  predicate WellTyped(obj: JsonObject)
  {
    && IsStr(obj, Id) && IsInt(obj, Time) && IsStr(obj, Description)
    && IsInt(obj, Mcc) && IsInt(obj, OriginalMcc)
    && Hold in obj && obj[Hold].JBool?
    && IsInt(obj, Amount) && IsInt(obj, OperationAmount) && IsInt(obj, CurrencyCode)
    && IsInt(obj, CommissionRate) && IsInt(obj, CashbackAmount) && IsInt(obj, Balance)
    && IsOptStr(obj, Comment) && IsOptStr(obj, ReceiptId) && IsOptStr(obj, InvoiceId)
    && IsOptStr(obj, CounterEdrpou) && IsOptStr(obj, CounterIban) && IsOptStr(obj, CounterName)
  }

  /** A defaulted `Optional[str]` field: absent or null is `None`. */
  function OptStr(obj: JsonObject, f: Key): Option<string>
    requires IsOptStr(obj, f)
  {
    if f in obj && obj[f].JStr? then Some(obj[f].s) else None
  }

  function EncodeOpt(o: Option<string>): Json
  {
    match o
    case None => JNull
    case Some(s) => JStr(s)
  }

  /** The JSON object the bank would send for `t`, every field present. */
  function Encode(t: Transaction): JsonObject
  {
    map[Id := JStr(t.id), Time := JInt(t.time), Description := JStr(t.description),
        Mcc := JInt(t.mcc), OriginalMcc := JInt(t.originalMcc), Hold := JBool(t.hold),
        Amount := JInt(t.amount), OperationAmount := JInt(t.operationAmount),
        CurrencyCode := JInt(t.currencyCode), CommissionRate := JInt(t.commissionRate),
        CashbackAmount := JInt(t.cashbackAmount), Balance := JInt(t.balance),
        Comment := EncodeOpt(t.comment), ReceiptId := EncodeOpt(t.receiptId),
        InvoiceId := EncodeOpt(t.invoiceId), CounterEdrpou := EncodeOpt(t.counterEdrpou),
        CounterIban := EncodeOpt(t.counterIban), CounterName := EncodeOpt(t.counterName)]
  }

  /** What `Transaction(**json)` accepts: no unknown key, every required
      field present, every field of its JSON type. */
  predicate Acceptable(obj: JsonObject)
  {
    (forall k :: k in obj ==> !k.Other?) && RequiredFields <= obj.Keys && WellTyped(obj)
  }

  /** The Transaction built from an acceptable object. */
  function Build(obj: JsonObject): Transaction
    requires RequiredFields <= obj.Keys && WellTyped(obj)
  {
    Transaction(
      obj[Id].s, obj[Time].i, obj[Description].s, obj[Mcc].i, obj[OriginalMcc].i,
      obj[Hold].b, obj[Amount].i, obj[OperationAmount].i, obj[CurrencyCode].i,
      obj[CommissionRate].i, obj[CashbackAmount].i, obj[Balance].i,
      OptStr(obj, Comment), OptStr(obj, ReceiptId), OptStr(obj, InvoiceId),
      OptStr(obj, CounterEdrpou), OptStr(obj, CounterIban), OptStr(obj, CounterName))
  }

  /** `Transaction(**json)`: an unknown key or a missing required field is
      a TypeError; the six optional fields default to None. */
  function Decode(obj: JsonObject): Result<Transaction, DecodeError>
  {
    if exists k :: k in obj && k.Other? then Err(UnexpectedField)
    else if !(RequiredFields <= obj.Keys) then Err(MissingField)
    else if !WellTyped(obj) then Err(WrongType)
    else Ok(Build(obj))
  }

  /** An unknown key is reported before anything else; an object is
      decoded exactly when it is acceptable, and then field by field. */
  lemma DecodeOutcome(obj: JsonObject)
    ensures Decode(obj) == Err(UnexpectedField) <==> exists k :: k in obj && k.Other?
    ensures Decode(obj).Ok? <==> Acceptable(obj)
    ensures Decode(obj).Ok? ==> Decode(obj).value == Build(obj)
  {
  }

  /** `obj` holds the descriptive fields of `t` under their keys. */
  predicate CarriesDescriptive(obj: JsonObject, t: Transaction)
  {
    && Id in obj && obj[Id] == JStr(t.id)
    && Time in obj && obj[Time] == JInt(t.time)
    && Description in obj && obj[Description] == JStr(t.description)
    && Mcc in obj && obj[Mcc] == JInt(t.mcc)
    && OriginalMcc in obj && obj[OriginalMcc] == JInt(t.originalMcc)
    && Hold in obj && obj[Hold] == JBool(t.hold)
  }

  /** `obj` holds the monetary fields of `t` under their keys. */
  predicate CarriesMonetary(obj: JsonObject, t: Transaction)
  {
    && Amount in obj && obj[Amount] == JInt(t.amount)
    && OperationAmount in obj && obj[OperationAmount] == JInt(t.operationAmount)
    && CurrencyCode in obj && obj[CurrencyCode] == JInt(t.currencyCode)
    && CommissionRate in obj && obj[CommissionRate] == JInt(t.commissionRate)
    && CashbackAmount in obj && obj[CashbackAmount] == JInt(t.cashbackAmount)
    && Balance in obj && obj[Balance] == JInt(t.balance)
  }

  /** `obj` holds the optional fields of `t` under their keys, null for None. */
  predicate CarriesOptional(obj: JsonObject, t: Transaction)
  {
    && Comment in obj && obj[Comment] == EncodeOpt(t.comment)
    && ReceiptId in obj && obj[ReceiptId] == EncodeOpt(t.receiptId)
    && InvoiceId in obj && obj[InvoiceId] == EncodeOpt(t.invoiceId)
    && CounterEdrpou in obj && obj[CounterEdrpou] == EncodeOpt(t.counterEdrpou)
    && CounterIban in obj && obj[CounterIban] == EncodeOpt(t.counterIban)
    && CounterName in obj && obj[CounterName] == EncodeOpt(t.counterName)
  }

  /** `obj` carries every field of `t` the way the bank sends it. */
  predicate Carries(obj: JsonObject, t: Transaction)
  {
    CarriesDescriptive(obj, t) && CarriesMonetary(obj, t) && CarriesOptional(obj, t)
  }

  /** Decoding what the bank sends for a transaction gives it back. */
  lemma DecodeEncode(t: Transaction)
    ensures Decode(Encode(t)) == Ok(t)
  {
    EncodeKnownKeys(t);
    EncodeCarries(t);
    CarriesDecodes(Encode(t), t);
  }

  lemma EncodeKnownKeys(t: Transaction)
    ensures !exists k :: k in Encode(t) && k.Other?
  {
    DeclaredFields();
  }

  /** The encoded object carries every field of its transaction. */
  lemma EncodeCarries(t: Transaction)
    ensures Carries(Encode(t), t)
  {
    assert CarriesDescriptive(Encode(t), t);
    assert CarriesMonetary(Encode(t), t);
    assert CarriesOptional(Encode(t), t);
  }

  /** What the bank sends for a transaction is accepted by
      `Transaction(**json)`: no unknown key, no missing field, no wrong type. */
  lemma EncodeAcceptable(t: Transaction)
    ensures Acceptable(Encode(t))
  {
    DecodeEncode(t);
    DecodeOutcome(Encode(t));
  }

  /** Any object carrying the fields of `t` is complete and well typed,
      and builds `t` back. */
  lemma CarriesDecodes(obj: JsonObject, t: Transaction)
    requires Carries(obj, t)
    ensures RequiredFields <= obj.Keys && WellTyped(obj) && Build(obj) == t
  {
  }

  /** The list comprehension: one Transaction per JSON element, in order;
      the first element that fails raises. */
  function DecodeStatement(jsonArray: seq<JsonObject>): (r: Result<seq<Transaction>, DecodeError>)
    ensures r.Ok? <==> forall i :: 0 <= i < |jsonArray| ==> Decode(jsonArray[i]).Ok?
    ensures r.Ok? ==> |r.value| == |jsonArray| && forall i :: 0 <= i < |jsonArray| ==> Decode(jsonArray[i]) == Ok(r.value[i])
    ensures r.Err? ==> exists i :: 0 <= i < |jsonArray| && Decode(jsonArray[i]) == Err(r.error)
                         && forall j :: 0 <= j < i ==> Decode(jsonArray[j]).Ok?
  {
    var r := MapOrFail(jsonArray, Decode);
    if r.Ok? then MapOrFailValues(jsonArray, Decode); r
    else MapOrFailFirstError(jsonArray, Decode); r
  }

  /** The backoff schedule `fetch_statement` passes to the retrying GET. */
  const StatementDelays: seq<nat> := [10, 20, 30, 60]

  /** Why a statement fetch fails: retries exhausted, no response object
      (impossible with a non-empty schedule), or a malformed element. */
  datatype FetchError = RequestFailed(reason: string) | NoResponseObject | Malformed(error: DecodeError)

  /** `fetch_statement`: the retrying GET, then the decoding of the reply.
      `network(k)` is the k-th attempt's outcome, its body already parsed. */
  method FetchStatement(network: nat -> Util.Attempt<seq<JsonObject>>)
    returns (r: Result<seq<Transaction>, FetchError>, attempts: nat, sleeps: seq<nat>)
    ensures 1 <= attempts <= |StatementDelays|
    ensures forall k :: 1 <= k < attempts ==> network(k).Failed?
    ensures network(attempts).Failed? ==> attempts == |StatementDelays| && r == Err(RequestFailed(network(attempts).reason))
    ensures network(attempts).Responded? ==>
      match DecodeStatement(network(attempts).response)
      case Ok(ts) => r == Ok(ts)
      case Err(e) => r == Err(Malformed(e))
    ensures sleeps == StatementDelays[1..attempts]
  {
    var fetched;
    fetched, attempts, sleeps := Util.FetchWithRetries(StatementDelays, network);
    match fetched
    case Response(body) =>
      match DecodeStatement(body) {
        case Ok(ts) => r := Ok(ts);
        case Err(e) => r := Err(Malformed(e));
      }
    case Raised(reason) =>
      r := Err(RequestFailed(reason));
    case NoResponse =>
      r := Err(NoResponseObject);
  }
}
