/** Records and enumerations shared by the execution-order lifecycle: recipe orders,
    execution orders, fills, instruments, and the instrument-symbol split that the
    generator and the fake exchange both use. */
module Domain {
  import opened Wrappers

  /** ORDER_SIDES; any other stored value is an error wherever the side is inspected. */
  datatype OrderSide = Buy | Sell | UnknownSide(code: int)

  /** EXECUTION_ORDER_TYPES; any other stored value is an error in the placer. */
  datatype OrderType = Market | Limit | Stop | UnknownType(code: int)

  /** Execution-order lifecycle. Pending, Placed and PartiallyFilled are active;
      FullyFilled, Failed and Cancelled are terminal. */
  datatype ExecStatus = Pending | Placed | PartiallyFilled | FullyFilled | Failed | Cancelled

  datatype RecipeOrderStatus = Pending | Executing | Completed | Failed | Rejected

  /** RECIPE_RUN_STATUSES: the approval state of a recipe run. */
  datatype RecipeRunStatus = RunPending | RunApproved | RunRejected

  /** STRATEGY_TYPES. */
  datatype StrategyType = Lci | Mci

  /** A numeric code received from a caller: a member of the enumeration `T`, or any
      other number (`parseInt` of the input is not among the enumeration's values). */
  datatype Coded<T> = Known(value: T) | Unknown(code: int)

  /** A recipe run: a generated allocation awaiting, or having received, approval. */
  datatype RecipeRun = RecipeRun(
    id: nat,
    investmentRunId: nat,
    userCreatedId: int,
    createdTimestamp: int,
    approvalStatus: RecipeRunStatus,
    approvalUserId: Option<int>,
    approvalTimestamp: Option<int>,
    approvalComment: string)

  /** The `fee` object of an exchange order or trade. */
  datatype FeeInfo = FeeInfo(cost: real, currency: string)

  datatype Instrument = Instrument(id: int, symbol: string, transactionAssetId: int, quoteAssetId: int)

  /** One concrete order for one exchange. Nullable columns are `Option`s. */
  datatype ExecutionOrder = ExecutionOrder(
    id: nat,
    recipeOrderId: nat,
    exchangeId: int,
    instrumentId: int,
    side: OrderSide,
    orderType: OrderType,
    totalQuantity: real,
    price: real,
    status: ExecStatus,
    externalIdentifier: Option<string>,
    placedTimestamp: Option<int>,
    completedTimestamp: Option<int>,
    failedAttempts: int,
    fee: Option<real>,
    emulatedFills: bool)

  /** One recorded trade (or emulated partial fill) of an execution order. */
  datatype Fill = Fill(
    executionOrderId: nat,
    timestamp: int,
    quantity: real,
    price: real,
    fee: Option<real>,
    feeAssetSymbol: Option<string>,
    feeAssetId: Option<int>,
    externalIdentifier: Option<string>)

  /** A target allocation on one exchange, realised by a sequence of execution orders. */
  datatype RecipeOrder = RecipeOrder(
    id: nat,
    groupId: nat,
    instrumentId: int,
    targetExchangeId: int,
    side: OrderSide,
    price: real,
    quantity: real,
    status: RecipeOrderStatus)

  predicate IsActive(s: ExecStatus) {
    s.Pending? || s.Placed? || s.PartiallyFilled?
  }

  /** JavaScript truthiness of a nullable number: present and not zero. */
  predicate Truthy(x: Option<real>) {
    x.Some? && x.value != 0.0
  }

  /** `x || 0` for a nullable number. */
  function OrZero(x: Option<real>): real {
    if x.Some? then x.value else 0.0
  }

  /** Sum of the quantities of `fills` (the store's `SUM(quantity)`). */
  function SumQuantities(fills: seq<Fill>): real {
    if |fills| == 0 then 0.0 else SumQuantities(fills[..|fills| - 1]) + fills[|fills| - 1].quantity
  }

  /** Sum of the fees of `fills`, a missing fee counting as 0. */
  function SumFees(fills: seq<Fill>): real {
    if |fills| == 0 then 0.0 else SumFees(fills[..|fills| - 1]) + OrZero(fills[|fills| - 1].fee)
  }

  lemma {:induction false} SumQuantitiesAppend(a: seq<Fill>, b: seq<Fill>)
    ensures SumQuantities(a + b) == SumQuantities(a) + SumQuantities(b)
    decreases |b|
  {
    if |b| == 0 {
      assert a + b == a;
    } else {
      assert (a + b)[..|a + b| - 1] == a + b[..|b| - 1];
      SumQuantitiesAppend(a, b[..|b| - 1]);
    }
  }

  lemma {:induction false} SumFeesAppend(a: seq<Fill>, b: seq<Fill>)
    ensures SumFees(a + b) == SumFees(a) + SumFees(b)
    decreases |b|
  {
    if |b| == 0 {
      assert a + b == a;
    } else {
      assert (a + b)[..|a + b| - 1] == a + b[..|b| - 1];
      SumFeesAppend(a, b[..|b| - 1]);
    }
  }

  /** String splitting: the pieces of `s` between occurrences of `sep`. */
  function Split(s: string, sep: char): (parts: seq<string>)
    ensures |parts| >= 1
  {
    if |s| == 0 then [""]
    else
      var rest := Split(s[1..], sep);
      if s[0] == sep then [""] + rest else [[s[0]] + rest[0]] + rest[1..]
  }

  /** A piece without the separator splits to itself. */
  lemma {:induction false} SplitNoSeparator(s: string, sep: char)
    requires sep !in s
    ensures Split(s, sep) == [s]
  {
    if |s| > 0 {
      assert sep !in s[1..];
      SplitNoSeparator(s[1..], sep);
      assert s[0] != sep;
      assert [s[0]] + s[1..] == s;
    }
  }

  /** Splitting at the first separator peels off the piece before it. */
  lemma {:induction false} SplitAtFirst(a: string, sep: char, b: string)
    requires sep !in a
    ensures Split(a + [sep] + b, sep) == [a] + Split(b, sep)
  {
    if |a| == 0 {
      assert a + [sep] + b == [sep] + b;
      assert ([sep] + b)[1..] == b;
    } else {
      assert (a + [sep] + b)[1..] == a[1..] + [sep] + b;
      assert sep !in a[1..];
      SplitAtFirst(a[1..], sep, b);
      var rest := Split(a[1..] + [sep] + b, sep);
      assert rest == [a[1..]] + Split(b, sep);
      assert (a + [sep] + b)[0] == a[0] != sep;
      assert [a[0]] + a[1..] == a;
    }
  }

  /** Splitting a symbol of two slash-free parts joined by a slash gives the two parts. */
  lemma SplitPair(tx: string, quote: string)
    requires '/' !in tx && '/' !in quote
    ensures Split(tx + "/" + quote, '/') == [tx, quote]
  {
    SplitAtFirst(tx, '/', quote);
    SplitNoSeparator(quote, '/');
  }

  /** The first two pieces of a symbol split at slashes, the second one absent
      (`undefined`) when the symbol has no slash. */
  function SymbolParts(symbol: string): (r: (string, Option<string>))
    ensures Split(symbol, '/')[0] == r.0
    ensures r.1.Some? <==> |Split(symbol, '/')| >= 2
    ensures r.1.Some? ==> r.1.value == Split(symbol, '/')[1]
    ensures '/' !in r.0 && r.0 <= symbol
    ensures r.1.None? <==> '/' !in symbol
    ensures r.1.Some? ==> '/' !in r.1.value && r.0 + "/" + r.1.value <= symbol
  {
    var parts := Split(symbol, '/');
    SplitHead(symbol, '/');
    if |parts| >= 2 then
      var rest := symbol[|parts[0]| + 1..];
      SplitHead(rest, '/');
      assert symbol == parts[0] + "/" + rest;
      (parts[0], Some(parts[1]))
    else (parts[0], None)
  }

  /** The first piece of a split is the separator-free text before the first separator;
      there is a second piece exactly when a separator occurs, and the pieces after the
      first are the split of the text after that separator. */
  lemma {:induction false} SplitHead(s: string, sep: char)
    ensures var parts := Split(s, sep);
      && sep !in parts[0] && parts[0] <= s
      && (|parts| >= 2 <==> sep in s)
      && (sep in s ==> |parts[0]| < |s| && s[|parts[0]|] == sep && parts[1..] == Split(s[|parts[0]| + 1..], sep))
  {
    if |s| > 0 {
      SplitHead(s[1..], sep);
      var rest := Split(s[1..], sep);
      if s[0] != sep {
        var head := [s[0]] + rest[0];
        assert Split(s, sep) == [head] + rest[1..];
        assert sep in s <==> sep in s[1..];
        if sep in s {
          assert s[|head|] == s[1..][|rest[0]|];
          assert s[|head| + 1..] == s[1..][|rest[0]| + 1..];
        }
      }
    }
  }

  /** Decimal digit of a value below ten. */
  function Digit(d: nat): char
    requires d < 10
  {
    "0123456789"[d]
  }

  /** Value of a decimal digit character. */
  function DigitValue(c: char): nat {
    if '0' <= c <= '9' then (c as int - '0' as int) as nat else 0
  }

  /** The decimal text of `n`, as a template literal renders it. */
  function DecimalText(n: nat): (s: string)
    ensures |s| >= 1
    ensures forall i :: 0 <= i < |s| ==> '0' <= s[i] <= '9'
  {
    if n < 10 then [Digit(n)] else DecimalText(n / 10) + [Digit(n % 10)]
  }

  /** Reads decimal text back into a number. */
  function ParseDecimal(s: string): nat {
    if |s| == 0 then 0 else ParseDecimal(s[..|s| - 1]) * 10 + DigitValue(s[|s| - 1])
  }

  /** The decimal text reads back as the number it was made from. */
  lemma {:induction false} DecimalRoundTrip(n: nat)
    ensures ParseDecimal(DecimalText(n)) == n
  {
    if n < 10 {
      assert DecimalText(n)[..0] == [];
    } else {
      DecimalRoundTrip(n / 10);
      var s := DecimalText(n);
      assert s[..|s| - 1] == DecimalText(n / 10);
      assert DigitValue(Digit(n % 10)) == n % 10;
    }
  }
}
