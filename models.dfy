/**
 * The records and enums of `models.py`. Every model is a datatype value: the frozen pydantic
 * models can only be replaced as a whole, and the one unfrozen model (Order) is never
 * updated after construction either. A validator that raises is a `Failure` listing the
 * errors pydantic collects into its ValidationError.
 */
module Models {
  import opened Wrappers

  /** A `datetime` reading; clocks are parameters of the operations that read them. */
  type Time = int

  /** The shortest order the Order model accepts, in seconds. */
  const MIN_ORDER_DURATION: int := 5

  datatype OrderDirection = Call | Put {
    /** The enum's string value. */
    function Value(): string {
      match this
      case Call => "call"
      case Put => "put"
    }
  }

  datatype OrderStatus = Pending | Active | Closed | Cancelled | Win | Lose {
    function Value(): string {
      match this
      case Pending => "pending"
      case Active => "active"
      case Closed => "closed"
      case Cancelled => "cancelled"
      case Win => "win"
      case Lose => "lose"
    }
  }

  datatype ConnectionStatus = Connected | Disconnected | Connecting | Reconnecting {
    function Value(): string {
      match this
      case Connected => "connected"
      case Disconnected => "disconnected"
      case Connecting => "connecting"
      case Reconnecting => "reconnecting"
    }
  }

  const ORDER_DIRECTIONS: seq<OrderDirection> := [Call, Put]
  const ORDER_STATUSES: seq<OrderStatus> := [Pending, Active, Closed, Cancelled, Win, Lose]

  /** `OrderDirection(v)`: the member whose value is `v`. */
  function ParseOrderDirection(v: string): (r: Option<OrderDirection>)
    ensures forall d :: r == Some(d) <==> d.Value() == v
  {
    if v == "call" then Some(Call) else if v == "put" then Some(Put) else None
  }

  /** `OrderStatus(v)`: the member whose value is `v`. */
  function ParseOrderStatus(v: string): (r: Option<OrderStatus>)
    ensures forall st :: r == Some(st) <==> st.Value() == v
  {
    if v == "pending" then Some(Pending)
    else if v == "active" then Some(Active)
    else if v == "closed" then Some(Closed)
    else if v == "cancelled" then Some(Cancelled)
    else if v == "win" then Some(Win)
    else if v == "lose" then Some(Lose)
    else None
  }

  /** OrderDirection has exactly the two members, valued "call" and "put". */
  lemma OrderDirectionMembers(d: OrderDirection)
    ensures d in ORDER_DIRECTIONS && |ORDER_DIRECTIONS| == 2
    ensures ORDER_DIRECTIONS[0].Value() == "call" && ORDER_DIRECTIONS[1].Value() == "put"
  {
  }

  /** OrderStatus has exactly six members, with distinct values. */
  lemma OrderStatusMembers(st: OrderStatus)
    ensures st in ORDER_STATUSES && |ORDER_STATUSES| == 6
    ensures forall i, j :: 0 <= i < j < 6 ==> ORDER_STATUSES[i].Value() != ORDER_STATUSES[j].Value()
  {
  }

  datatype Asset = Asset(id: string, name: string, symbol: string, isActive: bool, payout: Option<real>)

  datatype Balance = Balance(balance: real, currency: string, isDemo: bool, lastUpdated: Time)

  /** `Balance(balance=b)`: currency and is_demo take their defaults, last_updated the clock. */
  function NewBalance(balance: real, now: Time): (b: Balance)
    ensures b.balance == balance && b.lastUpdated == now
    ensures b.currency == "USD" && b.isDemo
  {
    Balance(balance, "USD", true, now)
  }

  datatype Candle = Candle(
    timestamp: Time, open: real, high: real, low: real, close: real,
    volume: Option<real>, asset: string, timeframe: int)

  datatype CandleError = HighBelowLow | LowAboveHigh

  /** The `high` validator: it can only compare with `low` once `low` has been validated. */
  function HighCheck(high: real, lowSoFar: Option<real>): seq<CandleError> {
    if lowSoFar.Some? && high < lowSoFar.value then [HighBelowLow] else []
  }

  /** The `low` validator: it can only compare with `high` once `high` has been validated. */
  function LowCheck(low: real, highSoFar: Option<real>): seq<CandleError> {
    if highSoFar.Some? && low > highSoFar.value then [LowAboveHigh] else []
  }

  /**
   * `Candle(...)`. Fields are validated in declaration order, each validator seeing only the
   * fields before it that passed: `high` comes before `low`, so it never sees a low, and `low`
   * sees the high.
   */
  function MakeCandle(
    timestamp: Time, open: real, high: real, low: real, close: real,
    volume: Option<real>, asset: string, timeframe: int): (r: Result<Candle, seq<CandleError>>)
    ensures r.Failure? <==> high < low
    ensures r.Failure? ==> r.error == [LowAboveHigh]
    ensures r.Success? ==> r.value == Candle(timestamp, open, high, low, close, volume, asset, timeframe)
  {
    var highErrors := HighCheck(high, None);
    var highSoFar := if highErrors == [] then Some(high) else None;
    var errors := highErrors + LowCheck(low, highSoFar);
    if errors == [] then Success(Candle(timestamp, open, high, low, close, volume, asset, timeframe))
    else Failure(errors)
  }

  /** The order request. It carries a caller-side `requestId` and no `orderId`. */
  datatype Order = Order(asset: string, amount: real, direction: OrderDirection, duration: int, requestId: Option<string>)

  datatype OrderError = AmountNotPositive | DurationTooShort

  /**
   * `Order(asset=..., amount=..., direction=..., duration=...)`: `request_id` defaults to a fresh
   * uuid4 string, passed in as `freshId`. Both validators run and their errors are collected.
   */
  function MakeOrder(asset: string, amount: real, direction: OrderDirection, duration: int, freshId: string)
    : (r: Result<Order, seq<OrderError>>)
    ensures r.Failure? <==> amount <= 0.0 || duration < 5
    ensures r.Failure? ==> (AmountNotPositive in r.error <==> amount <= 0.0)
    ensures r.Failure? ==> (DurationTooShort in r.error <==> duration < 5)
    ensures r.Success? ==> r.value == Order(asset, amount, direction, duration, Some(freshId))
  {
    var errors :=
      (if amount <= 0.0 then [AmountNotPositive] else [])
      + (if duration < MIN_ORDER_DURATION then [DurationTooShort] else []);
    if errors == [] then Success(Order(asset, amount, direction, duration, Some(freshId)))
    else Failure(errors)
  }

  datatype OrderResult = OrderResult(
    orderId: string, asset: string, amount: real, direction: OrderDirection, duration: int,
    status: OrderStatus, placedAt: Time, expiresAt: Time,
    profit: Option<real>, payout: Option<real>, errorMessage: Option<string>)

  datatype ServerTime = ServerTime(serverTimestamp: real, localTimestamp: real, offset: real, lastSync: Time)

  datatype ConnectionInfo = ConnectionInfo(
    url: string, region: string, status: ConnectionStatus,
    connectedAt: Option<Time>, lastPing: Option<Time>, reconnectAttempts: int)

  /** `ConnectionInfo(url=..., region=..., status=...)` with every other field at its default. */
  function NewConnectionInfo(url: string, region: string, status: ConnectionStatus): (c: ConnectionInfo)
    ensures c.url == url && c.region == region && c.status == status
    ensures c.connectedAt.None? && c.lastPing.None? && c.reconnectAttempts == 0
  {
    ConnectionInfo(url, region, status, None, None, 0)
  }
}
