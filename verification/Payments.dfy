/** Rows and values of the payment execution protocol (go-api/internal/payment, go-api/internal/bridge/quote). */
module Payments {
  import opened Common
  import SimulatedExecutor
  import Money

  type PaymentId = string
  type ExecId = nat
  type EventId = nat
  type Key = string
  type Wallet = string
  type Provider = string
  type Address = string

  datatype Mode = Simulated | Testnet

  datatype Status = Routed | Processing | Submitted | Completed | Failed

  predicate Terminal(s: Status) {
    s == Completed || s == Failed
  }

  /** Position of a status on the way forward; the two terminal ones come last. */
  function Order(s: Status): nat {
    match s
    case Routed => 0
    case Processing => 1
    case Submitted => 2
    case Completed => 3
    case Failed => 3
  }

  datatype ExternalStatus = Pending | Filled | Refunded | Reverted | FillFailed

  /** What the client asked for; fixed for the life of the payment. */
  datatype Request = Request(key: Key, source: string, destination: string, asset: string, amount: string, mode: Mode)

  datatype Hop = Hop(fromChain: string, toChain: string, bridge: string, fee: real)

  /** A `payment_quotes` row; `fee` is the NUMERIC column as text, in base units. */
  datatype QuoteRow = QuoteRow(
    provider: Provider, originChainId: int, destinationChainId: int, fee: string, expiresAt: int, selected: bool)

  datatype Payment = Payment(req: Request, status: Status, failureReason: Option<string>)

  datatype Tx =
    Tx(chainId: int, sender: Wallet, nonce: int, to: Address, value: int, data: string, gas: int, gasPrice: int)

  /**
   * A `payment_executions` row. Signing is injective, so the raw bytes and the hash are both the transaction itself.
   */
  datatype Execution = Execution(
    id: ExecId, payment: PaymentId, provider: Provider, wallet: Wallet, nonce: int,
    signed: Option<Tx>, broadcast: bool, external: ExternalStatus, confirmed: bool)

  datatype OutboxRow = OutboxRow(payment: PaymentId, published: bool)

  datatype TxEnvelope = TxEnvelope(to: Address, value: int, data: string, chainId: int)

  datatype FreshQuote = FreshQuote(provider: Provider, input: int, fee: int, available: bool)

  /** One worker's executor configuration. */
  datatype Config = Config(
    wallet: Wallet, originChainId: int, maxAmount: Option<int>, slippageBps: int,
    providers: set<Provider>, signers: set<Provider>, checkers: set<Provider>, contracts: map<Provider, Address>)

  /** The terminal status the simulated executor gives `id`. */
  function Outcome(id: PaymentId): (s: Status)
    ensures Terminal(s) && (s == Failed <==> SimulatedExecutor.FailsByLastDigit(id))
  {
    SimulatedExecutor.FailsExactly(id);
    if SimulatedExecutor.Succeeds(id) then Completed else Failed
  }

  /** The amount in base units of the 18-decimal token, if it is representable. */
  function BaseUnits(amount: string): Option<int> {
    match Money.DecimalToBaseUnits(amount, 18)
    case Ok(n) => Some(n)
    case Err(_) => None
  }

  /** Postgres compares the amounts as numbers, not as strings. */
  predicate Matches(stored: Request, asked: Request) {
    && stored.source == asked.source && stored.destination == asked.destination && stored.asset == asked.asset
    && Money.SameNumber(stored.amount, asked.amount) && stored.mode == asked.mode
  }

  /** What the table accepts of a request: a positive amount of at most 18 decimals, between two different chains. */
  predicate Acceptable(req: Request) {
    && Money.Numeral(req.amount) && BaseUnits(req.amount).Some? && BaseUnits(req.amount).value > 0
    && req.source != req.destination
  }

  /** The base units of an amount are the number it denotes, times 10 to the 18th. */
  lemma AmountInUnits(amount: string)
    requires Money.Numeral(amount) && BaseUnits(amount).Some?
    ensures |Money.FracPart(amount)| <= 18
    ensures BaseUnits(amount).value == Money.Numerator(amount) * Money.Pow10(18 - |Money.FracPart(amount)|)
  {
    hide Money.DecimalToBaseUnits, Money.Numerator, Money.Pow10, Money.FracPart, Money.UnsignedInt;
    assert Money.DecimalToBaseUnits(amount, 18) != Err(Money.TooPrecise);
    Money.ParseKeepsValue(amount, 18);
  }

  function SelectedQuote(rows: seq<QuoteRow>): Option<QuoteRow> {
    if rows == [] then None
    else if rows[0].selected then Some(rows[0])
    else SelectedQuote(rows[1..])
  }

  /** The two unique constraints of `payment_quotes`: one row per provider, at most one selected. */
  predicate QuotesInsertable(rows: seq<QuoteRow>) {
    forall i, j :: 0 <= i < j < |rows| ==>
      rows[i].provider != rows[j].provider && !(rows[i].selected && rows[j].selected)
  }

  predicate Within(maxAmount: Option<int>, amount: int) {
    maxAmount.Some? ==> amount <= maxAmount.value
  }

  predicate ExceedsSlippageTolerance(baselineFee: string, freshFee: int, toleranceBps: int) {
    match Money.SetString(baselineFee)
    case None => freshFee > 0
    case Some(baseline) =>
      if baseline == 0 then freshFee > baseline
      else if freshFee <= baseline then false
      else (freshFee - baseline) * 10000 > baseline * toleranceBps
  }

  /** The independent check of an envelope before it is signed. */
  predicate ValidEnvelope(cfg: Config, env: TxEnvelope, q: QuoteRow, offer: FreshQuote) {
    && offer.provider == q.provider
    && env.chainId == cfg.originChainId
    && q.provider in cfg.contracts && env.to == cfg.contracts[q.provider]
    && env.value == offer.input
  }

  function Max(x: int, y: int): int {
    if x < y then y else x
  }

  /** The bound the tolerance really enforces, for every sign of the baseline and of the tolerance. */
  lemma SlippageBound(baselineFee: string, fee: int, bps: int)
    ensures Money.SetString(baselineFee).None? ==> (!ExceedsSlippageTolerance(baselineFee, fee, bps) <==> fee <= 0)
    ensures Money.SetString(baselineFee).Some? ==>
      var b := Money.SetString(baselineFee).value;
      !ExceedsSlippageTolerance(baselineFee, fee, bps) <==> 10000 * (fee - b) <= Max(0, b * bps)
  {
    hide Money.SetString;
    match Money.SetString(baselineFee) {
      case None =>
      case Some(b) => assert b == 0 ==> b * bps == 0;
    }
  }

  /** Against a baseline that is not negative the fee grows by at most the tolerance. */
  lemma SlippageCeiling(b: int, fee: int, bps: int)
    requires b >= 0
    ensures 10000 * (fee - b) <= Max(0, b * bps) <==> 10000 * fee <= (10000 + Max(0, bps)) * b
  {
    if bps >= 0 { assert b * bps >= 0; } else { assert b * bps <= 0; }
  }

  /** The bound on the fee in base units; it never compounds, since the baseline is the routing-time fee. */
  ghost predicate FeeWithin(baseline: string, fee: int, bps: int) {
    match Money.SetString(baseline)
    case None => fee <= 0
    case Some(b) =>
      10000 * (fee - b) <= Max(0, b * bps) && (b >= 0 ==> 10000 * fee <= (10000 + Max(0, bps)) * b)
  }

  lemma FeeExactly(baseline: string, fee: int, bps: int)
    ensures !ExceedsSlippageTolerance(baseline, fee, bps) <==> FeeWithin(baseline, fee, bps)
  {
    hide Money.SetString, ExceedsSlippageTolerance;
    SlippageBound(baseline, fee, bps);
    match Money.SetString(baseline) {
      case None =>
      case Some(b) => if b >= 0 { SlippageCeiling(b, fee, bps); }
    }
  }
}
