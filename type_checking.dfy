/**
 * The instrument-definition validator (optibook/type_checking.py; the copy in
 * optibook_client/ is identical). Validation is a chain of ordered guards,
 * dispatched on the instrument type; the first guard that fails raises with
 * its message. Here raising is `Fail(message)` and returning is `Pass`.
 *
 * Python truthiness decides what "defined" means: None, 0, 0.0, "" and {}
 * are all falsy, while a datetime or an enum member is always truthy.
 */
module TypeChecking {
  import opened CommonTypes

  datatype Outcome = Pass | Fail(message: string)

  // ---------------------------------------------------------------------
  // Truthiness of the optional fields
  // ---------------------------------------------------------------------

  predicate TruthyText(o: Option<string>) { o.Some? && o.value != "" }

  predicate TruthyNumber(o: Option<real>) { o.Some? && o.value != 0.0 }

  /** A datetime is always truthy, so only a missing expiry is falsy. */
  predicate TruthyExpiry(o: Option<int>) { o.Some? }

  predicate TruthyMap(o: Option<map<string, real>>) { o.Some? && |o.value| > 0 }

  predicate TruthyType(o: Option<TypeTag>) {
    match o
    case None => false
    case Some(Known(_)) => true
    case Some(UnparsedType(name)) => name != ""
  }

  predicate TruthyKind(o: Option<KindTag>) {
    match o
    case None => false
    case Some(Kind(_)) => true
    case Some(UnparsedKind(name)) => name != ""
  }

  /** `expiry < datetime.now()`, read only once the expiry is known to be set. */
  predicate Expired(i: Instrument, now: int) { i.expiry.Some? && i.expiry.value < now }

  /** `option_kind != OptionKind.PUT and option_kind != OptionKind.CALL`. */
  predicate NotPutOrCall(o: Option<KindTag>) { !(o.Some? && o.value.Kind?) }

  /** `float(strike) <= 0`, read only once the strike is known to be set. */
  predicate StrikeNotPositive(o: Option<real>) { o.None? || o.value <= 0.0 }

  const ID_OR_TICK_MISSING := "Invalid instrument definition: instrument id or tick_size is not defined."
  const TICK_NOT_POSITIVE := "Invalid instrument definition: tick_size must be positive."

  function UnknownTypeMessage(name: string): string {
    "Invalid instrument definition: instrument_type not known: " + name + "."
  }

  // ---------------------------------------------------------------------
  // The guard chains, one per instrument type
  // ---------------------------------------------------------------------

  function IsStock(i: Instrument): Outcome {
    if TruthyText(i.baseInstrumentId) then Fail("Invalid STOCK definition: should not have a base_instrument_id.")
    else if TruthyExpiry(i.expiry) then Fail("Invalid STOCK definition: should not have an expiry.")
    else if TruthyKind(i.optionKind) then Fail("Invalid STOCK definition: should not have an option_kind.")
    else if TruthyNumber(i.strike) then Fail("Invalid STOCK definition: should not have a strike.")
    else Pass
  }

  function IsStockFuture(i: Instrument, now: int): Outcome {
    if !TruthyNumber(i.interestRate) then Fail("Invalid STOCK_FUTURE definition: should have interest_rate")
    else if !TruthyText(i.baseInstrumentId) then Fail("Invalid STOCK_FUTURE definition: base_instrument_id is not defined.")
    else if !TruthyExpiry(i.expiry) then Fail("Invalid STOCK_FUTURE definition: expiry is not defined.")
    else if Expired(i, now) then Fail("Invalid STOCK_FUTURE definition: expiry must be in the future.")
    else if TruthyKind(i.optionKind) then Fail("Invalid STOCK_FUTURE definition: should not have an option_kind.")
    else if TruthyNumber(i.strike) then Fail("Invalid STOCK_FUTURE definition: should not have a strike.")
    else Pass
  }

  function IsStockOption(i: Instrument, now: int): Outcome {
    if !TruthyText(i.baseInstrumentId) then Fail("Invalid STOCK_OPTION definition: base_instrument_id is not defined.")
    else if !TruthyExpiry(i.expiry) then Fail("Invalid STOCK_OPTION definition: expiry is not defined.")
    else if Expired(i, now) then Fail("Invalid STOCK_OPTION definition: expiry must be in the future.")
    else if !TruthyKind(i.optionKind) then Fail("Invalid STOCK_OPTION definition: option_kind is not defined.")
    else if NotPutOrCall(i.optionKind) then Fail("Invalid STOCK_OPTION definition: option_kind must be OptionKind.PUT or OptionKind.CALL.")
    else if !TruthyNumber(i.strike) then Fail("Invalid STOCK_OPTION definition: strike is not defined.")
    else if StrikeNotPositive(i.strike) then Fail("Invalid STOCK_OPTION definition: strike must be positive.")
    else Pass
  }

  function IsIndexTrackingEtf(i: Instrument): Outcome {
    if !TruthyNumber(i.indexId) then Fail("Invalid INDEX_TRACKING_ETF definition: should have index_id")
    else if !TruthyMap(i.indexConstituents) then Fail("Invalid INDEX_TRACKING_ETF definition: should have index_constituents")
    else if !TruthyNumber(i.indexDivisor) then Fail("Invalid INDEX_TRACKING_ETF definition: should have index_divisor")
    else if !TruthyNumber(i.etfCashComp) then Fail("Invalid INDEX_TRACKING_ETF definition: should have etf_cash_comp")
    else if !TruthyNumber(i.etfMultiplier) then Fail("Invalid INDEX_TRACKING_ETF definition: should have etf_multiplier")
    else if TruthyText(i.baseInstrumentId) then Fail("Invalid INDEX_TRACKING_ETF definition: should not have a base_instrument_id.")
    else if TruthyExpiry(i.expiry) then Fail("Invalid INDEX_TRACKING_ETF definition: should not have an expiry.")
    else if TruthyKind(i.optionKind) then Fail("Invalid INDEX_TRACKING_ETF definition: should not have an option_kind.")
    else if TruthyNumber(i.strike) then Fail("Invalid INDEX_TRACKING_ETF definition: should not have a strike.")
    else Pass
  }

  function IsIndexFuture(i: Instrument, now: int): Outcome {
    if !TruthyNumber(i.indexId) then Fail("Invalid INDEX_FUTURE definition: should have index_id")
    else if !TruthyMap(i.indexConstituents) then Fail("Invalid INDEX_FUTURE definition: should have index_constituents")
    else if !TruthyNumber(i.indexDivisor) then Fail("Invalid INDEX_FUTURE definition: should have index_divisor")
    else if !TruthyNumber(i.interestRate) then Fail("Invalid INDEX_FUTURE definition: should have interest_rate")
    else if !TruthyExpiry(i.expiry) then Fail("Invalid INDEX_FUTURE definition: expiry is not defined.")
    else if Expired(i, now) then Fail("Invalid INDEX_FUTURE definition: expiry must be in the future.")
    else if TruthyKind(i.optionKind) then Fail("Invalid INDEX_FUTURE definition: should not have an option_kind.")
    else if TruthyNumber(i.strike) then Fail("Invalid INDEX_FUTURE definition: should not have a strike.")
    else Pass
  }

  function IsIndexOption(i: Instrument, now: int): Outcome {
    if !TruthyNumber(i.indexId) then Fail("Invalid INDEX_OPTION definition: should have index_id")
    else if !TruthyMap(i.indexConstituents) then Fail("Invalid INDEX_OPTION definition: should have index_constituents")
    else if !TruthyNumber(i.interestRate) then Fail("Invalid INDEX_OPTION definition: should have interest_rate")
    else if !TruthyNumber(i.indexDivisor) then Fail("Invalid INDEX_OPTION definition: should have index_divisor")
    else if !TruthyNumber(i.indexVolatility) then Fail("Invalid INDEX_OPTION definition: should have index_volatility")
    else if !TruthyExpiry(i.expiry) then Fail("Invalid INDEX_OPTION definition: expiry is not defined.")
    else if Expired(i, now) then Fail("Invalid INDEX_OPTION definition: expiry must be in the future.")
    else if !TruthyKind(i.optionKind) then Fail("Invalid INDEX_OPTION definition: option_kind is not defined.")
    else if NotPutOrCall(i.optionKind) then Fail("Invalid INDEX_OPTION definition: option_kind must be OptionKind.PUT or OptionKind.CALL.")
    else if !TruthyNumber(i.strike) then Fail("Invalid INDEX_OPTION definition: strike is not defined.")
    else if StrikeNotPositive(i.strike) then Fail("Invalid INDEX_OPTION definition: strike must be positive.")
    else Pass
  }

  /**
   * validate_instrument: the common header checks, then the checker of the
   * instrument's type. `now` stands for datetime.now().
   */
  function ValidateInstrument(i: Instrument, now: int): (r: Outcome)
    ensures r.Pass? <==> Conforms(i, now)
    ensures i.instrumentId == "" || i.tickSize == 0.0 ==> r == Fail(ID_OR_TICK_MISSING)
    ensures i.instrumentId != "" && i.tickSize < 0.0 ==> r == Fail(TICK_NOT_POSITIVE)
    ensures i.instrumentId != "" && i.tickSize > 0.0 && !TruthyType(i.instrumentType) ==> r == Pass
  {
    if i.instrumentId == "" || i.tickSize == 0.0 then Fail(ID_OR_TICK_MISSING)
    else if i.tickSize <= 0.0 then Fail(TICK_NOT_POSITIVE)
    else if !TruthyType(i.instrumentType) then Pass
    else
      match i.instrumentType.value
      case Known(STOCK) => IsStock(i)
      case Known(STOCK_FUTURE) => IsStockFuture(i, now)
      case Known(STOCK_OPTION) => IsStockOption(i, now)
      case Known(INDEX_TRACKING_ETF) => IsIndexTrackingEtf(i)
      case Known(INDEX_FUTURE) => IsIndexFuture(i, now)
      case Known(INDEX_OPTION) => IsIndexOption(i, now)
      case UnparsedType(name) => Fail(UnknownTypeMessage(name))
  }

  // ---------------------------------------------------------------------
  // Declarative reference: what an acceptable definition looks like,
  // independent of the order in which the guards are tried
  // ---------------------------------------------------------------------

  /** No field that only derivatives carry. */
  predicate NoDerivativeFields(i: Instrument) {
    !TruthyText(i.baseInstrumentId) && !TruthyExpiry(i.expiry) && !TruthyKind(i.optionKind) && !TruthyNumber(i.strike)
  }

  predicate LiveExpiry(i: Instrument, now: int) { i.expiry.Some? && i.expiry.value >= now }

  predicate PutOrCall(o: Option<KindTag>) { o.Some? && o.value.Kind? }

  predicate PositiveStrike(o: Option<real>) { o.Some? && o.value > 0.0 }

  predicate IndexFields(i: Instrument) {
    TruthyNumber(i.indexId) && TruthyMap(i.indexConstituents) && TruthyNumber(i.indexDivisor)
  }

  predicate ConformsTo(t: InstrumentType, i: Instrument, now: int) {
    match t
    case STOCK => NoDerivativeFields(i)
    case STOCK_FUTURE =>
      TruthyNumber(i.interestRate) && TruthyText(i.baseInstrumentId) && LiveExpiry(i, now)
      && !TruthyKind(i.optionKind) && !TruthyNumber(i.strike)
    case STOCK_OPTION =>
      TruthyText(i.baseInstrumentId) && LiveExpiry(i, now) && PutOrCall(i.optionKind) && PositiveStrike(i.strike)
    case INDEX_TRACKING_ETF =>
      IndexFields(i) && TruthyNumber(i.etfCashComp) && TruthyNumber(i.etfMultiplier) && NoDerivativeFields(i)
    case INDEX_FUTURE =>
      IndexFields(i) && TruthyNumber(i.interestRate) && LiveExpiry(i, now)
      && !TruthyKind(i.optionKind) && !TruthyNumber(i.strike)
    case INDEX_OPTION =>
      IndexFields(i) && TruthyNumber(i.interestRate) && TruthyNumber(i.indexVolatility) && LiveExpiry(i, now)
      && PutOrCall(i.optionKind) && PositiveStrike(i.strike)
  }

  predicate Conforms(i: Instrument, now: int) {
    && i.instrumentId != ""
    && i.tickSize > 0.0
    && match i.instrumentType
       case None => true
       case Some(UnparsedType(name)) => name == ""
       case Some(Known(t)) => ConformsTo(t, i, now)
  }

  // ---------------------------------------------------------------------
  // Second reference: the guards as a table tried in order
  // ---------------------------------------------------------------------
  // The Is* chains above keep the source's if-chain shape; the tables below
  // list the same guards as data, which the first-failing-check lemmas can
  // quantify over. The *ChainIsTable lemmas keep the two in step.

  datatype Check = Check(failed: bool, message: string)

  /** The outcome of trying the checks in order: the first failure, or Pass. */
  function FirstFailure(checks: seq<Check>): Outcome {
    if checks == [] then Pass
    else if checks[0].failed then Fail(checks[0].message)
    else FirstFailure(checks[1..])
  }

  /** The guards of the STOCK checker, in source order. */
  function StockChecks(i: Instrument): seq<Check> {
    [
      Check(TruthyText(i.baseInstrumentId), "Invalid STOCK definition: should not have a base_instrument_id."),
      Check(TruthyExpiry(i.expiry), "Invalid STOCK definition: should not have an expiry."),
      Check(TruthyKind(i.optionKind), "Invalid STOCK definition: should not have an option_kind."),
      Check(TruthyNumber(i.strike), "Invalid STOCK definition: should not have a strike.")]
  }

  /** The guards of the STOCK_FUTURE checker, in source order. */
  function StockFutureChecks(i: Instrument, now: int): seq<Check> {
    [
      Check(!TruthyNumber(i.interestRate), "Invalid STOCK_FUTURE definition: should have interest_rate"),
      Check(!TruthyText(i.baseInstrumentId), "Invalid STOCK_FUTURE definition: base_instrument_id is not defined."),
      Check(!TruthyExpiry(i.expiry), "Invalid STOCK_FUTURE definition: expiry is not defined."),
      Check(Expired(i, now), "Invalid STOCK_FUTURE definition: expiry must be in the future."),
      Check(TruthyKind(i.optionKind), "Invalid STOCK_FUTURE definition: should not have an option_kind."),
      Check(TruthyNumber(i.strike), "Invalid STOCK_FUTURE definition: should not have a strike.")]
  }

  /** The guards of the STOCK_OPTION checker, in source order. */
  function StockOptionChecks(i: Instrument, now: int): seq<Check> {
    [
      Check(!TruthyText(i.baseInstrumentId), "Invalid STOCK_OPTION definition: base_instrument_id is not defined."),
      Check(!TruthyExpiry(i.expiry), "Invalid STOCK_OPTION definition: expiry is not defined."),
      Check(Expired(i, now), "Invalid STOCK_OPTION definition: expiry must be in the future."),
      Check(!TruthyKind(i.optionKind), "Invalid STOCK_OPTION definition: option_kind is not defined."),
      Check(NotPutOrCall(i.optionKind), "Invalid STOCK_OPTION definition: option_kind must be OptionKind.PUT or OptionKind.CALL."),
      Check(!TruthyNumber(i.strike), "Invalid STOCK_OPTION definition: strike is not defined."),
      Check(StrikeNotPositive(i.strike), "Invalid STOCK_OPTION definition: strike must be positive.")]
  }

  /** The guards of the INDEX_TRACKING_ETF checker, in source order. */
  function IndexTrackingEtfChecks(i: Instrument): seq<Check> {
    [
      Check(!TruthyNumber(i.indexId), "Invalid INDEX_TRACKING_ETF definition: should have index_id"),
      Check(!TruthyMap(i.indexConstituents), "Invalid INDEX_TRACKING_ETF definition: should have index_constituents"),
      Check(!TruthyNumber(i.indexDivisor), "Invalid INDEX_TRACKING_ETF definition: should have index_divisor"),
      Check(!TruthyNumber(i.etfCashComp), "Invalid INDEX_TRACKING_ETF definition: should have etf_cash_comp"),
      Check(!TruthyNumber(i.etfMultiplier), "Invalid INDEX_TRACKING_ETF definition: should have etf_multiplier"),
      Check(TruthyText(i.baseInstrumentId), "Invalid INDEX_TRACKING_ETF definition: should not have a base_instrument_id."),
      Check(TruthyExpiry(i.expiry), "Invalid INDEX_TRACKING_ETF definition: should not have an expiry."),
      Check(TruthyKind(i.optionKind), "Invalid INDEX_TRACKING_ETF definition: should not have an option_kind."),
      Check(TruthyNumber(i.strike), "Invalid INDEX_TRACKING_ETF definition: should not have a strike.")]
  }

  /** The guards of the INDEX_FUTURE checker, in source order. */
  function IndexFutureChecks(i: Instrument, now: int): seq<Check> {
    [
      Check(!TruthyNumber(i.indexId), "Invalid INDEX_FUTURE definition: should have index_id"),
      Check(!TruthyMap(i.indexConstituents), "Invalid INDEX_FUTURE definition: should have index_constituents"),
      Check(!TruthyNumber(i.indexDivisor), "Invalid INDEX_FUTURE definition: should have index_divisor"),
      Check(!TruthyNumber(i.interestRate), "Invalid INDEX_FUTURE definition: should have interest_rate"),
      Check(!TruthyExpiry(i.expiry), "Invalid INDEX_FUTURE definition: expiry is not defined."),
      Check(Expired(i, now), "Invalid INDEX_FUTURE definition: expiry must be in the future."),
      Check(TruthyKind(i.optionKind), "Invalid INDEX_FUTURE definition: should not have an option_kind."),
      Check(TruthyNumber(i.strike), "Invalid INDEX_FUTURE definition: should not have a strike.")]
  }

  /** The guards of the INDEX_OPTION checker, in source order. */
  function IndexOptionChecks(i: Instrument, now: int): seq<Check> {
    [
      Check(!TruthyNumber(i.indexId), "Invalid INDEX_OPTION definition: should have index_id"),
      Check(!TruthyMap(i.indexConstituents), "Invalid INDEX_OPTION definition: should have index_constituents"),
      Check(!TruthyNumber(i.interestRate), "Invalid INDEX_OPTION definition: should have interest_rate"),
      Check(!TruthyNumber(i.indexDivisor), "Invalid INDEX_OPTION definition: should have index_divisor"),
      Check(!TruthyNumber(i.indexVolatility), "Invalid INDEX_OPTION definition: should have index_volatility"),
      Check(!TruthyExpiry(i.expiry), "Invalid INDEX_OPTION definition: expiry is not defined."),
      Check(Expired(i, now), "Invalid INDEX_OPTION definition: expiry must be in the future."),
      Check(!TruthyKind(i.optionKind), "Invalid INDEX_OPTION definition: option_kind is not defined."),
      Check(NotPutOrCall(i.optionKind), "Invalid INDEX_OPTION definition: option_kind must be OptionKind.PUT or OptionKind.CALL."),
      Check(!TruthyNumber(i.strike), "Invalid INDEX_OPTION definition: strike is not defined."),
      Check(StrikeNotPositive(i.strike), "Invalid INDEX_OPTION definition: strike must be positive.")]
  }

  function TypeChecks(i: Instrument, now: int): seq<Check> {
    if !TruthyType(i.instrumentType) then []
    else
      match i.instrumentType.value
      case Known(STOCK) => StockChecks(i)
      case Known(STOCK_FUTURE) => StockFutureChecks(i, now)
      case Known(STOCK_OPTION) => StockOptionChecks(i, now)
      case Known(INDEX_TRACKING_ETF) => IndexTrackingEtfChecks(i)
      case Known(INDEX_FUTURE) => IndexFutureChecks(i, now)
      case Known(INDEX_OPTION) => IndexOptionChecks(i, now)
      case UnparsedType(name) => [Check(true, UnknownTypeMessage(name))]
  }

  /** Every guard validate_instrument may try, in the order it tries them. */
  function Checks(i: Instrument, now: int): seq<Check> {
    [Check(i.instrumentId == "" || i.tickSize == 0.0, ID_OR_TICK_MISSING),
     Check(i.tickSize <= 0.0, TICK_NOT_POSITIVE)]
    + TypeChecks(i, now)
  }

  // ---------------------------------------------------------------------
  // Properties
  // ---------------------------------------------------------------------

  /** Trying checks in order reports the first failing one, whatever follows it. */
  lemma {:induction false} FirstFailingCheckIsReported(checks: seq<Check>, k: nat)
    requires k < |checks| && checks[k].failed
    requires forall j :: 0 <= j < k ==> !checks[j].failed
    ensures FirstFailure(checks) == Fail(checks[k].message)
  {
    if k > 0 {
      assert !checks[0].failed;
      FirstFailingCheckIsReported(checks[1..], k - 1);
    }
  }

  /** Trying checks in order passes exactly when no check fails. */
  lemma {:induction false} FirstFailurePassesIffNoneFails(checks: seq<Check>)
    ensures FirstFailure(checks).Pass? <==> forall j :: 0 <= j < |checks| ==> !checks[j].failed
  {
    if checks != [] {
      FirstFailurePassesIffNoneFails(checks[1..]);
      assert forall j :: 1 <= j < |checks| ==> checks[j] == checks[1..][j - 1];
    }
  }

  /** The STOCK guard chain tries its table in order. */
  lemma StockChainIsTable(i: Instrument)
    ensures IsStock(i) == FirstFailure(StockChecks(i))
  {
    var checks := StockChecks(i);
    assert checks[0..] == checks && checks[4..] == [];
    FirstFailureStep(checks, 0);
    FirstFailureStep(checks, 1);
    FirstFailureStep(checks, 2);
    FirstFailureStep(checks, 3);
  }

  /** The STOCK_FUTURE guard chain tries its table in order. */
  lemma StockFutureChainIsTable(i: Instrument, now: int)
    ensures IsStockFuture(i, now) == FirstFailure(StockFutureChecks(i, now))
  {
    var checks := StockFutureChecks(i, now);
    assert checks[0..] == checks && checks[6..] == [];
    FirstFailureStep(checks, 0);
    FirstFailureStep(checks, 1);
    FirstFailureStep(checks, 2);
    FirstFailureStep(checks, 3);
    FirstFailureStep(checks, 4);
    FirstFailureStep(checks, 5);
  }

  /** The STOCK_OPTION guard chain tries its table in order. */
  lemma StockOptionChainIsTable(i: Instrument, now: int)
    ensures IsStockOption(i, now) == FirstFailure(StockOptionChecks(i, now))
  {
    var checks := StockOptionChecks(i, now);
    assert checks[0..] == checks && checks[7..] == [];
    FirstFailureStep(checks, 0);
    FirstFailureStep(checks, 1);
    FirstFailureStep(checks, 2);
    FirstFailureStep(checks, 3);
    FirstFailureStep(checks, 4);
    FirstFailureStep(checks, 5);
    FirstFailureStep(checks, 6);
  }

  /** The INDEX_TRACKING_ETF guard chain tries its table in order. */
  lemma IndexTrackingEtfChainIsTable(i: Instrument)
    ensures IsIndexTrackingEtf(i) == FirstFailure(IndexTrackingEtfChecks(i))
  {
    var checks := IndexTrackingEtfChecks(i);
    assert checks[0..] == checks && checks[9..] == [];
    FirstFailureStep(checks, 0);
    FirstFailureStep(checks, 1);
    FirstFailureStep(checks, 2);
    FirstFailureStep(checks, 3);
    FirstFailureStep(checks, 4);
    FirstFailureStep(checks, 5);
    FirstFailureStep(checks, 6);
    FirstFailureStep(checks, 7);
    FirstFailureStep(checks, 8);
  }

  /** The INDEX_FUTURE guard chain tries its table in order. */
  lemma IndexFutureChainIsTable(i: Instrument, now: int)
    ensures IsIndexFuture(i, now) == FirstFailure(IndexFutureChecks(i, now))
  {
    var checks := IndexFutureChecks(i, now);
    assert checks[0..] == checks && checks[8..] == [];
    FirstFailureStep(checks, 0);
    FirstFailureStep(checks, 1);
    FirstFailureStep(checks, 2);
    FirstFailureStep(checks, 3);
    FirstFailureStep(checks, 4);
    FirstFailureStep(checks, 5);
    FirstFailureStep(checks, 6);
    FirstFailureStep(checks, 7);
  }

  /** The INDEX_OPTION guard chain tries its table in order. */
  lemma IndexOptionChainIsTable(i: Instrument, now: int)
    ensures IsIndexOption(i, now) == FirstFailure(IndexOptionChecks(i, now))
  {
    var checks := IndexOptionChecks(i, now);
    assert checks[0..] == checks && checks[11..] == [];
    FirstFailureStep(checks, 0);
    FirstFailureStep(checks, 1);
    FirstFailureStep(checks, 2);
    FirstFailureStep(checks, 3);
    FirstFailureStep(checks, 4);
    FirstFailureStep(checks, 5);
    FirstFailureStep(checks, 6);
    FirstFailureStep(checks, 7);
    FirstFailureStep(checks, 8);
    FirstFailureStep(checks, 9);
    FirstFailureStep(checks, 10);
  }

  /** The guard chain of validate_instrument is the ordered check table. */
  lemma ValidateIsFirstFailure(i: Instrument, now: int)
    ensures ValidateInstrument(i, now) == FirstFailure(Checks(i, now))
  {
    var checks := Checks(i, now);
    var rest := TypeChecks(i, now);
    assert checks[0..] == checks && checks[2..] == rest;
    FirstFailureStep(checks, 0);
    FirstFailureStep(checks, 1);
    if i.instrumentId != "" && i.tickSize > 0.0 && TruthyType(i.instrumentType) {
      match i.instrumentType.value
      case Known(STOCK) => StockChainIsTable(i);
      case Known(STOCK_FUTURE) => StockFutureChainIsTable(i, now);
      case Known(STOCK_OPTION) => StockOptionChainIsTable(i, now);
      case Known(INDEX_TRACKING_ETF) => IndexTrackingEtfChainIsTable(i);
      case Known(INDEX_FUTURE) => IndexFutureChainIsTable(i, now);
      case Known(INDEX_OPTION) => IndexOptionChainIsTable(i, now);
      case UnparsedType(name) =>
        assert rest == [Check(true, UnknownTypeMessage(name))];
    }
  }

  lemma FirstFailureStep(checks: seq<Check>, k: nat)
    requires k < |checks|
    ensures FirstFailure(checks[k..]) ==
      if checks[k].failed then Fail(checks[k].message) else FirstFailure(checks[k + 1..])
  {
  }

  /**
   * The first guard that fails, in source order, alone determines the error:
   * whatever later guards would say is never reported.
   */
  lemma ValidateReportsFirstFailingCheck(i: Instrument, now: int, k: nat)
    requires k < |Checks(i, now)| && Checks(i, now)[k].failed
    requires forall j :: 0 <= j < k ==> !Checks(i, now)[j].failed
    ensures ValidateInstrument(i, now) == Fail(Checks(i, now)[k].message)
  {
    ValidateIsFirstFailure(i, now);
    FirstFailingCheckIsReported(Checks(i, now), k);
  }

  /** A well-formed STOCK carries none of the derivative fields; a zero strike counts as absent. */
  lemma StockAcceptedIff(i: Instrument, now: int)
    requires i.instrumentId != "" && i.tickSize > 0.0
    requires i.instrumentType == Some(Known(STOCK))
    ensures ValidateInstrument(i, now).Pass? <==>
      (i.baseInstrumentId.None? || i.baseInstrumentId.value == "")
      && i.expiry.None?
      && (i.optionKind.None? || i.optionKind.value == UnparsedKind(""))
      && (i.strike.None? || i.strike.value == 0.0)
  {
  }

  predicate IsDerivative(t: InstrumentType) {
    t == STOCK_FUTURE || t == STOCK_OPTION || t == INDEX_FUTURE || t == INDEX_OPTION
  }

  /** Every accepted future or option expires at `now` or later. */
  lemma AcceptedDerivativeIsLive(i: Instrument, now: int)
    requires i.instrumentType.Some? && i.instrumentType.value.Known? && IsDerivative(i.instrumentType.value.kind)
    requires ValidateInstrument(i, now).Pass?
    ensures i.expiry.Some? && i.expiry.value >= now
  {
  }

  /**
   * The expiry only matters through "set, and not before now": any two
   * expiries at or after `now` (`now` itself included) give the same result.
   */
  lemma ExpiryMattersOnlyThroughDeadline(i: Instrument, now: int, e1: int, e2: int)
    requires e1 >= now && e2 >= now
    ensures ValidateInstrument(i.(expiry := Some(e1)), now) == ValidateInstrument(i.(expiry := Some(e2)), now)
  {
  }

  /** An expired STOCK_FUTURE whose earlier guards pass is rejected for its expiry. */
  lemma ExpiredStockFutureRejected(i: Instrument, now: int)
    requires i.instrumentId != "" && i.tickSize > 0.0 && i.instrumentType == Some(Known(STOCK_FUTURE))
    requires TruthyNumber(i.interestRate) && TruthyText(i.baseInstrumentId)
    requires i.expiry.Some? && i.expiry.value < now
    ensures ValidateInstrument(i, now) == Fail("Invalid STOCK_FUTURE definition: expiry must be in the future.")
  {
  }

  /** An accepted option (stock or index) is a PUT or a CALL with a positive strike. */
  lemma AcceptedOptionHasKindAndStrike(i: Instrument, now: int)
    requires i.instrumentType == Some(Known(STOCK_OPTION)) || i.instrumentType == Some(Known(INDEX_OPTION))
    requires ValidateInstrument(i, now).Pass?
    ensures i.optionKind.Some? && i.optionKind.value.Kind?
    ensures i.strike.Some? && i.strike.value > 0.0
  {
  }

  /**
   * For a STOCK_OPTION that gets as far as the strike: a missing or zero
   * strike is "not defined", a negative one "must be positive".
   */
  lemma StockOptionStrikeMessages(i: Instrument, now: int)
    requires i.instrumentId != "" && i.tickSize > 0.0 && i.instrumentType == Some(Known(STOCK_OPTION))
    requires TruthyText(i.baseInstrumentId) && LiveExpiry(i, now) && PutOrCall(i.optionKind)
    ensures i.strike.None? || i.strike.value == 0.0 ==>
      ValidateInstrument(i, now) == Fail("Invalid STOCK_OPTION definition: strike is not defined.")
    ensures i.strike.Some? && i.strike.value < 0.0 ==>
      ValidateInstrument(i, now) == Fail("Invalid STOCK_OPTION definition: strike must be positive.")
    ensures i.strike.Some? && i.strike.value > 0.0 ==> ValidateInstrument(i, now) == Pass
  {
  }

  /** An INDEX_TRACKING_ETF needs its five index/ETF fields and none of the derivative fields. */
  lemma EtfAcceptedIff(i: Instrument, now: int)
    requires i.instrumentId != "" && i.tickSize > 0.0 && i.instrumentType == Some(Known(INDEX_TRACKING_ETF))
    ensures ValidateInstrument(i, now).Pass? <==>
      TruthyNumber(i.indexId) && TruthyMap(i.indexConstituents) && TruthyNumber(i.indexDivisor)
      && TruthyNumber(i.etfCashComp) && TruthyNumber(i.etfMultiplier)
      && !TruthyText(i.baseInstrumentId) && i.expiry.None? && !TruthyKind(i.optionKind) && !TruthyNumber(i.strike)
  {
  }

  /** Index futures and index options never look at base_instrument_id. */
  lemma IndexDerivativesIgnoreBaseInstrument(i: Instrument, now: int, base: Option<string>)
    requires i.instrumentType == Some(Known(INDEX_FUTURE)) || i.instrumentType == Some(Known(INDEX_OPTION))
    ensures ValidateInstrument(i.(baseInstrumentId := base), now) == ValidateInstrument(i, now)
  {
  }
}
