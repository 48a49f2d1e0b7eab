/**
 * A single buy or sell order (`Transaction` in JPMTechTest.cpp): its fields,
 * the checks its constructor runs, and the values derived from it.
 */
module Transactions {
  import opened Wrappers
  import opened Calendar
  import opened Text
  import opened SettlementDates

  /** The fields of an order, as the constructor receives them; the amounts are exact reals. */
  datatype Transaction = Transaction(
    entity: string,
    buySell: char,
    agreedFx: real,
    currency: string,
    instructionDateString: string,
    settlementDateString: string,
    units: int,
    pricePerUnit: real)

  /** The field each validation check is about, in the order the checks run. */
  datatype Field = Entity | BuySell | AgreedFx | Currency | InstructionDateString | SettlementDateString | Units | PricePerUnit

  datatype ValidationError = ValidationError(field: Field, message: string)

  /** Position of a field's check in the validation sequence. */
  function Rank(f: Field): nat {
    match f
    case Entity => 0
    case BuySell => 1
    case AgreedFx => 2
    case Currency => 3
    case InstructionDateString => 4
    case SettlementDateString => 5
    case Units => 6
    case PricePerUnit => 7
  }

  /** What is required of each field of a valid order. */
  predicate Holds(t: Transaction, f: Field) {
    match f
    case Entity => t.entity != []
    case BuySell => t.buySell in {'B', 'S'}
    case AgreedFx => t.agreedFx > 0.0
    case Currency => |t.currency| == 3
    case InstructionDateString => t.instructionDateString != []
    case SettlementDateString => t.settlementDateString != []
    case Units => t.units > 0
    case PricePerUnit => t.pricePerUnit > 0.0
  }

  /** The message reported for a failed check; the price check reuses the rate's message. */
  function Message(f: Field): string {
    match f
    case Entity => "Entity cannot be empty"
    case BuySell => "Buy / Sell must be 'B' or 'S'"
    case AgreedFx => "AgreedFx may not be zero or nrgative"
    case Currency => "Currency must have 3 characters"
    case InstructionDateString => "InstructionDate cannot be empty"
    case SettlementDateString => "SettlementDate cannot be empty"
    case Units => "Cannot be 0 or negative"
    case PricePerUnit => "AgreedFx may not be zero or nrgative"
  }

  /** Every check passes. */
  predicate WellFormed(t: Transaction) {
    && t.entity != []
    && (t.buySell == 'B' || t.buySell == 'S')
    && t.agreedFx > 0.0
    && |t.currency| == 3
    && t.instructionDateString != []
    && t.settlementDateString != []
    && t.units > 0
    && t.pricePerUnit > 0.0
  }

  /**
   * The constructor's checks, run in order: None when the order is valid,
   * otherwise the first check that fails, with its message.
   */
  function Validate(t: Transaction): (r: Option<ValidationError>)
    ensures r.None? <==> WellFormed(t)
    ensures r.Some? ==> !Holds(t, r.value.field) && r.value.message == Message(r.value.field)
    ensures r.Some? ==> forall f :: Rank(f) < Rank(r.value.field) ==> Holds(t, f)
  {
    if |t.entity| == 0 then Some(ValidationError(Entity, Message(Entity)))
    else if t.buySell != 'B' && t.buySell != 'S' then Some(ValidationError(BuySell, Message(BuySell)))
    else if t.agreedFx <= 0.0 then Some(ValidationError(AgreedFx, Message(AgreedFx)))
    else if |t.currency| != 3 then Some(ValidationError(Currency, Message(Currency)))
    else if |t.instructionDateString| == 0 then Some(ValidationError(InstructionDateString, Message(InstructionDateString)))
    else if |t.settlementDateString| == 0 then Some(ValidationError(SettlementDateString, Message(SettlementDateString)))
    else if t.units <= 0 then Some(ValidationError(Units, Message(Units)))
    else if t.pricePerUnit <= 0.0 then Some(ValidationError(PricePerUnit, Message(PricePerUnit)))
    else None
  }

  /** A valid order is one that passes every check. */
  lemma {:induction false} WellFormedIffEveryCheckHolds(t: Transaction)
    ensures WellFormed(t) <==> forall f :: Holds(t, f)
  {
    if !WellFormed(t) {
      var f := Validate(t).value.field;
      assert !Holds(t, f);
    }
  }

  /** An order that exists: the constructor throws rather than build an invalid one. */
  type ValidTransaction = t: Transaction | WellFormed(t)
    witness Transaction("XYZ", 'B', 1.0, "GBP", "1 Mar 2017", "3 Mar 2017", 1, 1.0)

  /** The constructor: the order made of the given fields, or the first check it fails. */
  function NewTransaction(entity: string, buySell: char, agreedFx: real, currency: string,
                          instructionDate: string, settlementDate: string, units: int,
                          pricePerUnit: real): (r: Result<ValidTransaction, ValidationError>)
    ensures var t := Transaction(entity, buySell, agreedFx, currency, instructionDate, settlementDate, units, pricePerUnit);
      && (r.Success? <==> WellFormed(t))
      && (r.Success? ==> r.value == t)
      && (r.Failure? ==> Validate(t) == Some(r.error))
  {
    var t := Transaction(entity, buySell, agreedFx, currency, instructionDate, settlementDate, units, pricePerUnit);
    match Validate(t)
    case None => Success(t)
    case Some(e) => Failure(e)
  }

  /** `operator==`: field-by-field comparison, which is equality of orders. */
  function Equals(a: Transaction, b: Transaction): (r: bool)
    ensures r <==> a == b
  {
    a.entity == b.entity && a.buySell == b.buySell && a.agreedFx == b.agreedFx
    && a.currency == b.currency && a.instructionDateString == b.instructionDateString
    && a.settlementDateString == b.settlementDateString && a.units == b.units
    && a.pricePerUnit == b.pricePerUnit
  }

  /** The cash value of an order: rate times price times units; positive for every valid order. */
  function DollarPrice(t: ValidTransaction): (r: real)
    ensures r > 0.0
  {
    assert t.agreedFx * t.pricePerUnit > 0.0;
    t.agreedFx * t.pricePerUnit * t.units as real
  }

  /**
   * The settlement date as the report shows it: parsed from the settlement string,
   * moved past the weekend of the order's currency, then formatted. Recomputed
   * from the fields on every call.
   */
  function SettlementDate(t: ValidTransaction): (r: Result<string, DateError>)
    ensures r.Success? <==> ParseFields(t.settlementDateString).Success?
    ensures r.Success? ==> r.value != []
  {
    match AdjustedDate(t.settlementDateString, t.currency)
    case Failure(e) => Failure(e)
    case Success(d) => Success(Format(d))
  }
}
