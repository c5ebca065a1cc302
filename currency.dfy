/** A monetary amount tagged with a currency code, converted and combined
    through a fixed table of exchange rates against the US dollar. */
module CurrencyExchange {

  /** A currency code such as "EUR". It is a plain string: constructing a
      value never checks it, only a rate lookup does. */
  type Unit = string

  /** The pivot currency of every conversion. */
  const USD: Unit := "USD"

  /** Units of each currency per 1 USD. */
  const Rates: map<Unit, real> := map[
    "CHF" := 0.842935,  // Swiss franc
    "CAD" := 1.36,      // Canadian dollar
    "GBP" := 0.76,      // British pound
    "JPY" := 142.31,    // Japanese yen
    "EUR" := 0.90,      // euro
    "USD" := 1.0        // US dollar
  ]

  /** A code the rate table knows; looking up any other code fails. */
  predicate Known(u: Unit) {
    u in Rates
  }

  /** The rate of a known code: positive, and 1 for the pivot. */
  function Rate(u: Unit): (r: real)
    requires Known(u)
    ensures r > 0.0
    ensures u == USD <==> r == 1.0
  {
    Rates[u]
  }

  /** The table holds exactly the six codes. */
  lemma KnownCodes(u: Unit)
    ensures Known(u) <==> u in {"CHF", "CAD", "GBP", "JPY", "EUR", "USD"}
  {
  }

  /** The state of a currency value: an amount and its code. */
  datatype Money = Money(value: real, unit: Unit)

  /** What a value is worth in the pivot currency. */
  function Worth(x: Money): (w: real)
    requires Known(x.unit)
    ensures x.unit == USD ==> w == x.value
  {
    x.value / Rate(x.unit)
  }

  /** An amount in `from` rescaled through USD into `to`. */
  function Convert(amount: real, from: Unit, to: Unit): (r: real)
    requires Known(from) && Known(to)
    ensures r / Rate(to) == amount / Rate(from)
  {
    amount / Rate(from) * Rate(to)
  }

  /** The value `x` expressed in `to`: same worth, new code. */
  function Converted(x: Money, to: Unit): (r: Money)
    requires Known(x.unit) && Known(to)
    ensures r.unit == to && Worth(r) == Worth(x)
  {
    Money(Convert(x.value, x.unit, to), to)
  }

  /** Conversion is determined by its worth: a value in `to` worth as much
      as `x` is `x` converted to `to`. */
  lemma ConvertedUnique(x: Money, y: Money)
    requires Known(x.unit) && Known(y.unit)
    ensures Worth(y) == Worth(x) <==> y == Converted(x, y.unit)
  {
  }

  /** Converting to another code and back restores the value exactly. */
  lemma ConvertRoundTrip(x: Money, u: Unit)
    requires Known(x.unit) && Known(u)
    ensures Converted(Converted(x, u), x.unit) == x
  {
  }

  /** Converting twice is converting once, to the last code. */
  lemma ConvertCompose(x: Money, u: Unit, w: Unit)
    requires Known(x.unit) && Known(u) && Known(w)
    ensures Converted(Converted(x, u), w) == Converted(x, w)
  {
  }

  /** Every value in a known code is the conversion of some value in any
      other known code, so conversion between two codes is a bijection. */
  lemma ConvertOnto(y: Money, from: Unit)
    requires Known(y.unit) && Known(from)
    ensures exists x: Money :: x.unit == from && Converted(x, y.unit) == y
  {
    ConvertRoundTrip(y, from);
  }

  /** Converting into the code a value already has changes nothing. */
  lemma ConvertToSame(x: Money)
    requires Known(x.unit)
    ensures Converted(x, x.unit) == x
  {
  }

  /** The right operand of `+` and `-`: a plain number (read as USD) or a
      currency value. */
  datatype Operand<C> = Num(n: real) | Cur(c: C)

  /** An operand whose lookup succeeds. */
  predicate OperandKnown(o: Operand<Money>) {
    o.Num? || Known(o.c.unit)
  }

  /** What an operand is worth in USD: a plain number is taken as USD. */
  function OperandWorth(o: Operand<Money>): real
    requires OperandKnown(o)
  {
    match o
    case Num(n) => n
    case Cur(m) => Worth(m)
  }

  /** The amount the operand contributes when expressed in the code `u`. */
  function Delta(o: Operand<Money>, u: Unit): (d: real)
    requires OperandKnown(o) && Known(u)
    ensures d / Rate(u) == OperandWorth(o)
  {
    match o
    case Num(n) => n * Rate(u)
    case Cur(m) => Convert(m.value, m.unit, u)
  }

  /** `x + o`: the result keeps the left operand's code, and its worth is
      the sum of the operands' worths. */
  function Plus(x: Money, o: Operand<Money>): (r: Money)
    requires Known(x.unit) && OperandKnown(o)
    ensures r.unit == x.unit
    ensures Worth(r) == Worth(x) + OperandWorth(o)
  {
    Money(Delta(o, x.unit) + x.value, x.unit)
  }

  /** `x - o`: the result keeps the left operand's code, and its worth is
      the difference of the operands' worths. */
  function Minus(x: Money, o: Operand<Money>): (r: Money)
    requires Known(x.unit) && OperandKnown(o)
    ensures r.unit == x.unit
    ensures Worth(r) == Worth(x) - OperandWorth(o)
  {
    Money(x.value - Delta(o, x.unit), x.unit)
  }

  /** `n + x` with a plain number on the left: always in USD, and worth the
      number plus the worth of `x`. */
  function RPlus(x: Money, n: real): (r: Money)
    requires Known(x.unit)
    ensures r.unit == USD && Worth(r) == n + Worth(x)
  {
    Money(n + Worth(x), USD)
  }

  /** `n - x` with a plain number on the left: the number is NOT rescaled,
      it is taken as an amount in the code of `x`; the difference is then
      expressed in USD. */
  function RMinus(x: Money, n: real): (r: Money)
    requires Known(x.unit)
    ensures r.unit == USD && r.value == n / Rate(x.unit) - Worth(x)
  {
    Converted(Money(n - x.value, x.unit), USD)
  }

  /** A plain number behaves exactly like a USD value of that amount. */
  lemma NumberIsUsd(x: Money, n: real)
    requires Known(x.unit)
    ensures Plus(x, Num(n)) == Plus(x, Cur(Money(n, USD)))
    ensures Minus(x, Num(n)) == Minus(x, Cur(Money(n, USD)))
  {
  }

  /** Adding or subtracting the number 0 changes nothing. */
  lemma PlusZero(x: Money)
    requires Known(x.unit)
    ensures Plus(x, Num(0.0)) == x
    ensures Minus(x, Num(0.0)) == x
  {
  }

  /** With operands of one code the rates cancel: the amounts are added or
      subtracted directly. */
  lemma SameUnit(x: Money, y: Money)
    requires Known(x.unit) && y.unit == x.unit
    ensures Plus(x, Cur(y)) == Money(x.value + y.value, x.unit)
    ensures Minus(x, Cur(y)) == Money(x.value - y.value, x.unit)
  {
  }

  /** Subtracting what was added restores the value, code included. */
  lemma PlusThenMinus(x: Money, d: Operand<Money>)
    requires Known(x.unit) && OperandKnown(d)
    ensures Minus(Plus(x, d), d) == x
  {
  }

  /** `x + y` and `y + x` are the same amount, each in its left operand's
      code. */
  lemma PlusCommutesUpToUnit(x: Money, y: Money)
    requires Known(x.unit) && Known(y.unit)
    ensures Converted(Plus(x, Cur(y)), y.unit) == Plus(y, Cur(x))
  {
  }

  /** Adding and then converting is converting and then adding. */
  lemma ConvertPlus(x: Money, o: Operand<Money>, u: Unit)
    requires Known(x.unit) && OperandKnown(o) && Known(u)
    ensures Converted(Plus(x, o), u) == Plus(Converted(x, u), o)
    ensures Converted(Minus(x, o), u) == Minus(Converted(x, u), o)
  {
  }

  /** `n - x` is the value `n` in the code of `x`, minus `x`, expressed in
      USD. */
  lemma RMinusIsConvertedMinus(x: Money, n: real)
    requires Known(x.unit)
    ensures RMinus(x, n) == Converted(Minus(Money(n, x.unit), Cur(x)), USD)
  {
  }

  /** `n + x` is `x + n` expressed in USD. */
  lemma RPlusIsConvertedPlus(x: Money, n: real)
    requires Known(x.unit)
    ensures RPlus(x, n) == Converted(Plus(x, Num(n)), USD)
  {
  }

  /** For a USD value the reversed addition is the ordinary one. */
  lemma RPlusInUsd(x: Money, n: real)
    requires x.unit == USD
    ensures RPlus(x, n) == Plus(x, Num(n))
  {
  }

  /** For a USD value the reversed subtraction is plain `n - x.value`. */
  lemma RMinusInUsd(x: Money, n: real)
    requires x.unit == USD
    ensures RMinus(x, n) == Money(n - x.value, USD)
  {
  }

  /** Unlike `n + x`, `n - x` reads the number in the code of `x`: for
      22.42 EUR the number 3 is subtracted as 3 EUR, not as 3 USD. */
  lemma RMinusDoesNotRescale()
    ensures RMinus(Money(22.42, "EUR"), 3.0) != Money(3.0 - Worth(Money(22.42, "EUR")), USD)
    ensures RMinus(Money(22.42, "EUR"), 3.0) == Money((3.0 - 22.42) / 0.90, USD)
  {
  }

  /** The view of an operand that holds a live object. */
  function OperandModel(o: Operand<Currency>): Operand<Money>
    reads if o.Cur? then {o.c} else {}
  {
    match o
    case Num(n) => Num(n)
    case Cur(c) => Cur(c.Model())
  }

  /** A currency value whose amount and code conversion overwrites. */
  class Currency {
    var value: real
    var unit: Unit

    /** Stores the pair as given; the code defaults to USD. */
    constructor (value: real, unit: Unit := USD)
      ensures this.value == value && this.unit == unit
    {
      this.value := value;
      this.unit := unit;
    }

    /** The current state as a value. */
    function Model(): Money
      reads this
    {
      Money(value, unit)
    }

    /** Rescales the amount through USD into `newUnit`, in place. */
    method ChangeTo(newUnit: Unit)
      requires Known(unit) && Known(newUnit)
      modifies this
      ensures unit == newUnit
      ensures value == Convert(old(value), old(unit), newUnit)
      ensures Model() == Converted(old(Model()), newUnit)
    {
      value := value / Rate(unit) * Rate(newUnit);
      unit := newUnit;
    }

    /** `this + other`: a new value in this value's code; neither operand
        changes. */
    method Add(other: Operand<Currency>) returns (res: Currency)
      requires Known(unit) && OperandKnown(OperandModel(other))
      ensures fresh(res) && res.Model() == Plus(Model(), OperandModel(other))
    {
      var x := Delta(OperandModel(other), unit);
      res := new Currency(x + value, unit);
    }

    /** `this += other`: rebinds to the same new value `+` gives; this
        object itself is left as it was. */
    method IAdd(other: Operand<Currency>) returns (res: Currency)
      requires Known(unit) && OperandKnown(OperandModel(other))
      ensures fresh(res) && res.Model() == Plus(Model(), OperandModel(other))
    {
      res := Add(other);
    }

    /** `n + this`: the sum `this + n`, then moved to USD when this value
        is in another code. */
    method RAdd(n: real) returns (res: Currency)
      requires Known(unit)
      ensures fresh(res) && res.Model() == RPlus(Model(), n)
    {
      res := Add(Num(n));
      if unit != USD {
        res.ChangeTo(USD);
      }
    }

    /** `this - other`: a new value in this value's code; neither operand
        changes. */
    method Sub(other: Operand<Currency>) returns (res: Currency)
      requires Known(unit) && OperandKnown(OperandModel(other))
      ensures fresh(res) && res.Model() == Minus(Model(), OperandModel(other))
    {
      var x := Delta(OperandModel(other), unit);
      res := new Currency(value - x, unit);
    }

    /** `this -= other`: rebinds to the same new value `-` gives; this
        object itself is left as it was. */
    method ISub(other: Operand<Currency>) returns (res: Currency)
      requires Known(unit) && OperandKnown(OperandModel(other))
      ensures fresh(res) && res.Model() == Minus(Model(), OperandModel(other))
    {
      res := Sub(other);
    }

    /** `n - this`: the raw difference `n - value` in this value's code,
        then moved to USD when that code is not USD. */
    method RSub(n: real) returns (res: Currency)
      requires Known(unit)
      ensures fresh(res) && res.Model() == RMinus(Model(), n)
    {
      res := new Currency(n - value, unit);
      if unit != USD {
        res.ChangeTo(USD);
      }
    }
  }
}
