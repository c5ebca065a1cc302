# Currency exchange calculator, modelled in Dafny

The program defines one value type, `Currency`. It pairs a numeric `value` with a
currency code `unit`. A fixed class-level table gives, for CHF, CAD, GBP, JPY, EUR
and USD, the number of units of that currency per 1 USD. USD is the pivot with rate
1.0. The type supports:

- **conversion**: `changeTo` rescales the amount through USD and overwrites both
  fields of the object;
- **arithmetic**: `+` and `-` take a `Currency` or a plain number. A plain number is
  read as USD. The result is a new object in the left operand's code;
- **in-place forms**: `+=` and `-=` return exactly what `+` and `-` return. They
  rebind the name and do not touch the object;
- **reversed forms**: `number + x` and `number - x` always end in USD. `number - x`
  does not rescale the number. It subtracts the raw amount of `x` from it in `x`'s
  code and converts that difference to USD.

`currency.dfy` (module `CurrencyExchange`) holds the model:

- the rate table `Rates` over codes (`Unit = string`);
- the value view `Money(value, unit)`;
- `Worth`, the USD equivalent of a value;
- the pure specification functions `Convert`/`Converted`, `Delta`, `Plus`, `Minus`,
  `RPlus` and `RMinus`, with lemmas about them;
- the class `Currency`. Its mutable fields `value` and `unit` are changed only by
  `ChangeTo`. Its methods `Add`, `IAdd`, `RAdd`, `Sub`, `ISub` and `RSub` allocate
  the result and are proved against the specification functions.

`Operand<C> = Num(real) | Cur(C)` is the right operand of `+` and `-`. The methods
take `Operand<Currency>`; the specification functions take `Operand<Money>`.

`RPlus` and `RMinus` are independent reference definitions:

- `RPlus(x, n)` is `n` plus the worth of `x`, in USD;
- `RMinus(x, n)` is `n - x.value`, read in `x`'s code and converted to USD.

`RAdd` and `RSub` follow the source step by step: compute the intermediate object,
then call `ChangeTo("USD")` on it when `x` is not in USD. They are proved equal to
those definitions.

The arithmetic methods have no `modifies` clause. So Dafny's framing itself
guarantees that neither operand changes.

`demo.dfy` (module `Demo`) is the demonstration script at the end of `main.py`.
`Demo.Script` asserts the exact amount and code behind each printed line:

| expression | amount and code |
|---|---|
| `v1 + v2` | 40.393 EUR |
| `v2 + v1` | 19.97 + 22.42/0.90 USD |
| `v1 + 3` | 25.12 EUR |
| `3 + v1` | 25.12/0.90 USD |
| `v1 - 3` | 19.72 EUR |
| `30 - v2` | 10.03 USD |

Amounts are Dafny `real`, so these laws hold exactly: conversion round trips,
`x + 0 == x`, `(x + d) - d == x`. A rate lookup of a code missing from the table is
a Python `KeyError` in the source; here it is the precondition `Known(u)`.

## Model

| member | source | states |
|---|---|---|
| CurrencyExchange.Rate | main.py:16-21 | every rate in the table is positive, and the rate is 1.0 exactly for USD |
| CurrencyExchange.KnownCodes | main.py:16-21 | the table knows exactly the codes CHF, CAD, GBP, JPY, EUR and USD |
| CurrencyExchange.Worth | main.py:37 | dividing by the unit's rate gives the USD equivalent; a USD value is worth its own amount |
| CurrencyExchange.Convert | main.py:37 | the rescaled amount, divided by the new rate, equals the old amount divided by the old rate (the USD pivot) |
| CurrencyExchange.Converted | main.py:37-38 | conversion sets the code to the target and preserves the USD worth |
| CurrencyExchange.ConvertedUnique | main.py:37 | a value in code `u` is worth as much as `x` if and only if it is `x` converted to `u` |
| CurrencyExchange.ConvertRoundTrip | main.py:37 | converting A to B and back to A restores the original value exactly |
| CurrencyExchange.ConvertCompose | main.py:37-38 | converting A to B and then to C equals converting A to C directly |
| CurrencyExchange.ConvertOnto | main.py:37-38 | every value in a known code is the conversion of some value in any other known code |
| CurrencyExchange.ConvertToSame | main.py:37-38 | converting into the code a value already has leaves it unchanged |
| CurrencyExchange.Delta | main.py:48-51 | the operand's contribution in the left unit is worth exactly the operand: a number as USD, a currency by its rate |
| CurrencyExchange.Plus | main.py:40-52 | `x + o` keeps `x`'s code, and its worth is the sum of the two worths |
| CurrencyExchange.Minus | main.py:67-79 | `x - o` keeps `x`'s code, and its worth is the difference of the two worths |
| CurrencyExchange.RPlus | main.py:61-65 | `n + x` is in USD and worth `n` plus the worth of `x` |
| CurrencyExchange.RMinus | main.py:88-93 | `n - x` is in USD, with amount `n / rate[x.unit]` minus the worth of `x`: the number is not rescaled |
| CurrencyExchange.NumberIsUsd | main.py:48-79 | adding or subtracting the plain number `n` is the same as with the value `n USD` |
| CurrencyExchange.PlusZero | main.py:48-52 | `x + 0` and `x - 0` equal `x` in amount and code |
| CurrencyExchange.SameUnit | main.py:51-79 | with operands of one code the rates cancel: amounts are added or subtracted directly |
| CurrencyExchange.PlusThenMinus | main.py:40-79 | `(x + d) - d` equals `x` in amount and code, for a number or a currency `d` |
| CurrencyExchange.PlusCommutesUpToUnit | main.py:51-52 | `x + y` converted to `y`'s code equals `y + x` |
| CurrencyExchange.ConvertPlus | main.py:37-79 | converting a sum or difference equals adding or subtracting to the converted left operand |
| CurrencyExchange.RMinusIsConvertedMinus | main.py:88-93 | `n - x` equals (`n` in `x`'s code) minus `x`, converted to USD |
| CurrencyExchange.RPlusIsConvertedPlus | main.py:61-65 | `n + x` equals `x + n` converted to USD |
| CurrencyExchange.RPlusInUsd | main.py:61-65 | for a USD value the reversed addition equals the ordinary addition |
| CurrencyExchange.RMinusInUsd | main.py:88-93 | for a USD value `n - x` is exactly `n - x.value` in USD |
| CurrencyExchange.RMinusDoesNotRescale | main.py:88-93 | `3 - 22.42 EUR` is `(3 - 22.42) / 0.90` USD, not 3 USD minus the worth of 22.42 EUR |
| CurrencyExchange.Currency.constructor | main.py:23-25 | stores the amount and code as given, without a table lookup |
| CurrencyExchange.Currency.ChangeTo | main.py:33-38 | in place: the code becomes the target, and the amount becomes old amount / old rate * new rate |
| CurrencyExchange.Currency.Add | main.py:40-52 | a fresh object whose state is `Plus` of this value and the operand; nothing else changes |
| CurrencyExchange.Currency.IAdd | main.py:55-59 | returns a fresh object equal to `Add`'s result; the receiver is not mutated |
| CurrencyExchange.Currency.RAdd | main.py:61-65 | adding and then calling `ChangeTo("USD")` when not in USD yields exactly `RPlus` |
| CurrencyExchange.Currency.Sub | main.py:67-79 | a fresh object whose state is `Minus` of this value and the operand; nothing else changes |
| CurrencyExchange.Currency.ISub | main.py:82-86 | returns a fresh object equal to `Sub`'s result; the receiver is not mutated |
| CurrencyExchange.Currency.RSub | main.py:88-93 | the raw difference in this code, then `ChangeTo("USD")` when not in USD, yields exactly `RMinus` |

## Left out

- `__str__` and `__repr__` (main.py:27-31) are not modelled. They render with Python's float `round(…, 2)`, which is cosmetic float and string behaviour. `Demo.Script` asserts the exact amounts behind the printed strings instead.
- The `print` calls of the script (main.py:98-105) are console output; only the values they print are modelled.
- IEEE-754 floats are not modelled. Amounts and rates are `real`, so the round trip is exact here, while in the source it only holds approximately.
- Python's dispatch on `type(other) == int or float` (main.py:48, main.py:75) is replaced by the sum type `Operand`. So the `AttributeError` for other operand types (including `bool`) is not modelled.
- Python reaches `__radd__`/`__rsub__` only after `int.__add__`/`float.__sub__` return `NotImplemented`. That dispatch is not modelled: `RAdd` and `RSub` are called directly with the number.
- A `KeyError` for a code missing from the table is a precondition (`Known`), not an error result. The program never recovers from it.
- `Currency.currencies` is a class attribute that Python code could reassign. The model treats the rate table as a constant, as the program uses it.
