/** The library's demonstration script, with each printed line replaced by
    the exact amount and code it renders. */
module Demo {
  import opened CurrencyExchange

  method Script() {
    var v1 := new Currency(22.42, "EUR");
    var v2 := new Currency(19.97);
    assert v2.unit == USD;

    var a := v1.Add(Cur(v2));     // 40.39 EUR
    assert a.Model() == Money(40.393, "EUR");
    var b := v2.Add(Cur(v1));     // 44.88 USD
    assert b.Model() == Money(19.97 + 22.42 / 0.90, USD);
    var c := v1.Add(Num(3.0));    // 25.12 EUR
    assert c.Model() == Money(25.12, "EUR");
    var d := v1.RAdd(3.0);        // 27.91 USD
    assert d.Model() == Money(25.12 / 0.90, USD);
    var e := v1.Sub(Num(3.0));    // 19.72 EUR
    assert e.Model() == Money(19.72, "EUR");
    var f := v2.RSub(30.0);       // 10.03 USD
    assert f.Model() == Money(10.03, USD);

    // the operands are untouched by all of the above
    assert v1.Model() == Money(22.42, "EUR") && v2.Model() == Money(19.97, USD);
  }
}
