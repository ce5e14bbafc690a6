/** The sale of a position, read off the account's own operations feed. */
module Sales {
  import opened Collections
  import opened Models

  /** An executed operation. `fee` is zero unless the broker calls it a commission. */
  datatype Operation = Operation(id: nat, ticker: string, isSale: bool, price: Option<real>, quantity: Option<int>,
                                 fee: real, parent: Option<nat>, at: int)

  datatype Sale = Sale(price: real, at: int, fee: real)

  predicate IsSaleOf(ticker: string, o: Operation) {
    o.ticker == ticker && o.isSale && o.price.Some? && o.quantity.Some? && o.quantity.value != 0
  }

  function SalesOf(ticker: string, feed: seq<Operation>): (sales: seq<Operation>)
    ensures forall o :: o in sales <==> o in feed && IsSaleOf(ticker, o)
  {
    if feed == [] then []
    else (if IsSaleOf(ticker, feed[0]) then [feed[0]] else []) + SalesOf(ticker, feed[1..])
  }

  function Abs(n: int): nat {
    if n < 0 then -n else n
  }

  function Size(o: Operation): real {
    if o.quantity.Some? then Abs(o.quantity.value) as real else 0.0
  }

  function Paid(o: Operation): real {
    if o.price.Some? then o.price.value * Size(o) else 0.0
  }

  function Units(sales: seq<Operation>): real {
    SumOf(sales, Size)
  }

  function Gross(sales: seq<Operation>): real {
    SumOf(sales, Paid)
  }

  function Latest(sales: seq<Operation>): (at: int)
    requires sales != []
    ensures forall o :: o in sales ==> o.at <= at
    ensures exists o :: o in sales && o.at == at
  {
    if |sales| == 1 then sales[0].at
    else
      var later := Latest(sales[1..]);
      if sales[0].at > later then sales[0].at else later
  }

  function Fees(feed: seq<Operation>, sold: set<nat>): real {
    if feed == [] then 0.0
    else (if feed[0].parent.Some? && feed[0].parent.value in sold then feed[0].fee else 0.0) + Fees(feed[1..], sold)
  }

  function Average(gross: real, units: real): real {
    if units == 0.0 then 0.0 else gross / units
  }

  /** Every executed sale of the instrument counts, at the quantity-weighted average price. */
  function ResolveSale(ticker: string, feed: seq<Operation>): (sale: Option<Sale>) {
    var sales := SalesOf(ticker, feed);
    if sales == [] || Units(sales) <= 0.0 then None
    else Some(Sale(Average(Gross(sales), Units(sales)), Latest(sales), Fees(feed, set o | o in sales :: o.id)))
  }

  // ------------------------------------------------------------------ what the resolved sale is

  lemma {:induction false} UnitsPositive(sales: seq<Operation>)
    requires forall o :: o in sales ==> o.quantity.Some? && o.quantity.value != 0
    ensures Units(sales) >= 0.0 && (sales != [] ==> Units(sales) > 0.0)
  {
    if sales != [] {
      UnitsPositive(sales[1..]);
      assert sales[0] in sales && Size(sales[0]) > 0.0;
    }
  }

  /** The feed resolves the exit exactly when it holds an executed sale of the instrument. */
  lemma ResolvesIffSold(ticker: string, feed: seq<Operation>)
    ensures ResolveSale(ticker, feed).Some? <==> exists o :: o in feed && IsSaleOf(ticker, o)
  {
    var sales := SalesOf(ticker, feed);
    UnitsPositive(sales);
    if sales != [] {
      assert sales[0] in sales;
    }
  }

  lemma PaidWithin(o: Operation, low: real, high: real)
    requires o.price.Some? && low <= o.price.value <= high
    ensures Between(low, Paid(o), high, Size(o))
  {
    var p, q := o.price.value, Size(o);
    assert (p - low) * q >= 0.0 && (high - p) * q >= 0.0;
  }

  lemma AverageWithin(low: real, a: real, high: real, b: real)
    requires b > 0.0 && Between(low, a, high, b)
    ensures low <= Average(a, b) <= high
  {
    var x := a / b;
    assert x * b == a;
    assert x < low ==> (low - x) * b > 0.0;
    assert x > high ==> (x - high) * b > 0.0;
  }

  /** The exit price lies between the lowest and the highest price the shares were sold at: no
      reading of the broker's units can move it outside. */
  lemma PriceWithinSales(ticker: string, feed: seq<Operation>, low: real, high: real)
    requires ResolveSale(ticker, feed).Some?
    requires forall o :: o in feed && IsSaleOf(ticker, o) ==> low <= o.price.value <= high
    ensures low <= ResolveSale(ticker, feed).value.price <= high
  {
    var sales := SalesOf(ticker, feed);
    forall i | 0 <= i < |sales| ensures Between(low, Paid(sales[i]), high, Size(sales[i])) {
      assert sales[i] in sales;
      PaidWithin(sales[i], low, high);
    }
    SumOfWithin(sales, Paid, Size, low, high);
    AverageWithin(low, Gross(sales), high, Units(sales));
  }

  /** The same operation with its quantity in other units: lots instead of shares, or the reverse. */
  function InUnits(o: Operation, c: int): Operation {
    o.(quantity := if o.quantity.Some? then Some(o.quantity.value * c) else None)
  }

  function Rescaled(feed: seq<Operation>, c: int): (r: seq<Operation>)
    ensures |r| == |feed| && forall i :: 0 <= i < |r| ==> r[i] == InUnits(feed[i], c)
  {
    if feed == [] then [] else [InUnits(feed[0], c)] + Rescaled(feed[1..], c)
  }

  lemma SaleInUnits(ticker: string, o: Operation, c: int)
    requires c > 0
    ensures IsSaleOf(ticker, InUnits(o, c)) <==> IsSaleOf(ticker, o)
  {
    if o.quantity.Some? {
      AbsScales(o.quantity.value, c);
    }
  }

  lemma {:induction false} RescaledSales(ticker: string, feed: seq<Operation>, c: int)
    requires c > 0
    ensures SalesOf(ticker, Rescaled(feed, c)) == Rescaled(SalesOf(ticker, feed), c)
  {
    if feed != [] {
      RescaledSales(ticker, feed[1..], c);
      SaleInUnits(ticker, feed[0], c);
      assert Rescaled(feed, c)[1..] == Rescaled(feed[1..], c);
    }
  }

  lemma SizeScales(o: Operation, c: int)
    requires c > 0
    ensures Scales(c as real, Size(o), Size(InUnits(o, c)))
  {
    if o.quantity.Some? {
      AbsScales(o.quantity.value, c);
      assert (c * Abs(o.quantity.value)) as real == c as real * Abs(o.quantity.value) as real;
    }
  }

  lemma PaidScales(o: Operation, c: int)
    requires c > 0
    ensures Scales(c as real, Paid(o), Paid(InUnits(o, c)))
  {
    SizeScales(o, c);
    if o.price.Some? {
      Regroup(o.price.value, Size(o), c as real, Size(InUnits(o, c)));
    }
  }

  lemma Regroup(p: real, n: real, c: real, scaled: real)
    requires scaled == c * n
    ensures p * scaled == c * (p * n)
  {
  }

  lemma RescaledTotals(sales: seq<Operation>, c: int)
    requires c > 0
    ensures Scales(c as real, Units(sales), Units(Rescaled(sales, c)))
    ensures Scales(c as real, Gross(sales), Gross(Rescaled(sales, c)))
  {
    var r := Rescaled(sales, c);
    forall i | 0 <= i < |sales|
      ensures Scales(c as real, Size(sales[i]), Size(r[i])) && Scales(c as real, Paid(sales[i]), Paid(r[i]))
    {
      SizeScales(sales[i], c);
      PaidScales(sales[i], c);
    }
    SumOfScaled(sales, r, Size, c as real);
    SumOfScaled(sales, r, Paid, c as real);
  }

  lemma AbsScales(n: int, c: int)
    requires c > 0
    ensures Abs(n * c) == c * Abs(n) && (n * c == 0 <==> n == 0)
  {
    assert n < 0 ==> n * c < 0;
    assert n > 0 ==> n * c > 0;
  }

  lemma {:induction false} RescaledLatest(sales: seq<Operation>, c: int)
    requires sales != []
    ensures Latest(Rescaled(sales, c)) == Latest(sales)
  {
    if |sales| > 1 {
      assert Rescaled(sales, c)[1..] == Rescaled(sales[1..], c);
      RescaledLatest(sales[1..], c);
    }
  }

  lemma RescaledIds(sales: seq<Operation>, c: int)
    ensures (set o | o in Rescaled(sales, c) :: o.id) == (set o | o in sales :: o.id)
  {
    var r := Rescaled(sales, c);
    forall o | o in sales ensures o.id in set p | p in r :: p.id {
      var i :| 0 <= i < |sales| && sales[i] == o;
      assert r[i] in r;
    }
    forall o | o in r ensures o.id in set p | p in sales :: p.id {
      var i :| 0 <= i < |r| && r[i] == o;
      assert sales[i] in sales;
    }
  }

  lemma {:induction false} RescaledFees(feed: seq<Operation>, c: int, sold: set<nat>)
    ensures Fees(Rescaled(feed, c), sold) == Fees(feed, sold)
  {
    if feed != [] {
      assert Rescaled(feed, c)[1..] == Rescaled(feed[1..], c);
      RescaledFees(feed[1..], c, sold);
    }
  }

  lemma AverageScales(a: real, b: real, k: real, a': real, b': real)
    requires b > 0.0 && k > 0.0 && Scales(k, a, a') && Scales(k, b, b')
    ensures b' > 0.0 && Average(a', b') == Average(a, b)
  {
    var x := a / b;
    assert k * b > 0.0;
    assert k * a == x * (k * b);
    assert (x * (k * b)) / (k * b) == x;
  }

  lemma RescaledAverage(sales: seq<Operation>, c: int)
    requires sales != [] && c > 0 && forall o :: o in sales ==> o.quantity.Some? && o.quantity.value != 0
    ensures Units(sales) > 0.0 && Units(Rescaled(sales, c)) > 0.0
    ensures Average(Gross(Rescaled(sales, c)), Units(Rescaled(sales, c))) == Average(Gross(sales), Units(sales))
  {
    RescaledTotals(sales, c);
    UnitsPositive(sales);
    AverageScales(Gross(sales), Units(sales), c as real, Gross(Rescaled(sales, c)), Units(Rescaled(sales, c)));
  }

  /** The units cancel: price, time and fee are the same whether the broker counts lots or shares. */
  lemma UnitsCancel(ticker: string, feed: seq<Operation>, c: int)
    requires c > 0
    ensures ResolveSale(ticker, Rescaled(feed, c)) == ResolveSale(ticker, feed)
  {
    var sales := SalesOf(ticker, feed);
    RescaledSales(ticker, feed, c);
    if sales != [] {
      RescaledAverage(sales, c);
      RescaledLatest(sales, c);
      RescaledIds(sales, c);
      RescaledFees(feed, c, set o | o in sales :: o.id);
    }
  }

  // ------------------------------------------------------------------ what each operation contributes

  lemma {:induction false} SalesAppend(ticker: string, feed: seq<Operation>, o: Operation)
    ensures SalesOf(ticker, feed + [o]) == SalesOf(ticker, feed) + if IsSaleOf(ticker, o) then [o] else []
  {
    if feed != [] {
      assert (feed + [o])[1..] == feed[1..] + [o];
      SalesAppend(ticker, feed[1..], o);
    }
  }

  lemma {:induction false} FeesAppend(feed: seq<Operation>, o: Operation, sold: set<nat>)
    ensures Fees(feed + [o], sold)
            == Fees(feed, sold) + if o.parent.Some? && o.parent.value in sold then o.fee else 0.0
  {
    if feed != [] {
      assert (feed + [o])[1..] == feed[1..] + [o];
      FeesAppend(feed[1..], o, sold);
    }
  }

  lemma AverageTimesUnits(gross: real, units: real)
    requires units > 0.0
    ensures Average(gross, units) * units == gross
  {
  }

  lemma SameAverage(price: real, units: real)
    requires units > 0.0
    ensures Average(price * units, units) == price
  {
    AverageTimesUnits(price * units, units);
    var x := Average(price * units, units);
    assert (x - price) * units == 0.0;
  }

  lemma SaleTotals(ticker: string, feed: seq<Operation>, o: Operation)
    requires IsSaleOf(ticker, o)
    ensures var sales, more := SalesOf(ticker, feed), SalesOf(ticker, feed + [o]);
            && Units(more) == Units(sales) + Size(o) && Gross(more) == Gross(sales) + o.price.value * Size(o)
            && Units(more) > 0.0 && more != []
            && if sales == [] then Units(sales) == Gross(sales) == 0.0 else Units(sales) > 0.0
  {
    var sales := SalesOf(ticker, feed);
    SalesAppend(ticker, feed, o);
    SumOfConcat(sales, [o], Size);
    SumOfConcat(sales, [o], Paid);
    UnitsPositive(sales);
    UnitsPositive(sales + [o]);
  }

  /** One more sale moves the average by its weight, the absolute quantity: the price times all that was sold
      is what the sales brought. */
  lemma SaleWeighsIn(ticker: string, feed: seq<Operation>, o: Operation)
    requires IsSaleOf(ticker, o)
    ensures var q := (if o.quantity.value < 0 then -o.quantity.value else o.quantity.value) as real;
            var units, more := Units(SalesOf(ticker, feed)), Units(SalesOf(ticker, feed + [o]));
            var before, after := ResolveSale(ticker, feed), ResolveSale(ticker, feed + [o]);
            && more == units + q && after.Some?
            && if before.None? then units == 0.0 && after.value.price == o.price.value
               else after.value.price * more == before.value.price * units + o.price.value * q
  {
    hide Average, SalesOf, Units, Gross, Fees, Latest;
    var sales, more := SalesOf(ticker, feed), SalesOf(ticker, feed + [o]);
    SaleTotals(ticker, feed, o);
    AverageTimesUnits(Gross(more), Units(more));
    if sales == [] {
      SameAverage(o.price.value, Size(o));
    } else {
      AverageTimesUnits(Gross(sales), Units(sales));
    }
  }

  /** An operation that is no sale changes neither price nor time, and adds its commission exactly when it is
      listed under a sale; until one is, the commission is zero. */
  lemma CommissionAddsUp(ticker: string, feed: seq<Operation>, o: Operation)
    requires !IsSaleOf(ticker, o) && ResolveSale(ticker, feed).Some?
    ensures var before, after := ResolveSale(ticker, feed).value, ResolveSale(ticker, feed + [o]);
            after == Some(before.(fee := before.fee +
              if exists s :: s in feed && IsSaleOf(ticker, s) && o.parent == Some(s.id) then o.fee else 0.0))
    ensures (forall f, s :: f in feed && s in feed && IsSaleOf(ticker, s) ==> f.parent != Some(s.id)) ==>
              ResolveSale(ticker, feed).value.fee == 0.0
  {
    var sales := SalesOf(ticker, feed);
    var sold := set s | s in sales :: s.id;
    SalesAppend(ticker, feed, o);
    assert sales + [] == sales;
    FeesAppend(feed, o, sold);
    assert (o.parent.Some? && o.parent.value in sold) <==>
           exists s :: s in feed && IsSaleOf(ticker, s) && o.parent == Some(s.id);
    if forall f, s :: f in feed && s in feed && IsSaleOf(ticker, s) ==> f.parent != Some(s.id) {
      NoFees(feed, sold);
    }
  }

  lemma {:induction false} NoFees(feed: seq<Operation>, sold: set<nat>)
    requires forall f :: f in feed ==> f.parent.None? || f.parent.value !in sold
    ensures Fees(feed, sold) == 0.0
  {
    if feed != [] {
      assert feed[0] in feed;
      NoFees(feed[1..], sold);
    }
  }
}
