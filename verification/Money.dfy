/**
 Cart prices, Stripe line items, per-number margins and rupee conversion (lib/billing.js,
 lib/marginAnalytics.js, lib/razorpayBilling.js), over exact reals with the source's rounding.
 */
module Money {

  /** JavaScript's `Math.round`: halves go up. */
  function Round(x: real): (r: int)
    ensures x - 0.5 < r as real <= x + 0.5
  {
    (x + 0.5).Floor
  }

  function ToMoney(x: real): real {
    Round(x * 100.0) as real / 100.0
  }

  /** A whole number of cents. */
  predicate WholeCents(x: real) {
    (x * 100.0).Floor as real == x * 100.0
  }

  datatype Item = Item(upfront: real, monthly: real)

  datatype Rates = Rates(setup: real, monthly: real, firstMonth: real)

  /** `getTenantBillingRates` rounds each fee. */
  function BillingRates(setup: real, monthly: real, firstMonth: real): Rates {
    Rates(ToMoney(setup), ToMoney(monthly), ToMoney(firstMonth))
  }

  predicate WholeRates(rates: Rates) {
    WholeCents(rates.setup) && WholeCents(rates.monthly) && WholeCents(rates.firstMonth)
  }

  lemma RatesAreWhole(setup: real, monthly: real, firstMonth: real)
    ensures WholeRates(BillingRates(setup, monthly, firstMonth))
  {
    ToMoneyIsWhole(setup);
    ToMoneyIsWhole(monthly);
    ToMoneyIsWhole(firstMonth);
  }

  lemma ToMoneyIsWhole(x: real)
    ensures WholeCents(ToMoney(x))
  {
    assert ToMoney(x) * 100.0 == Round(x * 100.0) as real;
  }

  lemma RoundOfWhole(c: int)
    ensures Round(c as real) == c
  {
  }

  // ---- the cart ----

  function SumUpfront(items: seq<Item>): real {
    if items == [] then 0.0 else SumUpfront(items[..|items| - 1]) + items[|items| - 1].upfront
  }

  function SumMonthly(items: seq<Item>): real {
    if items == [] then 0.0 else SumMonthly(items[..|items| - 1]) + items[|items| - 1].monthly
  }

  datatype Pricing = Pricing(carrierUpfront: real, carrierMonthly: real, dueToday: real, recurringMonthly: real)

  /** What the customer owes today before rounding. */
  function Due(items: seq<Item>, rates: Rates): real {
    SumUpfront(items) + SumMonthly(items) + rates.setup * |items| as real + rates.firstMonth * |items| as real
  }

  function Recurring(items: seq<Item>, rates: Rates): real {
    SumMonthly(items) + rates.monthly * |items| as real
  }

  method SumCarrier(items: seq<Item>) returns (upfront: real, monthly: real)
    ensures upfront == SumUpfront(items) && monthly == SumMonthly(items)
  {
    upfront, monthly := 0.0, 0.0;
    for i := 0 to |items|
      invariant upfront == SumUpfront(items[..i]) && monthly == SumMonthly(items[..i])
    {
      assert items[..i + 1][..i] == items[..i];
      upfront := upfront + items[i].upfront;
      monthly := monthly + items[i].monthly;
    }
    assert items[..|items|] == items;
  }

  method CalculateCartPricing(items: seq<Item>, rates: Rates) returns (p: Pricing)
    ensures p.carrierUpfront == ToMoney(SumUpfront(items)) && p.carrierMonthly == ToMoney(SumMonthly(items))
    ensures p.dueToday == ToMoney(Due(items, rates))
    ensures p.recurringMonthly == ToMoney(Recurring(items, rates))
  {
    var upfront, monthly := SumCarrier(items);
    var count := |items| as real;
    var platformUpfront, platformFirstMonth := rates.setup * count, rates.firstMonth * count;
    var dueToday := upfront + monthly + platformUpfront + platformFirstMonth;
    var recurringMonthly := monthly + rates.monthly * count;
    assert dueToday == Due(items, rates) && recurringMonthly == Recurring(items, rates);
    p := Pricing(ToMoney(upfront), ToMoney(monthly), ToMoney(dueToday), ToMoney(recurringMonthly));
  }

  // ---- the Stripe line items ----

  datatype Line = Line(recurring: bool, cents: int)

  function Extra(rates: Rates): real {
    if rates.firstMonth > rates.monthly then rates.firstMonth - rates.monthly else 0.0
  }

  function OneTime(item: Item, rates: Rates): real {
    item.upfront + rates.setup + Extra(rates)
  }

  function LinesOf(item: Item, rates: Rates): seq<Line> {
    [Line(true, Round((item.monthly + rates.monthly) * 100.0))]
    + if OneTime(item, rates) > 0.0 then [Line(false, Round(OneTime(item, rates) * 100.0))] else []
  }

  function LineItems(items: seq<Item>, rates: Rates): seq<Line> {
    if items == [] then [] else LineItems(items[..|items| - 1], rates) + LinesOf(items[|items| - 1], rates)
  }

  method BuildSubscriptionLineItems(items: seq<Item>, rates: Rates) returns (lines: seq<Line>)
    ensures lines == LineItems(items, rates)
  {
    lines := [];
    for i := 0 to |items|
      invariant lines == LineItems(items[..i], rates)
    {
      assert items[..i + 1][..i] == items[..i];
      var recurringTotal := items[i].monthly + rates.monthly;
      var extra := if rates.firstMonth - rates.monthly > 0.0 then rates.firstMonth - rates.monthly else 0.0;
      var oneTimeTotal := items[i].upfront + rates.setup + extra;
      ghost var before := lines;
      lines := lines + [Line(true, Round(recurringTotal * 100.0))];
      if oneTimeTotal > 0.0 {
        lines := lines + [Line(false, Round(oneTimeTotal * 100.0))];
      }
      assert lines == before + LinesOf(items[i], rates);
    }
    assert items[..|items|] == items;
  }

  function Total(lines: seq<Line>): int {
    if lines == [] then 0 else Total(lines[..|lines| - 1]) + lines[|lines| - 1].cents
  }

  lemma {:induction false} TotalOn(a: seq<Line>, b: seq<Line>)
    ensures Total(a + b) == Total(a) + Total(b)
  {
    if b == [] {
      assert a + b == a;
    } else {
      TotalOn(a, b[..|b| - 1]);
      assert (a + b)[..|a + b| - 1] == a + b[..|b| - 1];
    }
  }

  /**
   What the lines of an item charge beyond what is due for it: the monthly fee where the first
   month is cheaper, and a negative one-time amount, for which there is no line.
   */
  function Surplus(item: Item, rates: Rates): (s: real)
    ensures s >= 0.0
  {
    (if rates.monthly > rates.firstMonth then rates.monthly - rates.firstMonth else 0.0)
    + if OneTime(item, rates) < 0.0 then -OneTime(item, rates) else 0.0
  }

  function SumSurplus(items: seq<Item>, rates: Rates): (s: real)
    ensures s >= 0.0
  {
    if items == [] then 0.0 else SumSurplus(items[..|items| - 1], rates) + Surplus(items[|items| - 1], rates)
  }

  function DueFor(item: Item, rates: Rates): real {
    item.upfront + item.monthly + rates.setup + rates.firstMonth
  }

  function RecurringCents(item: Item, rates: Rates): int {
    Round((item.monthly + rates.monthly) * 100.0)
  }

  function OneTimeCents(item: Item, rates: Rates): int {
    if OneTime(item, rates) > 0.0 then Round(OneTime(item, rates) * 100.0) else 0
  }

  lemma TotalOfItem(item: Item, rates: Rates)
    ensures Total(LinesOf(item, rates)) == RecurringCents(item, rates) + OneTimeCents(item, rates)
  {
    var first := Line(true, RecurringCents(item, rates));
    assert [first][..0] == [];
    assert Total([first]) == first.cents;
    if OneTime(item, rates) > 0.0 {
      var second := Line(false, OneTimeCents(item, rates));
      assert [first, second][..1] == [first];
      assert LinesOf(item, rates) == [first, second];
    } else {
      assert LinesOf(item, rates) == [first];
    }
  }

  /** The two amounts of an item before rounding are what is due for it and its surplus. */
  lemma DueInParts(item: Item, rates: Rates)
    ensures DueFor(item, rates) + Surplus(item, rates)
            == (item.monthly + rates.monthly) + if OneTime(item, rates) > 0.0 then OneTime(item, rates) else 0.0
  {
  }

  lemma OneTimeNear(item: Item, rates: Rates)
    ensures var exact := if OneTime(item, rates) > 0.0 then OneTime(item, rates) else 0.0;
            exact * 100.0 - 0.5 <= OneTimeCents(item, rates) as real <= exact * 100.0 + 0.5
  {
  }

  lemma LinesOfItem(item: Item, rates: Rates)
    ensures var cents := (DueFor(item, rates) + Surplus(item, rates)) * 100.0;
            cents - 1.0 <= Total(LinesOf(item, rates)) as real <= cents + 1.0
  {
    TotalOfItem(item, rates);
    DueInParts(item, rates);
    OneTimeNear(item, rates);
    var monthly, once := item.monthly + rates.monthly, if OneTime(item, rates) > 0.0 then OneTime(item, rates) else 0.0;
    assert (monthly + once) * 100.0 == monthly * 100.0 + once * 100.0;
  }

  lemma DueOfCart(items: seq<Item>, rates: Rates)
    requires items != []
    ensures Due(items, rates) == Due(items[..|items| - 1], rates) + DueFor(items[|items| - 1], rates)
  {
    var n := |items| as real;
    assert rates.setup * n == rates.setup * (n - 1.0) + rates.setup;
    assert rates.firstMonth * n == rates.firstMonth * (n - 1.0) + rates.firstMonth;
  }

  lemma {:induction false} LinesNearDue(items: seq<Item>, rates: Rates)
    ensures var cents := (Due(items, rates) + SumSurplus(items, rates)) * 100.0;
            cents - |items| as real <= Total(LineItems(items, rates)) as real <= cents + |items| as real
  {
    if items != [] {
      var front, last := items[..|items| - 1], items[|items| - 1];
      LinesNearDue(front, rates);
      LinesOfItem(last, rates);
      DueOfCart(items, rates);
      TotalOn(LineItems(front, rates), LinesOf(last, rates));
    }
  }

  /**
   Stripe's total and the cart's `dueToday` differ by the surplus and at most n + 1/2 cents, for
   any prices.
   */
  lemma LinesMatchCart(items: seq<Item>, rates: Rates)
    ensures var difference := Total(LineItems(items, rates)) as real
                              - (ToMoney(Due(items, rates)) + SumSurplus(items, rates)) * 100.0;
            -(|items| as real + 0.5) <= difference <= |items| as real + 0.5
  {
    LinesNearDue(items, rates);
    var cents := Due(items, rates) * 100.0;
    assert ToMoney(Due(items, rates)) * 100.0 == Round(cents) as real;
  }

  // ---- whole-cent prices ----

  predicate WholeItem(item: Item) {
    WholeCents(item.upfront) && WholeCents(item.monthly)
  }

  /** The guard under which a cart's lines carry no surplus. */
  predicate NoSurplus(items: seq<Item>, rates: Rates) {
    forall i :: 0 <= i < |items| ==> rates.firstMonth >= rates.monthly && OneTime(items[i], rates) >= 0.0
  }

  lemma {:induction false} SurplusExactly(items: seq<Item>, rates: Rates)
    ensures SumSurplus(items, rates) == 0.0 <==> NoSurplus(items, rates)
  {
    if items != [] {
      SurplusExactly(items[..|items| - 1], rates);
      assert SumSurplus(items, rates) == SumSurplus(items[..|items| - 1], rates) + Surplus(items[|items| - 1], rates);
    }
  }

  lemma WholeIs(x: real, c: int)
    requires x * 100.0 == c as real
    ensures WholeCents(x)
  {
    assert (c as real).Floor == c;
  }

  lemma WholeSum(a: real, b: real)
    requires WholeCents(a) && WholeCents(b)
    ensures WholeCents(a + b)
  {
    WholeIs(a + b, (a * 100.0).Floor + (b * 100.0).Floor);
  }

  lemma WholeDifference(a: real, b: real)
    requires WholeCents(a) && WholeCents(b)
    ensures WholeCents(a - b)
  {
    WholeIs(a - b, (a * 100.0).Floor - (b * 100.0).Floor);
  }

  lemma RoundWhole(x: real)
    requires WholeCents(x)
    ensures Round(x * 100.0) as real == x * 100.0
    ensures ToMoney(x) == x
  {
    RoundOfWhole((x * 100.0).Floor);
  }

  lemma ExtraIsWhole(rates: Rates)
    requires WholeRates(rates)
    ensures WholeCents(Extra(rates))
  {
    WholeDifference(rates.firstMonth, rates.monthly);
    WholeIs(0.0, 0);
  }

  lemma WholeLinesOfItem(item: Item, rates: Rates)
    requires WholeItem(item) && WholeRates(rates)
    ensures Total(LinesOf(item, rates)) as real == (DueFor(item, rates) + Surplus(item, rates)) * 100.0
  {
    WholeSum(item.monthly, rates.monthly);
    RoundWhole(item.monthly + rates.monthly);
    ExtraIsWhole(rates);
    WholeSum(item.upfront, rates.setup);
    WholeSum(item.upfront + rates.setup, Extra(rates));
    RoundWhole(OneTime(item, rates));
    TotalOfItem(item, rates);
    DueInParts(item, rates);
  }

  lemma WholeDueFor(item: Item, rates: Rates)
    requires WholeItem(item) && WholeRates(rates)
    ensures WholeCents(DueFor(item, rates))
  {
    WholeSum(item.upfront, item.monthly);
    WholeSum(item.upfront + item.monthly, rates.setup);
    WholeSum(item.upfront + item.monthly + rates.setup, rates.firstMonth);
  }

  lemma {:induction false} WholeDue(items: seq<Item>, rates: Rates)
    requires WholeRates(rates) && forall i :: 0 <= i < |items| ==> WholeItem(items[i])
    ensures WholeCents(Due(items, rates))
  {
    if items == [] {
      assert Due(items, rates) * 100.0 == 0 as real;
    } else {
      WholeDue(items[..|items| - 1], rates);
      WholeDueFor(items[|items| - 1], rates);
      DueOfCart(items, rates);
      WholeSum(Due(items[..|items| - 1], rates), DueFor(items[|items| - 1], rates));
    }
  }

  lemma {:induction false} WholeLines(items: seq<Item>, rates: Rates)
    requires WholeRates(rates) && forall i :: 0 <= i < |items| ==> WholeItem(items[i])
    ensures Total(LineItems(items, rates)) as real == (Due(items, rates) + SumSurplus(items, rates)) * 100.0
  {
    if items != [] {
      var front, last := items[..|items| - 1], items[|items| - 1];
      WholeLines(front, rates);
      WholeLinesOfItem(last, rates);
      DueOfCart(items, rates);
      TotalOn(LineItems(front, rates), LinesOf(last, rates));
    }
  }

  /**
   With whole-cent carrier prices Stripe charges at least `dueToday`, and exactly that if and only
   if the first month costs no less than the others and no one-time amount is negative.
   */
  lemma LinesMatchCartExactly(items: seq<Item>, rates: Rates)
    requires WholeRates(rates) && forall i :: 0 <= i < |items| ==> WholeItem(items[i])
    ensures Total(LineItems(items, rates)) as real >= ToMoney(Due(items, rates)) * 100.0
    ensures Total(LineItems(items, rates)) as real == ToMoney(Due(items, rates)) * 100.0 <==> NoSurplus(items, rates)
  {
    WholeLines(items, rates);
    WholeDue(items, rates);
    RoundWhole(Due(items, rates));
    SurplusExactly(items, rates);
  }

  // ---- what is charged every month, and what once ----

  /** The amounts of the lines that are charged every month, or of those charged once, in order. */
  function Amounts(lines: seq<Line>, recurring: bool): seq<int> {
    if lines == [] then []
    else
      var n := |lines| - 1;
      Amounts(lines[..n], recurring) + if lines[n].recurring == recurring then [lines[n].cents] else []
  }

  function Sum(amounts: seq<int>): int {
    if amounts == [] then 0 else Sum(amounts[..|amounts| - 1]) + amounts[|amounts| - 1]
  }

  lemma AmountsNext(lines: seq<Line>, line: Line, recurring: bool)
    ensures Amounts(lines + [line], recurring)
            == Amounts(lines, recurring) + if line.recurring == recurring then [line.cents] else []
  {
    assert (lines + [line])[..|lines|] == lines;
  }

  lemma SumNext(amounts: seq<int>, cents: int)
    ensures Sum(amounts + [cents]) == Sum(amounts) + cents && Sum(amounts + []) == Sum(amounts)
  {
    assert (amounts + [cents])[..|amounts|] == amounts && amounts + [] == amounts;
  }

  lemma AmountsOn(lines: seq<Line>, item: Item, rates: Rates)
    ensures Amounts(lines + LinesOf(item, rates), true) == Amounts(lines, true) + [RecurringCents(item, rates)]
    ensures Amounts(lines + LinesOf(item, rates), false)
            == Amounts(lines, false) + if OneTime(item, rates) > 0.0 then [OneTimeCents(item, rates)] else []
  {
    var first, second := Line(true, RecurringCents(item, rates)), Line(false, OneTimeCents(item, rates));
    AmountsNext(lines, first, true);
    AmountsNext(lines, first, false);
    if OneTime(item, rates) > 0.0 {
      AmountsNext(lines + [first], second, true);
      AmountsNext(lines + [first], second, false);
      assert lines + LinesOf(item, rates) == lines + [first] + [second];
    } else {
      assert lines + LinesOf(item, rates) == lines + [first];
    }
  }

  /** What the lines of one more item add. */
  lemma AmountsOfItem(lines: seq<Line>, item: Item, rates: Rates)
    ensures var all := lines + LinesOf(item, rates);
            && Amounts(all, true) == Amounts(lines, true) + [RecurringCents(item, rates)]
            && Sum(Amounts(all, true)) == Sum(Amounts(lines, true)) + RecurringCents(item, rates)
            && Sum(Amounts(all, false)) == Sum(Amounts(lines, false)) + OneTimeCents(item, rates)
  {
    AmountsOn(lines, item, rates);
    SumNext(Amounts(lines, true), RecurringCents(item, rates));
    SumNext(Amounts(lines, false), OneTimeCents(item, rates));
  }

  /** Each item has one line that is charged every month, for its carrier's and the platform's price. */
  lemma {:induction false} MonthlyLineOfEach(items: seq<Item>, rates: Rates)
    ensures var monthly := Amounts(LineItems(items, rates), true);
            && |monthly| == |items|
            && forall i :: 0 <= i < |items| ==> monthly[i] == Round((items[i].monthly + rates.monthly) * 100.0)
  {
    if items != [] {
      var front, last := items[..|items| - 1], items[|items| - 1];
      MonthlyLineOfEach(front, rates);
      AmountsOn(LineItems(front, rates), last, rates);
      var before := Amounts(LineItems(front, rates), true);
      assert Amounts(LineItems(items, rates), true) == before + [RecurringCents(last, rates)];
    }
  }

  lemma RecurringOfCart(items: seq<Item>, rates: Rates)
    requires items != []
    ensures var last := items[|items| - 1];
            Recurring(items, rates) == Recurring(items[..|items| - 1], rates) + last.monthly + rates.monthly
  {
    var n := |items| as real;
    assert rates.monthly * n == rates.monthly * (n - 1.0) + rates.monthly;
  }

  lemma {:induction false} MonthlyNear(items: seq<Item>, rates: Rates)
    ensures var difference := Sum(Amounts(LineItems(items, rates), true)) as real - Recurring(items, rates) * 100.0;
            -(|items| as real / 2.0) <= difference <= |items| as real / 2.0
  {
    if items != [] {
      var front, last := items[..|items| - 1], items[|items| - 1];
      MonthlyNear(front, rates);
      AmountsOfItem(LineItems(front, rates), last, rates);
      RecurringOfCart(items, rates);
    }
  }

  lemma OnceOfItem(item: Item, rates: Rates)
    ensures var cents := (DueFor(item, rates) + Surplus(item, rates) - (item.monthly + rates.monthly)) * 100.0;
            cents - 0.5 <= OneTimeCents(item, rates) as real <= cents + 0.5
  {
    DueInParts(item, rates);
    OneTimeNear(item, rates);
  }

  lemma {:induction false} OnceNear(items: seq<Item>, rates: Rates)
    ensures var difference := Sum(Amounts(LineItems(items, rates), false)) as real
                              - (Due(items, rates) + SumSurplus(items, rates) - Recurring(items, rates)) * 100.0;
            -(|items| as real / 2.0) <= difference <= |items| as real / 2.0
  {
    if items != [] {
      var front, last := items[..|items| - 1], items[|items| - 1];
      OnceNear(front, rates);
      AmountsOfItem(LineItems(front, rates), last, rates);
      RecurringOfCart(items, rates);
      DueOfCart(items, rates);
      OnceOfItem(last, rates);
    }
  }

  /**
   What Stripe charges every month is the cart's `recurringMonthly`, and what it charges once is
   the cart's `dueToday` less that first month, plus the surplus: within n/2 + 1/2 and n/2 + 1
   cents, for any prices.
   */
  lemma ChargesMatchCart(items: seq<Item>, rates: Rates)
    ensures var monthly, once := Sum(Amounts(LineItems(items, rates), true)), Sum(Amounts(LineItems(items, rates), false));
            var due, recurring, half := ToMoney(Due(items, rates)), ToMoney(Recurring(items, rates)), |items| as real / 2.0;
            && -(half + 0.5) <= monthly as real - recurring * 100.0 <= half + 0.5
            && -(half + 1.0) <= once as real - (due - recurring + SumSurplus(items, rates)) * 100.0 <= half + 1.0
  {
    MonthlyNear(items, rates);
    OnceNear(items, rates);
    Within(Due(items, rates));
    Within(Recurring(items, rates));
  }

  /** With whole-cent prices both are exact. */
  lemma ChargesMatchCartExactly(items: seq<Item>, rates: Rates)
    requires WholeRates(rates) && forall i :: 0 <= i < |items| ==> WholeItem(items[i])
    ensures var monthly, once := Sum(Amounts(LineItems(items, rates), true)), Sum(Amounts(LineItems(items, rates), false));
            var due, recurring := ToMoney(Due(items, rates)), ToMoney(Recurring(items, rates));
            && monthly as real == recurring * 100.0
            && once as real == (due - recurring + SumSurplus(items, rates)) * 100.0
  {
    WholeMonthly(items, rates);
    AllAmounts(items, rates);
    WholeLines(items, rates);
    WholeDue(items, rates);
    RoundWhole(Due(items, rates));
  }

  lemma {:induction false} WholeMonthly(items: seq<Item>, rates: Rates)
    requires WholeRates(rates) && forall i :: 0 <= i < |items| ==> WholeItem(items[i])
    ensures Sum(Amounts(LineItems(items, rates), true)) as real == Recurring(items, rates) * 100.0
    ensures ToMoney(Recurring(items, rates)) == Recurring(items, rates)
  {
    if items != [] {
      var front, last := items[..|items| - 1], items[|items| - 1];
      WholeMonthly(front, rates);
      AmountsOfItem(LineItems(front, rates), last, rates);
      RecurringOfCart(items, rates);
      WholeSum(last.monthly, rates.monthly);
      RoundWhole(last.monthly + rates.monthly);
    }
    WholeIs(Recurring(items, rates), Sum(Amounts(LineItems(items, rates), true)));
    RoundWhole(Recurring(items, rates));
  }

  lemma {:induction false} AllAmounts(items: seq<Item>, rates: Rates)
    ensures var lines := LineItems(items, rates);
            Total(lines) == Sum(Amounts(lines, true)) + Sum(Amounts(lines, false))
  {
    if items != [] {
      var front, last := items[..|items| - 1], items[|items| - 1];
      AllAmounts(front, rates);
      AmountsOfItem(LineItems(front, rates), last, rates);
      TotalOfItem(last, rates);
      TotalOn(LineItems(front, rates), LinesOf(last, rates));
    }
  }

  // ---- splitting an order over its numbers ----

  /** `buildMarginSnapshot`, the price of one number. */
  function CustomerPrice(item: Item, rates: Rates): real {
    ToMoney(item.upfront + item.monthly + rates.setup + rates.firstMonth)
  }

  /** `buildMarginFromOrderSplit`: an even share of the order's stored carrier totals. */
  function SplitPrice(carrierUpfront: real, carrierMonthly: real, numbers: nat, rates: Rates): real {
    var count := if numbers > 1 then numbers else 1;
    CustomerPrice(Item(carrierUpfront / count as real, carrierMonthly / count as real), rates)
  }

  lemma Within(x: real)
    ensures -0.5 <= ToMoney(x) * 100.0 - x * 100.0 <= 0.5
  {
  }

  /** n times a price that is off by half a cent at most. */
  lemma ScaledError(n: real, d: real)
    requires n >= 0.0 && -0.5 <= d * 100.0 <= 0.5
    ensures -(n / 2.0) <= n * d * 100.0 <= n / 2.0
  {
    assert n * d <= n * 0.005 && n * d >= n * -0.005;
  }

  lemma ShareInParts(n: real, u: real, m: real, a: real, b: real, d: real)
    requires n > 0.0
    ensures n * (u / n + m / n + a + b + d) == u + m + a * n + b * n + n * d
  {
    assert n * (u / n) == u && n * (m / n) == m;
  }

  /** The shares of an order's stored totals, against those totals and the fees. */
  lemma SharesOfStored(u: real, m: real, numbers: nat, rates: Rates, shares: real)
    requires numbers > 0 && shares == numbers as real * SplitPrice(u, m, numbers, rates)
    ensures var n := numbers as real;
            -(n / 2.0) <= (shares - (u + m + rates.setup * n + rates.firstMonth * n)) * 100.0 <= n / 2.0
  {
    var n := numbers as real;
    var exact := u / n + m / n + rates.setup + rates.firstMonth;
    var d := ToMoney(exact) - exact;
    assert SplitPrice(u, m, numbers, rates) == exact + d;
    assert -0.5 <= d * 100.0 <= 0.5 by {
      Within(exact);
    }
    ScaledError(n, d);
    ShareInParts(n, u, m, rates.setup, rates.firstMonth, d);
    var products := n * d;
    assert shares == u + m + rates.setup * n + rates.firstMonth * n + products;
  }

  /** Three more roundings: of the two stored totals and of the amount charged. */
  lemma ThreeRoundings(half: real, shares: real, a: real, b: real, fees: real)
    requires -half <= (shares - (ToMoney(a) + ToMoney(b) + fees)) * 100.0 <= half
    ensures -(half + 1.5) <= (shares - ToMoney(a + b + fees)) * 100.0 <= half + 1.5
  {
    Within(a);
    Within(b);
    Within(a + b + fees);
  }

  /**
   The n shares of an order add up to its total charged within n/2 + 3/2 cents. The carrier's
   prices sum to a and b, of which the order stores the rounded values, and `due` is what the cart
   owes before rounding, as in `Due`.
   */
  lemma SharesNearTotal(a: real, b: real, due: real, numbers: nat, rates: Rates, shares: real)
    requires numbers > 0 && shares == numbers as real * SplitPrice(ToMoney(a), ToMoney(b), numbers, rates)
    requires due == a + b + rates.setup * numbers as real + rates.firstMonth * numbers as real
    ensures var n := numbers as real;
            -(n / 2.0 + 1.5) <= (shares - ToMoney(due)) * 100.0 <= n / 2.0 + 1.5
  {
    var n := numbers as real;
    SharesOfStored(ToMoney(a), ToMoney(b), numbers, rates, shares);
    var fees := rates.setup * n + rates.firstMonth * n;
    assert a + b + fees == due;
    ThreeRoundings(n / 2.0, shares, a, b, fees);
  }

  // ---- rupees ----

  function UsdToInrPaise(usd: real, rate: real): int {
    Round(usd * rate * 100.0)
  }

  function InrPaiseToUsd(paise: int, rate: real): real
    requires rate > 0.0
  {
    ToMoney(paise as real / 100.0 / rate)
  }

  function Dollars(cents: int): real {
    cents as real / 100.0
  }

  /** The amounts that survive the trip to paise and back. */
  predicate Survives(cents: int, rate: real)
    requires rate > 0.0
  {
    InrPaiseToUsd(UsdToInrPaise(Dollars(cents), rate), rate) == Dollars(cents)
  }

  lemma InCents(cents: int, rate: real)
    requires rate > 0.0
    ensures UsdToInrPaise(Dollars(cents), rate) == Round(cents as real * rate)
    ensures forall p: int :: InrPaiseToUsd(p, rate) == Dollars(Round(p as real / rate))
  {
    assert Dollars(cents) * rate * 100.0 == cents as real * rate;
    forall p: int ensures InrPaiseToUsd(p, rate) == Dollars(Round(p as real / rate)) {
      assert p as real / 100.0 / rate * 100.0 == p as real / rate;
    }
  }

  lemma RateAboveOne(cents: int, rate: real)
    requires rate > 1.0
    ensures Round(Round(cents as real * rate) as real / rate) == cents
  {
    var exact := cents as real * rate;
    var p := Round(exact) as real;
    var back := p / rate;
    assert (back - cents as real) * rate == p - exact by {
      assert back * rate == p;
    }
    Closer(back - cents as real, rate, p - exact);
  }

  lemma RateOfOne(cents: int)
    ensures Round(Round(cents as real * 1.0) as real / 1.0) == cents
  {
    RoundOfWhole(cents);
  }

  lemma RateAtLeastOne(cents: int, rate: real)
    requires rate >= 1.0
    ensures Survives(cents, rate)
  {
    InCents(cents, rate);
    if rate == 1.0 {
      RateOfOne(cents);
    } else {
      RateAboveOne(cents, rate);
    }
  }

  lemma Larger(d: real, rate: real)
    requires rate > 1.0
    ensures d >= 0.5 ==> d * rate > 0.5
    ensures d <= -0.5 ==> d * rate < -0.5
  {
    assert d * rate == d + d * (rate - 1.0);
    assert d > 0.0 ==> d * (rate - 1.0) > 0.0;
    assert d < 0.0 ==> d * (rate - 1.0) < 0.0;
  }

  /** Dividing by a rate above one brings an error of at most a half below a half. */
  lemma Closer(d: real, rate: real, e: real)
    requires rate > 1.0 && d * rate == e && -0.5 <= e <= 0.5
    ensures -0.5 < d < 0.5
  {
    Larger(d, rate);
  }

  lemma SurvivorsDiffer(a: int, b: int, rate: real)
    requires 0.0 < rate && a != b && Survives(a, rate) && Survives(b, rate)
    ensures Round(a as real * rate) != Round(b as real * rate)
  {
    InCents(a, rate);
    InCents(b, rate);
    assert Dollars(a) * 100.0 == a as real && Dollars(b) * 100.0 == b as real;
  }

  lemma RoundMonotone(x: real, y: real)
    requires x <= y
    ensures Round(x) <= Round(y)
  {
  }

  function Paise(cents: int, rate: real): int {
    Round(cents as real * rate)
  }

  /** The next amount gives other paise, and no fewer. */
  lemma SurvivorsGrow(n: nat, rate: real)
    requires 0.0 < rate && n > 0 && Survives(n - 1, rate) && Survives(n, rate)
    ensures Paise(n, rate) >= Paise(n - 1, rate) + 1
  {
    SurvivorsDiffer(n - 1, n, rate);
    assert n as real * rate == (n - 1) as real * rate + rate;
    RoundMonotone((n - 1) as real * rate, n as real * rate);
  }

  /** If every amount up to n survived, the paise of n cents would be at least n. */
  lemma {:induction false} SurvivorsSpread(n: nat, rate: real)
    requires 0.0 < rate && forall c: nat :: c <= n ==> Survives(c, rate)
    ensures Paise(n, rate) >= n
  {
    if n > 0 {
      SurvivorsSpread(n - 1, rate);
      SurvivorsGrow(n, rate);
    } else {
      assert n as real * rate == 0.0;
    }
  }

  lemma RateBelowOne(rate: real) returns (cents: int)
    requires 0.0 < rate < 1.0
    ensures !Survives(cents, rate)
  {
    var gap := 1.0 - rate;
    var n := (1.0 / gap).Floor + 1;
    assert gap * (1.0 / gap) == 1.0;
    assert n as real > 1.0 / gap;
    assert n as real * gap >= 1.0;
    assert n as real * rate == n as real - n as real * gap;
    if c: nat :| c <= n && !Survives(c, rate) {
      cents := c;
    } else {
      SurvivorsSpread(n, rate);
      assert false;
    }
  }

  /** USD to paise and back is the identity on whole cents if and only if the rate is at least one. */
  lemma RoundTripExactly(rate: real)
    requires rate > 0.0
    ensures (forall cents: int :: Survives(cents, rate)) <==> rate >= 1.0
  {
    if rate >= 1.0 {
      forall cents: int ensures Survives(cents, rate) {
        RateAtLeastOne(cents, rate);
      }
    } else {
      var cents := RateBelowOne(rate);
      assert !Survives(cents, rate);
    }
  }
}
