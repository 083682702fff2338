/** The dashboard (app/page.tsx): one card per product returned by
    GET /api/products, with the product's spending and income summed from its
    expense and income records, and the totals of all cards. */
module Dashboard {
  import opened Common
  import opened ProductCard
  import opened Rounding

  /** The image shown for a product without images. */
  const Placeholder: string := "https://via.placeholder.com/150"

  /** A product as the API returns it, reduced to what the dashboard reads:
      `None` is a property that is missing or not an array. */
  datatype ApiProduct = ApiProduct(
    id: Id,
    name: string,
    images: Option<seq<string>>,
    expenses: Option<seq<NumField>>,
    incomes: Option<seq<NumField>>)

  /** The dashboard's summary figures. */
  datatype Summary = Summary(totalSpent: real, totalIncome: real, variationsCount: nat)

  /** `reduce((sum, e) => sum + (e.amount || 0), 0)`: a missing or `NaN`
      amount adds nothing. */
  function SumAmounts(xs: seq<NumField>): real
  {
    if xs == [] then 0.0 else SumAmounts(xs[..|xs| - 1]) + OrZero(xs[|xs| - 1])
  }

  /** A list property as the reduction reads it: not an array gives 0. */
  function SumOf(xs: Option<seq<NumField>>): real
  {
    if xs.Some? then SumAmounts(xs.value) else 0.0
  }

  /** The first image, or the placeholder. */
  function Thumbnail(p: ApiProduct): (img: string)
    ensures p.images.Some? && |p.images.value| > 0 ==> img == p.images.value[0]
    ensures p.images.None? || p.images.value == [] ==> img == Placeholder
  {
    if p.images.Some? && |p.images.value| > 0 then p.images.value[0] else Placeholder
  }

  function ToCard(p: ApiProduct): ProductUI
  {
    ProductUI(p.id, p.name, Thumbnail(p), SumOf(p.expenses), SumOf(p.incomes))
  }

  /** `(data || []).map(...)`: `None` is a null body; one card per product,
      in order, keeping id and name. */
  function Cards(data: Option<seq<ApiProduct>>): (r: seq<ProductUI>)
    ensures data.None? ==> r == []
    ensures data.Some? ==> |r| == |data.value|
    ensures data.Some? ==> forall i :: 0 <= i < |r| ==>
      r[i].id == data.value[i].id && r[i].name == data.value[i].name
  {
    var ps := if data.Some? then data.value else [];
    seq(|ps|, i requires 0 <= i < |ps| => ToCard(ps[i]))
  }

  function TotalSpent(cards: seq<ProductUI>): real
  {
    if cards == [] then 0.0 else TotalSpent(cards[..|cards| - 1]) + cards[|cards| - 1].spent
  }

  function TotalIncome(cards: seq<ProductUI>): real
  {
    if cards == [] then 0.0 else TotalIncome(cards[..|cards| - 1]) + cards[|cards| - 1].income
  }

  /** The figures passed to the summary. */
  function SummaryOf(cards: seq<ProductUI>): (s: Summary)
    ensures s.variationsCount == |cards|
  {
    Summary(TotalSpent(cards), TotalIncome(cards), |cards|)
  }

  // ---------------------------------------------------------------------
  // Sums.

  lemma {:induction false} SumAmountsConcat(a: seq<NumField>, b: seq<NumField>)
    ensures SumAmounts(a + b) == SumAmounts(a) + SumAmounts(b)
  {
    if b == [] {
      assert a + b == a;
    } else {
      SumAmountsConcat(a, b[..|b| - 1]);
      assert (a + b)[..|a + b| - 1] == a + b[..|b| - 1];
    }
  }

  /** Amounts that are missing or `NaN` do not change a product's sums. */
  lemma {:induction false} SumSkipsMissing(xs: seq<NumField>)
    ensures SumAmounts(xs) == SumAmounts(Present(xs))
  {
    if xs != [] {
      var x0 := xs[..|xs| - 1];
      SumSkipsMissing(x0);
      var last := xs[|xs| - 1];
      assert xs == x0 + [last];
      PresentConcat(x0, [last]);
      SumAmountsConcat(Present(x0), Present([last]));
      if last.Num? {
        assert Present([last]) == [last];
        assert SumAmounts([last]) == SumAmounts([]) + OrZero(last);
      } else {
        assert Present([last]) == [];
      }
    }
  }

  /** The entries that hold numbers. */
  function Present(xs: seq<NumField>): (r: seq<NumField>)
    ensures forall i :: 0 <= i < |r| ==> r[i].Num?
    ensures |r| <= |xs|
  {
    if xs == [] then []
    else (if xs[0].Num? then [xs[0]] else []) + Present(xs[1..])
  }

  lemma {:induction false} PresentConcat(a: seq<NumField>, b: seq<NumField>)
    ensures Present(a + b) == Present(a) + Present(b)
  {
    if a == [] {
      assert a + b == b;
    } else {
      var h := if a[0].Num? then [a[0]] else [];
      assert (a + b)[0] == a[0] && (a + b)[1..] == a[1..] + b;
      assert Present(a + b) == h + Present(a[1..] + b);
      PresentConcat(a[1..], b);
      assert h + (Present(a[1..]) + Present(b)) == (h + Present(a[1..])) + Present(b);
    }
  }

  /** Non-negative amounts give a non-negative sum. */
  lemma {:induction false} SumNonNegative(xs: seq<NumField>)
    requires forall i :: 0 <= i < |xs| ==> OrZero(xs[i]) >= 0.0
    ensures SumAmounts(xs) >= 0.0
  {
    if xs != [] {
      SumNonNegative(xs[..|xs| - 1]);
    }
  }

  // ---------------------------------------------------------------------
  // Totals.

  /** Every expense list of every product, concatenated. */
  function AllExpenses(ps: seq<ApiProduct>): seq<NumField>
  {
    if ps == [] then []
    else
      var p := ps[|ps| - 1];
      AllExpenses(ps[..|ps| - 1]) + (if p.expenses.Some? then p.expenses.value else [])
  }

  /** Every income list of every product, concatenated. */
  function AllIncomes(ps: seq<ApiProduct>): seq<NumField>
  {
    if ps == [] then []
    else
      var p := ps[|ps| - 1];
      AllIncomes(ps[..|ps| - 1]) + (if p.incomes.Some? then p.incomes.value else [])
  }

  /** The total spent is the sum of every expense record of every product,
      and the total income the sum of every income record. */
  lemma {:induction false} TotalsAreSumsOfRecords(ps: seq<ApiProduct>)
    ensures TotalSpent(Cards(Some(ps))) == SumAmounts(AllExpenses(ps))
    ensures TotalIncome(Cards(Some(ps))) == SumAmounts(AllIncomes(ps))
  {
    if ps != [] {
      var p0 := ps[..|ps| - 1];
      var p := ps[|ps| - 1];
      TotalsAreSumsOfRecords(p0);
      var cs := Cards(Some(ps));
      assert cs[..|cs| - 1] == Cards(Some(p0));
      assert cs[|cs| - 1] == ToCard(p);
      SumAmountsConcat(AllExpenses(p0), if p.expenses.Some? then p.expenses.value else []);
      SumAmountsConcat(AllIncomes(p0), if p.incomes.Some? then p.incomes.value else []);
    }
  }

  /** The sum of the card balances. */
  function SumBalances(cards: seq<ProductUI>): real
  {
    if cards == [] then 0.0 else SumBalances(cards[..|cards| - 1]) + Balance(cards[|cards| - 1])
  }

  /** Total income minus total spent is the sum of the balances the cards
      show. */
  lemma {:induction false} NetIsSumOfBalances(cards: seq<ProductUI>)
    ensures TotalIncome(cards) - TotalSpent(cards) == SumBalances(cards)
  {
    if cards != [] {
      NetIsSumOfBalances(cards[..|cards| - 1]);
    }
  }

  /** The totals of two groups of cards add up. */
  lemma {:induction false} TotalsConcat(a: seq<ProductUI>, b: seq<ProductUI>)
    ensures TotalSpent(a + b) == TotalSpent(a) + TotalSpent(b)
    ensures TotalIncome(a + b) == TotalIncome(a) + TotalIncome(b)
  {
    if b == [] {
      assert a + b == a;
    } else {
      TotalsConcat(a, b[..|b| - 1]);
      assert (a + b)[..|a + b| - 1] == a + b[..|b| - 1];
    }
  }

  /** A product whose only records are one income and one expense holding
      two figures rounded to cents (what a save after the auto-sync leaves)
      shows those amounts, and a balance within one cent of the exact
      difference. */
  lemma SyncedCardBalance(p: ApiProduct, income: real, expense: real)
    requires p.incomes == Some([Num(ToFixed2(income))])
    requires p.expenses == Some([Num(ToFixed2(expense))])
    ensures ToCard(p).income == ToFixed2(income) && ToCard(p).spent == ToFixed2(expense)
    ensures Balance(ToCard(p)) - (income - expense) <= 0.01
    ensures (income - expense) - Balance(ToCard(p)) <= 0.01
  {
    var a, b := ToFixed2(income), ToFixed2(expense);
    assert [Num(a)][..0] == [] && [Num(b)][..0] == [];
    assert SumAmounts([Num(a)]) == a;
    assert SumAmounts([Num(b)]) == b;
    assert Balance(ToCard(p)) == a - b;
  }

  /** A null or empty answer shows no card and zero totals. */
  lemma EmptyDashboard()
    ensures SummaryOf(Cards(None)) == Summary(0.0, 0.0, 0)
    ensures SummaryOf(Cards(Some([]))) == Summary(0.0, 0.0, 0)
  {
  }

  /** One product with expenses 5000, a `null` amount and 70, and a single
      income of 480: a red card with balance -4590. */
  lemma WorkedCard()
    ensures var c := ToCard(ApiProduct("p1", "Case", Some([]), Some([Num(5000.0), Null, Num(70.0)]), Some([Num(480.0)])));
      && c.spent == 5070.0 && c.income == 480.0 && c.img == Placeholder
      && Balance(c) == -4590.0 && BalanceTone(c) == Red
  {
    var xs := [Num(5000.0), Null, Num(70.0)];
    assert xs[..2][..1] == [Num(5000.0)] && xs[..2] == [Num(5000.0), Null];
    assert [Num(5000.0)][..0] == [] && [Num(480.0)][..0] == [];
    assert SumAmounts([Num(5000.0)]) == 5000.0;
    assert SumAmounts(xs[..2]) == 5000.0;
    assert SumAmounts(xs) == 5070.0;
    assert SumAmounts([Num(480.0)]) == 480.0;
  }
}
