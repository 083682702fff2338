/** The product card of the dashboard (components/dashboard/ProductCard.tsx):
    the balance it shows and the colour of that balance. */
module ProductCard {
  import opened Common

  /** `ProductUI`: what a card shows. */
  datatype ProductUI = ProductUI(id: Id, name: string, img: string, spent: real, income: real)

  /** The colour class of the balance. */
  datatype Tone = Green | Red

  /** `income - spent`: positive when the product has earned more than it
      cost, zero when the two are equal. */
  function Balance(p: ProductUI): (b: real)
    ensures b >= 0.0 <==> p.income >= p.spent
    ensures b == 0.0 <==> p.income == p.spent
    ensures b + p.spent == p.income
  {
    p.income - p.spent
  }

  /** Green for a balance of at least 0, red otherwise. */
  function BalanceTone(p: ProductUI): (t: Tone)
    ensures t == Green <==> p.income >= p.spent
    ensures t == Red <==> p.income < p.spent
  {
    if Balance(p) >= 0.0 then Green else Red
  }

  /** The balance and its colour depend on the two amounts alone, not on the
      card's id, name or image. */
  lemma BalanceIgnoresLabels(p: ProductUI, id: Id, name: string, img: string)
    ensures Balance(p.(id := id, name := name, img := img)) == Balance(p)
    ensures BalanceTone(p.(id := id, name := name, img := img)) == BalanceTone(p)
  {
  }
}
