/**
 * Nutrition values and detected items, shared by the store, the pipeline and the
 * endpoints. Macros are per-item grams and kilocalories; Python's floats are
 * modelled as exact reals.
 */
module Meals {

  datatype Macros = Macros(calories: real, protein: real, carbs: real, fat: real)

  const Zero := Macros(0.0, 0.0, 0.0, 0.0)

  /** The test `calories == 0.0 and protein == 0.0 and carbs == 0.0 and fat == 0.0`. */
  predicate IsZero(m: Macros) {
    m.calories == 0.0 && m.protein == 0.0 && m.carbs == 0.0 && m.fat == 0.0
  }

  function Add(a: Macros, b: Macros): Macros {
    Macros(a.calories + b.calories, a.protein + b.protein, a.carbs + b.carbs, a.fat + b.fat)
  }

  /** Per-100 g values multiplied by a quantity, field by field. */
  function Scale(m: Macros, quantity: real): Macros {
    Macros(m.calories * quantity, m.protein * quantity, m.carbs * quantity, m.fat * quantity)
  }

  /** An item as the pipeline reports and the store keeps it: name, quantity and macros. */
  datatype Item = Item(name: string, quantity: real, macros: Macros)

  /** The four sums `sum(i["macros"][f] for i in items)`, taken from the left. */
  function Totals(items: seq<Item>): Macros {
    if |items| == 0 then Zero
    else Add(Totals(items[..|items| - 1]), items[|items| - 1].macros)
  }

  /** Totals are additive over concatenation. */
  lemma {:induction false} TotalsAppend(a: seq<Item>, b: seq<Item>)
    ensures Totals(a + b) == Add(Totals(a), Totals(b))
    decreases |b|
  {
    if |b| == 0 {
      assert a + b == a;
    } else {
      assert (a + b)[..|a + b| - 1] == a + b[..|b| - 1];
      TotalsAppend(a, b[..|b| - 1]);
    }
  }

  /** A single item's totals are its own macros. */
  lemma TotalsSingle(it: Item)
    ensures Totals([it]) == it.macros
  {
    assert [it][..0] == [];
  }

  /** Two items with the same macros: totals are twice those macros. */
  lemma TotalsPair(a: Item, b: Item)
    requires a.macros == b.macros
    ensures Totals([a, b]) == Scale(a.macros, 2.0)
  {
    assert [a, b][..1] == [a];
    TotalsSingle(a);
  }
}
