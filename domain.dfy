/** The values every pricing stage shares: the quote form as it is submitted,
    the priced line items and the finished quote. */
module Domain {

  datatype Result<T, E> = Success(value: T) | Failure(error: E)

  /** A numeric form field after `parseFloat`: either a number or NaN (an
      empty or non-numeric field). */
  datatype Parsed = Num(value: real) | NaN

  /** `parseFloat(field) || 0`: a number reads as itself, NaN as 0. */
  function OrZero(p: Parsed): (r: real)
    ensures p.Num? ==> r == p.value
    ensures p.NaN? ==> r == 0.0
  {
    match p
    case Num(x) => x
    case NaN => 0.0
  }

  // The options of the form's select boxes.
  datatype PoolShape = Rectangular | Circular | Oval
  datatype WorkType = Construction | Repair | Renovation | Maintenance
  datatype TileGrade = Standard | Premium | Luxury
  datatype Access = Easy | Normal | Difficult

  /** The `materials` group of the form: eight check boxes and the tile grade. */
  datatype MaterialChoice = MaterialChoice(
    ceramics: bool, thermalFloor: bool,
    pump: bool, filter: bool, lighting: bool, heating: bool, cover: bool, ladder: bool,
    tiles: TileGrade)

  /** The `repairs` group of the form: six check boxes. */
  datatype RepairChoice = RepairChoice(
    leaks: bool, cracks: bool, coating: bool, plumbing: bool, electrical: bool, cleaning: bool)

  /** The fields of the form that pricing reads. */
  datatype QuoteForm = QuoteForm(
    length: Parsed, width: Parsed, depth: Parsed,
    poolType: PoolShape,
    workType: WorkType,
    materials: MaterialChoice,
    repairs: RepairChoice,
    laborHours: Parsed,
    laborRate: real,
    accessDifficulty: Access,
    permits: bool,
    excavation: bool)

  /** One priced row of a quote. */
  datatype LineItem = LineItem(name: string, quantity: real, unit: string, unitPrice: real, total: real)

  /** The row's total is its quantity times its unit price (a flat fee has
      quantity 1 and unit price equal to its total). */
  predicate Priced(item: LineItem)
  {
    item.total == item.quantity * item.unitPrice
  }

  datatype Quote = Quote(
    volume: real, ceramicArea: real, thermalFloorArea: real,
    materialCosts: seq<LineItem>, workCosts: seq<LineItem>, additionalCosts: seq<LineItem>,
    subtotal: real, discount: real, totalCost: real)

  /** The single validation failure: a dimension that is not a number above zero. */
  datatype QuoteError = InvalidDimensions

  /** The sum of the totals of a list of line items. */
  function SumTotals(items: seq<LineItem>): real
  {
    if items == [] then 0.0 else SumTotals(items[..|items| - 1]) + items[|items| - 1].total
  }

  /** Pushing an item adds its total to the sum. */
  lemma SumTotalsPush(items: seq<LineItem>, item: LineItem)
    ensures SumTotals(items + [item]) == SumTotals(items) + item.total
  {
    assert (items + [item])[..|items|] == items;
  }

  /** Summing a concatenation sums its parts. */
  lemma {:induction false} SumTotalsAppend(a: seq<LineItem>, b: seq<LineItem>)
    ensures SumTotals(a + b) == SumTotals(a) + SumTotals(b)
  {
    if b != [] {
      var c := b[..|b| - 1];
      assert (a + b)[..|a + b| - 1] == a + c;
      SumTotalsAppend(a, c);
    } else {
      assert a + b == a;
    }
  }

  /** Summing six consecutive pieces sums each piece. */
  lemma SumOfSix(a: seq<LineItem>, b: seq<LineItem>, c: seq<LineItem>, d: seq<LineItem>, e: seq<LineItem>, f: seq<LineItem>)
    ensures SumTotals(a + b + c + d + e + f)
         == SumTotals(a) + SumTotals(b) + SumTotals(c) + SumTotals(d) + SumTotals(e) + SumTotals(f)
  {
    SumTotalsAppend(a + b + c + d + e, f);
    SumTotalsAppend(a + b + c + d, e);
    SumTotalsAppend(a + b + c, d);
    SumTotalsAppend(a + b, c);
    SumTotalsAppend(a, b);
  }

  /** Six optional items, each present or absent, sum to the totals of the
      present ones. */
  lemma SumOfSixOptional(items: seq<LineItem>, b0: bool, b1: bool, b2: bool, b3: bool, b4: bool, b5: bool,
                         i0: LineItem, i1: LineItem, i2: LineItem, i3: LineItem, i4: LineItem, i5: LineItem)
    requires items == (if b0 then [i0] else []) + (if b1 then [i1] else []) + (if b2 then [i2] else [])
                      + (if b3 then [i3] else []) + (if b4 then [i4] else []) + (if b5 then [i5] else [])
    ensures SumTotals(items)
         == (if b0 then i0.total else 0.0) + (if b1 then i1.total else 0.0) + (if b2 then i2.total else 0.0)
          + (if b3 then i3.total else 0.0) + (if b4 then i4.total else 0.0) + (if b5 then i5.total else 0.0)
  {
    SumOfSix(if b0 then [i0] else [], if b1 then [i1] else [], if b2 then [i2] else [],
             if b3 then [i3] else [], if b4 then [i4] else [], if b5 then [i5] else []);
    SumOfOptional(b0, i0);
    SumOfOptional(b1, i1);
    SumOfOptional(b2, i2);
    SumOfOptional(b3, i3);
    SumOfOptional(b4, i4);
    SumOfOptional(b5, i5);
  }

  /** An optional single item sums to its total when present, else to 0. */
  lemma SumOfOptional(present: bool, item: LineItem)
    ensures SumTotals(if present then [item] else []) == (if present then item.total else 0.0)
  {
    if present {
      assert [item] == [] + [item];
      SumTotalsPush([], item);
    }
  }
}
