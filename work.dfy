/** The work stage of the quote: exactly one branch per work type
    (construction, repair, renovation; maintenance prices nothing here),
    followed by one labour item, given or estimated. */
module WorkPricing {
  import opened Domain
  import opened Geometry

  // The repair table: key, base price, price per square metre of tiled
  // area and the printed name, in the order in which the source's object
  // literal lists them.
  datatype RepairKind = Leaks | Cracks | Coating | Plumbing | Electrical | Cleaning
  datatype RepairPrice = RepairPrice(key: RepairKind, base: real, perM2: real, name: string)

  const RepairPrices: seq<RepairPrice> := [
    RepairPrice(Leaks, 500.0, 30.0, "Reparación de filtraciones"),
    RepairPrice(Cracks, 400.0, 25.0, "Reparación de grietas"),
    RepairPrice(Coating, 800.0, 50.0, "Revestimiento"),
    RepairPrice(Plumbing, 600.0, 0.0, "Reparación de plomería"),
    RepairPrice(Electrical, 500.0, 0.0, "Reparación eléctrica"),
    RepairPrice(Cleaning, 200.0, 10.0, "Limpieza profunda")
  ]

  /** Whether the form's check box for this repair is ticked. */
  function Requests(r: RepairChoice, k: RepairKind): bool
  {
    match k
    case Leaks => r.leaks
    case Cracks => r.cracks
    case Coating => r.coating
    case Plumbing => r.plumbing
    case Electrical => r.electrical
    case Cleaning => r.cleaning
  }

  /** How many of the six repair check boxes are ticked. */
  function CountRequested(r: RepairChoice): (n: nat)
    ensures n <= 6
    ensures n == 0 <==> !(r.leaks || r.cracks || r.coating || r.plumbing || r.electrical || r.cleaning)
  {
    (if r.leaks then 1 else 0) + (if r.cracks then 1 else 0) + (if r.coating then 1 else 0)
    + (if r.plumbing then 1 else 0) + (if r.electrical then 1 else 0) + (if r.cleaning then 1 else 0)
  }

  const CostPerCubicMeter: real := 300.0
  const ExcavationPrice: real := 50.0
  const RenovationPrice: real := 60.0

  /** Construction: the pool by volume, then excavation when it is asked for
      and costs more than nothing. */
  function ConstructionItems(g: Measures, excavation: bool): seq<LineItem>
  {
    var excavationCost := if excavation then g.volume * ExcavationPrice else 0.0;
    [LineItem("Construcción de piscina", g.volume, "m³", CostPerCubicMeter, g.volume * CostPerCubicMeter)]
    + (if excavationCost > 0.0 then [LineItem("Excavación", g.volume, "m³", ExcavationPrice, excavationCost)] else [])
  }

  /** One repair service: its base price plus its price per square metre of
      tiled area. */
  function RepairItem(p: RepairPrice, ceramicArea: real): LineItem
  {
    var cost := p.base + p.perM2 * ceramicArea;
    LineItem(p.name, 1.0, "servicio", cost, cost)
  }

  function RepairItemIf(r: RepairChoice, p: RepairPrice, ceramicArea: real): seq<LineItem>
  {
    if Requests(r, p.key) then [RepairItem(p, ceramicArea)] else []
  }

  /** The items for the ticked entries of a repair table, in table order. */
  function RepairItems(r: RepairChoice, table: seq<RepairPrice>, ceramicArea: real): seq<LineItem>
  {
    if table == [] then []
    else RepairItems(r, table[..|table| - 1], ceramicArea) + RepairItemIf(r, table[|table| - 1], ceramicArea)
  }

  /** The items of the branch that the work type selects. */
  function BranchItems(f: QuoteForm, g: Measures): seq<LineItem>
  {
    match f.workType
    case Construction => ConstructionItems(g, f.excavation)
    case Repair => RepairItems(f.repairs, RepairPrices, g.ceramicArea)
    case Renovation => [LineItem("Renovación completa", g.ceramicArea, "m²", RenovationPrice, g.ceramicArea * RenovationPrice)]
    case Maintenance => []
  }

  /** Labour hours when the form leaves them empty or not above zero. */
  function EstimatedHours(f: QuoteForm, g: Measures): real
  {
    match f.workType
    case Construction => Ceil(g.volume * 2.0) as real
    case Repair => (CountRequested(f.repairs) * 4) as real
    case _ => 8.0
  }

  /** The labour item: the hours given on the form when they are above zero,
      otherwise the estimate; either way charged at the form's hourly rate. */
  function LaborItem(f: QuoteForm, g: Measures): LineItem
  {
    var hours := OrZero(f.laborHours);
    if hours > 0.0 then LineItem("Mano de obra", hours, "horas", f.laborRate, hours * f.laborRate)
    else
      var estimated := EstimatedHours(f, g);
      LineItem("Mano de obra (estimada)", estimated, "horas", f.laborRate, estimated * f.laborRate)
  }

  /** The work list: the branch's items, then the labour item. */
  function WorkItems(f: QuoteForm, g: Measures): seq<LineItem>
  {
    BranchItems(f, g) + [LaborItem(f, g)]
  }

  /** A labour item is the one charged by the hour. */
  predicate IsLabor(item: LineItem)
  {
    item.unit == "horas"
  }

  /** Builds the work list by pushing items and keeping a running total, as
      the quote form does: the work type's branch, then the labour item. The
      geometry comes from validated dimensions, so the volume is not
      negative. */
  method PriceWork(f: QuoteForm, g: Measures) returns (items: seq<LineItem>, subtotal: real)
    requires g.volume >= 0.0
    ensures items == WorkItems(f, g)
    ensures subtotal == SumTotals(items)
  {
    items, subtotal := PriceBranch(f, g);
    items, subtotal := PushLabor(f, g, items, subtotal);
  }

  /** The branch selected by the work type, starting from an empty list.
      Construction adds the excavation cost to the running total whether or
      not it pushed the excavation item, so the total matches the list only
      when that cost cannot be negative. */
  method PriceBranch(f: QuoteForm, g: Measures) returns (items: seq<LineItem>, subtotal: real)
    requires g.volume >= 0.0
    ensures items == BranchItems(f, g)
    ensures subtotal == SumTotals(items)
  {
    items, subtotal := [], 0.0;
    if f.workType == Construction {
      var baseConstructionCost := g.volume * CostPerCubicMeter;
      var excavationCost := if f.excavation then g.volume * ExcavationPrice else 0.0;
      items := items + [LineItem("Construcción de piscina", g.volume, "m³", CostPerCubicMeter, baseConstructionCost)];
      if excavationCost > 0.0 {
        items := items + [LineItem("Excavación", g.volume, "m³", ExcavationPrice, excavationCost)];
        assert items[..1] == [items[0]];
      }
      subtotal := baseConstructionCost + excavationCost;
      assert subtotal == SumTotals(items);
    } else if f.workType == Repair {
      items, subtotal := PushRepairs(f.repairs, RepairPrices, g.ceramicArea, items, subtotal);
    } else if f.workType == Renovation {
      var renovationCost := g.ceramicArea * RenovationPrice;
      items := items + [LineItem("Renovación completa", g.ceramicArea, "m²", RenovationPrice, renovationCost)];
      subtotal := renovationCost;
      assert subtotal == SumTotals(items);
    }
  }

  /** Appends the labour item: the hours given when they are above zero,
      otherwise the estimate for the work type. */
  method PushLabor(f: QuoteForm, g: Measures, items0: seq<LineItem>, subtotal0: real)
    returns (items: seq<LineItem>, subtotal: real)
    requires subtotal0 == SumTotals(items0)
    ensures items == items0 + [LaborItem(f, g)]
    ensures subtotal == SumTotals(items)
  {
    items, subtotal := items0, subtotal0;
    var laborHours := OrZero(f.laborHours);
    var laborCost := 0.0;
    var item;
    if laborHours > 0.0 {
      laborCost := laborHours * f.laborRate;
      item := LineItem("Mano de obra", laborHours, "horas", f.laborRate, laborCost);
    } else {
      var estimatedHours :=
        if f.workType == Construction then Ceil(g.volume * 2.0) as real
        else if f.workType == Repair then (CountRequested(f.repairs) * 4) as real
        else 8.0;
      assert estimatedHours == EstimatedHours(f, g);
      laborCost := estimatedHours * f.laborRate;
      item := LineItem("Mano de obra (estimada)", estimatedHours, "horas", f.laborRate, laborCost);
    }
    assert item == LaborItem(f, g);
    SumTotalsPush(items, item);
    items := items + [item];
    subtotal := subtotal + laborCost;
  }

  /** The `forEach` over the repair table: pushes one service per ticked
      entry, in table order, and adds its cost to the running total. */
  method PushRepairs(r: RepairChoice, table: seq<RepairPrice>, ceramicArea: real, items0: seq<LineItem>, subtotal0: real)
    returns (items: seq<LineItem>, subtotal: real)
    requires subtotal0 == SumTotals(items0)
    ensures items == items0 + RepairItems(r, table, ceramicArea)
    ensures subtotal == SumTotals(items)
  {
    items, subtotal := items0, subtotal0;
    var i := 0;
    while i < |table|
      invariant 0 <= i <= |table|
      invariant items == items0 + RepairItems(r, table[..i], ceramicArea)
      invariant subtotal == SumTotals(items)
    {
      RepairItemsStep(r, table, ceramicArea, i);
      ghost var done := RepairItems(r, table[..i], ceramicArea);
      items, subtotal := PushRepair(r, table[i], ceramicArea, items, subtotal);
      assert items == items0 + (done + RepairItemIf(r, table[i], ceramicArea));
      i := i + 1;
    }
    assert table[..i] == table;
  }

  /** The `forEach` callback for one repair entry: when its box is ticked,
      pushes the service at base plus rate times tiled area and adds that
      cost to the running total. */
  method PushRepair(r: RepairChoice, repair: RepairPrice, ceramicArea: real, items0: seq<LineItem>, subtotal0: real)
    returns (items: seq<LineItem>, subtotal: real)
    requires subtotal0 == SumTotals(items0)
    ensures items == items0 + RepairItemIf(r, repair, ceramicArea)
    ensures subtotal == SumTotals(items)
  {
    items, subtotal := items0, subtotal0;
    if Requests(r, repair.key) {
      var repairCost := repair.base + repair.perM2 * ceramicArea;
      var item := LineItem(repair.name, 1.0, "servicio", repairCost, repairCost);
      assert RepairItem(repair, ceramicArea) == item;
      SumTotalsPush(items, item);
      items := items + [item];
      subtotal := subtotal + repairCost;
    } else {
      assert items0 + [] == items0;
    }
  }

  lemma RepairItemsStep(r: RepairChoice, table: seq<RepairPrice>, ceramicArea: real, k: nat)
    requires k < |table|
    ensures RepairItems(r, table[..k + 1], ceramicArea)
         == RepairItems(r, table[..k], ceramicArea) + RepairItemIf(r, table[k], ceramicArea)
  {
    assert table[..k + 1][..k] == table[..k];
  }

  /** A six-entry table yields its entries' services in table order. */
  lemma {:induction false} SixRepairs(r: RepairChoice, t: seq<RepairPrice>, a: real)
    requires |t| == 6
    ensures RepairItems(r, t, a)
         == RepairItemIf(r, t[0], a) + RepairItemIf(r, t[1], a) + RepairItemIf(r, t[2], a)
          + RepairItemIf(r, t[3], a) + RepairItemIf(r, t[4], a) + RepairItemIf(r, t[5], a)
  {
    var i0, i1, i2 := RepairItemIf(r, t[0], a), RepairItemIf(r, t[1], a), RepairItemIf(r, t[2], a);
    var i3, i4, i5 := RepairItemIf(r, t[3], a), RepairItemIf(r, t[4], a), RepairItemIf(r, t[5], a);
    assert RepairItems(r, t[..1], a) == i0 by {
      assert t[..0] == [];
      RepairItemsStep(r, t, a, 0);
    }
    assert RepairItems(r, t[..2], a) == i0 + i1 by {
      RepairItemsStep(r, t, a, 1);
    }
    assert RepairItems(r, t[..3], a) == i0 + i1 + i2 by {
      RepairItemsStep(r, t, a, 2);
    }
    assert RepairItems(r, t[..4], a) == i0 + i1 + i2 + i3 by {
      RepairItemsStep(r, t, a, 3);
    }
    assert RepairItems(r, t[..5], a) == i0 + i1 + i2 + i3 + i4 by {
      RepairItemsStep(r, t, a, 4);
    }
    RepairItemsStep(r, t, a, 5);
    assert t[..6] == t;
  }

  /** The price list written out: leaks, cracks, coating, plumbing,
      electrical, cleaning, one service for each ticked box, each priced at
      its base plus its rate per square metre of tiled area. */
  function ListedRepairs(r: RepairChoice, a: real): seq<LineItem>
  {
    (if r.leaks then [LineItem("Reparación de filtraciones", 1.0, "servicio", 500.0 + 30.0 * a, 500.0 + 30.0 * a)] else [])
    + (if r.cracks then [LineItem("Reparación de grietas", 1.0, "servicio", 400.0 + 25.0 * a, 400.0 + 25.0 * a)] else [])
    + (if r.coating then [LineItem("Revestimiento", 1.0, "servicio", 800.0 + 50.0 * a, 800.0 + 50.0 * a)] else [])
    + (if r.plumbing then [LineItem("Reparación de plomería", 1.0, "servicio", 600.0, 600.0)] else [])
    + (if r.electrical then [LineItem("Reparación eléctrica", 1.0, "servicio", 500.0, 500.0)] else [])
    + (if r.cleaning then [LineItem("Limpieza profunda", 1.0, "servicio", 200.0 + 10.0 * a, 200.0 + 10.0 * a)] else [])
  }

  /** The pass over the repair table emits the services in table order. */
  lemma RepairOrder(r: RepairChoice, a: real)
    ensures RepairItems(r, RepairPrices, a) == ListedRepairs(r, a)
  {
    SixRepairs(r, RepairPrices, a);
  }

  /** What the ticked repairs cost, read off the price list directly. */
  function RepairCost(r: RepairChoice, a: real): real
  {
    (if r.leaks then 500.0 + 30.0 * a else 0.0) + (if r.cracks then 400.0 + 25.0 * a else 0.0)
    + (if r.coating then 800.0 + 50.0 * a else 0.0) + (if r.plumbing then 600.0 else 0.0)
    + (if r.electrical then 500.0 else 0.0) + (if r.cleaning then 200.0 + 10.0 * a else 0.0)
  }

  /** The written-out list holds one service per ticked box. */
  lemma ListedRepairsCount(r: RepairChoice, a: real)
    ensures |ListedRepairs(r, a)| == CountRequested(r)
  {
  }

  /** The written-out list costs the ticked entries' prices. */
  lemma ListedRepairsCost(r: RepairChoice, a: real)
    ensures SumTotals(ListedRepairs(r, a)) == RepairCost(r, a)
  {
    SumOfSixOptional(ListedRepairs(r, a), r.leaks, r.cracks, r.coating, r.plumbing, r.electrical, r.cleaning,
      LineItem("Reparación de filtraciones", 1.0, "servicio", 500.0 + 30.0 * a, 500.0 + 30.0 * a),
      LineItem("Reparación de grietas", 1.0, "servicio", 400.0 + 25.0 * a, 400.0 + 25.0 * a),
      LineItem("Revestimiento", 1.0, "servicio", 800.0 + 50.0 * a, 800.0 + 50.0 * a),
      LineItem("Reparación de plomería", 1.0, "servicio", 600.0, 600.0),
      LineItem("Reparación eléctrica", 1.0, "servicio", 500.0, 500.0),
      LineItem("Limpieza profunda", 1.0, "servicio", 200.0 + 10.0 * a, 200.0 + 10.0 * a));
  }

  /** There is one repair service per ticked box, and together they cost
      the ticked entries' prices. */
  lemma RepairCountAndCost(r: RepairChoice, a: real)
    ensures |RepairItems(r, RepairPrices, a)| == CountRequested(r)
    ensures SumTotals(RepairItems(r, RepairPrices, a)) == RepairCost(r, a)
  {
    RepairOrder(r, a);
    ListedRepairsCount(r, a);
    ListedRepairsCost(r, a);
  }

  /** Every repair service is a flat fee charged by the service. */
  lemma {:induction false} RepairItemsAreServices(r: RepairChoice, table: seq<RepairPrice>, a: real)
    ensures forall item :: item in RepairItems(r, table, a) ==>
      item.quantity == 1.0 && item.unit == "servicio" && item.total == item.unitPrice
  {
    if table != [] {
      RepairItemsAreServices(r, table[..|table| - 1], a);
    }
  }

  /** What each branch emits: construction the pool by volume at 300, then
      excavation at 50 exactly when it is asked for on a pool of positive
      volume; repair the ticked services in table order; renovation the tiled
      area at 60; maintenance nothing. */
  lemma BranchContents(f: QuoteForm, g: Measures)
    ensures f.workType == Construction ==>
      var b := BranchItems(f, g);
      |b| >= 1 && b[0] == LineItem("Construcción de piscina", g.volume, "m³", 300.0, g.volume * 300.0)
      && (g.volume > 0.0 ==> (|b| == 2 <==> f.excavation))
      && (|b| == 2 ==> b[1] == LineItem("Excavación", g.volume, "m³", 50.0, g.volume * 50.0))
    ensures f.workType == Repair ==> BranchItems(f, g) == ListedRepairs(f.repairs, g.ceramicArea)
    ensures f.workType == Renovation ==>
      BranchItems(f, g) == [LineItem("Renovación completa", g.ceramicArea, "m²", 60.0, g.ceramicArea * 60.0)]
    ensures f.workType == Maintenance ==> BranchItems(f, g) == []
  {
    if f.workType == Repair {
      RepairOrder(f.repairs, g.ceramicArea);
    } else if f.workType == Construction && f.excavation && g.volume > 0.0 {
      assert g.volume * 50.0 > 0.0;
    }
  }

  /** What the branch alone costs, by work type. */
  function BranchCost(f: QuoteForm, g: Measures): real
  {
    match f.workType
    case Construction => g.volume * 300.0 + (if f.excavation then g.volume * 50.0 else 0.0)
    case Repair => RepairCost(f.repairs, g.ceramicArea)
    case Renovation => g.ceramicArea * 60.0
    case Maintenance => 0.0
  }

  /** For a pool of non-negative volume, the work subtotal is the branch's
      own cost plus the labour item. */
  lemma WorkSubtotal(f: QuoteForm, g: Measures)
    requires g.volume >= 0.0
    ensures SumTotals(WorkItems(f, g)) == BranchCost(f, g) + LaborItem(f, g).total
  {
    SumTotalsAppend(BranchItems(f, g), [LaborItem(f, g)]);
    if f.workType == Repair {
      RepairCountAndCost(f.repairs, g.ceramicArea);
    } else if f.workType == Construction && f.excavation {
      assert g.volume * 50.0 >= 0.0;
    }
  }

  /** The work list always ends in exactly one labour item: it is the last
      item and no branch item is charged by the hour. */
  lemma LaborIsLast(f: QuoteForm, g: Measures)
    ensures var w := WorkItems(f, g);
      |w| >= 1 && w[|w| - 1] == LaborItem(f, g) && IsLabor(w[|w| - 1])
      && forall k :: 0 <= k < |w| - 1 ==> !IsLabor(w[k])
  {
    if f.workType == Repair {
      RepairItemsAreServices(f.repairs, RepairPrices, g.ceramicArea);
      var b := BranchItems(f, g);
      forall k | 0 <= k < |b| ensures !IsLabor(b[k]) {
        assert b[k] in b;
      }
    }
  }

  /** How many items each branch emits before the labour item, for a pool
      whose volume is above zero: construction one, or two with excavation;
      repair one per ticked box; renovation one; maintenance none. */
  lemma BranchSize(f: QuoteForm, g: Measures)
    requires g.volume > 0.0
    ensures |BranchItems(f, g)| == match f.workType
      case Construction => if f.excavation then 2 else 1
      case Repair => CountRequested(f.repairs)
      case Renovation => 1
      case Maintenance => 0
  {
    if f.workType == Repair {
      RepairCountAndCost(f.repairs, g.ceramicArea);
    } else if f.workType == Construction && f.excavation {
      assert g.volume * 50.0 > 0.0;
    }
  }

  /** The labour item depends on the pool only through its volume. */
  lemma LaborIgnoresArea(f: QuoteForm, g1: Measures, g2: Measures)
    requires g1.volume == g2.volume
    ensures LaborItem(f, g1) == LaborItem(f, g2)
  {
    assert EstimatedHours(f, g1) == EstimatedHours(f, g2);
  }

  /** Every repair's rate per square metre is non-negative, so more tiled
      area never makes the ticked repairs cheaper; it makes them strictly
      dearer when leaks, cracks, coating or cleaning are ticked. */
  lemma RepairCostMonotone(r: RepairChoice, a1: real, a2: real)
    requires a1 <= a2
    ensures RepairCost(r, a1) <= RepairCost(r, a2)
    ensures a1 < a2 && (r.leaks || r.cracks || r.coating || r.cleaning) ==> RepairCost(r, a1) < RepairCost(r, a2)
  {
  }

  /** For the same volume, a larger tiled area never lowers the work
      subtotal, and raises it strictly for a renovation or for a repair with
      an area-priced service ticked. */
  lemma WorkMonotone(f: QuoteForm, g1: Measures, g2: Measures)
    requires g1.volume == g2.volume >= 0.0 && g1.ceramicArea <= g2.ceramicArea
    ensures SumTotals(WorkItems(f, g1)) <= SumTotals(WorkItems(f, g2))
    ensures g1.ceramicArea < g2.ceramicArea
         && (f.workType == Renovation
             || (f.workType == Repair && (f.repairs.leaks || f.repairs.cracks || f.repairs.coating || f.repairs.cleaning)))
         ==> SumTotals(WorkItems(f, g1)) < SumTotals(WorkItems(f, g2))
  {
    WorkSubtotal(f, g1);
    WorkSubtotal(f, g2);
    LaborIgnoresArea(f, g1, g2);
    RepairCostMonotone(f.repairs, g1.ceramicArea, g2.ceramicArea);
  }

  /** The labour item is charged at the form's rate, for the hours given on
      the form when they are above zero. */
  lemma LaborCharge(f: QuoteForm, g: Measures)
    ensures LaborItem(f, g).unitPrice == f.laborRate && Priced(LaborItem(f, g))
    ensures OrZero(f.laborHours) > 0.0 ==>
      LaborItem(f, g).quantity == OrZero(f.laborHours) && LaborItem(f, g).name == "Mano de obra"
  {
  }

  /** Without hours on the form the labour is estimated: a whole number of
      hours from 2 x volume up to the next integer for construction, four
      hours per repair service for repair, and 8 for any other work. */
  lemma EstimatedLabor(f: QuoteForm, g: Measures)
    requires OrZero(f.laborHours) <= 0.0
    ensures LaborItem(f, g).name == "Mano de obra (estimada)"
    ensures f.workType == Construction ==>
      var h := LaborItem(f, g).quantity;
      g.volume * 2.0 <= h < g.volume * 2.0 + 1.0 && h == h.Floor as real
    ensures f.workType == Repair ==> LaborItem(f, g).quantity == 4.0 * |BranchItems(f, g)| as real
    ensures f.workType == Renovation || f.workType == Maintenance ==> LaborItem(f, g).quantity == 8.0
  {
    if f.workType == Repair {
      RepairCountAndCost(f.repairs, g.ceramicArea);
    }
  }

  /** With no repair box ticked, a repair job's work list is the labour
      item alone, whatever the hours; with no hours given either, that item
      is estimated at zero hours and costs nothing. */
  lemma NoRepairsLaborOnly(f: QuoteForm, g: Measures)
    requires f.workType == Repair && CountRequested(f.repairs) == 0
    ensures WorkItems(f, g) == [LaborItem(f, g)]
    ensures OrZero(f.laborHours) <= 0.0 ==>
      WorkItems(f, g) == [LineItem("Mano de obra (estimada)", 0.0, "horas", f.laborRate, 0.0)]
  {
    RepairCountAndCost(f.repairs, g.ceramicArea);
  }

  /** Leaks and cracks on 50 square metres of tiles, with hours left empty
      at 50 an hour: services of 2000 and 1650 and eight estimated hours,
      4050 in all. */
  lemma RepairExample(f: QuoteForm, g: Measures)
    requires f.workType == Repair && f.repairs == RepairChoice(true, true, false, false, false, false)
    requires f.laborHours == NaN && f.laborRate == 50.0 && g.ceramicArea == 50.0 && g.volume >= 0.0
    ensures BranchItems(f, g) == [
      LineItem("Reparación de filtraciones", 1.0, "servicio", 2000.0, 2000.0),
      LineItem("Reparación de grietas", 1.0, "servicio", 1650.0, 1650.0)]
    ensures LaborItem(f, g).quantity == 8.0
    ensures SumTotals(WorkItems(f, g)) == 4050.0
  {
    RepairOrder(f.repairs, g.ceramicArea);
    WorkSubtotal(f, g);
  }

  /** The three work rows of the 10 x 5 x 2 construction example. */
  function ConstructionExampleItems(): seq<LineItem>
  {
    [LineItem("Construcción de piscina", 100.0, "m³", 300.0, 30000.0),
     LineItem("Excavación", 100.0, "m³", 50.0, 5000.0),
     LineItem("Mano de obra (estimada)", 200.0, "horas", 50.0, 10000.0)]
  }

  /** New construction of 100 cubic metres with excavation, no hours given
      and 50 an hour: 30000 for the pool, 5000 for excavation and 200
      estimated hours for 10000, 45000 in all. */
  lemma ConstructionWorkExample(f: QuoteForm, g: Measures)
    requires f.workType == Construction && f.excavation && g.volume == 100.0
    requires f.laborHours == NaN && f.laborRate == 50.0
    ensures WorkItems(f, g) == ConstructionExampleItems()
    ensures SumTotals(WorkItems(f, g)) == 45000.0
  {
    var w := ConstructionExampleItems();
    assert BranchItems(f, g) == w[..2] by {
      assert g.volume * ExcavationPrice == 5000.0;
    }
    assert LaborItem(f, g) == w[2] by {
      assert Ceil(g.volume * 2.0) == 200;
    }
    assert WorkItems(f, g) == w[..2] + [w[2]];
    assert w[..2] + [w[2]] == w;
    ThreeItemsSum(w);
  }

  lemma ThreeItemsSum(w: seq<LineItem>)
    requires |w| == 3
    ensures SumTotals(w) == w[0].total + w[1].total + w[2].total
  {
    assert w[..2][..1] == [w[0]] && w[..2] == [w[0]] + [w[1]];
    SumTotalsPush([], w[0]);
    assert [] + [w[0]] == [w[0]];
    SumTotalsPush([w[0]], w[1]);
    SumTotalsPush(w[..2], w[2]);
    assert w[..2] + [w[2]] == w;
  }
}
