/** The quote calculation as a whole: the validation gate on the three
    dimensions, then geometry, materials, work and additional costs in that
    order, then the totals. */
module QuoteEngine {
  import opened Domain
  import opened Geometry
  import opened MaterialPricing
  import opened WorkPricing
  import opened SurchargePricing

  /** The three dimensions as pricing reads them, non-numbers as 0. */
  predicate DimensionsValid(f: QuoteForm)
  {
    OrZero(f.length) > 0.0 && OrZero(f.width) > 0.0 && OrZero(f.depth) > 0.0
  }

  function FormMeasures(f: QuoteForm): Measures
  {
    Measure(f.poolType, OrZero(f.length), OrZero(f.width), OrZero(f.depth))
  }

  /** The quote for a form, or the validation failure. */
  function QuoteOf(f: QuoteForm): Result<Quote, QuoteError>
  {
    if !DimensionsValid(f) then Failure(InvalidDimensions)
    else
      var g := FormMeasures(f);
      Success(Assemble(g, MaterialItems(f.materials, g), WorkItems(f, g), f.accessDifficulty, f.permits))
  }

  /** The quote from the pool's measures and the material and work lists:
      the additional costs follow from the two subtotals, the discount is 0
      and the total is the subtotal less the discount. */
  function Assemble(g: Measures, materialCosts: seq<LineItem>, workCosts: seq<LineItem>, a: Access, permits: bool): Quote
  {
    var additionalCosts := AdditionalItems(a, permits, SumTotals(materialCosts), SumTotals(workCosts));
    var subtotal := SumTotals(materialCosts) + SumTotals(workCosts) + SumTotals(additionalCosts);
    var discount := 0.0;
    Quote(g.volume, g.ceramicArea, g.thermalFloorArea, materialCosts, workCosts, additionalCosts,
          subtotal, discount, subtotal - discount)
  }

  /** The total of an assembled quote: materials plus work, scaled by the
      access multiplier, plus 500 when permits are asked for. */
  lemma AssembledTotal(g: Measures, materialCosts: seq<LineItem>, workCosts: seq<LineItem>, a: Access, permits: bool)
    ensures var q := Assemble(g, materialCosts, workCosts, a, permits);
      q.discount == 0.0 && q.totalCost == q.subtotal
      && q.totalCost == (SumTotals(materialCosts) + SumTotals(workCosts)) * AccessMultiplier(a)
                        + (if permits then 500.0 else 0.0)
  {
    CombinedWithAdditional(a, permits, SumTotals(materialCosts), SumTotals(workCosts));
  }

  /** The form's submit handler: refuses a dimension that is not above zero
      before anything is priced, otherwise measures the pool and prices it. */
  method CalculateQuote(f: QuoteForm) returns (r: Result<Quote, QuoteError>)
    ensures r == QuoteOf(f)
    ensures r.Failure? <==> !DimensionsValid(f)
    ensures r.Success? ==>
      && r.value.subtotal == SumTotals(r.value.materialCosts) + SumTotals(r.value.workCosts) + SumTotals(r.value.additionalCosts)
      && r.value.discount == 0.0
      && r.value.totalCost == r.value.subtotal
  {
    var length := OrZero(f.length);
    var width := OrZero(f.width);
    var depth := OrZero(f.depth);
    if length <= 0.0 || width <= 0.0 || depth <= 0.0 {
      return Failure(InvalidDimensions);
    }
    var g := Measure(f.poolType, length, width, depth);
    MeasurePositive(f.poolType, length, width, depth);
    assert g == FormMeasures(f);
    var quote := PriceQuote(f, g);
    ValidQuote(f);
    r := Success(quote);
  }

  /** Runs the stages in order on the pool's measures and adds up their
      running totals: the subtotal is the three stage totals, the discount
      is 0 and the total is the subtotal less the discount. */
  method PriceQuote(f: QuoteForm, g: Measures) returns (q: Quote)
    requires g.volume >= 0.0
    ensures q == Assemble(g, MaterialItems(f.materials, g), WorkItems(f, g), f.accessDifficulty, f.permits)
    ensures q.subtotal == SumTotals(q.materialCosts) + SumTotals(q.workCosts) + SumTotals(q.additionalCosts)
    ensures q.discount == 0.0 && q.totalCost == q.subtotal
  {
    var materialCosts, totalMaterialCost := PriceMaterials(f.materials, g);
    var workCosts, totalWorkCost := PriceWork(f, g);
    var additionalCosts, totalAdditionalCost := PriceAdditional(f.accessDifficulty, f.permits, totalMaterialCost, totalWorkCost);

    var subtotal := totalMaterialCost + totalWorkCost + totalAdditionalCost;
    var discount := 0.0;
    var finalTotal := subtotal - discount;
    q := Quote(g.volume, g.ceramicArea, g.thermalFloorArea, materialCosts, workCosts, additionalCosts,
               subtotal, discount, finalTotal);
    AssembledFromTotals(g, materialCosts, workCosts, f.accessDifficulty, f.permits,
                        additionalCosts, totalMaterialCost, totalWorkCost, totalAdditionalCost);
  }

  /** A form with valid dimensions is quoted by assembling its stages. */
  lemma ValidQuote(f: QuoteForm)
    requires DimensionsValid(f)
    ensures var g := FormMeasures(f);
      QuoteOf(f) == Success(Assemble(g, MaterialItems(f.materials, g), WorkItems(f, g), f.accessDifficulty, f.permits))
  {
  }

  /** Assembling from the stages' lists gives the quote that the running
      totals build. */
  lemma AssembledFromTotals(g: Measures, materialCosts: seq<LineItem>, workCosts: seq<LineItem>, a: Access, permits: bool,
                            additionalCosts: seq<LineItem>, materialTotal: real, workTotal: real, additionalTotal: real)
    requires materialTotal == SumTotals(materialCosts) && workTotal == SumTotals(workCosts)
    requires additionalCosts == AdditionalItems(a, permits, materialTotal, workTotal)
    requires additionalTotal == SumTotals(additionalCosts)
    ensures Assemble(g, materialCosts, workCosts, a, permits)
         == Quote(g.volume, g.ceramicArea, g.thermalFloorArea, materialCosts, workCosts, additionalCosts,
                  materialTotal + workTotal + additionalTotal, 0.0, materialTotal + workTotal + additionalTotal - 0.0)
  {
  }

  /** The validation gate: the form is refused, with no quote, exactly when
      its length, width or depth, read as a number with non-numbers as 0, is
      not above zero; in particular a dimension that is not a number at all
      is refused. */
  lemma DimensionGate(f: QuoteForm)
    ensures QuoteOf(f) == Failure(InvalidDimensions)
        <==> OrZero(f.length) <= 0.0 || OrZero(f.width) <= 0.0 || OrZero(f.depth) <= 0.0
    ensures f.length == NaN || f.width == NaN || f.depth == NaN ==> QuoteOf(f) == Failure(InvalidDimensions)
  {
  }

  /** A quote's discount is 0 and its total is its material and work
      subtotals together, scaled by the access multiplier, plus 500 when
      permits are asked for. */
  predicate TotalsByAccess(q: Quote, a: Access, permits: bool)
  {
    q.discount == 0.0
    && q.totalCost == (SumTotals(q.materialCosts) + SumTotals(q.workCosts)) * AccessMultiplier(a)
                      + (if permits then 500.0 else 0.0)
  }

  /** The total of a form's quote in one step, from its own material and
      work lists, the access multiplier and the permit fee. */
  lemma QuoteTotal(f: QuoteForm)
    requires DimensionsValid(f)
    ensures QuoteOf(f).Success? && TotalsByAccess(QuoteOf(f).value, f.accessDifficulty, f.permits)
  {
    QuoteAssembled(f);
    AssembledResultTotal(QuoteOf(f), FormMeasures(f), f.accessDifficulty, f.permits);
  }

  lemma AssembledResultTotal(r: Result<Quote, QuoteError>, g: Measures, a: Access, permits: bool)
    requires r.Success? && r.value == Assemble(g, r.value.materialCosts, r.value.workCosts, a, permits)
    ensures TotalsByAccess(r.value, a, permits)
  {
    AssembledTotal(g, r.value.materialCosts, r.value.workCosts, a, permits);
  }

  /** Every access multiplier is positive, so the additional costs never
      turn a dearer job into a cheaper quote. */
  lemma MultiplierPositive(a: Access)
    ensures AccessMultiplier(a) > 0.0
  {
  }

  /** With the same access and permits, stage lists that cost more together
      give a total that is no lower. */
  lemma AssembledMonotone(g1: Measures, materials1: seq<LineItem>, work1: seq<LineItem>,
                          g2: Measures, materials2: seq<LineItem>, work2: seq<LineItem>, a: Access, permits: bool)
    requires SumTotals(materials1) + SumTotals(work1) <= SumTotals(materials2) + SumTotals(work2)
    ensures Assemble(g1, materials1, work1, a, permits).totalCost <= Assemble(g2, materials2, work2, a, permits).totalCost
  {
    AssembledTotal(g1, materials1, work1, a, permits);
    AssembledTotal(g2, materials2, work2, a, permits);
    MultiplierPositive(a);
    var d := SumTotals(materials2) + SumTotals(work2) - (SumTotals(materials1) + SumTotals(work1));
    assert d * AccessMultiplier(a) >= 0.0;
  }

  /** Holding the volume, the floor and every choice on the form fixed, a
      larger tiled area makes the ceramics item strictly dearer when
      ceramics are chosen, and never lowers the quote's total. */
  lemma QuoteMonotone(f: QuoteForm, g1: Measures, g2: Measures)
    requires g1.volume == g2.volume >= 0.0 && g1.thermalFloorArea == g2.thermalFloorArea
    requires g1.ceramicArea <= g2.ceramicArea
    ensures f.materials.ceramics && g1.ceramicArea < g2.ceramicArea ==>
      MaterialItems(f.materials, g1)[0].total < MaterialItems(f.materials, g2)[0].total
    ensures Assemble(g1, MaterialItems(f.materials, g1), WorkItems(f, g1), f.accessDifficulty, f.permits).totalCost
         <= Assemble(g2, MaterialItems(f.materials, g2), WorkItems(f, g2), f.accessDifficulty, f.permits).totalCost
  {
    if f.materials.ceramics && g1.ceramicArea < g2.ceramicArea {
      CeramicsMonotone(f.materials.tiles, g1.ceramicArea, g2.ceramicArea);
    }
    MaterialMonotone(f.materials, g1, g2);
    WorkMonotone(f, g1, g2);
    AssembledMonotone(g1, MaterialItems(f.materials, g1), WorkItems(f, g1),
                      g2, MaterialItems(f.materials, g2), WorkItems(f, g2), f.accessDifficulty, f.permits);
  }

  /** A quote carries its pool's measures: positive volume, and a tiled area
      above the positive thermal-floor area. */
  lemma QuoteMeasures(f: QuoteForm)
    requires QuoteOf(f).Success?
    ensures var q := QuoteOf(f).value;
      q.volume > 0.0 && 0.0 < q.thermalFloorArea < q.ceramicArea
  {
    MeasurePositive(f.poolType, OrZero(f.length), OrZero(f.width), OrZero(f.depth));
  }

  /** A quote is assembled from its own material and work lists: its
      additional costs, subtotal, discount and total are those of AssembledTotal
      for the pool's measures and the form's access and permit choices. */
  lemma QuoteAssembled(f: QuoteForm)
    requires QuoteOf(f).Success?
    ensures var q := QuoteOf(f).value;
      q == Assemble(FormMeasures(f), q.materialCosts, q.workCosts, f.accessDifficulty, f.permits)
  {
  }

  /** Every row of a quote has total equal to quantity times unit price. */
  lemma QuoteItemsPriced(f: QuoteForm)
    requires QuoteOf(f).Success?
    ensures var q := QuoteOf(f).value;
      forall item :: item in q.materialCosts + q.workCosts + q.additionalCosts ==> Priced(item)
  {
    var q := QuoteOf(f).value;
    var g := FormMeasures(f);
    MaterialItemsPriced(f.materials, g);
    WorkItemsPriced(f, g);
    AdditionalItemsPriced(f.accessDifficulty, f.permits, SumTotals(q.materialCosts), SumTotals(q.workCosts));
  }

  /** Every work row has total equal to quantity times unit price. */
  lemma WorkItemsPriced(f: QuoteForm, g: Measures)
    ensures forall item :: item in WorkItems(f, g) ==> Priced(item)
  {
    if f.workType == Repair {
      RepairItemsAreServices(f.repairs, RepairPrices, g.ceramicArea);
    }
    LaborCharge(f, g);
  }

  /** A 10 x 5 x 2 rectangular pool built new with excavation, no materials,
      no hours given at 50 an hour, normal access and no permits: 100 cubic
      metres, 30000 for the pool, 5000 for excavation, 200 estimated hours
      for 10000, and 45000 in all. */
  lemma ConstructionExample(f: QuoteForm)
    requires f.length == Num(10.0) && f.width == Num(5.0) && f.depth == Num(2.0) && f.poolType == Rectangular
    requires f.workType == Construction && f.excavation
    requires f.materials == MaterialChoice(false, false, false, false, false, false, false, false, Standard)
    requires f.laborHours == NaN && f.laborRate == 50.0
    requires f.accessDifficulty == Normal && !f.permits
    ensures QuoteOf(f).Success?
    ensures QuoteOf(f).value.volume == 100.0
    ensures QuoteOf(f).value.materialCosts == [] && QuoteOf(f).value.additionalCosts == []
    ensures QuoteOf(f).value.workCosts == ConstructionExampleItems()
    ensures QuoteOf(f).value.totalCost == 45000.0
  {
    var g := FormMeasures(f);
    assert g.volume == 100.0;
    ConstructionWorkExample(f, g);
    EquipmentOrder(f.materials);
    assert MaterialItems(f.materials, g) == [];
    ExampleAssembled(g, WorkItems(f, g));
  }

  lemma ExampleAssembled(g: Measures, w: seq<LineItem>)
    requires SumTotals(w) == 45000.0
    ensures Assemble(g, [], w, Normal, false).additionalCosts == []
    ensures Assemble(g, [], w, Normal, false).totalCost == 45000.0
  {
  }
}
