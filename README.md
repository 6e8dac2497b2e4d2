# Pool quote pricing engine

A Dafny model of the quote calculation of the pool-smart quoting form: the
handler that turns a submitted job description (pool shape and dimensions,
work type, materials and equipment, repairs, labour, access difficulty,
permits, excavation) into three itemised lists of line items and the quote
totals. The model also covers the small lookup that prints a work type's
readable name.

The handler is modelled stage by stage, and each stage has the same two parts:

- **An imperative method.** It pushes items onto a list and keeps a running
  total, as the handler does.
- **A pure specification function.** It says which list the stage produces.

Each method's contract ties its list to the function and its running total to
`SumTotals`, the sum of the item totals. Lemmas then state what the functions
promise.

- `Domain` (domain.dfy) holds the shared values:
  - the form;
  - line items and the quote;
  - the `parseFloat(x) || 0` reading of numeric fields (`Parsed`, `OrZero`);
  - `SumTotals`.
- `Geometry` (geometry.dfy) computes volume, tiled (ceramic) area and
  thermal-floor area for rectangular, circular and oval pools. It also holds
  `Math.ceil`.
- `MaterialPricing` (materials.dfy) prices tiles and thermal flooring and
  walks the equipment table.
- `WorkPricing` (work.dfy) prices the branch the work type selects, then the
  labour item, which is either given or estimated. It also holds the repair
  table.
- `SurchargePricing` (surcharges.dfy) prices the access surcharge or rebate
  and the permit fee.
- `QuoteEngine` (quote.dfy) holds:
  - the validation gate;
  - the quote as a function of the form (`QuoteOf`);
  - the handler (`CalculateQuote`), proved equal to it.
- `WorkTypeLabels` (labels.dfy) holds the work-type label lookup.

The handler's single body is split into one method per stage:
`PriceMaterials` (`PushSurfaces` and `PushEquipment`), `PriceWork` (`PriceBranch` and `PushLabor`),
`PriceAdditional` (`PushAccess` and `PushPermits`) and `PriceQuote`. The loops over the equipment and repair
tables are `PushEquipment` and `PushRepairs`, and both take the table as a
parameter. The statements and the order of the pushes are the handler's own.

## Model

| member | source | states |
|---|---|---|
| Domain.OrZero | pool-smart/src/App.jsx:83-85 | `parseFloat(x) \|\| 0` for the dimensions, and likewise for the labour hours: a parsed number reads as itself and a non-number (NaN) as 0. |
| QuoteEngine.CalculateQuote | pool-smart/src/App.jsx:80-366 | The result is the quote of the form. It is the validation failure exactly when a dimension, read as `parseFloat(x) \|\| 0`, is not above zero. On success, the subtotal is the sum of all item totals of the three lists, the discount is 0 and the total equals the subtotal. |
| QuoteEngine.PriceQuote | pool-smart/src/App.jsx:130-319 | Running the three stages in order and adding their running totals gives the quote assembled from the stage lists. The subtotal is the sum of the three lists' totals, the discount is 0 and the total is the subtotal. |
| QuoteEngine.DimensionGate | pool-smart/src/App.jsx:83-90 | The quote of a form is the validation failure exactly when its length, width or depth, read as `parseFloat(x) \|\| 0`, is not above zero. In particular a dimension that is not a number at all yields the failure and no quote. |
| QuoteEngine.QuoteMeasures | pool-smart/src/App.jsx:92-124 | Every produced quote has a positive volume and a positive thermal-floor area strictly below its tiled area. |
| QuoteEngine.AssembledTotal | pool-smart/src/App.jsx:316-319 | The discount is 0 and the total equals the subtotal. The total is (materials + work) times the access multiplier, plus 500 when permits are asked for. |
| QuoteEngine.QuoteTotal | pool-smart/src/App.jsx:286-319 | Every form with valid dimensions gets a quote. Its discount is 0, and its total is its material and work subtotals together, times the access multiplier, plus 500 when permits are asked for. |
| QuoteEngine.AssembledMonotone | pool-smart/src/App.jsx:291-319 | With the same access and permits, material and work lists that cost more together never give a lower total, because every access multiplier is positive. |
| QuoteEngine.QuoteMonotone | pool-smart/src/App.jsx:131-319 | Hold the volume, the floor area and every choice on the form fixed. Then a larger tiled area makes the ceramics item strictly dearer when ceramics are chosen, and never lowers the quote's total. |
| QuoteEngine.QuoteAssembled | pool-smart/src/App.jsx:286-319 | A quote's additional costs, subtotal, discount and total are those obtained by assembling its own material and work lists with the form's access and permit choices. So `AssembledTotal` applies to every quote. |
| QuoteEngine.QuoteItemsPriced | pool-smart/src/App.jsx:131-314 | Every line item of every list of a quote has total equal to quantity times unit price. |
| QuoteEngine.WorkItemsPriced | pool-smart/src/App.jsx:189-284 | Every work item has total equal to quantity times unit price. |
| QuoteEngine.ConstructionExample | pool-smart/src/App.jsx:80-319 | Takes a 10 x 5 x 2 rectangular new build with excavation, no materials, empty hours at 50 an hour, normal access and no permits. It gives volume 100, no material and no additional items, the work items 30000, 5000 and 200 estimated hours for 10000, and a total of 45000. |
| Geometry.Measure | pool-smart/src/App.jsx:92-124 | For every shape, the thermal-floor area is the pool's floor area (l·w for a rectangle, π·(w/2)² for a circle or oval), and the volume is that floor area times the depth. |
| Geometry.MeasurePositive | pool-smart/src/App.jsx:92-124 | When the three dimensions are above zero, the volume is positive and 0 < thermal-floor area < tiled area, for every shape. |
| Geometry.PrismMeasures | pool-smart/src/App.jsx:104-115 | For every shape, the tiled area is the floor area plus the perimeter times the depth: the floor and the walls. |
| Geometry.RectangularPrism | pool-smart/src/App.jsx:94-120 | For a rectangular pool: volume = l·w·d, tiled area = l·w + 2(l+w)·d, thermal-floor area = l·w. |
| Geometry.RoundPrism | pool-smart/src/App.jsx:96-123 | For a circular or oval pool with r = w/2: volume = π·r²·d, tiled area = π·r² + π·w·d, thermal-floor area = π·r². |
| Geometry.RoundIgnoresLength | pool-smart/src/App.jsx:96-123 | Circular and oval pools get identical measures, and the length never enters them. |
| Geometry.CircularExample | pool-smart/src/App.jsx:96-98 | A circular pool 4 wide and 2 deep holds 8π. |
| Geometry.Ceil | pool-smart/src/App.jsx:271 | `Math.ceil`: the result is the integer n with x ≤ n < x + 1. |
| MaterialPricing.PriceMaterials | pool-smart/src/App.jsx:131-187 | The pushed list is ceramics, then thermal flooring, then the ticked equipment. The running material total is the sum of that list's totals. |
| MaterialPricing.PushSurfaces | pool-smart/src/App.jsx:134-159 | Pushes the ceramics item, then the thermal-floor item, each only when chosen. The running total is the sum of what was pushed. |
| MaterialPricing.PushEquipment | pool-smart/src/App.jsx:162-187 | The pass over an equipment table appends exactly the items of the ticked entries, in table order. It keeps the running total equal to the sum of the list. |
| MaterialPricing.PushEquipmentEntry | pool-smart/src/App.jsx:171-186 | One step of the pass: a ticked entry appends exactly its item and adds its price to the running total; an unticked one changes nothing. |
| MaterialPricing.EquipmentOrder | pool-smart/src/App.jsx:162-187 | The equipment items come out in the order pump 800, filter 600, lighting 300, heating 2500, cover 400, ladder 250. There is one item of quantity 1 and total equal to its price for each ticked box, and none for the others. |
| MaterialPricing.EquipmentSubtotal | pool-smart/src/App.jsx:162-187 | The equipment items cost exactly the sum of the ticked entries' prices. |
| MaterialPricing.MaterialSubtotal | pool-smart/src/App.jsx:131-187 | The material subtotal is the tiled area times the tile price when ceramics are chosen, plus the floor area times 80 when thermal flooring is chosen, plus the ticked equipment prices. |
| MaterialPricing.SurfaceItems | pool-smart/src/App.jsx:134-159 | The ceramics item, when chosen, comes first with total equal to the tiled area times 50, 75 or 120 by grade. The thermal-floor item follows it with quantity equal to the floor area, unit price 80 and total equal to area times 80. |
| MaterialPricing.LuxuryTileExample | pool-smart/src/App.jsx:135-145 | Luxury tiles over 20 square metres cost 2400. |
| MaterialPricing.CeramicsMonotone | pool-smart/src/App.jsx:135-145 | More tiled area makes the ceramics item strictly dearer, for every tile grade. |
| MaterialPricing.MaterialMonotone | pool-smart/src/App.jsx:131-187 | For the same floor area, a larger tiled area never lowers the material subtotal. It raises it strictly when ceramics are chosen. |
| MaterialPricing.EquipmentItemsPriced | pool-smart/src/App.jsx:171-187 | Every equipment item of any table has total equal to quantity times unit price. |
| MaterialPricing.MaterialItemsPriced | pool-smart/src/App.jsx:131-187 | Every material item has total equal to quantity times unit price. |
| WorkPricing.CountRequested | pool-smart/src/App.jsx:273 | The number of ticked repair boxes is at most 6. It is 0 exactly when no box is ticked. |
| WorkPricing.PriceWork | pool-smart/src/App.jsx:189-284 | For a pool of non-negative volume, the pushed work list is the branch's items followed by the labour item. The running work total is the sum of that list. |
| WorkPricing.PriceBranch | pool-smart/src/App.jsx:193-253 | The branch selected by the work type pushes that branch's items. Its running total is their sum. |
| WorkPricing.PushLabor | pool-smart/src/App.jsx:255-284 | Appends exactly the labour item, given or estimated, and adds its total to the running total. |
| WorkPricing.PushRepairs | pool-smart/src/App.jsx:224-242 | The pass over a repair table appends exactly the services of the ticked entries, in table order, and keeps the running total equal to the sum. |
| WorkPricing.PushRepair | pool-smart/src/App.jsx:224-241 | One step of the pass: a ticked entry appends exactly its service, priced at base plus rate times tiled area, and adds that cost to the running total; an unticked one changes nothing. |
| WorkPricing.RepairOrder | pool-smart/src/App.jsx:213-242 | The repair services come out in the order leaks, cracks, coating, plumbing, electrical, cleaning. Each is priced at its base plus its rate times the tiled area. |
| WorkPricing.RepairCountAndCost | pool-smart/src/App.jsx:224-242 | There is one service per ticked repair box. Together they cost the ticked entries' base-plus-area prices. |
| WorkPricing.RepairItemsAreServices | pool-smart/src/App.jsx:224-242 | Every repair item is a flat service of quantity 1 whose total equals its unit price. |
| WorkPricing.BranchContents | pool-smart/src/App.jsx:193-253 | Construction emits the pool by volume at 300, then excavation at 50 exactly when it is asked for (on a pool of positive volume). Repair emits the ticked services in table order. Renovation emits tiled area at 60. Maintenance emits nothing. |
| WorkPricing.BranchSize | pool-smart/src/App.jsx:193-253 | On a pool of positive volume the branch emits: construction 1 item, or 2 with excavation; repair 1 per ticked box; renovation 1; maintenance 0. |
| WorkPricing.WorkSubtotal | pool-smart/src/App.jsx:193-284 | For non-negative volume, the work subtotal is the branch's own cost plus the labour item's total. |
| WorkPricing.LaborIsLast | pool-smart/src/App.jsx:255-284 | The work list always ends with exactly one labour item, and no earlier item is charged by the hour. |
| WorkPricing.LaborIgnoresArea | pool-smart/src/App.jsx:256-284 | The labour item depends on the pool only through its volume, never through its tiled area. |
| WorkPricing.RepairCostMonotone | pool-smart/src/App.jsx:213-242 | More tiled area never makes the ticked repairs cheaper. It makes them strictly dearer when leaks, cracks, coating or cleaning is ticked. |
| WorkPricing.WorkMonotone | pool-smart/src/App.jsx:193-284 | For the same volume, a larger tiled area never lowers the work subtotal. It raises it strictly for a renovation, or for a repair with leaks, cracks, coating or cleaning ticked. |
| WorkPricing.LaborCharge | pool-smart/src/App.jsx:256-267 | The labour item is charged at the form's rate with total = hours times rate. When hours above zero are given, the item is "Mano de obra" for exactly those hours. |
| WorkPricing.EstimatedLabor | pool-smart/src/App.jsx:268-284 | Without hours the item is "Mano de obra (estimada)". For construction the hours are the whole number from 2·volume up to the next integer. For repair they are 4 per repair service. For renovation and maintenance they are 8. |
| WorkPricing.NoRepairsLaborOnly | pool-smart/src/App.jsx:213-284 | A repair job with no box ticked has a work list of only the labour item, whatever the hours. When no hours are given either, that item is estimated at zero hours and zero cost. |
| WorkPricing.RepairExample | pool-smart/src/App.jsx:213-284 | Leaks and cracks on 50 square metres with hours left empty at 50 an hour give services of 2000 and 1650 and 8 estimated hours, 4050 in all. |
| WorkPricing.ConstructionWorkExample | pool-smart/src/App.jsx:193-284 | A new build of 100 cubic metres with excavation, empty hours and 50 an hour gives work items of 30000, 5000 and 200 hours for 10000, 45000 in all. |
| SurchargePricing.PriceAdditional | pool-smart/src/App.jsx:286-314 | The pushed list is the access item, then the permit item. The running additional total is the sum of that list. |
| SurchargePricing.PushAccess | pool-smart/src/App.jsx:290-302 | Pushes the access item exactly when the multiplier differs from 1, worth (materials + work) times (multiplier − 1). The running total is the sum of what was pushed. |
| SurchargePricing.PushPermits | pool-smart/src/App.jsx:304-314 | Appends the flat 500 permit item exactly when permits are asked for, and adds 500 to the running total. |
| SurchargePricing.AdditionalContents | pool-smart/src/App.jsx:290-314 | Which item is which. Easy or difficult access puts first a quantity-1 service named for that access, worth −(materials + work)/10 or 3(materials + work)/10. Permits put last the flat item "Permisos y licencias" of 500. Normal access gives an empty list without permits and only the permit item with them. |
| SurchargePricing.AdditionalCount | pool-smart/src/App.jsx:290-314 | Normal access emits no item, easy or difficult access exactly one, and permits one more, so the list has 0 to 2 items. |
| SurchargePricing.AdditionalSubtotal | pool-smart/src/App.jsx:290-314 | The additional subtotal is the access change plus 500 for permits. The access change is −(materials + work)/10 for easy, 0 for normal and 3(materials + work)/10 for difficult. |
| SurchargePricing.AccessScalesCombined | pool-smart/src/App.jsx:291-302 | Materials plus work plus the access item equal (materials + work) times the multiplier. The surcharge is on the combined subtotal. |
| SurchargePricing.CombinedWithAdditional | pool-smart/src/App.jsx:286-317 | Materials, work and additional costs together equal (materials + work) times the multiplier, plus 500 with permits. |
| SurchargePricing.AdditionalItemsPriced | pool-smart/src/App.jsx:290-314 | Every additional item is a flat service of quantity 1 whose total equals its unit price. |
| WorkTypeLabels.WorkTypeLabel | pool-smart/src/App.jsx:422-430 | A known work-type key gets one of the four readable names. Any other key is returned unchanged. |
| WorkTypeLabels.LabelsOfOptions | pool-smart/src/App.jsx:422-430 | construction → "Construcción Nueva", repair → "Reparación", renovation → "Renovación", maintenance → "Mantenimiento". |
| WorkTypeLabels.LabelsDistinct | pool-smart/src/App.jsx:422-430 | Two work types get the same label exactly when they are the same work type. |
| WorkTypeLabels.LabelIdempotent | pool-smart/src/App.jsx:422-430 | Labelling a label changes nothing. A key comes back unchanged exactly when it is not one of the four known keys. |

## Left out

- Formatting is not modelled. The model keeps unrounded exact values; in the source, `toFixed` turns the quantities and the quote's volume, areas and totals into 2- or 1-decimal strings for display.
- IEEE-754 floating point is not modelled. All money and geometry are exact `real`s, so the model states nothing about rounding of 0.9, 1.3 or π·r².
- `Math.PI` is an unspecified positive constant (`Geometry.PI`); only its positivity is used.
- `laborRate` is modelled as a number. The form may hold it as a string after editing, which JavaScript's `*` coerces to a number.
- Select values outside the listed options are not modelled. Pool shape, work type, tile grade and access difficulty are datatypes with exactly the options the form's select boxes offer. An unknown pool shape, which in the source leaves all three measures at 0, is therefore not modelled.
- The `repairs` group is modelled as exactly the six check boxes. The source's estimate counts every truthy value of that object.
- The alert on invalid dimensions is modelled as the `InvalidDimensions` failure.
- `setQuoteData`, `setShowModal`, the quote date and the copy of the form's fields into the quote are left out. They are React state and presentation, not pricing.
- The handler computes an unused `totalCost = volume * 300` (App.jsx:127-128), which the model leaves out.
- `WorkTypeLabels.WorkTypeLabel`: does not model JavaScript's object lookup returning inherited prototype members (for example for the key "constructor"), because the lookup is modelled as a table of the four own keys.
- `QuoteEngine.QuoteMonotone`: states monotonicity in the tiled area with the volume and floor area held fixed, as measures. The form's dimensions move volume and areas together, so no monotonicity in a single dimension is stated.
- `WorkPricing.PriceWork`: requires a non-negative volume, because the handler adds the excavation cost to the running total even when it does not push the excavation item. The two agree only when that cost cannot be negative, and the validation gate guarantees this.
- `handleChange`, `resetForm`, `prepareN8NData`, `downloadQuoteAsJSON`, `sendToN8N`, the quote modal, `formatCurrency`, the Supabase service and the Vite configuration are not part of this model. They are UI, export glue, network and storage I/O.
