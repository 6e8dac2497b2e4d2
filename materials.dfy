/** The material stage of the quote: tiles over the tiled area, thermal
    flooring over the floor area and flat-priced equipment. */
module MaterialPricing {
  import opened Domain
  import opened Geometry

  // The equipment table: key, flat price and the printed name, in the
  // order in which the source's object literal lists them.
  datatype Equipment = Pump | Filter | Lighting | Heating | Cover | Ladder
  datatype EquipmentPrice = EquipmentPrice(key: Equipment, price: real, name: string)

  const EquipmentPrices: seq<EquipmentPrice> := [
    EquipmentPrice(Pump, 800.0, "Bomba de agua"),
    EquipmentPrice(Filter, 600.0, "Sistema de filtrado"),
    EquipmentPrice(Lighting, 300.0, "Iluminación LED"),
    EquipmentPrice(Heating, 2500.0, "Sistema de calefacción"),
    EquipmentPrice(Cover, 400.0, "Cubierta de seguridad"),
    EquipmentPrice(Ladder, 250.0, "Escalera")
  ]

  /** Whether the form's check box for this piece of equipment is ticked. */
  function Selects(m: MaterialChoice, e: Equipment): bool
  {
    match e
    case Pump => m.pump
    case Filter => m.filter
    case Lighting => m.lighting
    case Heating => m.heating
    case Cover => m.cover
    case Ladder => m.ladder
  }

  /** Price per square metre of tiles of each grade. */
  function TilePrice(grade: TileGrade): real
  {
    match grade
    case Standard => 50.0
    case Premium => 75.0
    case Luxury => 120.0
  }

  function TileLabel(grade: TileGrade): string
  {
    match grade
    case Standard => "Estándar"
    case Premium => "Premium"
    case Luxury => "Lujo"
  }

  const ThermalFloorPrice: real := 80.0

  function CeramicsItem(grade: TileGrade, ceramicArea: real): LineItem
  {
    LineItem("Cerámicos " + TileLabel(grade), ceramicArea, "m²", TilePrice(grade), ceramicArea * TilePrice(grade))
  }

  function ThermalFloorItem(thermalFloorArea: real): LineItem
  {
    LineItem("Pisos térmicos", thermalFloorArea, "m²", ThermalFloorPrice, thermalFloorArea * ThermalFloorPrice)
  }

  function EquipmentItem(e: EquipmentPrice): LineItem
  {
    LineItem(e.name, 1.0, "unidad", e.price, e.price)
  }

  /** The item for one table entry: present only when its box is ticked. */
  function EquipmentItemIf(m: MaterialChoice, e: EquipmentPrice): seq<LineItem>
  {
    if Selects(m, e.key) then [EquipmentItem(e)] else []
  }

  /** The items for the selected entries of an equipment table, in table order. */
  function EquipmentItems(m: MaterialChoice, table: seq<EquipmentPrice>): seq<LineItem>
  {
    if table == [] then []
    else EquipmentItems(m, table[..|table| - 1]) + EquipmentItemIf(m, table[|table| - 1])
  }

  lemma EquipmentItemsStep(m: MaterialChoice, table: seq<EquipmentPrice>, k: nat)
    requires k < |table|
    ensures EquipmentItems(m, table[..k + 1]) == EquipmentItems(m, table[..k]) + EquipmentItemIf(m, table[k])
  {
    assert table[..k + 1][..k] == table[..k];
  }

  /** The surface items: ceramics over the tiled area, then thermal
      flooring over the floor area, each only when chosen. */
  function SurfaceItemList(m: MaterialChoice, g: Measures): seq<LineItem>
  {
    (if m.ceramics then [CeramicsItem(m.tiles, g.ceramicArea)] else [])
    + (if m.thermalFloor then [ThermalFloorItem(g.thermalFloorArea)] else [])
  }

  /** The material list: ceramics, then thermal flooring, then equipment. */
  function MaterialItems(m: MaterialChoice, g: Measures): seq<LineItem>
  {
    SurfaceItemList(m, g) + EquipmentItems(m, EquipmentPrices)
  }

  /** What the selected equipment costs, read off the price list directly. */
  function EquipmentCost(m: MaterialChoice): real
  {
    (if m.pump then 800.0 else 0.0) + (if m.filter then 600.0 else 0.0)
    + (if m.lighting then 300.0 else 0.0) + (if m.heating then 2500.0 else 0.0)
    + (if m.cover then 400.0 else 0.0) + (if m.ladder then 250.0 else 0.0)
  }

  /** Builds the material list by pushing items and keeping a running total,
      as the quote form does: ceramics, thermal flooring, then one pass over
      the equipment table. */
  method PriceMaterials(m: MaterialChoice, g: Measures) returns (items: seq<LineItem>, subtotal: real)
    ensures items == MaterialItems(m, g)
    ensures subtotal == SumTotals(items)
  {
    items, subtotal := PushSurfaces(m, g);
    items, subtotal := PushEquipment(m, EquipmentPrices, items, subtotal);
  }

  /** Pushes the ceramics item and then the thermal-floor item, each only
      when chosen, starting from an empty list and a zero running total. */
  method PushSurfaces(m: MaterialChoice, g: Measures) returns (items: seq<LineItem>, subtotal: real)
    ensures items == SurfaceItemList(m, g)
    ensures subtotal == SumTotals(items)
  {
    items, subtotal := [], 0.0;
    if m.ceramics {
      var tilePrice := TilePrice(m.tiles);
      var ceramicCost := g.ceramicArea * tilePrice;
      var item := LineItem("Cerámicos " + TileLabel(m.tiles), g.ceramicArea, "m²", tilePrice, ceramicCost);
      SumTotalsPush(items, item);
      items := items + [item];
      subtotal := subtotal + ceramicCost;
    }
    if m.thermalFloor {
      var thermalCost := g.thermalFloorArea * ThermalFloorPrice;
      var item := LineItem("Pisos térmicos", g.thermalFloorArea, "m²", ThermalFloorPrice, thermalCost);
      SumTotalsPush(items, item);
      items := items + [item];
      subtotal := subtotal + thermalCost;
    }
  }

  /** The `forEach` over the equipment table: pushes one item per ticked
      entry, in table order, and adds its price to the running total. */
  method PushEquipment(m: MaterialChoice, table: seq<EquipmentPrice>, items0: seq<LineItem>, subtotal0: real)
    returns (items: seq<LineItem>, subtotal: real)
    requires subtotal0 == SumTotals(items0)
    ensures items == items0 + EquipmentItems(m, table)
    ensures subtotal == SumTotals(items)
  {
    items, subtotal := items0, subtotal0;
    var i := 0;
    while i < |table|
      invariant 0 <= i <= |table|
      invariant items == items0 + EquipmentItems(m, table[..i])
      invariant subtotal == SumTotals(items)
    {
      EquipmentItemsStep(m, table, i);
      ghost var done := EquipmentItems(m, table[..i]);
      items, subtotal := PushEquipmentEntry(m, table[i], items, subtotal);
      assert items == items0 + (done + EquipmentItemIf(m, table[i]));
      i := i + 1;
    }
    assert table[..i] == table;
  }

  /** The `forEach` callback for one equipment entry: when its box is
      ticked, pushes one unit at the entry's price and adds that price to the
      running total. */
  method PushEquipmentEntry(m: MaterialChoice, e: EquipmentPrice, items0: seq<LineItem>, subtotal0: real)
    returns (items: seq<LineItem>, subtotal: real)
    requires subtotal0 == SumTotals(items0)
    ensures items == items0 + EquipmentItemIf(m, e)
    ensures subtotal == SumTotals(items)
  {
    items, subtotal := items0, subtotal0;
    if Selects(m, e.key) {
      var item := LineItem(e.name, 1.0, "unidad", e.price, e.price);
      SumTotalsPush(items, item);
      items := items + [item];
      subtotal := subtotal + e.price;
    } else {
      assert items0 + [] == items0;
    }
  }

  /** A six-entry table yields its entries' items in table order. */
  lemma {:induction false} SixEntries(m: MaterialChoice, t: seq<EquipmentPrice>)
    requires |t| == 6
    ensures EquipmentItems(m, t)
         == EquipmentItemIf(m, t[0]) + EquipmentItemIf(m, t[1]) + EquipmentItemIf(m, t[2])
          + EquipmentItemIf(m, t[3]) + EquipmentItemIf(m, t[4]) + EquipmentItemIf(m, t[5])
  {
    var i0, i1, i2 := EquipmentItemIf(m, t[0]), EquipmentItemIf(m, t[1]), EquipmentItemIf(m, t[2]);
    var i3, i4, i5 := EquipmentItemIf(m, t[3]), EquipmentItemIf(m, t[4]), EquipmentItemIf(m, t[5]);
    assert EquipmentItems(m, t[..1]) == i0 by {
      assert t[..0] == [];
      EquipmentItemsStep(m, t, 0);
    }
    assert EquipmentItems(m, t[..2]) == i0 + i1 by {
      EquipmentItemsStep(m, t, 1);
    }
    assert EquipmentItems(m, t[..3]) == i0 + i1 + i2 by {
      EquipmentItemsStep(m, t, 2);
    }
    assert EquipmentItems(m, t[..4]) == i0 + i1 + i2 + i3 by {
      EquipmentItemsStep(m, t, 3);
    }
    assert EquipmentItems(m, t[..5]) == i0 + i1 + i2 + i3 + i4 by {
      EquipmentItemsStep(m, t, 4);
    }
    EquipmentItemsStep(m, t, 5);
    assert t[..6] == t;
  }

  /** The equipment items come out in the order pump, filter, lighting,
      heating, cover, ladder, one flat-priced item for each ticked box. */
  lemma EquipmentOrder(m: MaterialChoice)
    ensures EquipmentItems(m, EquipmentPrices)
         == (if m.pump then [LineItem("Bomba de agua", 1.0, "unidad", 800.0, 800.0)] else [])
          + (if m.filter then [LineItem("Sistema de filtrado", 1.0, "unidad", 600.0, 600.0)] else [])
          + (if m.lighting then [LineItem("Iluminación LED", 1.0, "unidad", 300.0, 300.0)] else [])
          + (if m.heating then [LineItem("Sistema de calefacción", 1.0, "unidad", 2500.0, 2500.0)] else [])
          + (if m.cover then [LineItem("Cubierta de seguridad", 1.0, "unidad", 400.0, 400.0)] else [])
          + (if m.ladder then [LineItem("Escalera", 1.0, "unidad", 250.0, 250.0)] else [])
  {
    SixEntries(m, EquipmentPrices);
  }

  /** The material subtotal is the tiles' price per square metre times the
      tiled area, plus 80 per square metre of thermal floor, plus the flat
      price of every selected piece of equipment. */
  lemma MaterialSubtotal(m: MaterialChoice, g: Measures)
    ensures SumTotals(MaterialItems(m, g))
         == (if m.ceramics then g.ceramicArea * TilePrice(m.tiles) else 0.0)
          + (if m.thermalFloor then g.thermalFloorArea * 80.0 else 0.0)
          + EquipmentCost(m)
  {
    var c := if m.ceramics then [CeramicsItem(m.tiles, g.ceramicArea)] else [];
    var t := if m.thermalFloor then [ThermalFloorItem(g.thermalFloorArea)] else [];
    var e := EquipmentItems(m, EquipmentPrices);
    assert SumTotals(MaterialItems(m, g)) == SumTotals(c) + SumTotals(t) + SumTotals(e) by {
      assert MaterialItems(m, g) == c + t + e;
      SumTotalsAppend(c + t, e);
      SumTotalsAppend(c, t);
    }
    assert SumTotals(c) == (if m.ceramics then g.ceramicArea * TilePrice(m.tiles) else 0.0) by {
      SumOfOptional(m.ceramics, CeramicsItem(m.tiles, g.ceramicArea));
    }
    assert SumTotals(t) == (if m.thermalFloor then g.thermalFloorArea * 80.0 else 0.0) by {
      SumOfOptional(m.thermalFloor, ThermalFloorItem(g.thermalFloorArea));
    }
    EquipmentSubtotal(m);
  }

  /** The equipment items cost exactly the selected flat prices. */
  lemma EquipmentSubtotal(m: MaterialChoice)
    ensures SumTotals(EquipmentItems(m, EquipmentPrices)) == EquipmentCost(m)
  {
    EquipmentOrder(m);
    SumOfSixOptional(EquipmentItems(m, EquipmentPrices), m.pump, m.filter, m.lighting, m.heating, m.cover, m.ladder,
      LineItem("Bomba de agua", 1.0, "unidad", 800.0, 800.0),
      LineItem("Sistema de filtrado", 1.0, "unidad", 600.0, 600.0),
      LineItem("Iluminación LED", 1.0, "unidad", 300.0, 300.0),
      LineItem("Sistema de calefacción", 1.0, "unidad", 2500.0, 2500.0),
      LineItem("Cubierta de seguridad", 1.0, "unidad", 400.0, 400.0),
      LineItem("Escalera", 1.0, "unidad", 250.0, 250.0));
  }

  /** When ceramics are chosen they head the list, priced at 50, 75 or 120
      per square metre of tiled area by grade; thermal flooring follows at
      80 per square metre of floor. */
  lemma SurfaceItems(m: MaterialChoice, g: Measures)
    ensures m.ceramics ==>
      MaterialItems(m, g)[0].total
      == g.ceramicArea * (match m.tiles case Standard => 50.0 case Premium => 75.0 case Luxury => 120.0)
    ensures m.thermalFloor ==>
      var k := if m.ceramics then 1 else 0;
      MaterialItems(m, g)[k] == LineItem("Pisos térmicos", g.thermalFloorArea, "m²", 80.0, g.thermalFloorArea * 80.0)
  {
  }

  /** Luxury tiles over 20 square metres cost 2400. */
  lemma LuxuryTileExample(m: MaterialChoice, g: Measures)
    requires m.ceramics && m.tiles == Luxury && g.ceramicArea == 20.0
    ensures MaterialItems(m, g)[0].total == 2400.0
  {
  }

  /** Every equipment item's total is its quantity times its unit price. */
  lemma {:induction false} EquipmentItemsPriced(m: MaterialChoice, table: seq<EquipmentPrice>)
    ensures forall item :: item in EquipmentItems(m, table) ==> Priced(item)
  {
    if table != [] {
      EquipmentItemsPriced(m, table[..|table| - 1]);
    }
  }

  /** Every material item's total is its quantity times its unit price. */
  lemma MaterialItemsPriced(m: MaterialChoice, g: Measures)
    ensures forall item :: item in MaterialItems(m, g) ==> Priced(item)
  {
    EquipmentItemsPriced(m, EquipmentPrices);
  }

  /** Every tile grade has a positive price per square metre. */
  lemma TilePricePositive(grade: TileGrade)
    ensures TilePrice(grade) > 0.0
  {
  }

  /** More tiled area makes the ceramics item strictly dearer. */
  lemma CeramicsMonotone(grade: TileGrade, area1: real, area2: real)
    requires area1 < area2
    ensures CeramicsItem(grade, area1).total < CeramicsItem(grade, area2).total
  {
    TilePricePositive(grade);
    assert (area2 - area1) * TilePrice(grade) > 0.0;
  }

  /** For the same floor, a larger tiled area never lowers the material
      subtotal, and raises it strictly when ceramics are chosen. */
  lemma MaterialMonotone(m: MaterialChoice, g1: Measures, g2: Measures)
    requires g1.thermalFloorArea == g2.thermalFloorArea && g1.ceramicArea <= g2.ceramicArea
    ensures SumTotals(MaterialItems(m, g1)) <= SumTotals(MaterialItems(m, g2))
    ensures m.ceramics && g1.ceramicArea < g2.ceramicArea ==>
      SumTotals(MaterialItems(m, g1)) < SumTotals(MaterialItems(m, g2))
  {
    MaterialSubtotal(m, g1);
    MaterialSubtotal(m, g2);
    TilePricePositive(m.tiles);
    assert (g2.ceramicArea - g1.ceramicArea) * TilePrice(m.tiles) >= 0.0;
  }
}
