/** The additional-cost stage of the quote: an access surcharge or rebate on
    the combined material and work subtotals, and a flat permit fee. */
module SurchargePricing {
  import opened Domain

  /** The factor the access difficulty applies to materials plus work. */
  function AccessMultiplier(a: Access): real
  {
    match a
    case Difficult => 1.3
    case Easy => 0.9
    case Normal => 1.0
  }

  const PermitFee: real := 500.0

  /** The access item: present only when the multiplier differs from 1, and
      then worth the change the multiplier makes to the combined subtotal. */
  function AccessItems(a: Access, combined: real): seq<LineItem>
  {
    var multiplier := AccessMultiplier(a);
    if multiplier != 1.0 then
      var accessCost := combined * (multiplier - 1.0);
      [LineItem("Recargo por acceso " + (if a == Difficult then "difícil" else "fácil"), 1.0, "servicio", accessCost, accessCost)]
    else []
  }

  function PermitItems(permits: bool): seq<LineItem>
  {
    if permits then [LineItem("Permisos y licencias", 1.0, "servicio", PermitFee, PermitFee)] else []
  }

  /** The additional-cost list: the access item, then the permits item. */
  function AdditionalItems(a: Access, permits: bool, materialSubtotal: real, workSubtotal: real): seq<LineItem>
  {
    AccessItems(a, materialSubtotal + workSubtotal) + PermitItems(permits)
  }

  /** Builds the additional-cost list by pushing items and keeping a running
      total, as the quote form does: the access item, then the permit item. */
  method PriceAdditional(a: Access, permits: bool, totalMaterialCost: real, totalWorkCost: real)
    returns (items: seq<LineItem>, subtotal: real)
    ensures items == AdditionalItems(a, permits, totalMaterialCost, totalWorkCost)
    ensures subtotal == SumTotals(items)
  {
    items, subtotal := PushAccess(a, totalMaterialCost, totalWorkCost);
    items, subtotal := PushPermits(permits, items, subtotal);
  }

  /** Starting from an empty list, pushes the access item when the
      multiplier differs from 1, worth the change it makes to materials plus
      work. */
  method PushAccess(a: Access, totalMaterialCost: real, totalWorkCost: real)
    returns (items: seq<LineItem>, subtotal: real)
    ensures items == AccessItems(a, totalMaterialCost + totalWorkCost)
    ensures subtotal == SumTotals(items)
  {
    items, subtotal := [], 0.0;
    var accessMultiplier := if a == Difficult then 1.3 else if a == Easy then 0.9 else 1.0;
    assert accessMultiplier == AccessMultiplier(a);
    if accessMultiplier != 1.0 {
      var accessCost := (totalMaterialCost + totalWorkCost) * (accessMultiplier - 1.0);
      var item := LineItem("Recargo por acceso " + (if a == Difficult then "difícil" else "fácil"), 1.0, "servicio", accessCost, accessCost);
      assert accessCost == (totalMaterialCost + totalWorkCost) * (AccessMultiplier(a) - 1.0);
      assert AccessItems(a, totalMaterialCost + totalWorkCost) == [item];
      SumOfOptional(true, item);
      items := [item];
      subtotal := accessCost;
    }
  }

  /** Pushes the flat permit fee when permits are asked for. */
  method PushPermits(permits: bool, items0: seq<LineItem>, subtotal0: real)
    returns (items: seq<LineItem>, subtotal: real)
    requires subtotal0 == SumTotals(items0)
    ensures items == items0 + PermitItems(permits)
    ensures subtotal == SumTotals(items)
  {
    items, subtotal := items0, subtotal0;
    if permits {
      var item := LineItem("Permisos y licencias", 1.0, "servicio", PermitFee, PermitFee);
      SumTotalsPush(items, item);
      items := items + [item];
      subtotal := subtotal + PermitFee;
    } else {
      assert items0 + [] == items0;
    }
  }

  /** Which item is which: easy or difficult access puts first an item
      worth a tenth of materials plus work off, or three tenths on; permits
      put last a flat item of 500; normal access without permits gives an
      empty list, and with permits the permit item alone. */
  lemma AdditionalContents(a: Access, permits: bool, materialSubtotal: real, workSubtotal: real)
    ensures var items := AdditionalItems(a, permits, materialSubtotal, workSubtotal);
      var combined := materialSubtotal + workSubtotal;
      && (a == Normal && !permits ==> items == [])
      && (a == Normal && permits ==> items == [LineItem("Permisos y licencias", 1.0, "servicio", 500.0, 500.0)])
      && (a != Normal ==>
            |items| >= 1 && items[0].quantity == 1.0 && items[0].unit == "servicio"
            && items[0].name == (if a == Easy then "Recargo por acceso fácil" else "Recargo por acceso difícil")
            && items[0].total == (if a == Easy then -combined / 10.0 else 3.0 * combined / 10.0))
      && (permits ==>
            |items| >= 1 && items[|items| - 1] == LineItem("Permisos y licencias", 1.0, "servicio", 500.0, 500.0))
  {
  }

  /** Normal access adds no item at all; easy or difficult access adds
      exactly one; permits add one more. So the list holds 0 to 2 items. */
  lemma AdditionalCount(a: Access, permits: bool, materialSubtotal: real, workSubtotal: real)
    ensures var items := AdditionalItems(a, permits, materialSubtotal, workSubtotal);
      |items| == (if a == Normal then 0 else 1) + (if permits then 1 else 0) && |items| <= 2
  {
  }

  /** The additional subtotal is the access change on materials plus work
      (minus a tenth for easy access, plus three tenths for difficult, nothing
      for normal) plus 500 for permits. */
  lemma AdditionalSubtotal(a: Access, permits: bool, materialSubtotal: real, workSubtotal: real)
    ensures SumTotals(AdditionalItems(a, permits, materialSubtotal, workSubtotal))
         == (match a
             case Easy => -(materialSubtotal + workSubtotal) / 10.0
             case Normal => 0.0
             case Difficult => 3.0 * (materialSubtotal + workSubtotal) / 10.0)
          + (if permits then 500.0 else 0.0)
  {
    var access := AccessItems(a, materialSubtotal + workSubtotal);
    SumTotalsAppend(access, PermitItems(permits));
  }

  /** The access item turns the combined material and work cost into that
      cost times the multiplier, so the surcharge is on the sum and not on
      each part separately. */
  lemma AccessScalesCombined(a: Access, materialSubtotal: real, workSubtotal: real)
    ensures materialSubtotal + workSubtotal + SumTotals(AccessItems(a, materialSubtotal + workSubtotal))
         == (materialSubtotal + workSubtotal) * AccessMultiplier(a)
  {
  }

  /** Materials, work and the additional costs together come to materials
      plus work times the access multiplier, plus the permit fee. */
  lemma CombinedWithAdditional(a: Access, permits: bool, materialSubtotal: real, workSubtotal: real)
    ensures materialSubtotal + workSubtotal + SumTotals(AdditionalItems(a, permits, materialSubtotal, workSubtotal))
         == (materialSubtotal + workSubtotal) * AccessMultiplier(a) + (if permits then 500.0 else 0.0)
  {
    SumTotalsAppend(AccessItems(a, materialSubtotal + workSubtotal), PermitItems(permits));
    AccessScalesCombined(a, materialSubtotal, workSubtotal);
  }

  /** Every additional item is a flat fee of quantity 1. */
  lemma AdditionalItemsPriced(a: Access, permits: bool, materialSubtotal: real, workSubtotal: real)
    ensures forall item :: item in AdditionalItems(a, permits, materialSubtotal, workSubtotal) ==>
      Priced(item) && item.quantity == 1.0 && item.unit == "servicio"
  {
  }
}
