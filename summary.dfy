/**
 * Pricing and the order summary of js/scripts.js: `getAddonPrice`, the
 * running total and the line items `updateSummary` builds, and the
 * per-add-on price `updateAddonPrices` shows. Line items are (label, amount)
 * pairs; the markup they are written into is not modelled.
 */
module Summary {
  import opened Wrappers
  import opened JsValues
  import opened Membership

  const FamilyDiscount: real := 0.25
  const FamilySize: real := 4.0

  /** `getAddonPrice(addon, planKey)`: under the family plan an add-on is
      priced for four people less the family discount, three times its base
      price; under any other plan it costs its base price. */
  function AddonPrice(addon: Addon, planKey: Value): (r: real)
    ensures planKey == Str("family") ==> r == 3.0 * addon.price as real
    ensures planKey != Str("family") ==> r == addon.price as real
  {
    // `Number(addon.price || 0)`: the price is always a number here, and `0 || 0` is 0.
    var base := addon.price as real;
    if planKey == Str("family") then base * FamilySize * (1.0 - FamilyDiscount) else base
  }

  /** One entry of the summary list: what the label span and the price span
      show, before formatting. */
  datatype Line = Line(text: Value, amount: Number)

  /** What add-on `k` adds to the total: its effective price when it is
      selected, nothing otherwise. */
  function Contribution(addons: map<string, Addon>, k: string, planKey: Value): real {
    if k in addons && addons[k].selected then AddonPrice(addons[k], planKey) else 0.0
  }

  /** The line add-on `k` contributes: one when it is selected, none otherwise. */
  function LineOf(addons: map<string, Addon>, k: string, planKey: Value): seq<Line> {
    if k in addons && addons[k].selected then [Line(Str(addons[k].title), Finite(AddonPrice(addons[k], planKey)))]
    else []
  }

  /** The add-on lines for `keys`, in order. */
  function AddonLines(addons: map<string, Addon>, keys: seq<string>, planKey: Value): seq<Line>
    decreases |keys|
  {
    if keys == [] then []
    else AddonLines(addons, keys[..|keys| - 1], planKey) + LineOf(addons, keys[|keys| - 1], planKey)
  }

  /** The sum over `keys` of what each add-on adds. */
  function AddonSum(addons: map<string, Addon>, keys: seq<string>, planKey: Value): real
    decreases |keys|
  {
    if keys == [] then 0.0
    else AddonSum(addons, keys[..|keys| - 1], planKey) + Contribution(addons, keys[|keys| - 1], planKey)
  }

  /** The plan's line: `formatPrice(data.plan.price)` converts with `Number`. */
  function PlanLine(p: Plan): Line {
    Line(p.title, ToNumber(p.price))
  }

  /** The plan's part of the total: `Number(data.plan.price || 0)`. */
  function PlanAmount(p: Plan): Number {
    ToNumber(Or(p.price, Num(Finite(0.0))))
  }

  /** The summary list: the plan line, then a line per selected add-on in the
      order the add-ons were built. */
  function SummaryLines(s: Selection): seq<Line> {
    [PlanLine(s.plan)] + AddonLines(s.addons, AddonKeys, s.plan.key)
  }

  /** The summary total: the plan's amount plus what the selected add-ons add. */
  function SummaryTotal(s: Selection): Number {
    Add(PlanAmount(s.plan), Finite(AddonSum(s.addons, AddonKeys, s.plan.key)))
  }

  /** Whether `updateSummary` throws a TypeError for plan `p`: `Number(...)`
      of its price (line 208) and the template literal holding its label
      (line 210) both convert to a primitive, which fails for an object with
      its own `toString` or an array holding one. */
  predicate SummaryThrows(p: Plan) {
    PrimitiveThrows(p.price) || PrimitiveThrows(p.title)
  }

  /** `updateSummary(data)`, returning the list it renders and the total it
      writes. The list is emptied first (line 203); when the plan's price or
      label throws, the list stays empty and no total is written (None). */
  method UpdateSummary(s: Selection) returns (lines: seq<Line>, total: Option<Number>)
    ensures total.None? <==> SummaryThrows(s.plan)
    ensures total.None? ==> lines == []
    ensures total.Some? ==> lines == SummaryLines(s) && total.value == SummaryTotal(s)
  {
    lines := [];
    // `Number(data.plan.price || 0)` (line 208) and the template literal
    // holding `data.plan.label` (line 210) convert to a primitive.
    FallbackThrows(s.plan.price);
    if PrimitiveThrows(Or(s.plan.price, Num(Finite(0.0)))) || PrimitiveThrows(s.plan.title) {
      return [], None;
    }
    var sum;
    lines, sum := ListSummary(s);
    total := Some(sum);
  }

  /** Lines 203-223 of `updateSummary` when nothing throws: the plan line and
      amount, then the `forEach` over the add-ons. */
  method ListSummary(s: Selection) returns (lines: seq<Line>, total: Number)
    ensures lines == SummaryLines(s)
    ensures total == SummaryTotal(s)
  {
    total := Finite(0.0);
    var planKey := s.plan.key;
    total := Add(total, PlanAmount(s.plan));
    lines := [PlanLine(s.plan)];
    PlanFirst(s.plan);
    lines, total := AppendAddons(s.addons, AddonKeys, planKey, lines, total);
  }

  /** The running total starts at 0, so after the plan it is the plan's amount. */
  lemma PlanFirst(p: Plan)
    ensures Add(Finite(0.0), PlanAmount(p)) == PlanAmount(p)
  {
  }

  /** `v || 0` throws on conversion exactly when `v` does: a falsy value
      never throws, and neither does 0. */
  lemma FallbackThrows(v: Value)
    ensures PrimitiveThrows(Or(v, Num(Finite(0.0)))) <==> PrimitiveThrows(v)
  {
  }

  /** The throw in `updateSummary` comes only from a stored plan outside the
      catalogue: a catalogue key takes the catalogue's label and price, and
      the defaults never throw, so it throws exactly when the stored key
      converts, is not a catalogue key, and the stored label or price is an
      object with its own `toString` (or an array holding one). */
  lemma LoadedSummaryThrows(stored: Value)
    requires Truthy(stored)
    ensures var sp := Or(Get(stored, "plan"), Obj(map[]));
            SummaryThrows(LoadMembership(Some(stored)).plan) <==>
              && !PrimitiveThrows(Get(sp, "key"))
              && !Truthy(PlanDefaultFor(PlanKeyOf(sp)))
              && (PrimitiveThrows(Get(sp, "label")) || PrimitiveThrows(Get(sp, "price")))
  {
    var sp := Or(Get(stored, "plan"), Obj(map[]));
    var key := PlanKeyOf(sp);
    var known := PlanDefaultFor(key);
    if !PrimitiveThrows(key) && Truthy(known) {
      var k := KeyText(key);
      PlanDefaultsEntries(k.value);
      assert k.value == "individual" || k.value == "family";
    }
  }

  /** The `forEach` of `updateSummary` over the add-ons in `keys` order:
      each selected one appends its line and adds its effective price. */
  method AppendAddons(addons: map<string, Addon>, keys: seq<string>, planKey: Value, lines0: seq<Line>, total0: Number)
    returns (lines: seq<Line>, total: Number)
    ensures lines == lines0 + AddonLines(addons, keys, planKey)
    ensures total == Add(total0, Finite(AddonSum(addons, keys, planKey)))
  {
    lines, total := lines0, total0;
    var i := 0;
    while i < |keys|
      invariant 0 <= i <= |keys|
      invariant lines == lines0 + AddonLines(addons, keys[..i], planKey)
      invariant total == Add(total0, Finite(AddonSum(addons, keys[..i], planKey)))
    {
      var k := keys[i];
      AppendStep(addons, keys, i, planKey, lines0, total0);
      if k in addons && addons[k].selected {
        var addonPrice := AddonPrice(addons[k], planKey);
        total := Add(total, Finite(addonPrice));
        lines := lines + [Line(Str(addons[k].title), Finite(addonPrice))];
      }
      i := i + 1;
    }
    assert keys[..i] == keys;
  }

  /** One more key in the `forEach` of `updateSummary`: a selected add-on
      appends its line and adds its price, any other key changes nothing. */
  lemma AppendStep(addons: map<string, Addon>, keys: seq<string>, i: nat, pk: Value, lines0: seq<Line>, total0: Number)
    requires i < |keys|
    ensures var k := keys[i];
            var lines := lines0 + AddonLines(addons, keys[..i], pk);
            var total := Add(total0, Finite(AddonSum(addons, keys[..i], pk)));
            if k in addons && addons[k].selected then
              && lines0 + AddonLines(addons, keys[..i + 1], pk) == lines + [Line(Str(addons[k].title), Finite(AddonPrice(addons[k], pk)))]
              && Add(total0, Finite(AddonSum(addons, keys[..i + 1], pk))) == Add(total, Finite(AddonPrice(addons[k], pk)))
            else
              && lines0 + AddonLines(addons, keys[..i + 1], pk) == lines
              && Add(total0, Finite(AddonSum(addons, keys[..i + 1], pk))) == total
  {
    var k := keys[i];
    var prev := AddonLines(addons, keys[..i], pk);
    Step(addons, keys, i, pk);
    AddFinite(total0, AddonSum(addons, keys[..i], pk), Contribution(addons, k, pk));
    assert lines0 + (prev + LineOf(addons, k, pk)) == (lines0 + prev) + LineOf(addons, k, pk);
  }

  /** Adding two finite amounts one after the other adds their sum. */
  lemma AddFinite(a: Number, x: real, y: real)
    ensures Add(Add(a, Finite(x)), Finite(y)) == Add(a, Finite(x + y))
  {
  }

  /** One more key adds its line and its contribution. */
  lemma Step(a: map<string, Addon>, keys: seq<string>, i: nat, pk: Value)
    requires i < |keys|
    ensures AddonLines(a, keys[..i + 1], pk) == AddonLines(a, keys[..i], pk) + LineOf(a, keys[i], pk)
    ensures AddonSum(a, keys[..i + 1], pk) == AddonSum(a, keys[..i], pk) + Contribution(a, keys[i], pk)
  {
    assert keys[..i + 1][..i] == keys[..i];
  }

  /** The summary spelled out for the three add-ons: the plan line followed by
      the lines of the selected ones in the order rx, dental, vision, and the
      plan amount plus the effective prices of the selected ones only. */
  lemma SummaryOfThree(s: Selection)
    ensures SummaryLines(s) == [PlanLine(s.plan)] + LineOf(s.addons, "rx", s.plan.key)
                               + LineOf(s.addons, "dental", s.plan.key) + LineOf(s.addons, "vision", s.plan.key)
    ensures SummaryTotal(s) == Add(PlanAmount(s.plan),
                                   Finite(Contribution(s.addons, "rx", s.plan.key)
                                          + Contribution(s.addons, "dental", s.plan.key)
                                          + Contribution(s.addons, "vision", s.plan.key)))
  {
    LinesOfThree(s.addons, s.plan.key);
    SumOfThree(s.addons, s.plan.key);
  }

  lemma LinesOfThree(a: map<string, Addon>, pk: Value)
    ensures AddonLines(a, AddonKeys, pk) == LineOf(a, "rx", pk) + LineOf(a, "dental", pk) + LineOf(a, "vision", pk)
  {
    var k1, k2 := AddonKeys[..1], AddonKeys[..2];
    assert k2[..1] == k1 && k1[..0] == [] && k1[0] == "rx" && k2[1] == "dental";
    assert AddonLines(a, k1, pk) == LineOf(a, "rx", pk);
    assert AddonLines(a, k2, pk) == AddonLines(a, k1, pk) + LineOf(a, "dental", pk);
  }

  lemma SumOfThree(a: map<string, Addon>, pk: Value)
    ensures AddonSum(a, AddonKeys, pk) == Contribution(a, "rx", pk) + Contribution(a, "dental", pk) + Contribution(a, "vision", pk)
  {
    var k1, k2 := AddonKeys[..1], AddonKeys[..2];
    assert k2[..1] == k1 && k1[..0] == [] && k1[0] == "rx" && k2[1] == "dental";
    assert AddonSum(a, k1, pk) == Contribution(a, "rx", pk);
    assert AddonSum(a, k2, pk) == AddonSum(a, k1, pk) + Contribution(a, "dental", pk);
  }

  /** With nothing added, the list is the plan line alone and the total is the
      plan's amount. */
  lemma NothingAdded(s: Selection)
    requires forall k :: k in s.addons ==> !s.addons[k].selected
    ensures SummaryLines(s) == [PlanLine(s.plan)]
    ensures SummaryTotal(s) == Add(PlanAmount(s.plan), Finite(0.0))
  {
    NoneSelected(s.addons, AddonKeys, s.plan.key);
  }

  /** Keys none of whose add-ons is selected give no lines and add nothing. */
  lemma {:induction false} NoneSelected(a: map<string, Addon>, keys: seq<string>, pk: Value)
    requires forall k :: k in a ==> !a[k].selected
    ensures AddonLines(a, keys, pk) == [] && AddonSum(a, keys, pk) == 0.0
  {
    if keys != [] {
      NoneSelected(a, keys[..|keys| - 1], pk);
    }
  }

  /** Selecting an add-on raises the total by exactly its effective price, so
      switching it off and on again restores the total. */
  lemma SelectingAddsItsPrice(s: Selection, k: string)
    requires k in s.addons && !s.addons[k].selected && k in DefaultAddons
    ensures var t := s.(addons := s.addons[k := s.addons[k].(selected := true)]);
            SummaryTotal(t) == Add(SummaryTotal(s), Finite(AddonPrice(s.addons[k], s.plan.key)))
  {
    var a, pk := s.addons, s.plan.key;
    var b := a[k := a[k].(selected := true)];
    var price := AddonPrice(a[k], pk);
    SumAfterSelecting(a, k, pk);
    AddFinite(PlanAmount(s.plan), AddonSum(a, AddonKeys, pk), price);
    var t := s.(addons := b);
    assert t.plan == s.plan && t.addons == b;
  }

  /** Selecting one of the three add-ons adds its effective price to the sum. */
  lemma SumAfterSelecting(a: map<string, Addon>, k: string, pk: Value)
    requires k in a && !a[k].selected && k in DefaultAddons
    ensures AddonSum(a[k := a[k].(selected := true)], AddonKeys, pk) == AddonSum(a, AddonKeys, pk) + AddonPrice(a[k], pk)
  {
    var b := a[k := a[k].(selected := true)];
    SumOfThree(a, pk);
    SumOfThree(b, pk);
    assert k == "rx" || k == "dental" || k == "vision";
    SelectedContribution(a, k, "rx", pk);
    SelectedContribution(a, k, "dental", pk);
    SelectedContribution(a, k, "vision", pk);
  }

  /** Selecting add-on `k` gives it its effective price as its contribution
      and leaves every other key's contribution as it was. */
  lemma SelectedContribution(a: map<string, Addon>, k: string, j: string, pk: Value)
    requires k in a && !a[k].selected
    ensures Contribution(a[k := a[k].(selected := true)], j, pk) == if j == k then AddonPrice(a[k], pk) else Contribution(a, j, pk)
    ensures j == k ==> Contribution(a, j, pk) == 0.0
  {
  }

  /** The family plan with the pharmacy add-on: 300 + 25 × 4 × 0.75 = 375. */
  lemma FamilyWithPharmacy()
    ensures var s := Selection(Plan(Str("family"), Str("Family membership (2 adults + 2 kids)"), Num(Finite(300.0))),
                               DefaultAddons["rx" := Addon("Pharmacy", 25, true)]);
            && SummaryTotal(s) == Finite(375.0)
            && SummaryLines(s) == [Line(Str("Family membership (2 adults + 2 kids)"), Finite(300.0)),
                                   Line(Str("Pharmacy"), Finite(75.0))]
  {
    var s := Selection(Plan(Str("family"), Str("Family membership (2 adults + 2 kids)"), Num(Finite(300.0))),
                       DefaultAddons["rx" := Addon("Pharmacy", 25, true)]);
    SummaryOfThree(s);
  }

  /** The price `updateAddonPrices` shows for the element tagged with add-on
      `key` and base-price attribute `baseAttr`. A key the selection has no
      add-on for, including a name inherited from `Object.prototype` (whose
      built-in object has no price, so its effective price is 0), shows the
      base price; so does an add-on whose effective price is 0. */
  function ShownAddonPrice(s: Selection, key: string, baseAttr: Option<string>): (r: Number)
    ensures key in s.addons && AddonPrice(s.addons[key], s.plan.key) != 0.0 ==>
              r == Finite(AddonPrice(s.addons[key], s.plan.key))
    ensures !(key in s.addons && AddonPrice(s.addons[key], s.plan.key) != 0.0) ==>
              r == DatasetNumber(baseAttr)
  {
    var basePrice := DatasetNumber(baseAttr);
    var effectivePrice := if key in s.addons then Finite(AddonPrice(s.addons[key], s.plan.key)) else basePrice;
    if Truthy(Num(effectivePrice)) then effectivePrice else basePrice
  }

  /** An element tagged `data-addon-price`: its add-on key and its
      `data-base-price` attribute. */
  datatype PriceTarget = PriceTarget(key: string, basePrice: Option<string>)

  /** The price `ShownAddonPrice` gives an element, as a function of it. */
  function PriceOf(s: Selection): PriceTarget -> Number
  {
    (t: PriceTarget) => ShownAddonPrice(s, t.key, t.basePrice)
  }

  /** `f` applied to each element of `xs`, in order. */
  function MapSeq<T, U>(f: T -> U, xs: seq<T>): (r: seq<U>)
    ensures |r| == |xs|
    decreases |xs|
  {
    if xs == [] then [] else MapSeq(f, xs[..|xs| - 1]) + [f(xs[|xs| - 1])]
  }

  lemma {:induction false} MapSeqAt<T, U>(f: T -> U, xs: seq<T>, i: nat)
    requires i < |xs|
    ensures MapSeq(f, xs)[i] == f(xs[i])
    decreases |xs|
  {
    var n := |xs| - 1;
    if i < n {
      MapSeqAt(f, xs[..n], i);
      assert xs[..n][i] == xs[i];
    }
  }

  /** The prices shown for `targets`, in order. */
  function ShownPrices(s: Selection, targets: seq<PriceTarget>): (r: seq<Number>)
    ensures |r| == |targets|
  {
    MapSeq(PriceOf(s), targets)
  }

  /** Element `i` shows the price `ShownAddonPrice` gives for its own key and
      base price. */
  lemma ShownPriceAt(s: Selection, targets: seq<PriceTarget>, i: nat)
    requires i < |targets|
    ensures ShownPrices(s, targets)[i] == ShownAddonPrice(s, targets[i].key, targets[i].basePrice)
  {
    MapSeqAt(PriceOf(s), targets, i);
  }

  /** `updateAddonPrices(data)`: the price each tagged element shows, in
      document order. */
  method UpdateAddonPrices(s: Selection, targets: seq<PriceTarget>) returns (shown: seq<Number>)
    ensures shown == ShownPrices(s, targets)
  {
    shown := [];
    var i := 0;
    while i < |targets|
      invariant 0 <= i <= |targets|
      invariant shown == MapSeq(PriceOf(s), targets[..i])
    {
      assert targets[..i + 1][..i] == targets[..i];
      shown := shown + [PriceOf(s)(targets[i])];
      i := i + 1;
    }
    assert targets[..i] == targets;
  }

  /** The last two statements of the script (lines 278-279), which the plan
      inputs' handler repeats (lines 259-260): `updateSummary`, then
      `updateAddonPrices`. A throw in `updateSummary` ends the script or the
      handler there, so no add-on price is written (None). */
  method Render(s: Selection, targets: seq<PriceTarget>)
    returns (lines: seq<Line>, total: Option<Number>, shown: Option<seq<Number>>)
    ensures total.None? <==> SummaryThrows(s.plan)
    ensures total.None? ==> lines == [] && shown.None?
    ensures total.Some? ==> lines == SummaryLines(s) && total.value == SummaryTotal(s)
    ensures total.Some? ==> shown == Some(ShownPrices(s, targets))
  {
    lines, total := UpdateSummary(s);
    if total.None? {
      return lines, total, None;
    }
    var prices := UpdateAddonPrices(s, targets);
    shown := Some(prices);
  }
}
