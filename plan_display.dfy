/**
 * The plan display switcher of js/scripts.js: the `plans` table, `setPlan`,
 * and the plan buttons, of which a click makes exactly one active. The text
 * the panel shows is modelled as the plan card last written to it.
 */
module PlanDisplay {
  import opened Wrappers
  import opened JsValues
  import Membership
  import StringNumeric

  datatype PlanCard = PlanCard(title: string, price: string, note: string, features: seq<string>)

  /** `plans[key]`, own entries only. */
  function PlanCardFor(key: string): (r: Option<PlanCard>)
    ensures r.Some? <==> key == "individual" || key == "family"
    ensures r.Some? ==> |r.value.features| == 4
  {
    if key == "individual" then
      Some(PlanCard("Individual membership", "$100 / month",
                    "Per adult. Transparent, predictable pricing.",
                    ["Same- or next-day access", "Longer visits when you need them",
                     "Direct physician messaging", "At-cost labs and medications"]))
    else if key == "family" then
      Some(PlanCard("Family membership", "$300 / month",
                    "Covers 2 adults + 2 kids. Call for other arrangements.",
                    ["One shared care plan for the whole family", "Unlimited primary care visits",
                     "Direct messaging for parents and caregivers", "Transparent monthly pricing"]))
    else None
  }

  /** The switcher shows a plan exactly when the order summary's catalogue
      prices it. */
  lemma CataloguesCoverSameKeys(key: string)
    ensures PlanCardFor(key).Some? <==> Truthy(Membership.PlanDefaultFor(Str(key)))
  {
    assert Membership.PlanDefaultFor(Str(key)) == Get(Membership.PlanDefaults, key);
    Membership.PlanDefaultsEntries(key);
  }

  /** The monthly price the switcher shows is the price the summary charges:
      the digits in the text are the catalogue price's, and read back as it. */
  lemma ShownPriceIsCharged(key: string)
    requires PlanCardFor(key).Some?
    ensures exists n: nat :: Get(Membership.PlanDefaultFor(Str(key)), "price") == Num(Finite(n as real))
                             && PlanCardFor(key).value.price == "$" + StringNumeric.DecimalText(n) + " / month"
                             && StringNumeric.Parse(StringNumeric.DecimalText(n)) == Some(n as real)
  {
    var n: nat := if key == "individual" then 100 else 300;
    ChargedPrice(key);
    PriceText(key);
    StringNumeric.DecimalTextRoundTrip(n);
    assert Get(Membership.PlanDefaultFor(Str(key)), "price") == Num(Finite(n as real));
  }

  lemma ChargedPrice(key: string)
    requires key == "individual" || key == "family"
    ensures Get(Membership.PlanDefaultFor(Str(key)), "price")
            == Num(Finite(if key == "individual" then 100 as real else 300 as real))
  {
    assert Membership.PlanDefaultFor(Str(key)) == Get(Membership.PlanDefaults, key);
  }

  lemma PriceText(key: string)
    requires key == "individual" || key == "family"
    ensures PlanCardFor(key).value.price == "$" + StringNumeric.DecimalText(if key == "individual" then 100 else 300) + " / month"
  {
    if key == "individual" {
      IndividualPriceText();
    } else {
      FamilyPriceText();
    }
  }

  lemma IndividualPriceText()
    ensures PlanCardFor("individual").value.price == "$" + StringNumeric.DecimalText(100) + " / month"
  {
    assert PlanCardFor("individual").value.price == "$100 / month";
    PriceFormat100();
  }

  lemma FamilyPriceText()
    ensures PlanCardFor("family").value.price == "$" + StringNumeric.DecimalText(300) + " / month"
  {
    assert PlanCardFor("family").value.price == "$300 / month";
    PriceFormat300();
  }

  lemma PriceFormat100()
    ensures "$" + StringNumeric.DecimalText(100) + " / month" == "$100 / month"
  {
    assert StringNumeric.DecimalText(1) == "1" && StringNumeric.DecimalText(10) == "10" && StringNumeric.DecimalText(100) == "100";
  }

  lemma PriceFormat300()
    ensures "$" + StringNumeric.DecimalText(300) + " / month" == "$300 / month"
  {
    assert StringNumeric.DecimalText(3) == "3" && StringNumeric.DecimalText(30) == "30" && StringNumeric.DecimalText(300) == "300";
  }

  /** The plan buttons and the panel they drive. */
  class PlanSwitcher {
    /** The `data-plan` attribute of each button. */
    const plans: seq<string>
    /** Whether each button carries `is-active` (and `aria-selected`). */
    const active: array<bool>
    /** The card the panel shows; None while it still shows the page's own text. */
    var shown: Option<PlanCard>

    ghost predicate Valid()
      reads this
    {
      active.Length == |plans|
    }

    /** Lines 114-128: with at least one button, the panel shows the
        individual plan once the page is set up; the buttons keep the state
        the page gave them. */
    constructor (plans: seq<string>, initiallyActive: seq<bool>)
      requires |initiallyActive| == |plans|
      ensures Valid() && fresh(active)
      ensures this.plans == plans && active[..] == initiallyActive
      ensures shown == (if |plans| > 0 then PlanCardFor("individual") else None)
    {
      this.plans := plans;
      active := new bool[|initiallyActive|](i requires 0 <= i < |initiallyActive| => initiallyActive[i]);
      shown := if |plans| > 0 then PlanCardFor("individual") else None;
    }

    /** `setPlan(key)`: a known key puts its card on the panel; an unknown one
        leaves the panel as it was. */
    method SetPlan(key: string)
      modifies this
      ensures PlanCardFor(key).Some? ==> shown == PlanCardFor(key)
      ensures PlanCardFor(key).None? ==> shown == old(shown)
    {
      var plan := PlanCardFor(key);
      if plan.None? {
        return;
      }
      shown := plan;
    }

    /** A click on button `i`: every button loses `is-active`, button `i`
        gains it, and its plan is shown. */
    method Click(i: nat)
      requires Valid() && i < active.Length
      modifies this, active
      ensures Valid()
      ensures forall j :: 0 <= j < active.Length ==> active[j] == (j == i)
      ensures (set j | 0 <= j < active.Length && active[j]) == {i}
      ensures PlanCardFor(plans[i]).Some? ==> shown == PlanCardFor(plans[i])
      ensures PlanCardFor(plans[i]).None? ==> shown == old(shown)
    {
      var j := 0;
      while j < active.Length
        invariant 0 <= j <= active.Length
        invariant forall m :: 0 <= m < j ==> !active[m]
        invariant shown == old(shown)
      {
        active[j] := false;
        j := j + 1;
      }
      active[i] := true;
      SetPlan(plans[i]);
    }
  }
}
