# Membership order summary — a Dafny model

`js/scripts.js` is the page script of a membership-based healthcare site. Most
of it is DOM glue. Its logic sits in four places, and this project models each
of them and proves what it promises:

- **Loading the stored selection** (`loadMembership`). The stored record comes
  from localStorage, or from the `oneviaMembership` cookie when localStorage
  has nothing. It may be missing, malformed or partial. The loader always turns
  it into a complete selection:
  - the plan key falls back to `individual`;
  - a catalogue key (`individual`, `family`) gets the catalogue's label and price;
  - a key that cannot be turned into a property name makes the lookup throw,
    and the `catch` returns the defaults;
  - the add-ons are exactly `rx`, `dental` and `vision`, with their default
    labels and prices and a boolean `selected`.
- **Pricing** (`getAddonPrice`, `updateSummary`, `updateAddonPrices`). Under
  the family plan an add-on costs its base price × 4 × (1 − 0.25), which is 3 ×
  base. The summary lists the plan, then every selected add-on. The total is
  the plan price plus the selected add-ons' effective prices. A plan price or
  label that cannot be converted to a primitive makes `updateSummary` throw
  after it has emptied the list, so no total and no add-on price is written.
- **The page-wide selection object** (`membershipData`). The `?add=` parameter,
  the add-on boxes and the plan inputs each update one field of it in place,
  then save it.
- **Cookies and the plan switcher.** `getCookie` splits `document.cookie` on
  `"; "` and returns the text between the first and second `=` of the first
  row named `name`. `setPlan` and the plan buttons show one plan's card and
  leave exactly one button active.

Modules, one per part of the script:

- `wrappers.dfy` (`Wrappers`): `Option`.
- `js_values.dfy` (`JsValues`): the JavaScript values the script handles,
  with truthiness, `||`, property lookup, `Number(...)`, and `JSON.stringify`'s
  treatment of `undefined` and NaN. A parsed stored record is a `Value`, so a
  malformed record is just another input.
- `string_numeric.dfy` (`StringNumeric`): how `Number(...)` reads a string,
  following section 7.1.4.1.1 of ECMAScript 2023. White space at either end
  is skipped. The rest is a decimal literal (sign, fraction, exponent) or an
  integer after `0x`, `0o` or `0b`. Values are exact reals.
- `cookies.dfy` (`Cookies`): `split`, `join`, `startsWith` and `getCookie`.
- `membership.dfy` (`Membership`): the catalogue and `loadMembership`.
  `Encode` is what `saveMembership` writes. The class `MembershipData` is
  `membershipData`. Its ghost field `saved` is what storage holds. After every
  handler that saves, `saved` equals the encoding of the current state.
- `summary.dfy` (`Summary`): the summary's line items, as (label, amount)
  pairs, and its total.
- `plan_display.dfy` (`PlanDisplay`): the `plans` table and the class
  `PlanSwitcher`, which holds the buttons' `is-active` flags in an array.

Foreign calls become inputs:
- `JSON.parse` of the stored text is an `Option<Value>`. None means there was
  no text, or reading or parsing it threw.
- `URLSearchParams.get('add')` and the inputs' `data-*` attributes are
  `Option<string>` arguments.
- `document.cookie` is a string argument.
- `decodeURIComponent` is read as the identity.

Other versions of this script price some plans as "contact us". The version
modelled here has no such plans, and neither does the model.

## Model

| member | source | states |
|---|---|---|
| `Cookies.SplitJoin` | js/scripts.js:28 | joining the parts of `split("; ")` again gives back the cookie text |
| `Cookies.SplitFirstCut` | js/scripts.js:28 | `split` cuts at the leftmost occurrence of the separator; the remaining parts are those of the text after it |
| `Cookies.JoinSplit` | js/scripts.js:28 | rows that hold no `;`, joined by `"; "`, split back into the same rows |
| `Cookies.FirstStartingWith` | js/scripts.js:29 | `find` returns the first row that starts with the prefix; it returns nothing exactly when no row does |
| `Cookies.GetCookie` | js/scripts.js:26-31 | the result is null exactly when no `"; "`-separated row starts with `name=` |
| `Cookies.UpTo` | js/scripts.js:30 | the text before the first `=` holds no `=`, is a prefix of the text, and is either all of it or stops at an `=` |
| `Cookies.RowValue` | js/scripts.js:30 | for a name without `=`, `split('=')[1]` of a row starting with `name=` is the text after `name=` up to the next `=` |
| `Cookies.CookieValue` | js/scripts.js:26-31 | the value is taken from the first matching row and cut at its second `=`, so a value holding `=` comes back truncated |
| `Cookies.CookieRoundTrip` | js/scripts.js:22-31 | a cookie written as `name=value`, with the value URI-encoded, reads back whole among any other cookies, as long as no earlier cookie has the same name |
| `Cookies.FoundRow` | js/scripts.js:26-31 | among rows free of `;`, the first row starting with `name=` is the one read, and its value is the text after `name=` up to the next `=` |
| `Cookies.ValueStopsAtEquals` | js/scripts.js:26-31 | for a cookie row `name=head=tail` after rows not named `name`, `getCookie(name)` is `head`: the value stops at the second `=` |
| `Membership.PlanDefaultsEntries` | js/scripts.js:144-147 | the pricing catalogue holds exactly `individual` and `family`, each an object |
| `Membership.NormalizePlan` | js/scripts.js:154-164 | the key is the stored key when truthy, otherwise `individual`; a catalogue key gets the catalogue label and price whatever was stored; any other key keeps the stored label and price field by field over the defaults; a key that cannot be turned into a property name (an object with its own `toString`, or an array holding one) makes the lookup throw, and exactly then there is no plan |
| `Membership.NormalizePlanAsWritten` | js/scripts.js:154-164 | the same lines with the lookup as written: the key and the throwing keys as above, and a key named after an `Object.prototype` member gets label and price `undefined` |
| `Membership.AsWrittenAgreesOffPrototype` | js/scripts.js:161-164 | for every key whose property name is not an `Object.prototype` name, the lookup as written and the corrected one build the same plan |
| `Membership.InheritedPlanKeyDropsStoredFields` | js/scripts.js:161-164 | as written, a stored key `constructor` makes the label and price `undefined`; the corrected lookup keeps the stored `Gold` and 50 |
| `Membership.NormalizeAddons` | js/scripts.js:166-173 | exactly the three add-ons with their catalogue labels and prices; each is selected exactly when its stored `selected` is truthy, and not when the flag is missing |
| `Membership.LoadMembership` | js/scripts.js:149-178 | the result always has exactly the three add-ons with their catalogue labels and prices, and a truthy plan key that converts to a property name; a missing record, a failed parse, a falsy record, or a plan key that throws at line 161 (caught at lines 175-177) give the default selection |
| `Membership.StoredText` | js/scripts.js:151 | a non-empty localStorage entry is the stored text; there is no text exactly when the entry is missing or empty and no cookie row starts with `oneviaMembership=` |
| `Membership.DefaultSelectionIs` | js/scripts.js:132-143 | the default selection is plan `individual` at 100 with all three add-ons unselected |
| `Membership.LoadedAddon` | js/scripts.js:166-173 | each add-on keeps its default label and price; `selected` is the truthiness of the stored `addons.<key>.selected`, false when that flag is missing, and false when the plan key throws and the defaults are loaded |
| `Membership.LoadedPlanKey` | js/scripts.js:154-177 | the loaded key is the stored `plan.key` when it is truthy and converts to a property name; it is `individual` when `plan` or its key is missing, falsy or not an object, and when the key throws |
| `Membership.Encode` | js/scripts.js:180-183 | the saved text has a `plan` and an `addons` object, records every add-on's `selected` flag, and is JSON when the plan's fields are JSON, `undefined` or NaN |
| `Membership.LoadAfterSave` | js/scripts.js:149-183 | for a plan key that is JSON: loading what `saveMembership` wrote gives back the add-ons, and the plan key when it is truthy; a falsy key (`""`, `0`, `false`, `null`) reloads as the default plan through `storedPlan.key \|\| 'individual'`; the label and price come back as the catalogue's for a catalogue key, and as saved otherwise (NaN as `null`, a missing field as the default); a key that throws at line 161 loads the default selection |
| `Membership.PlanAfterSave` | js/scripts.js:154-183 | a saved plan object with a truthy key loads back with that key, with the catalogue's label and price for a catalogue key and the saved ones otherwise; one with a falsy key loads as the default plan; it loads as nothing exactly when its key throws |
| `Membership.LoadedPlanSurvives` | js/scripts.js:154-164 | a plan loaded from JSON is JSON in every field, is the catalogue's entry for a catalogue key, and outside the catalogue holds neither `undefined` nor NaN in label and price, so saving and loading keep it |
| `Membership.LoadSaveLoad` | js/scripts.js:149-183 | saving a loaded selection and loading it again gives the same selection |
| `Membership.StoredTextFallsBackToCookie` | js/scripts.js:151 | a non-empty localStorage entry is read whatever the cookies hold; with the entry missing or empty, the cookie written by `setCookie` is read back whole |
| `Membership.MembershipData.constructor` | js/scripts.js:238 | the page-wide selection starts as `loadMembership`'s result, and storage is untouched |
| `Membership.MembershipData.ApplyAddParam` | js/scripts.js:239-244 | a non-empty `add` parameter naming an existing add-on selects only that add-on and saves; the plan never changes; any other parameter leaves the add-ons as they were |
| `Membership.MembershipData.ToggleAddon` | js/scripts.js:270-275 | a known key sets only that add-on's `selected` to the box state and saves; the plan and the other add-ons are unchanged; an unknown key changes nothing |
| `Membership.MembershipData.ChangePlan` | js/scripts.js:251-258 | an unchecked input changes nothing; a checked one makes the plan {key, label or `Membership`, numeric price or 0} and saves; the add-ons are untouched |
| `Membership.DatasetLabel` | js/scripts.js:255 | the plan label is the input's non-empty `data-label`, otherwise `Membership`, and is never empty |
| `Membership.DatasetNumber` | js/scripts.js:256 | a missing `data-price` gives 0; a present one is read as `Number` reads any string, since `\|\| 0` maps the empty string to 0, which `Number("")` also is; a string of decimal digits gives its value |
| `JsValues.StringToNumber` | js/scripts.js:256 | `Number` of a string: white space alone gives 0 and a string of decimal digits gives its value; the rest is read as a numeric literal, or is NaN |
| `StringNumeric.Parse` | js/scripts.js:256 | white space alone reads as 0; a non-empty string of decimal digits reads as its value |
| `StringNumeric.TrimStart` | js/scripts.js:256 | the result is a suffix of the text; what was cut is white space, and the result does not start with white space |
| `StringNumeric.TrimEnd` | js/scripts.js:256 | the result is a prefix of the text; what was cut is white space, and the result does not end with white space |
| `StringNumeric.FirstOf` | js/scripts.js:256 | the index found holds a character of the set, and no character before it does; past the end when none |
| `StringNumeric.FractionValue` | js/scripts.js:256 | the digits after a decimal point are worth at least 0 and less than 1 |
| `StringNumeric.DecimalPoint` | js/scripts.js:256 | digits, a point and digits, with at least one digit, read as the whole part plus the fraction |
| `StringNumeric.PointLiteral` | js/scripts.js:256 | a text of digits, a point and digits, starting with a digit, reads as the whole part plus the fraction |
| `StringNumeric.DecimalExponent` | js/scripts.js:256 | digits, `e` and digits read as the digits' value times ten to the power of the exponent |
| `StringNumeric.ExponentLiteral` | js/scripts.js:256 | a text of digits, `e` and digits reads as the digits' value times ten to the power of the exponent |
| `StringNumeric.SignedDecimal` | js/scripts.js:256 | a leading `-` negates an unsigned decimal literal, and a leading `+` keeps it |
| `StringNumeric.HexInteger` | js/scripts.js:256 | `0x` then hexadecimal digits reads as their value in base 16 |
| `StringNumeric.SurroundingWhiteSpace` | js/scripts.js:256 | white space before and after a literal changes nothing: the text reads as the literal alone |
| `StringNumeric.SpacedDigits` | js/scripts.js:256 | white space before decimal digits is skipped, and the digits read as their value |
| `StringNumeric.DecimalTextRoundTrip` | js/scripts.js:256 | the decimal text of a whole number reads back as that number |
| `StringNumeric.PointForm` | js/scripts.js:256 | `Number("12.5")` is 12.5 |
| `StringNumeric.SpaceForm` | js/scripts.js:256 | `Number(" 7")` is 7 |
| `StringNumeric.ExponentForm` | js/scripts.js:256 | `Number("1e2")` is 100 |
| `StringNumeric.HexForm` | js/scripts.js:256 | `Number("0x1F")` is 31 |
| `Summary.AddonPrice` | js/scripts.js:190-196 | an add-on's effective price is 3 × its base price under the `family` plan, and its base price under any other plan |
| `Summary.UpdateSummary` | js/scripts.js:198-224 | the list is emptied, then the loop builds the plan line followed by the selected add-ons' lines, and the total written is the plan price plus their effective prices; when the plan's price (line 208) or label (line 210) is an object with its own `toString`, or an array holding one, the call throws: the list stays empty and no total is written |
| `Summary.LoadedSummaryThrows` | js/scripts.js:149-210 | a loaded plan makes `updateSummary` throw exactly when the stored key converts, is not a catalogue key, and the stored label or price fails to convert to a primitive |
| `Summary.UpdateAddonPrices` | js/scripts.js:226-236 | the loop writes one price per `[data-addon-price]` element, in document order: exactly `ShownPrices` of the elements |
| `Summary.ShownPriceAt` | js/scripts.js:226-236 | the `i`-th element shows the price `ShownAddonPrice` gives for that element's own add-on key and base price, not another element's |
| `Summary.ListSummary` | js/scripts.js:203-223 | when nothing throws, the lines are the plan line then the selected add-ons' lines, and the total is the plan amount plus their effective prices (`SummaryLines`, `SummaryTotal`) |
| `Summary.Render` | js/scripts.js:278-279 | `updateSummary` and then `updateAddonPrices`; when `updateSummary` throws, the list is empty, the total is not written, and no add-on price is written |
| `Summary.AppendAddons` | js/scripts.js:214-221 | the `forEach` appends, in key order, one line per selected add-on and adds exactly the selected add-ons' effective prices to the running total |
| `Summary.SummaryOfThree` | js/scripts.js:204-223 | the lines are the plan line, then the `rx`, `dental` and `vision` lines of those selected, in that order; the total is the plan amount plus the effective prices of the selected add-ons only |
| `Summary.NothingAdded` | js/scripts.js:214-221 | with no add-on selected, the list is the plan line alone and the total is the plan amount |
| `Summary.SelectingAddsItsPrice` | js/scripts.js:214-221 | selecting one add-on raises the total by exactly its effective price, so turning it off and on again restores the total |
| `Summary.FamilyWithPharmacy` | js/scripts.js:190-223 | the family plan with pharmacy totals 375 (300 + 75), listed as the plan line and a 75 pharmacy line |
| `Summary.ShownAddonPrice` | js/scripts.js:226-236 | an add-on's price label shows its effective price when that is non-zero; otherwise, or for a key with no add-on, it shows the element's base price |
| `PlanDisplay.PlanCardFor` | js/scripts.js:71-98 | the switcher knows exactly `individual` and `family`, each with four features |
| `PlanDisplay.CataloguesCoverSameKeys` | js/scripts.js:71-147 | the switcher shows a card exactly for the keys the pricing catalogue prices |
| `PlanDisplay.ShownPriceIsCharged` | js/scripts.js:71-147 | the monthly price text on a plan card holds the decimal text of the price the summary charges for that plan, and that text reads back as the price |
| `PlanDisplay.PlanSwitcher.constructor` | js/scripts.js:114-128 | with at least one button, the panel shows the individual plan after set-up; the buttons keep the page's own state |
| `PlanDisplay.PlanSwitcher.SetPlan` | js/scripts.js:96-112 | a known key puts its card on the panel; an unknown key leaves the panel as it was |
| `PlanDisplay.PlanSwitcher.Click` | js/scripts.js:115-124 | after a click, exactly the clicked button is active, and its plan is shown if known |

## Left out

- The navigation toggle (js/scripts.js:8-20) is left out: it only flips a class and an ARIA attribute.
- Scroll reveal (js/scripts.js:46-63) is left out: it is driven by `IntersectionObserver` callbacks.
- Step-link rewriting (js/scripts.js:33-44) is left out: it is storage and `href` writes.
- `formatPrice` (js/scripts.js:185-188) is left out: it rounds IEEE doubles. Line amounts are kept as numbers before formatting.
- The storage layer is left out as foreign calls: localStorage, cookie writes and their `max-age`, `JSON.parse`, `encodeURIComponent`/`decodeURIComponent` and `URLSearchParams`. What they deliver is taken as arguments, as listed above.
- The handlers re-render the summary after each change (js/scripts.js:259-260, 274). The model does not call the renderers from the handlers. `Summary.Render` gives what the start-up lines 278-279, and the plan handler's lines 259-260, render for `Current()`. A throw in `updateSummary` is modelled (no total, and no add-on prices after it), but the exception itself is not: the model returns None for the total and the prices.
- Syncing the inputs' `checked` state at start-up (js/scripts.js:246-250, 264-269) writes only to the DOM and is left out.
- Missing DOM elements are not modelled. In `setPlan`, a missing label/title, price, note or feature list element skips that one write (js/scripts.js:100-104). A missing item list or total element returns from the whole of `updateSummary` (js/scripts.js:201), so nothing is rendered.
- Extra fields of a stored plan are left out. `{ ...storedPlan }` copies them into the loaded plan, and saving writes them back. The model's `Plan` keeps only key, label and price.
- `{ ...defaultMembership }` (js/scripts.js:153, 176) is a shallow copy. With no stored record, the loaded add-ons object is the default's own, so line 242 also mutates the defaults. The model returns the defaults by value. The difference cannot be observed, because `loadMembership` runs once per page.
- `membershipData.addons[k]` with a name inherited from `Object.prototype` sets `selected` on a built-in object and then saves (js/scripts.js:241-243, 271-273). The model records the save and leaves the data unchanged. It does not model the change to the built-in object.
- JsValues.Add: sums exact reals, not IEEE doubles. The catalogue prices, the add-on prices and their family prices are integers, so for them no rounding occurs. A stored plan outside the catalogue keeps its stored price, which may be a fraction: with a price of 0.1 and pharmacy selected, the source's `total += 25` (js/scripts.js:217) rounds, and the model's sum is exact. Infinities are not modelled.
- Membership.LoadMembership: builds the plan with the corrected lookup `NormalizePlan`, and so do `MembershipData.constructor`, `LoadAfterSave`, `PlanAfterSave`, `LoadedPlanSurvives`, `LoadSaveLoad` and `Summary.LoadedSummaryThrows`. For the stored record `{"plan":{"key":"constructor","label":{"toString":1}}}`, for instance, the model's loaded plan makes `updateSummary` throw, where the source loads label `undefined` and renders. The source as written is `NormalizePlanAsWritten`: for a stored key named after an `Object.prototype` member (`constructor`, say) it loads label and price `undefined`, where the model keeps the stored ones. `AsWrittenAgreesOffPrototype` shows the two agree for every other key.
- Membership.LoadAfterSave: states nothing for a plan whose key is not JSON or whose label or price holds `undefined` or NaN below the top level. No reachable selection holds such a plan; `Stringified` writes only the top level of a field.
- JsValues.ToNumber: an array gives NaN, although `Number([])` is 0 and `Number([7])` is 7. An object gives NaN; one that throws is modelled by `SummaryThrows` where the script converts it (js/scripts.js:208).
- JsValues.StringToNumber: `Infinity`, `+Infinity` and `-Infinity` give NaN here, where `Number` gives an infinity. A literal too large for a double, such as `1e400`, reads as its exact value here, where `Number` gives an infinity. Decimal literals are not rounded to the nearest double. `-0` reads as 0.
- PlanDisplay.PlanSwitcher.SetPlan: treats a name inherited from `Object.prototype` as unknown. For such a key the source writes `undefined` texts and then throws at `plan.features.forEach`.
- `Summary.UpdateSummary` visits the add-ons in the fixed order `rx`, `dental`, `vision`, not in `Object.values` order. The two orders agree because `loadMembership` always builds the add-ons in that order.
- The `if (data.plan)` guard (js/scripts.js:207) is always taken in the model, because a selection always has a plan.

## Findings

| source | as written | input that shows it | evidently intended | confidence | as-written member | corrected member |
|---|---|---|---|---|---|---|
| js/scripts.js:161-164 | `planDefaults[planKey]` also finds names inherited from `Object.prototype`, so such a key counts as a catalogue plan and gets label and price `undefined` | a stored record `{"plan":{"key":"constructor","label":"Gold","price":50}}` | a key outside the catalogue keeps its stored label and price, as every other unknown key does | high; not executed | `Membership.InheritedPlanKeyDropsStoredFields` | `Membership.NormalizePlan` |
