/**
 * The persisted membership selection of js/scripts.js: the defaults, the
 * `planDefaults` catalogue, `loadMembership` (which repairs a partial or
 * malformed stored record), `saveMembership` (as the JSON value it writes),
 * and the page-wide `membershipData` object that the change handlers update
 * in place.
 */
module Membership {
  import opened Wrappers
  import opened JsValues
  import Cookies
  import StringNumeric

  const StorageKey: string := "oneviaMembership"

  /** The plan part of a selection (`title` is the script's `label`). Its fields are JavaScript values: a stored
      record for a plan outside the catalogue may hold anything there. */
  datatype Plan = Plan(key: Value, title: Value, price: Value)

  datatype Addon = Addon(title: string, price: int, selected: bool)

  datatype Selection = Selection(plan: Plan, addons: map<string, Addon>)

  /** The add-on keys in the order `loadMembership` builds them. */
  const AddonKeys: seq<string> := ["rx", "dental", "vision"]

  const DefaultPlan: Plan := Plan(Str("individual"), Str("Individual membership"), Num(Finite(100.0)))

  const DefaultAddons: map<string, Addon> :=
    map["rx" := Addon("Pharmacy", 25, false),
        "dental" := Addon("Dental", 40, false),
        "vision" := Addon("Vision", 10, false)]

  const DefaultSelection: Selection := Selection(DefaultPlan, DefaultAddons)

  /** `planDefaults`, as the object literal it is. */
  const PlanDefaults: Value :=
    Obj(map["individual" := Obj(map["label" := Str("Individual membership"),
                                    "price" := Num(Finite(100.0))]),
            "family" := Obj(map["label" := Str("Family membership (2 adults + 2 kids)"),
                                "price" := Num(Finite(300.0))])])

  /** The catalogue holds exactly `individual` and `family`, each an object. */
  lemma PlanDefaultsEntries(k: string)
    ensures k in PlanDefaults.fields <==> k == "individual" || k == "family"
    ensures k in PlanDefaults.fields ==> PlanDefaults.fields[k].Obj?
  {
  }

  /** Exactly the three known add-ons, each with its catalogue label and price. */
  predicate AddonsShape(addons: map<string, Addon>) {
    && addons.Keys == DefaultAddons.Keys
    && forall k :: k in addons ==>
         addons[k].title == DefaultAddons[k].title && addons[k].price == DefaultAddons[k].price
  }

  /** `planDefaults[key]`, reading own entries only. */
  function PlanDefaultFor(key: Value): Value {
    match KeyText(key)
    case None => Undefined
    case Some(k) => Get(PlanDefaults, k)
  }

  /** `planDefaults[key]` as the script evaluates it: a name inherited from
      `Object.prototype` finds a built-in function or object, which is truthy
      and has no own `label` or `price`. */
  function PlanDefaultForAsWritten(key: Value): Value {
    match KeyText(key)
    case None => Undefined
    case Some(k) =>
      if HasOwn(PlanDefaults, k) then Get(PlanDefaults, k)
      else if k in ObjectPrototypeNames then Obj(map[])
      else Undefined
  }

  /** `storedPlan.key || defaultMembership.plan.key` */
  function PlanKeyOf(storedPlan: Value): Value {
    Or(Get(storedPlan, "key"), DefaultPlan.key)
  }

  /** Lines 156-164, given what `planDefaults[planKey]` evaluated to. */
  function MergePlan(storedPlan: Value, planKey: Value, known: Value): Plan {
    if Truthy(known) then Plan(planKey, Get(known, "label"), Get(known, "price"))
    else
      Plan(planKey,
           if HasOwn(storedPlan, "label") then Get(storedPlan, "label") else DefaultPlan.title,
           if HasOwn(storedPlan, "price") then Get(storedPlan, "price") else DefaultPlan.price)
  }

  /** The plan `loadMembership` builds: the stored key, or `individual` when
      it is missing or falsy; a catalogue key gets the catalogue's label and
      price whatever was stored; any other key keeps the stored label and
      price, field by field, over the defaults. None when `planDefaults[planKey]`
      throws because the key has no property name, which sends
      `loadMembership` to its `catch`. */
  function NormalizePlan(storedPlan: Value): (p: Option<Plan>)
    ensures p.None? <==> PrimitiveThrows(Get(storedPlan, "key"))
    ensures p.Some? ==>
              p.value.key == (if Truthy(Get(storedPlan, "key")) then Get(storedPlan, "key") else Str("individual"))
    ensures p.Some? ==> Truthy(p.value.key) && !PrimitiveThrows(p.value.key)
    ensures p.Some? && KeyText(p.value.key) == Some("individual") ==>
              p.value.title == Str("Individual membership") && p.value.price == Num(Finite(100.0))
    ensures p.Some? && KeyText(p.value.key) == Some("family") ==>
              p.value.title == Str("Family membership (2 adults + 2 kids)") && p.value.price == Num(Finite(300.0))
    ensures p.Some? && KeyText(p.value.key) != Some("individual") && KeyText(p.value.key) != Some("family") ==>
              && p.value.title == (if HasOwn(storedPlan, "label") then Get(storedPlan, "label") else Str("Individual membership"))
              && p.value.price == (if HasOwn(storedPlan, "price") then Get(storedPlan, "price") else Num(Finite(100.0)))
  {
    var key := PlanKeyOf(storedPlan);
    if PrimitiveThrows(key) then None else Some(MergePlan(storedPlan, key, PlanDefaultFor(key)))
  }

  /** The same lines with the lookup as written: a key named after a member
      of `Object.prototype` gets label and price `undefined`. */
  function NormalizePlanAsWritten(storedPlan: Value): (p: Option<Plan>)
    ensures p.None? <==> PrimitiveThrows(Get(storedPlan, "key"))
    ensures p.Some? ==>
              p.value.key == (if Truthy(Get(storedPlan, "key")) then Get(storedPlan, "key") else Str("individual"))
    ensures p.Some? && KeyText(p.value.key).Some? && KeyText(p.value.key).value in ObjectPrototypeNames ==>
              p.value.title == Undefined && p.value.price == Undefined
  {
    var key := PlanKeyOf(storedPlan);
    if PrimitiveThrows(key) then None
    else
      var known := PlanDefaultForAsWritten(key);
      assert KeyText(key).Some? && KeyText(key).value in ObjectPrototypeNames ==> known == Obj(map[]) by {
        if KeyText(key).Some? {
          PlanDefaultsEntries(KeyText(key).value);
        }
      }
      Some(MergePlan(storedPlan, key, known))
  }

  /** Off the `Object.prototype` names the lookup as written and the
      corrected one build the same plan. */
  lemma AsWrittenAgreesOffPrototype(storedPlan: Value)
    requires var k := KeyText(PlanKeyOf(storedPlan)); k.None? || k.value !in ObjectPrototypeNames
    ensures NormalizePlanAsWritten(storedPlan) == NormalizePlan(storedPlan)
  {
    var k := KeyText(PlanKeyOf(storedPlan));
    if k.Some? {
      PlanDefaultsEntries(k.value);
    }
    assert PlanDefaultForAsWritten(PlanKeyOf(storedPlan)) == PlanDefaultFor(PlanKeyOf(storedPlan));
  }

  /** A stored plan whose key is the name of an `Object.prototype` member
      loses its stored label and price as written; the corrected lookup keeps
      them, as for any other key outside the catalogue. */
  lemma InheritedPlanKeyDropsStoredFields()
    ensures var stored := Obj(map["key" := Str("constructor"), "label" := Str("Gold"),
                                  "price" := Num(Finite(50.0))]);
            && NormalizePlanAsWritten(stored) == Some(Plan(Str("constructor"), Undefined, Undefined))
            && NormalizePlan(stored) == Some(Plan(Str("constructor"), Str("Gold"), Num(Finite(50.0))))
  {
    var stored := Obj(map["key" := Str("constructor"), "label" := Str("Gold"),
                          "price" := Num(Finite(50.0))]);
    assert Get(stored, "key") == Str("constructor");
    assert "constructor" !in PlanDefaults.fields;
  }

  /** Lines 166-173: the three known add-ons with their default label and
      price, `selected` the truthiness of the stored flag. */
  function NormalizeAddons(storedAddons: Value): (r: map<string, Addon>)
    ensures AddonsShape(r)
    ensures forall k :: k in r ==> r[k].selected == Truthy(Get(Get(storedAddons, k), "selected"))
    ensures forall k :: k in r && !HasOwn(Get(storedAddons, k), "selected") ==> !r[k].selected
  {
    map k | k in DefaultAddons :: DefaultAddons[k].(selected := Truthy(Get(Get(storedAddons, k), "selected")))
  }

  /** `loadMembership`, given what `JSON.parse` made of the stored text: None
      when there was no text, or when reading or parsing it threw. A plan key
      without a property name throws at line 161 and also gives the
      defaults. */
  function LoadMembership(stored: Option<Value>): (r: Selection)
    ensures AddonsShape(r.addons)
    ensures Truthy(r.plan.key) && !PrimitiveThrows(r.plan.key)
    ensures stored.None? || !Truthy(stored.value) ==> r == DefaultSelection
    ensures stored.Some? && PrimitiveThrows(Get(Get(stored.value, "plan"), "key")) ==> r == DefaultSelection
  {
    if stored.None? || !Truthy(stored.value) then DefaultSelection
    else
      var storedPlan := Or(Get(stored.value, "plan"), Obj(map[]));
      var storedAddons := Or(Get(stored.value, "addons"), Obj(map[]));
      match NormalizePlan(storedPlan)
      case None => DefaultSelection
      case Some(plan) => Selection(plan, NormalizeAddons(storedAddons))
  }

  /** The stored text: the localStorage entry when it is non-empty, else the
      cookie (`localStorage.getItem(...) || getCookie(...)`). There is none
      only when the entry is missing or empty and no cookie row is named
      after the storage key. */
  function StoredText(local: Option<string>, cookie: string): (r: Option<string>)
    ensures local.Some? && local.value != "" ==> r == local
    ensures r.None? <==>
              && (local.None? || local.value == "")
              && forall row <- Cookies.Split(cookie, "; ") :: !Cookies.StartsWith(row, StorageKey + "=")
  {
    if local.Some? && local.value != "" then local else Cookies.GetCookie(StorageKey, cookie)
  }

  /** The default selection: plan `individual` at 100, nothing added. */
  lemma DefaultSelectionIs()
    ensures DefaultSelection.plan == Plan(Str("individual"), Str("Individual membership"), Num(Finite(100.0)))
    ensures AddonsShape(DefaultSelection.addons)
    ensures forall k :: k in DefaultSelection.addons ==> !DefaultSelection.addons[k].selected
  {
  }

  /** An add-on is selected exactly when the stored record has a truthy
      `addons.<key>.selected` and its plan key does not throw; a missing flag
      reads as false. */
  lemma LoadedAddon(stored: Value, k: string)
    requires Truthy(stored) && k in DefaultAddons
    ensures k in LoadMembership(Some(stored)).addons
    ensures LoadMembership(Some(stored)).addons[k]
              == DefaultAddons[k].(selected := !PrimitiveThrows(Get(Get(stored, "plan"), "key"))
                                               && Truthy(Get(Get(Get(stored, "addons"), k), "selected")))
    ensures !HasOwn(Get(Get(stored, "addons"), k), "selected") ==> !LoadMembership(Some(stored)).addons[k].selected
  {
    var storedPlan := Or(Get(stored, "plan"), Obj(map[]));
    var storedAddons := Or(Get(stored, "addons"), Obj(map[]));
    assert Get(storedPlan, "key") == Get(Get(stored, "plan"), "key");
    assert Get(storedAddons, k) == Get(Get(stored, "addons"), k);
  }

  /** The loaded plan key is the stored one when that is truthy and has a
      property name, and `individual` otherwise: when `plan` or its key is
      missing, falsy or not an object, and when the key throws. */
  lemma LoadedPlanKey(stored: Value)
    requires Truthy(stored)
    ensures var key := Get(Get(stored, "plan"), "key");
            LoadMembership(Some(stored)).plan.key == (if Truthy(key) && !PrimitiveThrows(key) then key else Str("individual"))
  {
    var storedPlan := Or(Get(stored, "plan"), Obj(map[]));
    assert Get(storedPlan, "key") == Get(Get(stored, "plan"), "key");
  }

  /** `JSON.stringify` of a selection, as `saveMembership` writes it: a
      `plan` and an `addons` object, every add-on with its `selected` flag,
      and JSON throughout when the plan's fields can be stored. */
  function Encode(s: Selection): (r: Value)
    ensures HasOwn(r, "plan") && HasOwn(r, "addons")
    ensures forall k :: k in s.addons ==>
              && HasOwn(Get(r, "addons"), k)
              && Get(Get(Get(r, "addons"), k), "selected") == Bool(s.addons[k].selected)
    ensures Storable(s.plan.key) && Storable(s.plan.title) && Storable(s.plan.price) ==> IsJson(r)
  {
    Obj(map["plan" := EncodePlan(s.plan), "addons" := EncodeAddons(s.addons)])
  }

  /** The `plan` part of the saved text: fields holding `undefined` are
      dropped, NaN is written as `null`. */
  function EncodePlan(p: Plan): (r: Value)
    ensures r.Obj?
    ensures Storable(p.key) && Storable(p.title) && Storable(p.price) ==> IsJson(r)
  {
    var fields := map["key" := p.key, "label" := p.title, "price" := p.price];
    assert Storable(p.key) && Storable(p.title) && Storable(p.price) ==> IsJson(Stringified(fields)) by {
      if Storable(p.key) && Storable(p.title) && Storable(p.price) {
        StringifiedIsJson(fields);
      }
    }
    Stringified(fields)
  }

  /** The `addons` part of the saved text: each add-on with its label, price
      and `selected` flag. */
  function EncodeAddons(addons: map<string, Addon>): (r: Value)
    ensures IsJson(r)
    ensures forall k :: k in addons ==> HasOwn(r, k) && Get(Get(r, k), "selected") == Bool(addons[k].selected)
  {
    var r := Obj(map k | k in addons :: EncodeAddon(addons[k]));
    assert IsJson(r) by {
      forall k | k in r.fields ensures IsJson(r.fields[k]) {
        EncodedAddonIsJson(addons[k]);
      }
    }
    r
  }

  function EncodeAddon(a: Addon): Value {
    Obj(map["label" := Str(a.title), "price" := Num(Finite(a.price as real)), "selected" := Bool(a.selected)])
  }

  lemma EncodedAddonIsJson(a: Addon)
    ensures IsJson(EncodeAddon(a))
  {
    var e := EncodeAddon(a);
    assert forall k :: k in e.fields ==> k == "label" || k == "price" || k == "selected";
  }

  /** Fields that can be stored make a JSON object when stringified. */
  lemma StringifiedIsJson(fields: map<string, Value>)
    requires forall k :: k in fields ==> Storable(fields[k])
    ensures IsJson(Stringified(fields))
  {
  }

  /** A plan field after a save and a load: `undefined` was not written and
      reads as the default, NaN was written as `null`. */
  function Restored(v: Value, default: Value): Value {
    if v == Undefined then default else JsonField(v)
  }

  /** Loading what was saved gives back the add-ons and the plan key; the
      label and price come back as the catalogue's for a catalogue key, and as
      saved otherwise. A falsy key (`""`, `0`, `false`, `null`) reloads as the
      default plan through `storedPlan.key || 'individual'`, and a key that
      throws at line 161 loads the defaults. */
  lemma LoadAfterSave(s: Selection)
    requires AddonsShape(s.addons)
    requires IsJson(s.plan.key) && Storable(s.plan.title) && Storable(s.plan.price)
    ensures var r := LoadMembership(Some(Encode(s)));
            && (PrimitiveThrows(s.plan.key) ==> r == DefaultSelection)
            && (!Truthy(s.plan.key) ==> r == Selection(DefaultPlan, s.addons))
            && (!PrimitiveThrows(s.plan.key) ==> r.addons == s.addons)
            && (Truthy(s.plan.key) && !PrimitiveThrows(s.plan.key) ==> r.plan.key == s.plan.key)
            && (Truthy(s.plan.key) && !PrimitiveThrows(s.plan.key) && Truthy(PlanDefaultFor(s.plan.key)) ==>
                  r.plan == Plan(s.plan.key, Get(PlanDefaultFor(s.plan.key), "label"),
                                 Get(PlanDefaultFor(s.plan.key), "price")))
            && (Truthy(s.plan.key) && !PrimitiveThrows(s.plan.key) && !Truthy(PlanDefaultFor(s.plan.key)) ==>
                  r.plan == Plan(s.plan.key, Restored(s.plan.title, DefaultPlan.title),
                                 Restored(s.plan.price, DefaultPlan.price)))
  {
    EncodedParts(s);
    PlanAfterSave(s.plan);
    SavedAddons(s.addons);
  }

  /** What `loadMembership` reads from a saved selection: the saved plan
      object and the saved add-ons object. */
  lemma EncodedParts(s: Selection)
    ensures var sp := EncodePlan(s.plan);
            var sa := EncodeAddons(s.addons);
            LoadMembership(Some(Encode(s)))
              == if NormalizePlan(sp).None? then DefaultSelection else Selection(NormalizePlan(sp).value, NormalizeAddons(sa))
  {
    var e := Encode(s);
    var sp := EncodePlan(s.plan);
    var sa := EncodeAddons(s.addons);
    assert Get(e, "plan") == sp && Get(e, "addons") == sa;
    assert Or(sp, Obj(map[])) == sp && Or(sa, Obj(map[])) == sa;
  }

  /** The saved plan object loads back as the same key, with the catalogue's
      label and price for a catalogue key and the saved ones otherwise; a falsy
      key loads as the default plan, and a key that throws at line 161 loads
      as nothing. */
  lemma PlanAfterSave(p: Plan)
    requires IsJson(p.key) && Storable(p.title) && Storable(p.price)
    ensures var r := NormalizePlan(EncodePlan(p));
            && (r.None? <==> PrimitiveThrows(p.key))
            && (!Truthy(p.key) ==> r == Some(DefaultPlan))
            && (Truthy(p.key) && r.Some? ==> r.value.key == p.key)
            && (Truthy(p.key) && r.Some? && Truthy(PlanDefaultFor(p.key)) ==>
                  r.value == Plan(p.key, Get(PlanDefaultFor(p.key), "label"), Get(PlanDefaultFor(p.key), "price")))
            && (Truthy(p.key) && r.Some? && !Truthy(PlanDefaultFor(p.key)) ==>
                  r.value == Plan(p.key, Restored(p.title, DefaultPlan.title), Restored(p.price, DefaultPlan.price)))
  {
    var sp := EncodePlan(p);
    SavedPlanFields(p);
    assert PrimitiveThrows(p.key) ==> NormalizePlan(sp).None?;
    assert !PrimitiveThrows(p.key) ==> NormalizePlan(sp) == Some(MergePlan(sp, PlanKeyOf(sp), PlanDefaultFor(PlanKeyOf(sp))));
    if !Truthy(p.key) {
      assert PlanKeyOf(sp) == DefaultPlan.key;
      assert KeyText(DefaultPlan.key) == Some("individual");
      assert Truthy(PlanDefaultFor(DefaultPlan.key));
    }
  }

  /** The saved plan object, field by field. */
  lemma SavedPlanFields(p: Plan)
    requires IsJson(p.key) && Storable(p.title) && Storable(p.price)
    ensures var sp := EncodePlan(p);
            && Get(sp, "key") == p.key
            && PlanKeyOf(sp) == (if Truthy(p.key) then p.key else DefaultPlan.key)
            && (HasOwn(sp, "label") <==> p.title != Undefined)
            && (p.title != Undefined ==> Get(sp, "label") == JsonField(p.title))
            && (HasOwn(sp, "price") <==> p.price != Undefined)
            && (p.price != Undefined ==> Get(sp, "price") == JsonField(p.price))
  {
    var fields := map["key" := p.key, "label" := p.title, "price" := p.price];
    assert fields["key"] == p.key && p.key != Undefined;
    assert JsonField(p.key) == p.key;
    assert fields["label"] == p.title && fields["price"] == p.price;
  }

  /** The saved add-ons object reads back as the same add-ons. */
  lemma SavedAddons(addons: map<string, Addon>)
    requires AddonsShape(addons)
    ensures NormalizeAddons(EncodeAddons(addons)) == addons
  {
    var sa := EncodeAddons(addons);
    var n := NormalizeAddons(sa);
    forall k | k in addons ensures n[k] == addons[k] {
      assert Get(sa, k) == EncodeAddon(addons[k]);
      assert Get(Get(sa, k), "selected") == Bool(addons[k].selected);
    }
  }

  /** Saving a loaded selection and loading it again changes nothing. */
  lemma LoadSaveLoad(stored: Option<Value>)
    requires stored.Some? ==> IsJson(stored.value)
    ensures LoadMembership(Some(Encode(LoadMembership(stored)))) == LoadMembership(stored)
  {
    var s := LoadMembership(stored);
    if stored.Some? && Truthy(stored.value) {
      LoadedPlanSurvives(stored.value);
    }
    LoadAfterSave(s);
    assert s.plan == Plan(s.plan.key, s.plan.title, s.plan.price);
  }

  /** A plan that a save and a load give back as it is: JSON in every field;
      outside the catalogue its label and price are neither `undefined` nor
      NaN, and a catalogue plan is the catalogue's entry. */
  predicate SurvivesSave(p: Plan) {
    && IsJson(p.key) && IsJson(p.title) && IsJson(p.price)
    && (Truthy(PlanDefaultFor(p.key)) ==>
          p == Plan(p.key, Get(PlanDefaultFor(p.key), "label"), Get(PlanDefaultFor(p.key), "price")))
    && (!Truthy(PlanDefaultFor(p.key)) ==>
          Restored(p.title, DefaultPlan.title) == p.title && Restored(p.price, DefaultPlan.price) == p.price)
  }

  /** Every plan loaded from JSON survives a save. */
  lemma LoadedPlanSurvives(stored: Value)
    requires IsJson(stored) && Truthy(stored)
    ensures SurvivesSave(LoadMembership(Some(stored)).plan)
  {
    var storedPlan := Or(Get(stored, "plan"), Obj(map[]));
    var key := PlanKeyOf(storedPlan);
    LoadedPlan(stored);
    if PrimitiveThrows(key) {
      DefaultPlanSurvives();
    } else {
      StoredPlanFields(stored);
      MergedPlanSurvives(storedPlan);
    }
  }

  lemma DefaultPlanSurvives()
    ensures SurvivesSave(DefaultPlan)
  {
    PlanDefaultsEntries("individual");
  }

  /** The loaded plan is the one built from the stored plan, or the default
      when its key throws. */
  lemma LoadedPlan(stored: Value)
    requires Truthy(stored)
    ensures var storedPlan := Or(Get(stored, "plan"), Obj(map[]));
            var key := PlanKeyOf(storedPlan);
            LoadMembership(Some(stored)).plan
              == if PrimitiveThrows(key) then DefaultPlan else MergePlan(storedPlan, key, PlanDefaultFor(key))
  {
  }

  /** The plan built from a stored plan whose fields are JSON survives a save. */
  lemma MergedPlanSurvives(storedPlan: Value)
    requires forall name :: HasOwn(storedPlan, name) ==> IsJson(Get(storedPlan, name))
    ensures var key := PlanKeyOf(storedPlan);
            SurvivesSave(MergePlan(storedPlan, key, PlanDefaultFor(key)))
  {
    var key := PlanKeyOf(storedPlan);
    if HasOwn(storedPlan, "key") {
      assert IsJson(Get(storedPlan, "key"));
    }
    assert IsJson(key);
    if Truthy(PlanDefaultFor(key)) {
      PlanDefaultsEntries(KeyText(key).value);
    } else {
      if HasOwn(storedPlan, "label") {
        assert IsJson(Get(storedPlan, "label"));
      }
      if HasOwn(storedPlan, "price") {
        assert IsJson(Get(storedPlan, "price"));
      }
    }
  }

  /** The fields of a stored JSON plan are JSON. */
  lemma StoredPlanFields(stored: Value)
    requires IsJson(stored)
    ensures var storedPlan := Or(Get(stored, "plan"), Obj(map[]));
            forall name :: HasOwn(storedPlan, name) ==> IsJson(Get(storedPlan, name))
  {
    var storedPlan := Or(Get(stored, "plan"), Obj(map[]));
    if HasOwn(stored, "plan") {
      JsonFieldOf(stored, "plan");
    }
    forall name | HasOwn(storedPlan, name) ensures IsJson(Get(storedPlan, name)) {
      JsonFieldOf(storedPlan, name);
    }
  }

  /** A non-empty localStorage entry is read whatever the cookies hold; with
      the entry gone or empty, a cookie written by `setCookie` (URI-encoded,
      so free of ';', ' ' and '=') is read back whole from among the other
      cookies. */
  lemma StoredTextFallsBackToCookie(text: string, cookie: string, local: Option<string>,
                                    before: seq<string>, after: seq<string>)
    requires '=' !in text && ';' !in text
    requires forall row <- before + after :: ';' !in row
    requires forall row <- before :: !Cookies.StartsWith(row, StorageKey + "=")
    ensures text != "" ==> StoredText(Some(text), cookie) == Some(text)
    ensures local.None? || local.value == "" ==>
              StoredText(local, Cookies.Join(before + [StorageKey + "=" + text] + after, "; ")) == Some(text)
  {
    Cookies.CookieRoundTrip(StorageKey, text, before, after);
  }

  /** `membershipData.addons[k]` finds something, for `k` the `add`
      parameter of the page's address or the `data-addon-key` of a toggled
      checkbox: an own add-on, or a name inherited from `Object.prototype`
      (which finds a built-in object whose `selected` the script then sets,
      leaving the data as it was). */
  predicate Finds(addons: map<string, Addon>, k: string) {
    k in addons || k in ObjectPrototypeNames
  }

  /** `membershipData`: the selection the handlers update in place. */
  class MembershipData {
    var plan: Plan
    var addons: map<string, Addon>
    /** What storage holds for the selection, as the JSON value it parses
        to: the stored record when the page loaded, and after every
        `saveMembership` the selection as it was saved. */
    ghost var saved: Option<Value>

    ghost predicate Valid()
      reads this
    {
      AddonsShape(addons)
    }

    function Current(): Selection
      reads this
    {
      Selection(plan, addons)
    }

    /** `const membershipData = loadMembership()` */
    constructor (stored: Option<Value>)
      ensures Valid()
      ensures Current() == LoadMembership(stored)
      ensures saved == stored
    {
      var s := LoadMembership(stored);
      plan := s.plan;
      addons := s.addons;
      saved := stored;
    }

    /** Lines 239-244: a non-empty `add` parameter naming a known add-on
        selects it and the selection is saved. */
    method ApplyAddParam(param: Option<string>)
      requires Valid()
      modifies this
      ensures Valid()
      ensures plan == old(plan)
      ensures param.Some? && param.value in old(addons) ==>
                addons == old(addons)[param.value := old(addons)[param.value].(selected := true)]
      ensures !(param.Some? && param.value in old(addons)) ==> addons == old(addons)
      ensures param.Some? && param.value != "" && Finds(old(addons), param.value) ==> saved == Some(Encode(Current()))
      ensures !(param.Some? && param.value != "" && Finds(old(addons), param.value)) ==> saved == old(saved)
    {
      if param.Some? && param.value != "" && Finds(addons, param.value) {
        if param.value in addons {
          addons := addons[param.value := addons[param.value].(selected := true)];
        }
        saved := Some(Encode(Current()));
      }
    }

    /** Lines 270-275: a change of the add-on box for `key` sets that add-on's
        `selected` to the box's state and saves; the plan and the other
        add-ons stay as they were, and a key no add-on has changes nothing. */
    method ToggleAddon(key: string, checked: bool)
      requires Valid()
      modifies this
      ensures Valid()
      ensures plan == old(plan)
      ensures key in old(addons) ==> addons == old(addons)[key := old(addons)[key].(selected := checked)]
      ensures key !in old(addons) ==> addons == old(addons)
      ensures Finds(old(addons), key) ==> saved == Some(Encode(Current()))
      ensures !Finds(old(addons), key) ==> saved == old(saved)
    {
      if Finds(addons, key) {
        if key in addons {
          addons := addons[key := addons[key].(selected := checked)];
        }
        saved := Some(Encode(Current()));
      }
    }

    /** Lines 251-258: a plan input that became checked replaces the plan by
        its key, its label (or `Membership`) and its price (or 0), and saves;
        the add-ons are untouched. An input that became unchecked changes
        nothing. The three arguments are the input's `data-plan-key`,
        `data-label` and `data-price` attributes. */
    method ChangePlan(checked: bool, key: string, title: Option<string>, price: Option<string>)
      requires Valid()
      modifies this
      ensures Valid()
      ensures addons == old(addons)
      ensures !checked ==> plan == old(plan) && saved == old(saved)
      ensures checked ==> plan == Plan(Str(key), Str(DatasetLabel(title)), Num(DatasetNumber(price)))
      ensures checked ==> saved == Some(Encode(Current()))
    {
      if checked {
        plan := Plan(Str(key), Str(DatasetLabel(title)), Num(DatasetNumber(price)));
        saved := Some(Encode(Current()));
      }
    }
  }

  /** `input.dataset.label || 'Membership'` */
  function DatasetLabel(attr: Option<string>): (r: string)
    ensures r != ""
    ensures attr.Some? && attr.value != "" ==> r == attr.value
    ensures !(attr.Some? && attr.value != "") ==> r == "Membership"
  {
    if attr.Some? && attr.value != "" then attr.value else "Membership"
  }

  /** `Number(input.dataset.price || 0)`: a missing attribute is 0, and an
      empty one is 0 either way, so `|| 0` changes nothing for a present
      attribute: it is read as `Number` reads any string. */
  function DatasetNumber(attr: Option<string>): (r: Number)
    ensures attr.None? ==> r == Finite(0.0)
    ensures attr.Some? ==> r == StringToNumber(attr.value)
    ensures attr.Some? && attr.value != [] && StringNumeric.AllDigits(attr.value, 10) ==>
              r == Finite(StringNumeric.DigitsValue(attr.value, 10) as real)
  {
    if attr.Some? && attr.value != "" then StringToNumber(attr.value) else Finite(0.0)
  }
}
