/**
 * Unit abbreviations (src/utils/units.ts): the table of known units and the lookup that
 * falls back to the unit itself.
 */
module Units {
  import opened Common

  /** `UNIT_ABBREVIATIONS`: the eleven known units and their short forms. */
  const UnitAbbreviations: map<string, string> := map[
    "unit" := "U",
    "liters" := "Lts",
    "milliliters" := "mL",
    "kilograms" := "Kg",
    "grams" := "G",
    "volume" := "Vol.",
    "pack" := "Pack",
    "pounds" := "Lb",
    "ounces" := "Oz",
    "centimeters" := "Cm",
    "meters" := "Mts"]

  /** The keys of the table. */
  const UnitNames: set<string> :=
    {"unit", "liters", "milliliters", "kilograms", "grams", "volume", "pack", "pounds", "ounces", "centimeters", "meters"}

  /** Every unit name is a lower-case word of at least four letters. */
  predicate NameShaped(s: string)
  {
    |s| >= 4 && forall k | 0 <= k < |s| :: 'a' <= s[k] <= 'z'
  }

  /** Every abbreviation starts with a capital, or is shorter than any unit name. */
  predicate AbbreviationShaped(s: string)
  {
    |s| > 0 && ('A' <= s[0] <= 'Z' || |s| < 4)
  }

  lemma TableEntriesShaped()
    ensures forall k | k in UnitAbbreviations :: NameShaped(k) && AbbreviationShaped(UnitAbbreviations[k])
  {
    assert UnitAbbreviations.Keys == UnitNames;
  }

  /** No abbreviation is empty, and none is itself a unit name. */
  lemma TableShape()
    ensures forall k | k in UnitAbbreviations :: UnitAbbreviations[k] != "" && UnitAbbreviations[k] !in UnitAbbreviations
  {
    TableEntriesShaped();
    forall k | k in UnitAbbreviations
      ensures UnitAbbreviations[k] != "" && UnitAbbreviations[k] !in UnitAbbreviations
    {
      assert AbbreviationShaped(UnitAbbreviations[k]);
    }
  }

  /**
   * `toUnitAbbreviation(unit)`: `null`/`undefined` (`None`) and `''` give `null`; a known unit
   * gives its abbreviation; any other unit comes back unchanged.
   */
  function ToUnitAbbreviation(unit: Option<string>): (r: Option<string>)
    ensures r.None? <==> !TextTruthy(unit)
    ensures TextTruthy(unit) && unit.value in UnitAbbreviations ==> r == Some(UnitAbbreviations[unit.value])
    ensures TextTruthy(unit) && unit.value !in UnitAbbreviations ==> r == unit
  {
    if !TextTruthy(unit) then None
    else if unit.value in UnitAbbreviations then Some(UnitAbbreviations[unit.value])
    else unit
  }

  /** A result that is not `null` is never the empty string. */
  lemma NeverEmpty(unit: Option<string>)
    ensures ToUnitAbbreviation(unit).Some? ==> ToUnitAbbreviation(unit).value != ""
  {
    TableShape();
  }

  /** Abbreviating twice is the same as abbreviating once, because no abbreviation is a unit name. */
  lemma Idempotent(unit: Option<string>)
    ensures ToUnitAbbreviation(ToUnitAbbreviation(unit)) == ToUnitAbbreviation(unit)
  {
    TableShape();
  }

  /** Two entries of the table, and the fallback for a unit the table does not know. */
  lemma Examples()
    ensures ToUnitAbbreviation(Some("unit")) == Some("U")
    ensures ToUnitAbbreviation(Some("kilograms")) == Some("Kg")
    ensures ToUnitAbbreviation(Some("docena")) == Some("docena")
    ensures ToUnitAbbreviation(Some("")) == None
  {
    assert "docena" !in UnitAbbreviations.Keys by {
      assert UnitAbbreviations.Keys == UnitNames;
    }
  }

  // ---------------------------------------------------------------------------
  // The lookup as the code writes it: an index into a plain object literal.

  /** What indexing a JavaScript object literal can give: an own string value or an inherited member. */
  datatype JsValue = OwnString(s: string) | Inherited(member: string)

  /** The members every object literal inherits from `Object.prototype`. */
  const PrototypeMembers: set<string> := {
    "constructor", "hasOwnProperty", "isPrototypeOf", "propertyIsEnumerable", "toLocaleString",
    "toString", "valueOf", "__proto__", "__defineGetter__", "__defineSetter__",
    "__lookupGetter__", "__lookupSetter__"}

  /** `UNIT_ABBREVIATIONS[unit]`: own keys first, then the prototype chain; `None` is `undefined`. */
  function IndexTable(unit: string): (r: Option<JsValue>)
    ensures unit in UnitAbbreviations ==> r == Some(OwnString(UnitAbbreviations[unit]))
    ensures unit !in UnitAbbreviations && unit in PrototypeMembers ==> r == Some(Inherited(unit))
    ensures unit !in UnitAbbreviations && unit !in PrototypeMembers ==> r.None?
  {
    if unit in UnitAbbreviations then Some(OwnString(UnitAbbreviations[unit]))
    else if unit in PrototypeMembers then Some(Inherited(unit))
    else None
  }

  /** `if (!unit) return null; return UNIT_ABBREVIATIONS[unit] ?? unit`, exactly as written. */
  function ToUnitAbbreviationAsWritten(unit: Option<string>): (r: Option<JsValue>)
    ensures !TextTruthy(unit) ==> r.None?
    ensures TextTruthy(unit) && IndexTable(unit.value).Some? ==> r == IndexTable(unit.value)
    ensures TextTruthy(unit) && IndexTable(unit.value).None? ==> r == Some(OwnString(unit.value))
  {
    if !TextTruthy(unit) then None
    else match IndexTable(unit.value)
      case Some(v) => Some(v)
      case None => Some(OwnString(unit.value))
  }

  /** A unit named like an inherited member yields that member (a function), not a string. */
  lemma PrototypeKeyIsNotAString()
    ensures ToUnitAbbreviationAsWritten(Some("toString")) == Some(Inherited("toString"))
    ensures ToUnitAbbreviationAsWritten(Some("constructor")) == Some(Inherited("constructor"))
  {
    assert "toString" !in UnitAbbreviations.Keys && "constructor" !in UnitAbbreviations.Keys by {
      assert UnitAbbreviations.Keys == UnitNames;
    }
  }

  /** Apart from inherited member names, the code as written agrees with the own-key lookup. */
  lemma AsWrittenAgreesOffPrototype(unit: Option<string>)
    requires !(unit.Some? && unit.value in PrototypeMembers && unit.value !in UnitAbbreviations)
    ensures ToUnitAbbreviationAsWritten(unit) == (match ToUnitAbbreviation(unit)
                                                 case None => None
                                                 case Some(s) => Some(OwnString(s)))
  {
  }
}
