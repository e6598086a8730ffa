/**
 * The configuration form of the admin page (`app/routes/app._index.jsx`):
 * its unit options, the initial form state taken from the loaded row, and the
 * check `handleSubmit` makes before it posts the form.
 */
module AdminForm {
  import opened Wrappers
  import opened ShopConfig

  datatype SelectOption = SelectOption(labelText: string, value: string)

  /** The value of the "select Units Of Measurement" placeholder option. */
  const UnsetUnit: string := "uom"

  /** The options of the unit select, the placeholder first. */
  const UnitOptions: seq<SelectOption> := [
    SelectOption("select Units Of Measurement", UnsetUnit),
    SelectOption("Centimeters (cm)", "Centimeters (cm)"),
    SelectOption("Meters (m)", "Meters (m)"),
    SelectOption("Millimeters (mm)", "Millimeters (mm)"),
    SelectOption("Inches (in)", "Inches (in)"),
    SelectOption("Feet (ft)", "Feet (ft)")
  ]

  /** The message shown when the check refuses a submission. */
  const FillAllFields: string := "Please fill out all fields."

  /** The form state: the selected unit and the typed price. */
  datatype FormData = FormData(unitsOfMeasurement: string, unitsOfMeasurementPrice: string)

  /** JavaScript `s || fallback` on a string. */
  function Or(s: string, fallback: string): string {
    if s != "" then s else fallback
  }

  /**
   * The initial form state: the loaded row's unit, or the placeholder when
   * there is no row or its unit is empty; the loaded price, or empty.
   */
  function InitialForm(loaded: Option<UnitsRecord>): (form: FormData)
    ensures form.unitsOfMeasurement != ""
    ensures loaded.None? ==> form == FormData(UnsetUnit, "")
    ensures loaded.Some? ==> form.unitsOfMeasurementPrice == loaded.value.unitsOfMeasurementPrice
    ensures loaded.Some? && loaded.value.unitsOfMeasurement != "" ==>
      form.unitsOfMeasurement == loaded.value.unitsOfMeasurement
    ensures loaded.Some? && loaded.value.unitsOfMeasurement == "" ==>
      form.unitsOfMeasurement == UnsetUnit
  {
    match loaded
    case None => FormData(Or("", UnsetUnit), Or("", ""))
    case Some(row) => FormData(Or(row.unitsOfMeasurement, UnsetUnit), Or(row.unitsOfMeasurementPrice, ""))
  }

  /** `handleSubmit`'s check: the refusal message when a field is empty, else nothing. */
  function ValidationMessage(form: FormData): (r: Option<string>)
    ensures r.Some? <==> form.unitsOfMeasurement == "" || form.unitsOfMeasurementPrice == ""
    ensures r.Some? ==> r.value == FillAllFields
  {
    if form.unitsOfMeasurement == "" || form.unitsOfMeasurementPrice == "" then Some(FillAllFields) else None
  }

  /** No option of the select has an empty value, so a selected unit never fails the check. */
  lemma OptionValuesNonEmpty()
    ensures forall k :: 0 <= k < |UnitOptions| ==> UnitOptions[k].value != ""
  {
  }

  /** The placeholder `"uom"` passes the check whenever a price is typed. */
  lemma PlaceholderNotRejected(price: string)
    requires price != ""
    ensures ValidationMessage(FormData(UnsetUnit, price)).None?
  {
  }

  /** The untouched initial form passes the check exactly when a row with a price was loaded. */
  lemma InitialFormAcceptedIff(loaded: Option<UnitsRecord>)
    ensures ValidationMessage(InitialForm(loaded)).None? <==>
      loaded.Some? && loaded.value.unitsOfMeasurementPrice != ""
  {
  }

  /**
   * A form that passes the check, once saved for a shop, is what the page
   * shows again when it is next loaded.
   */
  lemma SavedFormReloads(rows: seq<UnitsRecord>, shop: string, form: FormData)
    requires shop != "" && ValidationMessage(form).None?
    ensures InitialForm(FindFirst(Save(rows, shop, form.unitsOfMeasurement, form.unitsOfMeasurementPrice), shop)) == form
  {
    SaveThenFind(rows, shop, form.unitsOfMeasurement, form.unitsOfMeasurementPrice);
  }
}
