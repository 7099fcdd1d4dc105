/**
 The item form's logic: which fields a submission is rejected for, what the
 form hands to the store when it is accepted, and how switching the
 separate payment period on seeds it from the usage period.
 */
module ItemForm {
  import opened Wrappers
  import opened DateHelpers
  import opened JsStrings
  import opened Types
  import opened Calculations
  import RealArith

  /** The form fields an error message can be attached to. */
  datatype Field = Name | Price | UsagePeriod | PaymentPeriod | Category

  /** The form's data together with the "separate payment period" switch. */
  datatype FormState = FormState(formData: ItemFormData, hasPaymentPeriod: bool)

  /** The outcome of validation: the verdict and the messages per field. */
  datatype Validation = Validation(valid: bool, errors: map<Field, string>)

  const NameRequired: string := "名称は必須です"
  const NameTooLong: string := "名称は50文字以内で入力してください"
  const PriceNotPositive: string := "価格は0より大きい値を入力してください"
  const UsagePeriodInvalid: string := "使用期間の日付が正しくありません"
  const PaymentPeriodInvalid: string := "支払期間の日付が正しくありません"
  const CategoryTooLong: string := "分類は20文字以内で入力してください"

  const MaxNameLength: nat := 50
  const MaxCategoryLength: nat := 20

  predicate RangeIsValid(p: Period)
  {
    IsValidDateRange(p.startDate, p.endDate)
  }

  /**
   What an acceptable form is, field by field: a name that is not blank and
   at most 50 UTF-16 units long, a positive price, a valid usage range, a
   valid payment range if one is switched on and present, and a category of
   at most 20 units.
   */
  predicate Acceptable(st: FormState)
  {
    var d := st.formData;
    && !AllWhitespace(d.name)
    && Utf16Length(d.name) <= MaxNameLength
    && d.price > 0.0
    && RangeIsValid(d.usagePeriod)
    && (st.hasPaymentPeriod && d.paymentPeriod.Some? ==> RangeIsValid(d.paymentPeriod.value))
    && (d.category.Some? ==> Utf16Length(d.category.value) <= MaxCategoryLength)
  }

  /**
   `validateForm`: each failing check records its message under its field;
   the form is valid when no message was recorded.
   */
  function ValidateForm(st: FormState): (v: Validation)
    ensures v.valid <==> v.errors == map[]
    ensures v.valid <==> Acceptable(st)
    ensures Name in v.errors <==> AllWhitespace(st.formData.name) || Utf16Length(st.formData.name) > MaxNameLength
    ensures Name in v.errors ==>
      v.errors[Name] == if AllWhitespace(st.formData.name) then NameRequired else NameTooLong
    ensures Price in v.errors <==> st.formData.price <= 0.0
    ensures Price in v.errors ==> v.errors[Price] == PriceNotPositive
    ensures UsagePeriod in v.errors <==> !RangeIsValid(st.formData.usagePeriod)
    ensures UsagePeriod in v.errors ==> v.errors[UsagePeriod] == UsagePeriodInvalid
    ensures PaymentPeriod in v.errors <==>
      st.hasPaymentPeriod && st.formData.paymentPeriod.Some? && !RangeIsValid(st.formData.paymentPeriod.value)
    ensures PaymentPeriod in v.errors ==> v.errors[PaymentPeriod] == PaymentPeriodInvalid
    ensures Category in v.errors <==>
      st.formData.category.Some? && Utf16Length(st.formData.category.value) > MaxCategoryLength
    ensures Category in v.errors ==> v.errors[Category] == CategoryTooLong
  {
    var errors := FieldErrors(st);
    assert Acceptable(st) ==> errors.Keys == {};
    Validation(|errors| == 0, errors)
  }

  /** The messages the checks of `validateForm` record, field by field. */
  function FieldErrors(st: FormState): (errors: map<Field, string>)
    ensures Name in errors <==> AllWhitespace(st.formData.name) || Utf16Length(st.formData.name) > MaxNameLength
    ensures Name in errors ==>
      errors[Name] == if AllWhitespace(st.formData.name) then NameRequired else NameTooLong
    ensures Price in errors <==> st.formData.price <= 0.0
    ensures Price in errors ==> errors[Price] == PriceNotPositive
    ensures UsagePeriod in errors <==> !RangeIsValid(st.formData.usagePeriod)
    ensures UsagePeriod in errors ==> errors[UsagePeriod] == UsagePeriodInvalid
    ensures PaymentPeriod in errors <==>
      st.hasPaymentPeriod && st.formData.paymentPeriod.Some? && !RangeIsValid(st.formData.paymentPeriod.value)
    ensures PaymentPeriod in errors ==> errors[PaymentPeriod] == PaymentPeriodInvalid
    ensures Category in errors <==>
      st.formData.category.Some? && Utf16Length(st.formData.category.value) > MaxCategoryLength
    ensures Category in errors ==> errors[Category] == CategoryTooLong
  {
    var d := st.formData;
    TrimEmptyIffWhitespace(d.name);
    var e1: map<Field, string> :=
      if Trim(d.name) == [] then map[Name := NameRequired]
      else if Utf16Length(d.name) > MaxNameLength then map[Name := NameTooLong]
      else map[];
    var e2 := if d.price <= 0.0 then e1[Price := PriceNotPositive] else e1;
    var e3 := if !RangeIsValid(d.usagePeriod) then e2[UsagePeriod := UsagePeriodInvalid] else e2;
    var e4 :=
      if st.hasPaymentPeriod && d.paymentPeriod.Some? && !RangeIsValid(d.paymentPeriod.value)
      then e3[PaymentPeriod := PaymentPeriodInvalid]
      else e3;
    if d.category.Some? && d.category.value != "" && Utf16Length(d.category.value) > MaxCategoryLength
    then e4[Category := CategoryTooLong]
    else e4
  }

  /**
   `handleSubmit`: an acceptable form hands over its data, without the
   payment period when the switch is off; any other form hands over nothing.
   */
  function HandleSubmit(st: FormState): (r: Option<ItemFormData>)
    ensures r.Some? <==> Acceptable(st)
    ensures r.Some? ==> r.value == st.formData.(paymentPeriod := r.value.paymentPeriod)
    ensures r.Some? ==> r.value.paymentPeriod == if st.hasPaymentPeriod then st.formData.paymentPeriod else None
  {
    if !ValidateForm(st).valid then None
    else Some(st.formData.(paymentPeriod := if st.hasPaymentPeriod then st.formData.paymentPeriod else None))
  }

  /**
   Whatever the form hands over is well formed for the engine: at least one
   usage day, a payment period (if any) of at least one day, and a positive
   daily cost.
   */
  lemma SubmittedDataHasPositiveCost(st: FormState)
    requires HandleSubmit(st).Some?
    ensures var data := HandleSubmit(st).value;
      && UsageDays(data) >= 1
      && (data.paymentPeriod.Some? ==> PeriodDays(data.paymentPeriod.value) >= 1)
      && CalculateCostPerDay(data) > 0.0
  {
    var data := HandleSubmit(st).value;
    var u := data.usagePeriod;
    ValidRangeSpansADay(u.startDate, u.endDate);
    if data.paymentPeriod.Some? {
      var p := data.paymentPeriod.value;
      ValidRangeSpansADay(p.startDate, p.endDate);
    }
    PositiveCost(data);
  }

  lemma PositiveCost(data: ItemFormData)
    requires data.price > 0.0 && UsageDays(data) >= 1 && BilledDays(data) >= 1
    ensures CalculateCostPerDay(data) > 0.0
  {
    var u := UsageDays(data) as real;
    if data.paymentInterval != Once {
      var c := PaymentCount(data);
      RealArith.PositiveFactor(c, GetPaymentIntervalDays(data.paymentInterval));
      RealArith.PositiveSpread(data.price, c as real, u);
    } else {
      RealArith.PositiveSpread(data.price, 1.0, u);
    }
  }

  /** `handlePaymentPeriodToggle`: switching on with no payment period copies the usage period. */
  function HandlePaymentPeriodToggle(st: FormState, checked: bool): (r: FormState)
    ensures r.hasPaymentPeriod == checked
    ensures r.formData == st.formData.(paymentPeriod := r.formData.paymentPeriod)
    ensures st.formData.paymentPeriod.Some? ==> r.formData.paymentPeriod == st.formData.paymentPeriod
    ensures checked && st.formData.paymentPeriod.None? ==> r.formData.paymentPeriod == Some(st.formData.usagePeriod)
    ensures !checked ==> r.formData == st.formData
  {
    if checked && st.formData.paymentPeriod.None? then
      FormState(st.formData.(paymentPeriod := Some(st.formData.usagePeriod)), checked)
    else
      FormState(st.formData, checked)
  }

  /** Switching on twice is the same as switching on once. */
  lemma ToggleOnIdempotent(st: FormState)
    ensures HandlePaymentPeriodToggle(HandlePaymentPeriodToggle(st, true), true) == HandlePaymentPeriodToggle(st, true)
  {
  }

  /**
   A seeded payment period is exactly the usage period, so switching it on
   neither makes a form acceptable nor unacceptable, and it bills exactly as
   the usage period would.
   */
  lemma SeededPeriodChangesNothing(st: FormState)
    requires st.formData.paymentPeriod.None?
    ensures Acceptable(HandlePaymentPeriodToggle(st, true)) <==> Acceptable(st)
    ensures Acceptable(st) ==>
      CalculateCostPerDay(HandleSubmit(HandlePaymentPeriodToggle(st, true)).value) == CalculateCostPerDay(HandleSubmit(st).value)
  {
    var on := HandlePaymentPeriodToggle(st, true);
    var seeded := st.formData.(paymentPeriod := Some(st.formData.usagePeriod));
    assert on == FormState(seeded, true);
    if Acceptable(st) {
      assert HandleSubmit(on).value == seeded;
      assert HandleSubmit(st).value == st.formData;
      SameBillingSameCost(seeded, st.formData);
    }
  }

  /** Two forms that differ only in their payment period cost the same when they bill the same days. */
  lemma SameBillingSameCost(a: ItemFormData, b: ItemFormData)
    requires a == b.(paymentPeriod := a.paymentPeriod)
    requires BilledDays(a) == BilledDays(b)
    ensures CalculateCostPerDay(a) == CalculateCostPerDay(b)
  {
    assert UsageDays(a) == UsageDays(b);
    if a.paymentInterval != Once {
      assert PaymentCount(a) == PaymentCount(b);
      assert TotalPaid(a) == TotalPaid(b);
    }
  }

  /** With the switch off, a payment period left in the form is never handed over. */
  lemma ToggleOffDropsPeriod(st: FormState)
    requires HandleSubmit(HandlePaymentPeriodToggle(st, false)).Some?
    ensures HandleSubmit(HandlePaymentPeriodToggle(st, false)).value.paymentPeriod == None
    ensures HandleSubmit(HandlePaymentPeriodToggle(st, false)).value == st.formData.(paymentPeriod := None)
  {
  }

  /** The form as the initial-data effect loads it: the switch reflects the stored period. */
  function LoadInitialData(initialData: ItemFormData): (st: FormState)
    ensures st.formData == initialData
    ensures st.hasPaymentPeriod <==> initialData.paymentPeriod.Some?
  {
    FormState(initialData, initialData.paymentPeriod.Some?)
  }

  /** Editing an acceptable item and submitting it unchanged hands back the same data. */
  lemma LoadSubmitRoundTrip(data: ItemFormData)
    requires Acceptable(LoadInitialData(data))
    ensures HandleSubmit(LoadInitialData(data)) == Some(data)
  {
  }

  /**
   The empty form a new item starts from: no name, price 0, a one-time
   payment, the given usage range, an empty category and the switch off.
   */
  function DefaultForm(today: Date, aYearLater: Date): (st: FormState)
    ensures st.formData.name == [] && st.formData.price == 0.0
    ensures st.formData.usagePeriod == Period(today, aYearLater)
    ensures st.formData.paymentInterval == Once && st.formData.paymentPeriod == None
    ensures st.formData.category == Some("")
    ensures !st.hasPaymentPeriod
  {
    FormState(ItemFormData("", 0.0, Once, None, Period(today, aYearLater), Some("")), false)
  }

  /** The empty form is rejected for its name and its price. */
  lemma DefaultFormRejected(today: Date, aYearLater: Date)
    ensures var v := ValidateForm(DefaultForm(today, aYearLater));
      && !v.valid
      && v.errors[Name] == NameRequired
      && v.errors[Price] == PriceNotPositive
      && Category !in v.errors && PaymentPeriod !in v.errors
  {
  }
}
