/**
 * The address form: its initial contents, the validation that decides whether it may be submitted,
 * and the handler that edits one field and clears that field's error.
 */
module AddressForm {
  import opened Wrappers
  import opened Text

  /** The columns of a saved address other than its id, owner and default flag. */
  datatype Address = Address(
    addressLabel: string,
    addressLine1: string,
    addressLine2: string,
    city: string,
    state: string,
    country: string,
    pincode: string)

  /** What the form holds: the address columns and the "Set as default address" checkbox. */
  datatype FormData = FormData(address: Address, isDefault: bool)

  /** The form's inputs, by their `name` attribute. */
  datatype Field = Label | AddressLine1 | AddressLine2 | City | State | Country | Pincode | IsDefault

  /** The value an input holds: text for the text boxes and selects, a flag for the checkbox. */
  datatype Value = Text(text: string) | Flag(flag: bool)

  /** An address handed in for editing; any column may be missing or null. */
  datatype Seed = Seed(
    addressLabel: Option<string>,
    addressLine1: Option<string>,
    addressLine2: Option<string>,
    city: Option<string>,
    state: Option<string>,
    country: Option<string>,
    pincode: Option<string>,
    isDefault: Option<bool>)

  /** The form's first contents: the seed's values where they are truthy, otherwise "Home" for the
      label, "India" for the country, an unticked checkbox and empty text. */
  function InitialForm(seed: Option<Seed>): FormData {
    match seed
    case None => FormData(Address("Home", "", "", "", "", "India", ""), false)
    case Some(s) =>
      FormData(
        Address(OrElse(s.addressLabel, "Home"), OrElse(s.addressLine1, ""), OrElse(s.addressLine2, ""),
                OrElse(s.city, ""), OrElse(s.state, ""), OrElse(s.country, "India"), OrElse(s.pincode, "")),
        s.isDefault == Some(true))
  }

  function Get(form: FormData, f: Field): Value {
    match f
    case Label => Text(form.address.addressLabel)
    case AddressLine1 => Text(form.address.addressLine1)
    case AddressLine2 => Text(form.address.addressLine2)
    case City => Text(form.address.city)
    case State => Text(form.address.state)
    case Country => Text(form.address.country)
    case Pincode => Text(form.address.pincode)
    case IsDefault => Flag(form.isDefault)
  }

  /** Without a seed, every field holds its default. */
  lemma InitialDefaults()
    ensures Get(InitialForm(None), Label) == Text("Home")
    ensures Get(InitialForm(None), Country) == Text("India")
    ensures Get(InitialForm(None), IsDefault) == Flag(false)
    ensures forall f :: f in {AddressLine1, AddressLine2, City, State, Pincode} ==> Get(InitialForm(None), f) == Text("")
  {
  }

  /** A form field filled from a seed column: the column when it is present and non-empty, otherwise
      the field's value in a blank form. */
  predicate FilledFrom(column: Option<string>, blank: string, field: string) {
    && (column.Some? && column.value != "" ==> field == column.value)
    && (column.None? || column.value == "" ==> field == blank)
  }

  /** With a seed, a non-empty column is taken as it is and an empty or missing one falls back to the
      default, exactly as without a seed. */
  lemma InitialFromSeed(s: Seed)
    ensures var a, blank := InitialForm(Some(s)).address, InitialForm(None).address;
      && FilledFrom(s.addressLabel, blank.addressLabel, a.addressLabel)
      && FilledFrom(s.addressLine1, blank.addressLine1, a.addressLine1)
      && FilledFrom(s.addressLine2, blank.addressLine2, a.addressLine2)
      && FilledFrom(s.city, blank.city, a.city)
      && FilledFrom(s.state, blank.state, a.state)
      && FilledFrom(s.country, blank.country, a.country)
      && FilledFrom(s.pincode, blank.pincode, a.pincode)
    ensures InitialForm(Some(s)).isDefault <==> s.isDefault == Some(true)
  {
  }

  /** The message `validateForm` records for one field, if any. */
  function FieldError(form: FormData, f: Field): Option<string> {
    var a := form.address;
    match f
    case AddressLine1 => if IsBlank(a.addressLine1) then Some("Address line 1 is required") else None
    case City => if IsBlank(a.city) then Some("City is required") else None
    case State => if IsBlank(a.state) then Some("State is required") else None
    case Pincode =>
      if IsBlank(a.pincode) then Some("PIN code is required")
      else if !IsSixDigits(a.pincode) then Some("PIN code must be 6 digits")
      else None
    case _ => None
  }

  /** The form is acceptable: the three required fields are non-blank once trimmed and the PIN code,
      as typed, is six digits. */
  predicate IsValid(form: FormData) {
    && !IsBlank(form.address.addressLine1)
    && !IsBlank(form.address.city)
    && !IsBlank(form.address.state)
    && IsSixDigits(form.address.pincode)
  }

  /** Valid exactly when no field has an error. */
  lemma ValidIffNoErrors(form: FormData)
    ensures IsValid(form) <==> forall f :: FieldError(form, f).None?
  {
    if IsValid(form) {
      SixDigitsNotBlank(form.address.pincode);
    } else {
      if IsBlank(form.address.addressLine1) {
        assert FieldError(form, AddressLine1).Some?;
      } else if IsBlank(form.address.city) {
        assert FieldError(form, City).Some?;
      } else if IsBlank(form.address.state) {
        assert FieldError(form, State).Some?;
      } else {
        assert FieldError(form, Pincode).Some?;
      }
    }
  }

  /** The PIN code gets one message: "required" when blank, "6 digits" when filled but malformed. */
  lemma PincodeMessages(form: FormData)
    ensures IsBlank(form.address.pincode) ==> FieldError(form, Pincode) == Some("PIN code is required")
    ensures !IsBlank(form.address.pincode) && !IsSixDigits(form.address.pincode) ==>
      FieldError(form, Pincode) == Some("PIN code must be 6 digits")
    ensures FieldError(form, Pincode).None? <==> IsSixDigits(form.address.pincode)
  {
    if IsSixDigits(form.address.pincode) {
      SixDigitsNotBlank(form.address.pincode);
    }
  }

  /** The digit test sees the untrimmed PIN code: " 123456" trims to six digits yet is refused. */
  lemma UntrimmedPincodeRefused(form: FormData)
    requires form.address.pincode == " 123456"
    ensures IsSixDigits(Trim(form.address.pincode))
    ensures FieldError(form, Pincode) == Some("PIN code must be 6 digits")
  {
    PaddedPinTrims(form.address.pincode);
    assert !IsWhitespace(form.address.pincode[1]);
  }

  lemma PaddedPinTrims(p: string)
    requires p == " 123456"
    ensures Trim(p) == "123456"
  {
    assert TrimStart(p) == p[1..] by {
      assert !IsWhitespace(p[1]);
      TrimStartDropsLeading(p, 1);
    }
    assert TrimEnd(p[1..]) == p[1..] by {
      assert !IsWhitespace(p[1..][|p[1..]| - 1]);
    }
  }

  /** Trimming from the front stops at the first non-blank character. */
  lemma {:induction false} TrimStartDropsLeading(s: string, n: nat)
    requires n < |s| && AllWhitespace(s[..n]) && !IsWhitespace(s[n])
    ensures TrimStart(s) == s[n..]
  {
    if n > 0 {
      assert IsWhitespace(s[..n][0]);
      assert s[1..][..n - 1] == s[..n][1..];
      TrimStartDropsLeading(s[1..], n - 1);
      assert s[1..][n - 1..] == s[n..];
    }
  }

  /** The second address line, the label, the country and the checkbox never carry an error. */
  lemma OptionalFieldsNeverErr(form: FormData, f: Field)
    requires f in {AddressLine2, Label, Country, IsDefault}
    ensures FieldError(form, f).None?
  {
  }

  /** `handleChange`'s new form: the named field takes the typed text, or the checkbox state for the
      checkbox, and every other field keeps its value. */
  function Edited(form: FormData, f: Field, text: string, checked: bool): (r: FormData)
    ensures Get(r, f) == if f == IsDefault then Flag(checked) else Text(text)
    ensures forall g :: g != f ==> Get(r, g) == Get(form, g)
  {
    var a := form.address;
    match f
    case Label => form.(address := a.(addressLabel := text))
    case AddressLine1 => form.(address := a.(addressLine1 := text))
    case AddressLine2 => form.(address := a.(addressLine2 := text))
    case City => form.(address := a.(city := text))
    case State => form.(address := a.(state := text))
    case Country => form.(address := a.(country := text))
    case Pincode => form.(address := a.(pincode := text))
    case IsDefault => form.(isDefault := checked)
  }

  /** `handleChange`'s new errors: a truthy error of the edited field becomes the empty string; every
      other entry, and a missing or empty one, stays as it was. */
  function ClearedErrors(errors: map<Field, string>, f: Field): (r: map<Field, string>)
    ensures r.Keys == errors.Keys
    ensures f in r ==> r[f] == ""
    ensures forall g :: g in errors && g != f ==> r[g] == errors[g]
  {
    if f in errors && errors[f] != "" then errors[f := ""] else errors
  }

  class AddressFormState {
    var formData: FormData
    var errors: map<Field, string>
    var loading: bool
    /** The forms handed to `onSubmit`, oldest first. */
    var submitted: seq<FormData>

    constructor(seed: Option<Seed>)
      ensures formData == InitialForm(seed) && errors == map[] && !loading && submitted == []
    {
      formData := InitialForm(seed);
      errors := map[];
      loading := false;
      submitted := [];
    }

    /** `validateForm`: record one message per failing field, replacing the previous errors, and
        report whether there were none. */
    method ValidateForm() returns (valid: bool)
      modifies this
      ensures formData == old(formData) && loading == old(loading) && submitted == old(submitted)
      ensures forall f :: f in errors <==> FieldError(formData, f).Some?
      ensures forall f :: f in errors ==> Some(errors[f]) == FieldError(formData, f)
      ensures valid <==> IsValid(formData)
    {
      var newErrors: map<Field, string> := map[];
      if IsBlank(formData.address.addressLine1) {
        newErrors := newErrors[AddressLine1 := "Address line 1 is required"];
      }
      if IsBlank(formData.address.city) {
        newErrors := newErrors[City := "City is required"];
      }
      if IsBlank(formData.address.state) {
        newErrors := newErrors[State := "State is required"];
      }
      if IsBlank(formData.address.pincode) {
        newErrors := newErrors[Pincode := "PIN code is required"];
      } else if !IsSixDigits(formData.address.pincode) {
        newErrors := newErrors[Pincode := "PIN code must be 6 digits"];
      }
      forall f
        ensures f in newErrors <==> FieldError(formData, f).Some?
        ensures f in newErrors ==> Some(newErrors[f]) == FieldError(formData, f)
      {
      }
      errors := newErrors;
      valid := newErrors == map[];
      ValidIffNoErrors(formData);
      if !valid {
        var f :| f in newErrors;
      }
    }

    /** `handleSubmit`: validate, and hand the form to `onSubmit` only when it is valid. A rejection
        from `onSubmit` is swallowed; `loading` is back to false once it settles. */
    method HandleSubmit()
      modifies this
      ensures formData == old(formData)
      ensures forall f :: f in errors <==> FieldError(formData, f).Some?
      ensures IsValid(formData) ==> submitted == old(submitted) + [formData] && !loading
      ensures !IsValid(formData) ==> submitted == old(submitted) && loading == old(loading)
    {
      var valid := ValidateForm();
      if !valid {
        return;
      }
      loading := true;
      submitted := submitted + [formData];
      loading := false;
    }

    /** `handleChange`: store the input's value and clear that field's error if it shows one. */
    method HandleChange(f: Field, text: string, checked: bool)
      modifies this
      ensures formData == Edited(old(formData), f, text, checked)
      ensures errors == ClearedErrors(old(errors), f)
      ensures loading == old(loading) && submitted == old(submitted)
    {
      formData := Edited(formData, f, text, checked);
      if f in errors && errors[f] != "" {
        errors := errors[f := ""];
      }
    }
  }
}
