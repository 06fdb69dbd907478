/**
 * The add-hostel form: its data, its per-field error messages and the custom-amenity input,
 * updated by the form's handlers; required-field validation gates submission.
 */
module HostelForm {
  import opened Wrappers
  import opened HostelTypes
  import opened Text
  import opened Lists

  /** The keys of `HostelFormData`. */
  datatype FormField =
    | NameField | LocationField | PriceField | TypeField | DescriptionField | AmenitiesField
    | ImagesField | EmailField | PhoneField | AddressField | CheckInField | CheckOutField
    | PoliciesField | CapacityField

  /** A value an input hands to `handleInputChange`. */
  datatype FieldValue =
    | TextInput(s: string)
    | NumberInput(x: real)
    | WholeInput(n: int)
    | TypeInput(t: RoomType)
    | ListInput(items: seq<string>)

  /** The field's value in the form data. */
  function FieldOf(d: HostelFormData, field: FormField): FieldValue {
    match field
    case NameField => TextInput(d.name)
    case LocationField => TextInput(d.location)
    case PriceField => NumberInput(d.price)
    case TypeField => TypeInput(d.hostelType)
    case DescriptionField => TextInput(d.description)
    case AmenitiesField => ListInput(d.amenities)
    case ImagesField => ListInput(d.images)
    case EmailField => TextInput(d.contactEmail)
    case PhoneField => TextInput(d.contactPhone)
    case AddressField => TextInput(d.address)
    case CheckInField => TextInput(d.checkInTime)
    case CheckOutField => TextInput(d.checkOutTime)
    case PoliciesField => TextInput(d.policies)
    case CapacityField => WholeInput(d.capacity)
  }

  /** The value has the type `HostelFormData` declares for the field. */
  predicate Fits(field: FormField, v: FieldValue) {
    match field
    case PriceField => v.NumberInput?
    case CapacityField => v.WholeInput?
    case TypeField => v.TypeInput?
    case AmenitiesField | ImagesField => v.ListInput?
    case _ => v.TextInput?
  }

  /** `{ ...prev, [field]: value }`. */
  function WithField(d: HostelFormData, field: FormField, v: FieldValue): (r: HostelFormData)
    requires Fits(field, v)
    ensures FieldOf(r, field) == v
    ensures forall other :: other != field ==> FieldOf(r, other) == FieldOf(d, other)
  {
    match field
    case NameField => d.(name := v.s)
    case LocationField => d.(location := v.s)
    case PriceField => d.(price := v.x)
    case TypeField => d.(hostelType := v.t)
    case DescriptionField => d.(description := v.s)
    case AmenitiesField => d.(amenities := v.items)
    case ImagesField => d.(images := v.items)
    case EmailField => d.(contactEmail := v.s)
    case PhoneField => d.(contactPhone := v.s)
    case AddressField => d.(address := v.s)
    case CheckInField => d.(checkInTime := v.s)
    case CheckOutField => d.(checkOutTime := v.s)
    case PoliciesField => d.(policies := v.s)
    case CapacityField => d.(capacity := v.n)
  }

  /** The data a new form starts with. */
  const InitialForm: HostelFormData := HostelFormData(
    name := "", location := "", price := 0.0, hostelType := Dormitory, description := "",
    amenities := [], images := [], contactEmail := "", contactPhone := "", address := "",
    checkInTime := "14:00", checkOutTime := "11:00", policies := "", capacity := 1)

  const NameRequired: string := "Hostel name is required"
  const LocationRequired: string := "Location is required"
  const PricePositive: string := "Price must be greater than 0"
  const DescriptionRequired: string := "Description is required"
  const EmailRequired: string := "Contact email is required"
  const AddressRequired: string := "Address is required"
  const CapacityPositive: string := "Capacity must be greater than 0"

  /** The fields `validateForm` looks at. */
  const ValidatedFields: set<FormField> :=
    {NameField, LocationField, PriceField, DescriptionField, EmailField, AddressField, CapacityField}

  /** The message `validateForm` records for one field, if any: a text field fails when it
      is all whitespace, which is when `!x.trim()` holds (`Text.TrimEmptyIffBlank`). */
  function Problem(d: HostelFormData, field: FormField): (r: Option<string>)
    ensures r.Some? ==> field in ValidatedFields && r.value != ""
  {
    match field
    case NameField => if IsBlank(d.name) then Some(NameRequired) else None
    case LocationField => if IsBlank(d.location) then Some(LocationRequired) else None
    case PriceField => if d.price <= 0.0 then Some(PricePositive) else None
    case DescriptionField => if IsBlank(d.description) then Some(DescriptionRequired) else None
    case EmailField => if IsBlank(d.contactEmail) then Some(EmailRequired) else None
    case AddressField => if IsBlank(d.address) then Some(AddressRequired) else None
    case CapacityField => if d.capacity <= 0 then Some(CapacityPositive) else None
    case _ => None
  }

  /** The number of fields `validateForm` checks. */
  const CheckCount: nat := 7

  /** The field `validateForm` checks at step `i`. */
  function CheckedAt(i: nat): (field: FormField)
    requires i < CheckCount
    ensures field in ValidatedFields
  {
    if i == 0 then NameField
    else if i == 1 then LocationField
    else if i == 2 then PriceField
    else if i == 3 then DescriptionField
    else if i == 4 then EmailField
    else if i == 5 then AddressField
    else CapacityField
  }

  /** The error record after checking the first `n` fields, each failing
      field adding its message. */
  function ErrorsUpTo(d: HostelFormData, n: nat): map<FormField, string>
    requires n <= CheckCount
  {
    if n == 0 then map[]
    else
      var before := ErrorsUpTo(d, n - 1);
      var field := CheckedAt(n - 1);
      match Problem(d, field)
      case Some(message) => before[field := message]
      case None => before
  }

  /** The error record `validateForm` builds. */
  function ValidationErrors(d: HostelFormData): (r: map<FormField, string>)
    ensures forall field :: field in r ==> field in ValidatedFields && Problem(d, field) == Some(r[field])
  {
    ErrorsUpToSpec(d, CheckCount);
    ErrorsUpTo(d, CheckCount)
  }

  /** After checking the first `n` fields, every message recorded is its field's own, and every
      checked field that fails has one. */
  lemma {:induction false} ErrorsUpToSpec(d: HostelFormData, n: nat)
    requires n <= CheckCount
    ensures forall field :: field in ErrorsUpTo(d, n) ==> Problem(d, field) == Some(ErrorsUpTo(d, n)[field])
    ensures forall i :: 0 <= i < n && Problem(d, CheckedAt(i)).Some? ==> CheckedAt(i) in ErrorsUpTo(d, n)
  {
    if n > 0 {
      ErrorsUpToSpec(d, n - 1);
    }
  }

  /** A field carries a message exactly when it fails its rule, and the message is that rule's. */
  lemma ErrorsMeaning(d: HostelFormData)
    ensures forall field :: field in ValidationErrors(d) <==> Problem(d, field).Some?
    ensures forall field :: field in ValidationErrors(d) ==> Problem(d, field) == Some(ValidationErrors(d)[field])
  {
    ErrorsUpToSpec(d, CheckCount);
    assert CheckedAt(0) == NameField && CheckedAt(1) == LocationField && CheckedAt(2) == PriceField;
    assert CheckedAt(3) == DescriptionField && CheckedAt(4) == EmailField;
    assert CheckedAt(5) == AddressField && CheckedAt(6) == CapacityField;
  }

  /** The required fields, stated without `trim`. */
  predicate RequiredFilled(d: HostelFormData) {
    && !IsBlank(d.name) && !IsBlank(d.location) && d.price > 0.0 && !IsBlank(d.description)
    && !IsBlank(d.contactEmail) && !IsBlank(d.address) && d.capacity > 0
  }

  /** The form validates exactly when name, location, description, contact email and address
      each hold a non-whitespace character and price and capacity are positive. */
  lemma ValidIffRequiredFilled(d: HostelFormData)
    ensures ValidationErrors(d) == map[] <==> RequiredFilled(d)
  {
    NoErrorsIffNoProblem(d);
    NoProblemIffRequiredFilled(d);
  }

  /** No validated field has a problem exactly when the required fields are filled. */
  lemma NoProblemIffRequiredFilled(d: HostelFormData)
    ensures (forall field :: field in ValidatedFields ==> Problem(d, field).None?) <==> RequiredFilled(d)
  {
  }

  /** No message at all exactly when no validated field has a problem. */
  lemma NoErrorsIffNoProblem(d: HostelFormData)
    ensures ValidationErrors(d) == map[] <==> forall field :: field in ValidatedFields ==> Problem(d, field).None?
  {
    ErrorsMeaning(d);
    if ValidationErrors(d) != map[] {
      var field :| field in ValidationErrors(d);
    }
  }

  /** Every message names the rule its field broke, and only validated fields carry one. */
  lemma ErrorMessages(d: HostelFormData)
    ensures ValidationErrors(d).Keys <= ValidatedFields
    ensures NameField in ValidationErrors(d) <==> IsBlank(d.name)
    ensures PriceField in ValidationErrors(d) <==> d.price <= 0.0
    ensures CapacityField in ValidationErrors(d) <==> d.capacity <= 0
  {
    ErrorsMeaning(d);
  }

  /** Phone, policies, the two times, the type, amenities and images never affect validation. */
  lemma OptionalFieldsIgnored(d: HostelFormData, e: HostelFormData)
    requires d.name == e.name && d.location == e.location && d.price == e.price
    requires d.description == e.description && d.contactEmail == e.contactEmail
    requires d.address == e.address && d.capacity == e.capacity
    ensures ValidationErrors(d) == ValidationErrors(e)
  {
    assert forall field :: Problem(d, field) == Problem(e, field);
    ErrorsMeaning(d);
    ErrorsMeaning(e);
  }

  /** A fresh form fails on every required text field and on the price, but not on capacity. */
  lemma FreshFormFails()
    ensures ValidationErrors(InitialForm).Keys
      == {NameField, LocationField, PriceField, DescriptionField, EmailField, AddressField}
  {
    var errors := ValidationErrors(InitialForm);
    ErrorsMeaning(InitialForm);
    forall field ensures field in errors <==> FreshProblem(field) {
      FreshFormProblem(field);
    }
  }

  /** The fields a fresh form fails on. */
  predicate FreshProblem(field: FormField) {
    field in {NameField, LocationField, PriceField, DescriptionField, EmailField, AddressField}
  }

  /** Every field but capacity fails its rule on a fresh form. */
  lemma FreshFormProblem(field: FormField)
    ensures Problem(InitialForm, field).Some? <==> FreshProblem(field)
  {
    assert IsBlank("");
  }

  /** `{ ...prev, [field]: undefined }` when `errors[field]` is set: the field's message goes,
      every other message stays. */
  function ClearError(errors: map<FormField, string>, field: FormField): (r: map<FormField, string>)
    ensures field !in r || r[field] == ""
    ensures forall g :: g != field ==> (g in r <==> g in errors) && (g in r ==> r[g] == errors[g])
  {
    if field in errors && errors[field] != "" then errors - {field} else errors
  }

  /** The amenity list after `addCustomAmenity` with input `entry`: the trimmed entry appended
      when it is non-blank and not yet listed. */
  function WithCustomAmenity(xs: seq<string>, entry: string): (r: seq<string>)
    ensures r == xs || (r == xs + [Trim(entry)] && !IsBlank(entry) && Trim(entry) !in xs)
    ensures Trim(entry) in r <==> Trim(entry) in xs || !IsBlank(entry)
  {
    TrimEmptyIffBlank(entry);
    var t := Trim(entry);
    if t != [] && t !in xs then xs + [t] else xs
  }

  /** Adding a custom amenity keeps a duplicate-free list duplicate-free. */
  lemma CustomAmenityKeepsNoDuplicates(xs: seq<string>, entry: string)
    requires NoDuplicates(xs)
    ensures NoDuplicates(WithCustomAmenity(xs, entry))
  {
    var t := Trim(entry);
    if WithCustomAmenity(xs, entry) != xs {
      var r := xs + [t];
      forall i, j | 0 <= i < j < |r| ensures r[i] != r[j] {
        if j == |xs| {
          assert r[i] == xs[i];
        }
      }
    }
  }

  /** The checks of `validateForm`, in its order: each failing field gets its message. */
  method CollectErrors(d: HostelFormData) returns (newErrors: map<FormField, string>)
    ensures newErrors == ValidationErrors(d)
  {
    newErrors := map[];
    var nameBlank := TrimmedEmpty(d.name);
    if nameBlank { newErrors := newErrors[NameField := NameRequired]; }
    assert newErrors == ErrorsUpTo(d, 1);
    var locationBlank := TrimmedEmpty(d.location);
    if locationBlank { newErrors := newErrors[LocationField := LocationRequired]; }
    assert newErrors == ErrorsUpTo(d, 2);
    if d.price <= 0.0 { newErrors := newErrors[PriceField := PricePositive]; }
    assert newErrors == ErrorsUpTo(d, 3);
    var descriptionBlank := TrimmedEmpty(d.description);
    if descriptionBlank { newErrors := newErrors[DescriptionField := DescriptionRequired]; }
    assert newErrors == ErrorsUpTo(d, 4);
    var contactEmailBlank := TrimmedEmpty(d.contactEmail);
    if contactEmailBlank { newErrors := newErrors[EmailField := EmailRequired]; }
    assert newErrors == ErrorsUpTo(d, 5);
    var addressBlank := TrimmedEmpty(d.address);
    if addressBlank { newErrors := newErrors[AddressField := AddressRequired]; }
    assert newErrors == ErrorsUpTo(d, 6);
    if d.capacity <= 0 { newErrors := newErrors[CapacityField := CapacityPositive]; }
    assert newErrors == ErrorsUpTo(d, 7);
  }

  /** The form component's state. */
  class AddHostelForm {
    var formData: HostelFormData
    var errors: map<FormField, string>
    var newAmenity: string

    constructor()
      ensures formData == InitialForm && errors == map[] && newAmenity == ""
    {
      formData := InitialForm;
      errors := map[];
      newAmenity := "";
    }

    /** `validateForm`: records one message per failing field, replacing the old messages,
        and answers whether there were none. */
    method ValidateForm() returns (ok: bool)
      modifies this
      ensures formData == old(formData) && newAmenity == old(newAmenity)
      ensures errors == ValidationErrors(formData)
      ensures ok <==> RequiredFilled(formData)
    {
      var newErrors := CollectErrors(formData);
      errors := newErrors;
      ValidIffRequiredFilled(formData);
      ok := |newErrors| == 0;
    }

    /** `handleSubmit`: validates, and hands the data on (returned here) only when it is valid;
        a failure of the submission itself is swallowed. */
    method HandleSubmit() returns (submitted: Option<HostelFormData>)
      modifies this
      ensures formData == old(formData) && newAmenity == old(newAmenity)
      ensures errors == ValidationErrors(formData)
      ensures submitted.Some? <==> RequiredFilled(formData)
      ensures submitted.Some? ==> submitted.value == formData
    {
      var ok := ValidateForm();
      if !ok {
        return None;
      }
      submitted := Some(formData);
    }

    /** `handleInputChange`: sets the one field and clears only that field's message. */
    method HandleInputChange(field: FormField, value: FieldValue)
      requires Fits(field, value)
      modifies this
      ensures formData == WithField(old(formData), field, value)
      ensures errors == ClearError(old(errors), field)
      ensures newAmenity == old(newAmenity)
    {
      formData := WithField(formData, field, value);
      if field in errors && errors[field] != "" {
        errors := errors - {field};
      }
    }

    /** `toggleAmenity`: removes every copy of a listed amenity, otherwise appends it. */
    method ToggleAmenity(amenity: string)
      modifies this
      ensures formData == old(formData).(amenities := Toggle(old(formData.amenities), amenity))
      ensures errors == ClearError(old(errors), AmenitiesField)
      ensures newAmenity == old(newAmenity)
    {
      HandleInputChange(AmenitiesField, ListInput(Toggle(formData.amenities, amenity)));
    }

    /** The custom-amenity input's `onChange`. */
    method SetNewAmenity(s: string)
      modifies this
      ensures newAmenity == s && formData == old(formData) && errors == old(errors)
    {
      newAmenity := s;
    }

    /** `addCustomAmenity`: appends the trimmed input and empties it, when it is non-blank and
        not yet listed; otherwise nothing changes. */
    method AddCustomAmenity()
      modifies this
      ensures formData == old(formData).(amenities := WithCustomAmenity(old(formData.amenities), old(newAmenity)))
      ensures var added := !IsBlank(old(newAmenity)) && Trim(old(newAmenity)) !in old(formData.amenities);
        && (added ==> newAmenity == "" && errors == ClearError(old(errors), AmenitiesField))
        && (!added ==> newAmenity == old(newAmenity) && errors == old(errors))
    {
      var t := Trim(newAmenity);
      TrimEmptyIffBlank(newAmenity);
      if t != [] && t !in formData.amenities {
        HandleInputChange(AmenitiesField, ListInput(formData.amenities + [t]));
        newAmenity := "";
      }
    }

    /** `removeAmenity`: drops every copy of the amenity, keeping the rest in order. */
    method RemoveAmenity(amenity: string)
      modifies this
      ensures formData == old(formData).(amenities := RemoveAll(old(formData.amenities), amenity))
      ensures errors == ClearError(old(errors), AmenitiesField)
      ensures newAmenity == old(newAmenity)
    {
      HandleInputChange(AmenitiesField, ListInput(RemoveAll(formData.amenities, amenity)));
    }

    /** `removeImage`: drops the image at `index` (nothing when out of range); messages stay. */
    method RemoveImage(index: int)
      modifies this
      ensures formData == old(formData).(images := DropIndex(old(formData.images), index))
      ensures errors == old(errors) && newAmenity == old(newAmenity)
    {
      formData := formData.(images := DropIndex(formData.images, index));
    }
  }
}
