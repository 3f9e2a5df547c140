/** src/components/nft/CollectionInfoForm.tsx: editing and validating the
    collection details before the wizard moves on. */
module CollectionInfoForm {

  import opened Wrappers
  import opened Text
  import opened CollectionInfoState

  /** The form's own record has every field but the collection name. */
  predicate IsFormField(f: InfoField) {
    f != CollectionName
  }

  /** `handleInputChange`: the record handed to `onInfoChange`. */
  function HandleInputChange(info: CollectionInfo, field: InfoField, value: string): (r: CollectionInfo)
    requires IsFormField(field)
    ensures Get(r, field) == value
    ensures forall g :: g != field ==> Get(r, g) == Get(info, g)
  {
    Set(info, field, value)
  }

  /** `isFormValid`: the three required fields are not blank. */
  predicate IsFormValid(info: CollectionInfo) {
    !IsBlank(info.description) && !IsBlank(info.author) && !IsBlank(info.sponsor)
  }

  /** `validateForm`: the toast for the first blank required field, checked in
      the order description, author, sponsor. */
  function ValidateForm(info: CollectionInfo): (r: Outcome)
    ensures IsBlank(info.description) ==> r == Fail("Theme description is required")
    ensures !IsBlank(info.description) && IsBlank(info.author) ==> r == Fail("Author name is required")
    ensures !IsBlank(info.description) && !IsBlank(info.author) && IsBlank(info.sponsor) ==>
      r == Fail("Sponsor is required")
  {
    if IsBlank(info.description) then Fail("Theme description is required")
    else if IsBlank(info.author) then Fail("Author name is required")
    else if IsBlank(info.sponsor) then Fail("Sponsor is required")
    else Pass
  }

  /** The toast and the disabled state agree: validation passes exactly when the
      form counts as valid. */
  lemma ValidateFormAgreesWithIsFormValid(info: CollectionInfo)
    ensures ValidateForm(info) == Pass <==> IsFormValid(info)
  {
  }

  /** Editing a field that is not required leaves validity as it was. */
  lemma OptionalFieldsDoNotMatter(info: CollectionInfo, field: InfoField, value: string)
    requires field in {TwitterHandle, Website, LicenseUrl}
    ensures IsFormValid(HandleInputChange(info, field, value)) == IsFormValid(info)
  {
    var r := HandleInputChange(info, field, value);
    assert Get(r, Description) == Get(info, Description);
    assert Get(r, Author) == Get(info, Author);
    assert Get(r, Sponsor) == Get(info, Sponsor);
  }

  datatype NextAction = CallOnNext | ShowToast(message: string)

  /** `handleNext`: `onNext` is called exactly when validation passes. */
  function HandleNext(info: CollectionInfo): (r: NextAction)
    ensures r == CallOnNext <==> IsFormValid(info)
    ensures r.ShowToast? ==> ValidateForm(info) == Fail(r.message)
  {
    match ValidateForm(info)
    case Pass => CallOnNext
    case Fail(m) => ShowToast(m)
  }
}
