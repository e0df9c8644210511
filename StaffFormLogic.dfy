/** The create/edit form of the staff page: the default form, the mapping
    from a loaded record into the form, the local validation that runs
    before anything is sent, and the choice between the create and the
    update call. */
module StaffFormLogic {
  import opened Wrappers
  import opened JsValues
  import opened StaffTypes

  const DefaultEmploymentType := "full-time"
  const DefaultStatus := "active"

  const PasswordRequired := "Login password is required for new staff"
  const PasswordMismatch := "Password and confirm password do not match"
  const UpdatedMessage := "Staff updated successfully."
  const CreatedMessage := "Staff created successfully."
  const SaveFallback := "Unable to save staff"

  /** The empty form shown in create mode and restored after a cancel or a
      successful save. */
  const DefaultForm := StaffForm(
    "", "", "", "", "", "", "", "", "", "",
    DefaultEmploymentType, "", 0.0, 0.0,
    "", "", "", "", "", "", "", "",
    DefaultStatus, "", "")

  /** The values of the empty form: every text field is empty except the
      employment type and the status, and both numbers are zero. */
  lemma DefaultFormValues()
    ensures DefaultForm.firstName == "" && DefaultForm.lastName == "" && DefaultForm.email == ""
    ensures DefaultForm.phone == "" && DefaultForm.alternatePhone == "" && DefaultForm.gender == ""
    ensures DefaultForm.dateOfBirth == "" && DefaultForm.employeeCode == "" && DefaultForm.department == ""
    ensures DefaultForm.designation == "" && DefaultForm.dateOfJoining == ""
    ensures DefaultForm.employmentType == "full-time" && DefaultForm.status == "active"
    ensures DefaultForm.experienceYears == 0.0 && DefaultForm.salary == 0.0
    ensures DefaultForm.addressLine1 == "" && DefaultForm.addressLine2 == "" && DefaultForm.city == ""
    ensures DefaultForm.state == "" && DefaultForm.postalCode == "" && DefaultForm.country == ""
    ensures DefaultForm.emergencyContactName == "" && DefaultForm.emergencyContactPhone == ""
    ensures DefaultForm.notes == "" && DefaultForm.loginPassword == ""
  {
  }

  /** Primes the form from a loaded record. Every field takes the record's
      value, or its default when the value is missing or falsy; the
      password is never taken from a record. */
  function MapRecordToForm(record: StaffRecord): (f: StaffForm)
    ensures f.loginPassword == ""
    // for the fields whose default is "", `|| ""` is plain null-coalescing
    ensures f.firstName == record.firstName.GetOr("")
    ensures f.lastName == record.lastName.GetOr("")
    ensures f.email == record.email.GetOr("")
    ensures f.phone == record.phone.GetOr("")
    ensures f.alternatePhone == record.alternatePhone.GetOr("")
    ensures f.gender == record.gender.GetOr("")
    ensures f.dateOfBirth == record.dateOfBirth.GetOr("")
    ensures f.employeeCode == record.employeeCode.GetOr("")
    ensures f.department == record.department.GetOr("")
    ensures f.designation == record.designation.GetOr("")
    ensures f.dateOfJoining == record.dateOfJoining.GetOr("")
    ensures f.addressLine1 == record.addressLine1.GetOr("")
    ensures f.addressLine2 == record.addressLine2.GetOr("")
    ensures f.city == record.city.GetOr("")
    ensures f.state == record.state.GetOr("")
    ensures f.postalCode == record.postalCode.GetOr("")
    ensures f.country == record.country.GetOr("")
    ensures f.emergencyContactName == record.emergencyContactName.GetOr("")
    ensures f.emergencyContactPhone == record.emergencyContactPhone.GetOr("")
    ensures f.notes == record.notes.GetOr("")
    // likewise `|| 0` for the numeric fields
    ensures f.experienceYears == record.experienceYears.GetOr(0.0)
    ensures f.salary == record.salary.GetOr(0.0)
    // employment type and status are never left empty
    ensures f.employmentType != "" && f.status != ""
    ensures record.employmentType.Some? && record.employmentType.value != "" ==>
              f.employmentType == record.employmentType.value
    ensures f.employmentType != DefaultEmploymentType ==> record.employmentType == Some(f.employmentType)
    ensures record.status.Some? && record.status.value != "" ==> f.status == record.status.value
    ensures f.status != DefaultStatus ==> record.status == Some(f.status)
  {
    StaffForm(
      OrString(record.firstName, ""),
      OrString(record.lastName, ""),
      OrString(record.email, ""),
      OrString(record.phone, ""),
      OrString(record.alternatePhone, ""),
      OrString(record.gender, ""),
      OrString(record.dateOfBirth, ""),
      OrString(record.employeeCode, ""),
      OrString(record.department, ""),
      OrString(record.designation, ""),
      OrString(record.employmentType, DefaultEmploymentType),
      OrString(record.dateOfJoining, ""),
      OrNumber(record.experienceYears, 0.0),
      OrNumber(record.salary, 0.0),
      OrString(record.addressLine1, ""),
      OrString(record.addressLine2, ""),
      OrString(record.city, ""),
      OrString(record.state, ""),
      OrString(record.postalCode, ""),
      OrString(record.country, ""),
      OrString(record.emergencyContactName, ""),
      OrString(record.emergencyContactPhone, ""),
      OrString(record.status, DefaultStatus),
      OrString(record.notes, ""),
      "")
  }

  /** The local checks of a submit, in order: a password is required when
      not editing, and a given password must equal its confirmation.
      `None` means the form may be sent. */
  function ValidateSubmit(editingStaffId: Option<int>, password: string, confirm: string): (r: Option<string>)
    ensures r == None || r == Some(PasswordRequired) || r == Some(PasswordMismatch)
    ensures r == Some(PasswordRequired) <==> !TruthyId(editingStaffId) && password == ""
    ensures r == Some(PasswordMismatch) <==> password != "" && password != confirm
    ensures r == None <==> (TruthyId(editingStaffId) || password != "") && (password == "" || password == confirm)
  {
    if !TruthyId(editingStaffId) && password == "" then Some(PasswordRequired)
    else if password != "" && password != confirm then Some(PasswordMismatch)
    else None
  }

  /** The call a submit makes to the backend, if any. */
  datatype ApiCall = NoCall | CreateStaff(payload: StaffForm) | UpdateStaff(id: int, payload: StaffForm)

  /** The call a validated submit makes: an update of the edited record
      when the edited id is truthy, a create otherwise; either carries the
      whole form, password included. */
  function SubmitRequest(editingStaffId: Option<int>, form: StaffForm): (c: ApiCall)
    ensures !c.NoCall? && c.payload == form
    ensures c.UpdateStaff? <==> TruthyId(editingStaffId)
    ensures c.UpdateStaff? ==> editingStaffId == Some(c.id) && c.id != 0
  {
    if TruthyId(editingStaffId) then UpdateStaff(editingStaffId.value, form) else CreateStaff(form)
  }

  /** The message shown once the call has succeeded, by mode. */
  function SuccessMessage(editingStaffId: Option<int>): (m: string)
    ensures m == UpdatedMessage || m == CreatedMessage
    ensures m == UpdatedMessage <==> TruthyId(editingStaffId)
  {
    if TruthyId(editingStaffId) then UpdatedMessage else CreatedMessage
  }

  /** A record with every optional field missing maps to the default form:
      the per-field defaults of the mapping are those of the empty form. */
  lemma EmptyRecordMapsToDefaultForm(id: int, createdAt: string)
    ensures MapRecordToForm(StaffRecord(id, None, None, None, None, None, None, None, None, None, None,
                                        None, None, None, None, None, None, None, None, None, None, None,
                                        None, None, None, createdAt)) == DefaultForm
  {
  }

  /** The record the listing returns for a payload that the backend stored
      as sent (the password is not part of a record). */
  function SavedRecord(id: int, f: StaffForm, createdAt: string): StaffRecord {
    StaffRecord(id, Some(f.firstName), Some(f.lastName), Some(f.email), Some(f.phone),
                Some(f.alternatePhone), Some(f.gender), Some(f.dateOfBirth), Some(f.employeeCode),
                Some(f.department), Some(f.designation), Some(f.employmentType), Some(f.dateOfJoining),
                Some(f.experienceYears), Some(f.salary), Some(f.addressLine1), Some(f.addressLine2),
                Some(f.city), Some(f.state), Some(f.postalCode), Some(f.country),
                Some(f.emergencyContactName), Some(f.emergencyContactPhone), Some(f.status),
                Some(f.notes), createdAt)
  }

  /** Editing a record saved from form `f` gives back `f` with the password
      cleared, as long as `f` kept a non-empty employment type and status
      (an empty one comes back as its default). */
  lemma EditSavedRecord(id: int, f: StaffForm, createdAt: string)
    requires f.employmentType != "" && f.status != ""
    ensures MapRecordToForm(SavedRecord(id, f, createdAt)) == f.(loginPassword := "")
  {
  }

  /** A form primed from a record with a non-zero id passes validation
      with no password and no confirmation: on edit the password is
      optional, and the call made is an update of that record. */
  lemma EditWithoutPasswordIsSent(record: StaffRecord)
    requires record.id != 0
    ensures ValidateSubmit(Some(record.id), MapRecordToForm(record).loginPassword, "") == None
    ensures SubmitRequest(Some(record.id), MapRecordToForm(record)) == UpdateStaff(record.id, MapRecordToForm(record))
  {
  }

  /** JavaScript truthiness makes an edited id of 0 behave as create mode:
      the password is demanded, and a validated submit creates instead of
      updating. */
  lemma EditingIdZeroActsAsCreate(record: StaffRecord, f: StaffForm)
    requires record.id == 0
    ensures ValidateSubmit(Some(record.id), MapRecordToForm(record).loginPassword, "") == Some(PasswordRequired)
    ensures SubmitRequest(Some(record.id), f) == CreateStaff(f)
  {
  }

  /** The default form cannot be submitted in create mode. */
  lemma DefaultFormNeedsPassword(confirm: string)
    ensures ValidateSubmit(None, DefaultForm.loginPassword, confirm) == Some(PasswordRequired)
  {
  }
}
