/** The state of the company staff page and its transitions. Each field is
    one state cell of the page; each method is one handler run from start
    to finish, with the outcomes of the backend calls it awaits passed in
    as parameters. */
module StaffPage {
  import opened Wrappers
  import opened JsValues
  import opened StaffTypes
  import opened StaffFormLogic
  import opened StaffDirectory

  const LoadFallback := "Unable to load staff"

  class CompanyStaffPage {
    var form: StaffForm
    var staff: seq<StaffRecord>
    var vacancies: seq<VacancyRecord>
    var submitting: bool
    var editingStaffId: Option<int>
    var expandedStaffId: Option<int>
    var confirmPassword: string
    var error: string
    var success: string

    /** The page as first rendered, in create mode with nothing loaded. */
    constructor ()
      ensures form == DefaultForm && staff == [] && vacancies == []
      ensures !submitting && editingStaffId == None && expandedStaffId == None
      ensures confirmPassword == "" && error == "" && success == ""
    {
      form := DefaultForm;
      staff := [];
      vacancies := [];
      submitting := false;
      editingStaffId := None;
      expandedStaffId := None;
      confirmPassword := "";
      error := "";
      success := "";
    }

    /** Fetches the staff and vacancy lists together. The error is cleared
        first; both lists are replaced only when both fetches succeed, and
        otherwise the first rejection's message is shown and both lists are
        kept. */
    method LoadStaff(staffFetch: Result<seq<StaffRecord>, Thrown>,
                     vacancyFetch: Result<seq<VacancyRecord>, Thrown>,
                     staffRejectsFirst: bool)
      modifies this
      ensures staffFetch.Success? && vacancyFetch.Success? ==>
                staff == staffFetch.value && vacancies == vacancyFetch.value && error == ""
      ensures !(staffFetch.Success? && vacancyFetch.Success?) ==>
                staff == old(staff) && vacancies == old(vacancies) &&
                error == MessageOf(PromiseAll(staffFetch, vacancyFetch, staffRejectsFirst).error, LoadFallback)
      ensures form == old(form) && submitting == old(submitting)
      ensures editingStaffId == old(editingStaffId) && expandedStaffId == old(expandedStaffId)
      ensures confirmPassword == old(confirmPassword) && success == old(success)
    {
      error := "";
      var both := PromiseAll(staffFetch, vacancyFetch, staffRejectsFirst);
      match both
      case Success(lists) =>
        staff := lists.0;
        vacancies := lists.1;
      case Failure(err) =>
        error := MessageOf(err, LoadFallback);
    }

    /** Switches the form to editing `record`. */
    method StartEdit(record: StaffRecord)
      modifies this
      ensures form == MapRecordToForm(record) && editingStaffId == Some(record.id)
      ensures confirmPassword == "" && error == "" && success == ""
      ensures staff == old(staff) && vacancies == old(vacancies)
      ensures expandedStaffId == old(expandedStaffId) && submitting == old(submitting)
    {
      form := MapRecordToForm(record);
      editingStaffId := Some(record.id);
      confirmPassword := "";
      error := "";
      success := "";
    }

    /** Leaves edit mode, whatever the form held. */
    method CancelEdit()
      modifies this
      ensures form == DefaultForm && editingStaffId == None
      ensures confirmPassword == "" && error == "" && success == ""
      ensures staff == old(staff) && vacancies == old(vacancies)
      ensures expandedStaffId == old(expandedStaffId) && submitting == old(submitting)
    {
      form := DefaultForm;
      editingStaffId := None;
      confirmPassword := "";
      error := "";
      success := "";
    }

    /** Submits the form. A failed local check only sets the error and makes
        no call. Otherwise the create or update call is made (its outcome is
        `saved`); on success the form is reset as by `CancelEdit`, the mode's
        message is shown and the lists are reloaded (with the fetch outcomes
        given); on failure the form, the mode and the confirmation are kept
        and the error is shown. The returned value is the call made. */
    method HandleSubmit(saved: Result<(), Thrown>,
                        staffFetch: Result<seq<StaffRecord>, Thrown>,
                        vacancyFetch: Result<seq<VacancyRecord>, Thrown>,
                        staffRejectsFirst: bool)
      returns (call: ApiCall)
      modifies this
      // local validation: no call, only the error changes
      ensures ValidateSubmit(old(editingStaffId), old(form).loginPassword, old(confirmPassword)).Some? ==>
                call == NoCall &&
                error == ValidateSubmit(old(editingStaffId), old(form).loginPassword, old(confirmPassword)).value &&
                form == old(form) && editingStaffId == old(editingStaffId) &&
                confirmPassword == old(confirmPassword) && success == old(success) &&
                submitting == old(submitting) && staff == old(staff) && vacancies == old(vacancies)
      // a validated submit sends the whole form to the matching call
      ensures ValidateSubmit(old(editingStaffId), old(form).loginPassword, old(confirmPassword)).None? ==>
                call == SubmitRequest(old(editingStaffId), old(form)) && !submitting
      // the call succeeded: back to create mode, message shown, lists reloaded
      ensures ValidateSubmit(old(editingStaffId), old(form).loginPassword, old(confirmPassword)).None? &&
              saved.Success? ==>
                form == DefaultForm && confirmPassword == "" && editingStaffId == None &&
                success == SuccessMessage(old(editingStaffId)) &&
                (staffFetch.Success? && vacancyFetch.Success? ==>
                   staff == staffFetch.value && vacancies == vacancyFetch.value && error == "") &&
                (!(staffFetch.Success? && vacancyFetch.Success?) ==>
                   staff == old(staff) && vacancies == old(vacancies) &&
                   error == MessageOf(PromiseAll(staffFetch, vacancyFetch, staffRejectsFirst).error, LoadFallback))
      // the call failed: nothing typed is lost
      ensures ValidateSubmit(old(editingStaffId), old(form).loginPassword, old(confirmPassword)).None? &&
              saved.Failure? ==>
                form == old(form) && editingStaffId == old(editingStaffId) &&
                confirmPassword == old(confirmPassword) &&
                error == MessageOf(saved.error, SaveFallback) && success == "" &&
                staff == old(staff) && vacancies == old(vacancies)
      ensures expandedStaffId == old(expandedStaffId)
    {
      var invalid := ValidateSubmit(editingStaffId, form.loginPassword, confirmPassword);
      if invalid.Some? {
        error := invalid.value;
        return NoCall;
      }
      submitting := true;
      error := "";
      success := "";
      call := SubmitRequest(editingStaffId, form);
      match saved {
        case Success(_) =>
          success := SuccessMessage(editingStaffId);
          form := DefaultForm;
          confirmPassword := "";
          editingStaffId := None;
          LoadStaff(staffFetch, vacancyFetch, staffRejectsFirst);
        case Failure(err) =>
          error := MessageOf(err, SaveFallback);
      }
      submitting := false;
    }

    /** The View/Hide button of the row for staff `id`. */
    method ToggleExpand(id: int)
      modifies this
      ensures expandedStaffId == Toggle(old(expandedStaffId), id)
      ensures form == old(form) && staff == old(staff) && vacancies == old(vacancies)
      ensures submitting == old(submitting) && editingStaffId == old(editingStaffId)
      ensures confirmPassword == old(confirmPassword) && error == old(error) && success == old(success)
    {
      expandedStaffId := Toggle(expandedStaffId, id);
    }
  }
}
