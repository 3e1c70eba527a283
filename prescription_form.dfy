/**
 * The new-prescription form (src/components/PrescriptionForm.tsx): its state
 * cells, the submit handler, the field change handlers, the disabled-while-
 * loading submit button and the timer that hides the success notice.
 *
 * `handleSubmit` is an async function that pauses once, at the `await` of the
 * create call. It is modelled as two steps: `HandleSubmit` runs it up to the
 * call and returns the request it sends (or `None` when it sends nothing);
 * `Settle` runs the rest once the call has succeeded or failed. `Submit` runs
 * both back to back. The gateway and the clock are parameters.
 */
module PrescriptionForm {
  import opened Wrappers
  import opened JsStrings
  import opened Records

  const RequiredFieldsMessage: string := "All fields are required."
  const CreateFailedMessage: string := "Failed to create prescription. Please try again."

  /** How the gateway's create call ended: it resolved with the stored record, or it threw. */
  datatype Outcome = Created(record: Prescription) | Failed

  /**
   * The validation guard of the submit handler, `!patientId || !drugName || !dosage`:
   * some required cell is falsy. In JavaScript `undefined` and `0` are the falsy
   * values the patient cell can hold, and `""` is the only falsy string. So a
   * submit is rejected exactly when no patient is chosen, the chosen id is 0,
   * or a text field is empty.
   */
  predicate Rejects(patientId: Option<int>, drugName: string, dosage: string)
    ensures Rejects(patientId, drugName, dosage) <==>
      patientId == None || patientId == Some(0) || |drugName| == 0 || |dosage| == 0
  {
    !(patientId.Some? && patientId.value != 0) || !(drugName != "") || !(dosage != "")
  }

  /** Text made only of blanks is not empty, so it passes the guard. */
  lemma BlankTextAccepted(patientId: Option<int>, drugName: string, dosage: string)
    requires patientId.Some? && patientId.value != 0
    requires |drugName| > 0 && |dosage| > 0
    requires forall i :: 0 <= i < |drugName| ==> drugName[i] == ' '
    requires forall i :: 0 <= i < |dosage| ==> dosage[i] == ' '
    ensures !Rejects(patientId, drugName, dosage)
  {
  }

  /** `new Date().toISOString().split('T')[0]`, with the timestamp given. */
  function DatePart(timestamp: string): (date: string)
    ensures date <= timestamp
    ensures 'T' !in date
    ensures |date| < |timestamp| ==> timestamp[|date|] == 'T'
  {
    SplitFirst(timestamp, 'T');
    Split(timestamp, 'T')[0]
  }

  predicate IsDigit(c: char)
  {
    '0' <= c <= '9'
  }

  /** A calendar date written `YYYY-MM-DD`. */
  predicate IsIsoDate(d: string)
  {
    |d| == 10 &&
    IsDigit(d[0]) && IsDigit(d[1]) && IsDigit(d[2]) && IsDigit(d[3]) && d[4] == '-' &&
    IsDigit(d[5]) && IsDigit(d[6]) && d[7] == '-' && IsDigit(d[8]) && IsDigit(d[9])
  }

  /** What `Date.prototype.toISOString` yields for a four-digit year: a date, then `T` and the time. */
  predicate IsIsoTimestamp(ts: string)
  {
    |ts| > 10 && IsIsoDate(ts[..10]) && ts[10] == 'T'
  }

  /** For an ISO timestamp, `datePrescribed` is exactly its `YYYY-MM-DD` date. */
  lemma DatePartOfIsoTimestamp(ts: string)
    requires IsIsoTimestamp(ts)
    ensures DatePart(ts) == ts[..10]
    ensures IsIsoDate(DatePart(ts))
  {
  }

  /** The request an accepted submit sends: the draft unchanged, plus the date. */
  function RequestFor(patientId: int, drugName: string, dosage: string, timestamp: string): (r: NewPrescription)
    ensures r.patientId == patientId && r.drugName == drugName && r.dosage == dosage
    ensures r.datePrescribed == DatePart(timestamp)
    ensures 'T' !in r.datePrescribed && r.datePrescribed <= timestamp
  {
    NewPrescription(patientId, drugName, dosage, DatePart(timestamp))
  }

  class Form {
    // The six state cells of the component.
    var patientId: Option<int>
    var drugName: string
    var dosage: string
    var error: string
    var loading: bool
    var success: bool

    /** The cells' initial values. */
    constructor ()
      ensures patientId == None && drugName == "" && dosage == ""
      ensures error == "" && !loading && !success
    {
      patientId := None;
      drugName := "";
      dosage := "";
      error := "";
      loading := false;
      success := false;
    }

    /**
     * The patient select's change handler. Its value is `""` for the
     * placeholder option and the patient's id otherwise, and `Number('')` is 0.
     */
    method SelectPatient(choice: Option<Patient>)
      modifies this
      ensures patientId == Some(if choice.Some? then choice.value.id else 0)
      ensures drugName == old(drugName) && dosage == old(dosage)
      ensures error == old(error) && loading == old(loading) && success == old(success)
    {
      patientId := Some(if choice.Some? then choice.value.id else 0);
    }

    /** The drug name input's change handler. */
    method EditDrugName(value: string)
      modifies this
      ensures drugName == value
      ensures patientId == old(patientId) && dosage == old(dosage)
      ensures error == old(error) && loading == old(loading) && success == old(success)
    {
      drugName := value;
    }

    /** The dosage input's change handler. */
    method EditDosage(value: string)
      modifies this
      ensures dosage == value
      ensures patientId == old(patientId) && drugName == old(drugName)
      ensures error == old(error) && loading == old(loading) && success == old(success)
    {
      dosage := value;
    }

    /**
     * The submit handler up to its `await`. A rejected draft only sets the
     * validation message and sends nothing. An accepted one sets `loading`,
     * clears `error` and sends exactly one request: the draft as entered,
     * dated with the date part of `timestamp`.
     */
    method HandleSubmit(timestamp: string) returns (call: Option<NewPrescription>)
      modifies this
      ensures patientId == old(patientId) && drugName == old(drugName) && dosage == old(dosage)
      ensures success == old(success)
      ensures Rejects(old(patientId), old(drugName), old(dosage)) ==>
        call == None && error == RequiredFieldsMessage && loading == old(loading)
      ensures !Rejects(old(patientId), old(drugName), old(dosage)) ==>
        call == Some(RequestFor(old(patientId).value, old(drugName), old(dosage), timestamp)) &&
        error == "" && loading
    {
      if Rejects(patientId, drugName, dosage) {
        error := RequiredFieldsMessage;
        return None;
      }
      loading := true;
      error := "";
      call := Some(NewPrescription(patientId.value, drugName, dosage, DatePart(timestamp)));
    }

    /**
     * The submit handler after its `await`. On success the draft is cleared
     * and the success notice shown; on failure the draft the user sees is
     * kept and the failure message shown. Either way `loading` ends false.
     */
    method Settle(outcome: Outcome)
      requires loading
      modifies this
      ensures !loading
      ensures outcome.Created? ==>
        patientId == None && drugName == "" && dosage == "" && success && error == old(error)
      ensures outcome.Failed? ==>
        patientId == old(patientId) && drugName == old(drugName) && dosage == old(dosage) &&
        success == old(success) && error == CreateFailedMessage
    {
      if outcome.Created? {
        drugName := "";
        dosage := "";
        patientId := None;
        success := true;
      } else {
        error := CreateFailedMessage;
      }
      loading := false;
    }

    /**
     * The whole submit handler when nothing happens while the call is
     * outstanding: the end state for each of its three outcomes.
     */
    method Submit(outcome: Outcome, timestamp: string) returns (call: Option<NewPrescription>)
      modifies this
      ensures Rejects(old(patientId), old(drugName), old(dosage)) ==>
        call == None && error == RequiredFieldsMessage &&
        patientId == old(patientId) && drugName == old(drugName) && dosage == old(dosage) &&
        loading == old(loading) && success == old(success)
      ensures !Rejects(old(patientId), old(drugName), old(dosage)) ==>
        call == Some(RequestFor(old(patientId).value, old(drugName), old(dosage), timestamp)) &&
        !loading
      ensures !Rejects(old(patientId), old(drugName), old(dosage)) && outcome.Created? ==>
        patientId == None && drugName == "" && dosage == "" && success && error == ""
      ensures !Rejects(old(patientId), old(drugName), old(dosage)) && outcome.Failed? ==>
        patientId == old(patientId) && drugName == old(drugName) && dosage == old(dosage) &&
        success == old(success) && error == CreateFailedMessage
    {
      call := HandleSubmit(timestamp);
      if call.Some? {
        Settle(outcome);
      }
    }

    /**
     * A submit intent from the user. While a call is outstanding the button is
     * disabled, so the intent has no effect and sends nothing; otherwise the
     * submit handler runs.
     */
    method Press(timestamp: string) returns (call: Option<NewPrescription>)
      modifies this
      ensures old(loading) ==>
        call == None &&
        patientId == old(patientId) && drugName == old(drugName) && dosage == old(dosage) &&
        error == old(error) && loading && success == old(success)
      ensures !old(loading) ==>
        patientId == old(patientId) && drugName == old(drugName) && dosage == old(dosage) &&
        success == old(success)
      ensures !old(loading) && Rejects(old(patientId), old(drugName), old(dosage)) ==>
        call == None && error == RequiredFieldsMessage && !loading
      ensures !old(loading) && !Rejects(old(patientId), old(drugName), old(dosage)) ==>
        call == Some(RequestFor(old(patientId).value, old(drugName), old(dosage), timestamp)) &&
        error == "" && loading
    {
      if loading {  // the button is rendered `disabled={loading}`
        return None;
      }
      call := HandleSubmit(timestamp);
    }

    /** The timer set after a success fires: it hides the success notice and nothing else. */
    method TimerFires()
      modifies this
      ensures !success
      ensures patientId == old(patientId) && drugName == old(drugName) && dosage == old(dosage)
      ensures error == old(error) && loading == old(loading)
    {
      success := false;
    }
  }

  /**
   * A whole successful session: choose patient 7, fill in the draft, press
   * submit, press again while the call is outstanding, let the call succeed,
   * let the timer fire. Returns the requests the two presses sent.
   */
  method SuccessfulSession() returns (first: Option<NewPrescription>, second: Option<NewPrescription>)
    ensures first == Some(NewPrescription(7, "Amoxicillin", "500mg twice daily", "2025-06-01"))
    ensures second == None
  {
    var ts := "2025-06-01T09:30:00.000Z";
    var form := new Form();
    form.SelectPatient(Some(Patient(7, "Jane Citizen", "1980-02-29")));
    form.EditDrugName("Amoxicillin");
    form.EditDosage("500mg twice daily");
    assert ts[..10] == "2025-06-01";
    assert IsIsoDate(ts[..10]);
    DatePartOfIsoTimestamp(ts);
    first := form.Press(ts);
    second := form.Press(ts);
    form.Settle(Created(Prescription(1, 7, "Amoxicillin", "500mg twice daily", "2025-06-01")));
    assert form.patientId == None && form.drugName == "" && form.dosage == "";
    assert form.success && form.error == "";
    form.TimerFires();
    assert !form.success && !form.loading;
  }

  /**
   * Submitting with the placeholder patient selected, and then again after a
   * failed call: the first sends nothing, the second keeps the draft.
   * Returns the requests the two submits sent.
   */
  method RejectedThenFailedSession() returns (first: Option<NewPrescription>, second: Option<NewPrescription>)
    ensures first == None
    ensures second.Some? && second.value.patientId == 3 && second.value.drugName == " "
  {
    var form := new Form();
    form.SelectPatient(None);
    form.EditDrugName(" ");
    form.EditDosage("5 ml");
    first := form.Submit(Failed, "2025-06-01T09:30:00.000Z");
    assert form.error == RequiredFieldsMessage && form.patientId == Some(0);
    form.SelectPatient(Some(Patient(3, "Ann Lee", "1990-01-01")));
    second := form.Submit(Failed, "2025-06-01T09:30:00.000Z");
    assert form.error == CreateFailedMessage;
    assert form.patientId == Some(3) && form.drugName == " " && form.dosage == "5 ml";
  }
}
