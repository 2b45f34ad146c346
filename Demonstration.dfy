/** The demonstration page's booking form. */
module Demonstration {
  import opened Records
  import BookingForm

  const RequestTitle: string := "🆕 Nova Solicitação de Demonstração"

  /** The demonstration page's form handler; its webhook call carries the
      new record's id and the fixed "new demonstration request" title. */
  method OnSubmit(store: Store, f: BookingForm.SubmissionForm, isEmail: string -> bool, date: Option<int>,
                  newId: string, now: int, writeOk: bool, webhookOk: bool) returns (r: Outcome)
    requires newId !in store.presentations
    modifies store
    ensures Step(store.State(), r) ==
            BookingForm.Submission(old(store.State()), f, isEmail, date, newId, now, Some(RequestTitle), writeOk, webhookOk)
  {
    r := BookingForm.Submit(store, f, isEmail, date, newId, now, Some(RequestTitle), writeOk, webhookOk);
  }
}
