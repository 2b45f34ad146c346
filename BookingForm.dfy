/** The public booking form that the home page and the demonstration page
    both declare: its field validator and the submission it guards. */
module BookingForm {
  import opened Records

  /** What the visitor types; the date is picked separately on a calendar. */
  datatype SubmissionForm = SubmissionForm(city: string, email: string, time: string, description: string,
                                           discordId: string)

  /** One complaint of the validator, in the order the form declares its fields. */
  datatype FieldError = CityRequired | InvalidEmail | TimeRequired | DescriptionTooShort | DiscordIdRequired

  const MinDescriptionLength: nat := 10

  /** The field a validator message is about. */
  function MessageField(m: string): Option<FieldError>
  {
    if m == "Cidade é obrigatória" then Some(CityRequired)
    else if m == "Email inválido" then Some(InvalidEmail)
    else if m == "Horário é obrigatório" then Some(TimeRequired)
    else if m == "Descrição deve ter no mínimo 10 caracteres" then Some(DescriptionTooShort)
    else if m == "ID do Discord é obrigatório" then Some(DiscordIdRequired)
    else None
  }

  /** The message the validator gives for an error; each message names its
      own field. */
  function ErrorMessage(e: FieldError): (m: string)
    ensures MessageField(m) == Some(e)
  {
    match e
    case CityRequired => "Cidade é obrigatória"
    case InvalidEmail => "Email inválido"
    case TimeRequired => "Horário é obrigatório"
    case DescriptionTooShort => "Descrição deve ter no mínimo 10 caracteres"
    case DiscordIdRequired => "ID do Discord é obrigatório"
  }

  /** The five field constraints. Whether an address is well formed is the
      validation library's business and is passed in as `isEmail`. */
  predicate SchemaAccepts(f: SubmissionForm, isEmail: string -> bool)
  {
    |f.city| >= 1 && isEmail(f.email) && |f.time| >= 1 &&
    |f.description| >= MinDescriptionLength && |f.discordId| >= 1
  }

  /** The validator's report: one error per failing field, in field order. */
  function SchemaErrors(f: SubmissionForm, isEmail: string -> bool): (r: seq<FieldError>)
    ensures r == [] <==> SchemaAccepts(f, isEmail)
    ensures CityRequired in r <==> f.city == ""
    ensures InvalidEmail in r <==> !isEmail(f.email)
    ensures TimeRequired in r <==> f.time == ""
    ensures DescriptionTooShort in r <==> |f.description| < MinDescriptionLength
    ensures DiscordIdRequired in r <==> f.discordId == ""
    ensures |r| <= 5
  {
    (if |f.city| < 1 then [CityRequired] else []) +
    (if !isEmail(f.email) then [InvalidEmail] else []) +
    (if |f.time| < 1 then [TimeRequired] else []) +
    (if |f.description| < MinDescriptionLength then [DescriptionTooShort] else []) +
    (if |f.discordId| < 1 then [DiscordIdRequired] else [])
  }

  /** The messages the validator reports: one per failing field, in field order. */
  function SchemaMessages(f: SubmissionForm, isEmail: string -> bool): (r: seq<string>)
    ensures r == [] <==> SchemaAccepts(f, isEmail)
    ensures forall e :: ErrorMessage(e) in r <==> e in SchemaErrors(f, isEmail)
    ensures forall i :: 0 <= i < |r| ==> MessageField(r[i]).Some?
  {
    var errors := SchemaErrors(f, isEmail);
    var r := seq(|errors|, i requires 0 <= i < |errors| => ErrorMessage(errors[i]));
    assert forall e :: e in errors ==> ErrorMessage(e) in r by {
      forall e | e in errors ensures ErrorMessage(e) in r {
        var i :| 0 <= i < |errors| && errors[i] == e;
        assert r[i] == ErrorMessage(e);
      }
    }
    assert forall e :: ErrorMessage(e) in r ==> e in errors by {
      forall e | ErrorMessage(e) in r ensures e in errors {
        var i :| 0 <= i < |r| && r[i] == ErrorMessage(e);
        assert MessageField(r[i]) == Some(errors[i]);
      }
    }
    r
  }

  /** A visitor's submission: the form handler runs only on a form the
      validator accepts, refuses to write without a date, and creates the
      record as pending with the time of submission. The webhook is called
      only after a successful write, with `title` (None: no title field),
      and whether it delivers changes neither the outcome nor the store.
      `newId` is the id the store generates. */
  function Submission(db: Db, f: SubmissionForm, isEmail: string -> bool, date: Option<int>, newId: string,
                      now: int, title: Option<string>, writeOk: bool, webhookOk: bool): (s: Step)
    requires newId !in db.presentations
    ensures !SchemaAccepts(f, isEmail) || date.None? ==> s == Step(db, ValidationError)
    ensures s.outcome == Ok <==> SchemaAccepts(f, isEmail) && date.Some? && writeOk
    ensures s.outcome != Ok ==> s.outcome in {ValidationError, StoreWriteError} && s.db == db
    ensures s.outcome == Ok ==> s.db.presentations.Keys == db.presentations.Keys + {newId}
    ensures s.outcome == Ok ==>
      var p := s.db.presentations[newId];
      && |s.db.presentations| == |db.presentations| + 1
      && (forall k :: k in db.presentations ==> s.db.presentations[k] == db.presentations[k])
      && p.status == BookingStatus.Pending
      && p.city == f.city && p.email == f.email && p.date == date.value && p.time == f.time
      && p.discordId == f.discordId && p.description == f.description && p.createdAt == now
      && s.db.enlistments == db.enlistments
      && s.db.log == db.log + [Notification(title, BookingPayload(Some(newId), p), webhookOk)]
  {
    if !SchemaAccepts(f, isEmail) || date.None? then Step(db, ValidationError)
    else if !writeOk then Step(db, StoreWriteError)
    else
      var p := Presentation(f.city, f.email, date.value, f.time, f.description, f.discordId, BookingStatus.Pending, now);
      Step(Db(db.presentations[newId := p], db.enlistments,
              db.log + [Notification(title, BookingPayload(Some(newId), p), webhookOk)]),
           Ok)
  }

  /** A webhook failure after the create neither undoes it nor turns it into
      an error. */
  lemma SubmissionWebhookIrrelevant(db: Db, f: SubmissionForm, isEmail: string -> bool, date: Option<int>,
                                    newId: string, now: int, title: Option<string>, writeOk: bool)
    requires newId !in db.presentations
    ensures var a, b := Submission(db, f, isEmail, date, newId, now, title, writeOk, true),
                        Submission(db, f, isEmail, date, newId, now, title, writeOk, false);
      a.outcome == b.outcome && a.db.presentations == b.db.presentations && |a.db.log| == |b.db.log|
  {
  }

  /** The form handler: the validator, the date guard, addDoc, then the
      webhook. */
  method Submit(store: Store, f: SubmissionForm, isEmail: string -> bool, date: Option<int>, newId: string,
                now: int, title: Option<string>, writeOk: bool, webhookOk: bool) returns (r: Outcome)
    requires newId !in store.presentations
    modifies store
    ensures Step(store.State(), r) == Submission(old(store.State()), f, isEmail, date, newId, now, title, writeOk, webhookOk)
  {
    if !SchemaAccepts(f, isEmail) {
      return ValidationError;
    }
    if date.None? {
      return ValidationError;
    }
    var p := Presentation(f.city, f.email, date.value, f.time, f.description, f.discordId, BookingStatus.Pending, now);
    var written := store.AddPresentation(newId, p, writeOk);
    if !written {
      return StoreWriteError;
    }
    store.Notify(title, BookingPayload(Some(newId), p), webhookOk);
    r := Ok;
  }
}
