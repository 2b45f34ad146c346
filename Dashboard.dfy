/** The administrator's dashboard: status changes, the full edit, the admin
    create and the two deletes, each as a pure step over the store's state
    (the specification) and as a handler that makes the remote calls one
    after the other. */
module Dashboard {
  import opened Records

  /** Sentinel contact values of a record the administrator creates. */
  const AdminEmail: string := "criado-pelo-admin@eda.com"
  const AdminDiscordId: string := "Admin"

  const DefaultBookingTitle: string := "🔔 Status da Apresentação Atualizado"
  const DefaultEnlistmentTitle: string := "🔔 Status do Alistamento Atualizado"
  const EditTitle: string := "✏️ Apresentação Atualizada"
  const CreateTitle: string := "➕ Nova Apresentação Criada"

  /** The Portuguese label of a stored booking status string; anything
      unlisted reads as pending. */
  function StatusText(s: string): (r: string)
    ensures r == "Pendente" <==> s !in {"approved", "rejected", "rescheduled", "canceled"}
  {
    if s == "approved" then "Aprovada"
    else if s == "rejected" then "Rejeitada"
    else if s == "rescheduled" then "Reagendada"
    else if s == "canceled" then "Cancelada"
    else "Pendente"
  }

  /** The Portuguese label of a stored enlistment status string. */
  function EnlistmentStatusText(s: string): (r: string)
    ensures r == "Pendente" <==> s !in {"approved", "rejected", "in_progress"}
  {
    if s == "approved" then "Aprovado"
    else if s == "rejected" then "Rejeitado"
    else if s == "in_progress" then "Em Análise"
    else "Pendente"
  }

  /** Distinct statuses get distinct labels. */
  lemma StatusTextsDistinct(a: BookingStatus, b: BookingStatus)
    ensures StatusText(BookingCode(a)) == StatusText(BookingCode(b)) <==> a == b
  {
  }

  lemma EnlistmentStatusTextsDistinct(a: EnlistmentStatus, b: EnlistmentStatus)
    ensures EnlistmentStatusText(EnlistmentCode(a)) == EnlistmentStatusText(EnlistmentCode(b)) <==> a == b
  {
  }

  /** The title of the notification for a booking status change. */
  function BookingStatusTitle(st: BookingStatus): (r: string)
    ensures r == DefaultBookingTitle <==> st == BookingStatus.Pending
  {
    match st
    case Approved => "✅ Apresentação Aprovada"
    case Rejected => "❌ Apresentação Rejeitada"
    case Rescheduled => "🔄 Apresentação Reagendada"
    case Canceled => "🚫 Apresentação Cancelada"
    case Pending => DefaultBookingTitle
  }

  /** The title of the notification for an enlistment status change. */
  function EnlistmentStatusTitle(st: EnlistmentStatus): (r: string)
    ensures r == DefaultEnlistmentTitle <==> st == EnlistmentStatus.Pending
  {
    match st
    case Approved => "✅ Alistamento Aprovado"
    case Rejected => "❌ Alistamento Rejeitado"
    case InProgress => "🔄 Alistamento Em Análise"
    case Pending => DefaultEnlistmentTitle
  }

  /** Each status change is announced under a title of its own. */
  lemma StatusTitlesDistinct(a: BookingStatus, b: BookingStatus, c: EnlistmentStatus, d: EnlistmentStatus)
    ensures BookingStatusTitle(a) == BookingStatusTitle(b) <==> a == b
    ensures EnlistmentStatusTitle(c) == EnlistmentStatusTitle(d) <==> c == d
    ensures BookingStatusTitle(a) != EditTitle && BookingStatusTitle(a) != CreateTitle
  {
  }

  /** The two records agree on every field but the status. */
  predicate SameExceptStatus(a: Presentation, b: Presentation)
  {
    a.city == b.city && a.email == b.email && a.date == b.date && a.time == b.time &&
    a.description == b.description && a.discordId == b.discordId && a.createdAt == b.createdAt
  }

  predicate SameExceptEnlistmentStatus(a: Enlistment, b: Enlistment)
  {
    a.firstName == b.firstName && a.lastName == b.lastName && a.email == b.email &&
    a.discordNick == b.discordNick && a.motivation == b.motivation &&
    a.aviationKnowledge == b.aviationKnowledge && a.age == b.age &&
    a.simFlightExperience == b.simFlightExperience && a.knowsSquadron == b.knowsSquadron &&
    a.shifts == b.shifts && a.userIp == b.userIp && a.createdAt == b.createdAt
  }

  /** Every record other than `id` is stored unchanged. */
  ghost predicate OthersUnchanged<T>(m: map<string, T>, m': map<string, T>, id: string)
  {
    forall k :: k in m && k != id ==> k in m' && m'[k] == m[k]
  }

  /** The first entry of a local list with the given id (Array.prototype.find). */
  function FindListed<T>(xs: seq<Listed<T>>, id: string): (r: Option<Listed<T>>)
    ensures r.Some? <==> exists i :: 0 <= i < |xs| && xs[i].id == id
    ensures r.Some? ==> exists i :: 0 <= i < |xs| && xs[i] == r.value && r.value.id == id &&
                                      forall j :: 0 <= j < i ==> xs[j].id != id
  {
    if xs == [] then None
    else if xs[0].id == id then Some(xs[0])
    else
      var r := FindListed(xs[1..], id);
      assert forall i :: 1 <= i < |xs| ==> xs[i] == xs[1..][i - 1];
      r
  }

  /** The summed lengths of the entries. */
  function TotalLength(xs: seq<string>): nat
    decreases |xs|
  {
    if xs == [] then 0 else |xs[0]| + TotalLength(xs[1..])
  }

  /** `xs` joined with `sep` between consecutive entries (Array.prototype.join):
      the entries' characters and one separator fewer than there are entries. */
  function Join(xs: seq<string>, sep: string): (r: string)
    ensures xs == [] ==> r == ""
    ensures xs != [] ==> xs[0] <= r
    ensures |r| == TotalLength(xs) + (if xs == [] then 0 else (|xs| - 1) * |sep|)
    decreases |xs|
  {
    if xs == [] then "" else if |xs| == 1 then xs[0] else xs[0] + sep + Join(xs[1..], sep)
  }

  /** Appending an entry appends the separator and the entry. */
  lemma {:induction false} JoinSnoc(xs: seq<string>, y: string, sep: string)
    requires xs != []
    ensures Join(xs + [y], sep) == Join(xs, sep) + sep + y
    decreases |xs|
  {
    if |xs| > 1 {
      assert (xs + [y])[1..] == xs[1..] + [y];
      JoinSnoc(xs[1..], y, sep);
    }
  }

  /** The fixed status line that closes an enlistment summary. */
  function StatusLine(st: EnlistmentStatus): string
  {
    "\nStatus: " + EnlistmentStatusText(EnlistmentCode(st))
  }

  /** The notification body summarising an enlistment under its new status:
      it opens with the applicant's name and closes with the new status. */
  function EnlistmentSummary(e: Enlistment, st: EnlistmentStatus): (r: string)
    ensures "Nome: " + e.firstName + " " + e.lastName <= r
    ensures |StatusLine(st)| <= |r| && r[|r| - |StatusLine(st)|..] == StatusLine(st)
  {
    "Nome: " + e.firstName + " " + e.lastName +
    "\nEmail: " + e.email +
    "\nIdade: " + e.age +
    "\nMotivo: " + e.motivation +
    "\nConhecimento: " + e.aviationKnowledge +
    "\nVoo FIVEM: " + e.simFlightExperience +
    "\nConhece Esquadrilha: " + e.knowsSquadron +
    "\nTurno: " + Join(e.shifts, ", ") +
    "\nStatus: " + EnlistmentStatusText(EnlistmentCode(st))
  }

  /** Summaries of one enlistment under different statuses differ, so the
      notification body tells which status was set. */
  lemma EnlistmentSummaryNamesStatus(e: Enlistment, a: EnlistmentStatus, b: EnlistmentStatus)
    ensures EnlistmentSummary(e, a) == EnlistmentSummary(e, b) <==> a == b
  {
    var ra, rb := EnlistmentSummary(e, a), EnlistmentSummary(e, b);
    if ra == rb {
      var ta, tb := EnlistmentStatusText(EnlistmentCode(a)), EnlistmentStatusText(EnlistmentCode(b));
      assert ra == ra[..|ra| - |ta|] + ta;
      assert rb == rb[..|rb| - |tb|] + tb;
      assert ta == tb;
      EnlistmentStatusTextsDistinct(a, b);
    }
  }

  /** The booking-shaped payload announcing an enlistment's new status; the
      notifier has no enlistment form, so city and time read "N/A" and both
      dates are the current time. */
  function EnlistmentPayload(e: Enlistment, st: EnlistmentStatus, now: int): (pl: Payload)
    ensures pl.id.None? && pl.email == e.email && pl.discordId == e.discordNick
    ensures ParseEnlistmentStatus(pl.status) == Some(st)
  {
    EnlistmentCodeRoundTrip(st);
    Payload(None, "N/A", e.email, now, "N/A", EnlistmentSummary(e, st), e.discordNick, EnlistmentCode(st), now)
  }

  // ---------------------------------------------------------------------
  // The operations as steps over the store's state

  /** Changes one booking's status. The record is read first (to build the
      notification) and a missing record fails before any write; after a
      successful write the webhook is called, and its failure changes
      nothing but the log entry's delivery flag. */
  function StatusUpdate(db: Db, id: string, st: BookingStatus, writeOk: bool, webhookOk: bool): (s: Step)
    ensures s.outcome == Ok <==> id in db.presentations && writeOk
    ensures s.outcome == NotFound <==> id !in db.presentations
    ensures s.outcome != Ok ==> s.outcome in {NotFound, StoreWriteError} && s.db == db
    ensures s.outcome == Ok ==>
      && s.db.presentations.Keys == db.presentations.Keys
      && s.db.presentations[id].status == st
      && SameExceptStatus(s.db.presentations[id], db.presentations[id])
      && OthersUnchanged(db.presentations, s.db.presentations, id)
      && s.db.enlistments == db.enlistments
      && s.db.log == db.log + [Notification(Some(BookingStatusTitle(st)),
                                            BookingPayload(Some(id), db.presentations[id].(status := st)),
                                            webhookOk)]
  {
    if id !in db.presentations then Step(db, NotFound)
    else if !writeOk then Step(db, StoreWriteError)
    else
      var data := db.presentations[id].(status := st);
      Step(Db(db.presentations[id := data], db.enlistments,
              db.log + [Notification(Some(BookingStatusTitle(st)), BookingPayload(Some(id), data), webhookOk)]),
           Ok)
  }

  /** Changes one enlistment's status without reading it first; the
      notification is built from the dashboard's local list and is sent only
      when the id is in that list. */
  function EnlistmentStatusUpdate(db: Db, id: string, st: EnlistmentStatus, local: seq<Listed<Enlistment>>,
                                  now: int, writeOk: bool, webhookOk: bool): (s: Step)
    ensures s.outcome == Ok <==> id in db.enlistments && writeOk
    ensures s.outcome == NotFound <==> id !in db.enlistments
    ensures s.outcome != Ok ==> s.outcome in {NotFound, StoreWriteError} && s.db == db
    ensures s.outcome == Ok ==>
      && s.db.enlistments.Keys == db.enlistments.Keys
      && s.db.enlistments[id].status == st
      && SameExceptEnlistmentStatus(s.db.enlistments[id], db.enlistments[id])
      && OthersUnchanged(db.enlistments, s.db.enlistments, id)
      && s.db.presentations == db.presentations
    ensures s.outcome == Ok && FindListed(local, id).None? ==> s.db.log == db.log
    ensures s.outcome == Ok && FindListed(local, id).Some? ==>
      s.db.log == db.log + [Notification(Some(EnlistmentStatusTitle(st)),
                                         EnlistmentPayload(FindListed(local, id).value.record, st, now),
                                         webhookOk)]
  {
    if id !in db.enlistments then Step(db, NotFound)
    else if !writeOk then Step(db, StoreWriteError)
    else
      var enlistments := db.enlistments[id := db.enlistments[id].(status := st)];
      match FindListed(local, id)
      case None => Step(Db(db.presentations, enlistments, db.log), Ok)
      case Some(row) =>
        Step(Db(db.presentations, enlistments,
                db.log + [Notification(Some(EnlistmentStatusTitle(st)), EnlistmentPayload(row.record, st, now), webhookOk)]),
             Ok)
  }

  /** The edit dialog's fields. */
  datatype EditForm = EditForm(city: string, time: string, description: string, status: BookingStatus)

  /** The full edit of the selected booking. Only a selection and a date are
      demanded; the stored record must exist. City, date, time, description
      and status are written, the contact fields and createdAt are kept, and
      the notification is built from the dashboard's copy of the record. */
  function UpdatePresentation(db: Db, selected: Option<Listed<Presentation>>, form: EditForm, date: Option<int>,
                              writeOk: bool, webhookOk: bool): (s: Step)
    ensures selected.None? || date.None? ==> s == Step(db, ValidationError)
    ensures selected.Some? && date.Some? && selected.value.id !in db.presentations ==> s == Step(db, NotFound)
    ensures s.outcome == Ok <==> selected.Some? && date.Some? && selected.value.id in db.presentations && writeOk
    ensures s.outcome == StoreWriteError <==> selected.Some? && date.Some? && selected.value.id in db.presentations && !writeOk
    ensures s.outcome != Ok ==> s.db == db
    ensures s.outcome == Ok ==> s.db.presentations.Keys == db.presentations.Keys
    ensures s.outcome == Ok ==>
      var id := selected.value.id;
      var before := db.presentations[id];
      var after := s.db.presentations[id];
      && after.city == form.city && after.date == date.value && after.time == form.time
      && after.description == form.description && after.status == form.status
      && after.email == before.email && after.discordId == before.discordId && after.createdAt == before.createdAt
      && OthersUnchanged(db.presentations, s.db.presentations, id)
      && s.db.enlistments == db.enlistments
      && s.db.log == db.log + [Notification(Some(EditTitle),
           BookingPayload(Some(id), selected.value.record.(city := form.city, date := date.value, time := form.time,
                                                            description := form.description, status := form.status)),
           webhookOk)]
  {
    if selected.None? || date.None? then Step(db, ValidationError)
    else
      var id := selected.value.id;
      if id !in db.presentations then Step(db, NotFound)
      else if !writeOk then Step(db, StoreWriteError)
      else
        var stored := db.presentations[id].(city := form.city, date := date.value, time := form.time,
                                            description := form.description, status := form.status);
        var shown := selected.value.record.(city := form.city, date := date.value, time := form.time,
                                             description := form.description, status := form.status);
        Step(Db(db.presentations[id := stored], db.enlistments,
                db.log + [Notification(Some(EditTitle), BookingPayload(Some(id), shown), webhookOk)]),
             Ok)
  }

  /** The admin create: every one of city, date, time and description must be
      non-empty; the status is the one chosen in the dialog and the contact
      fields are the admin sentinels. `newId` is the id the store generates. */
  function CreatePresentation(db: Db, form: EditForm, date: Option<int>, newId: string, now: int,
                              writeOk: bool, webhookOk: bool): (s: Step)
    requires newId !in db.presentations
    ensures s.outcome == ValidationError <==> form.city == "" || date.None? || form.time == "" || form.description == ""
    ensures s.outcome == Ok <==> s.outcome != ValidationError && writeOk
    ensures s.outcome != Ok ==> s.outcome in {ValidationError, StoreWriteError} && s.db == db
    ensures s.outcome == Ok ==> s.db.presentations.Keys == db.presentations.Keys + {newId}
    ensures s.outcome == Ok ==>
      var p := s.db.presentations[newId];
      && |s.db.presentations| == |db.presentations| + 1
      && OthersUnchanged(db.presentations, s.db.presentations, newId)
      && p == Presentation(form.city, AdminEmail, date.value, form.time, form.description, AdminDiscordId, form.status, now)
      && s.db.enlistments == db.enlistments
      && s.db.log == db.log + [Notification(Some(CreateTitle), BookingPayload(Some(newId), p), webhookOk)]
  {
    if form.city == "" || date.None? || form.time == "" || form.description == "" then Step(db, ValidationError)
    else if !writeOk then Step(db, StoreWriteError)
    else
      var p := Presentation(form.city, AdminEmail, date.value, form.time, form.description, AdminDiscordId, form.status, now);
      Step(Db(db.presentations[newId := p], db.enlistments,
              db.log + [Notification(Some(CreateTitle), BookingPayload(Some(newId), p), webhookOk)]),
           Ok)
  }

  /** Deletes the selected booking. The store has no existence check: an id
      that is not stored is deleted successfully and nothing changes. */
  function DeletePresentation(db: Db, selected: Option<string>, writeOk: bool): (s: Step)
    ensures selected.None? ==> s == Step(db, NoSelection)
    ensures s.outcome == Ok <==> selected.Some? && writeOk
    ensures s.outcome == StoreWriteError <==> selected.Some? && !writeOk
    ensures s.outcome != Ok ==> s.db == db
    ensures s.outcome == Ok ==>
      && s.db.presentations.Keys == db.presentations.Keys - {selected.value}
      && OthersUnchanged(db.presentations, s.db.presentations, selected.value)
      && s.db.enlistments == db.enlistments
    ensures s.db.log == db.log
  {
    match selected
    case None => Step(db, NoSelection)
    case Some(id) =>
      if !writeOk then Step(db, StoreWriteError)
      else Step(Db(db.presentations - {id}, db.enlistments, db.log), Ok)
  }

  /** Deletes the selected enlistment. */
  function DeleteEnlistment(db: Db, selected: Option<string>, writeOk: bool): (s: Step)
    ensures selected.None? ==> s == Step(db, NoSelection)
    ensures s.outcome == Ok <==> selected.Some? && writeOk
    ensures s.outcome == StoreWriteError <==> selected.Some? && !writeOk
    ensures s.outcome != Ok ==> s.db == db
    ensures s.outcome == Ok ==>
      && s.db.enlistments.Keys == db.enlistments.Keys - {selected.value}
      && OthersUnchanged(db.enlistments, s.db.enlistments, selected.value)
      && s.db.presentations == db.presentations
    ensures s.db.log == db.log
  {
    match selected
    case None => Step(db, NoSelection)
    case Some(id) =>
      if !writeOk then Step(db, StoreWriteError)
      else Step(Db(db.presentations, db.enlistments - {id}, db.log), Ok)
  }

  // ---------------------------------------------------------------------
  // Properties relating several steps

  /** A webhook failure is swallowed: the outcome and both collections are
      those of a delivered notification. */
  lemma StatusUpdateWebhookIrrelevant(db: Db, id: string, st: BookingStatus, writeOk: bool)
    ensures var a, b := StatusUpdate(db, id, st, writeOk, true), StatusUpdate(db, id, st, writeOk, false);
      a.outcome == b.outcome && a.db.presentations == b.db.presentations && a.db.enlistments == b.db.enlistments &&
      |a.db.log| == |b.db.log|
  {
  }

  lemma EnlistmentStatusUpdateWebhookIrrelevant(db: Db, id: string, st: EnlistmentStatus,
                                                local: seq<Listed<Enlistment>>, now: int, writeOk: bool)
    ensures var a, b := EnlistmentStatusUpdate(db, id, st, local, now, writeOk, true),
                        EnlistmentStatusUpdate(db, id, st, local, now, writeOk, false);
      a.outcome == b.outcome && a.db.presentations == b.db.presentations && a.db.enlistments == b.db.enlistments &&
      |a.db.log| == |b.db.log|
  {
  }

  /** Applying the same status twice stores what applying it once does. */
  lemma StatusUpdateIdempotent(db: Db, id: string, st: BookingStatus, h1: bool, h2: bool)
    ensures var once := StatusUpdate(db, id, st, true, h1);
      var twice := StatusUpdate(once.db, id, st, true, h2);
      twice.outcome == once.outcome && twice.db.presentations == once.db.presentations &&
      |twice.db.log| == |once.db.log| + (if once.outcome == Ok then 1 else 0)
  {
  }

  /** After a delete, a status change of the deleted id finds nothing and
      sends no notification. */
  lemma StatusUpdateAfterDelete(db: Db, id: string, st: BookingStatus, writeOk: bool, webhookOk: bool)
    ensures var gone := DeletePresentation(db, Some(id), true);
      StatusUpdate(gone.db, id, st, writeOk, webhookOk) == Step(gone.db, NotFound)
  {
  }

  /** createdAt of a stored booking never changes: no dashboard operation
      rewrites it. */
  ghost predicate CreatedAtKept(db: Db, db': Db)
  {
    forall k :: k in db.presentations && k in db'.presentations ==>
      db'.presentations[k].createdAt == db.presentations[k].createdAt
  }

  lemma CreatedAtImmutable(db: Db, id: string, st: BookingStatus, selected: Option<Listed<Presentation>>,
                           form: EditForm, date: Option<int>, newId: string, now: int, writeOk: bool, webhookOk: bool)
    requires newId !in db.presentations
    ensures CreatedAtKept(db, StatusUpdate(db, id, st, writeOk, webhookOk).db)
    ensures CreatedAtKept(db, UpdatePresentation(db, selected, form, date, writeOk, webhookOk).db)
    ensures CreatedAtKept(db, CreatePresentation(db, form, date, newId, now, writeOk, webhookOk).db)
    ensures CreatedAtKept(db, DeletePresentation(db, Some(id), writeOk).db)
  {
  }

  // ---------------------------------------------------------------------
  // The handlers: the remote calls in the order the dashboard makes them

  /** handleStatusUpdate: getDoc, updateDoc of the status, then the webhook. */
  method HandleStatusUpdate(store: Store, id: string, st: BookingStatus, writeOk: bool, webhookOk: bool)
    returns (r: Outcome)
    modifies store
    ensures Step(store.State(), r) == StatusUpdate(old(store.State()), id, st, writeOk, webhookOk)
  {
    var found := store.GetPresentation(id);
    if found.None? {
      return NotFound;
    }
    var data := found.value.(status := st);
    var written := store.UpdatePresentationStatus(id, st, writeOk);
    if !written {
      return StoreWriteError;
    }
    store.Notify(Some(BookingStatusTitle(st)), BookingPayload(Some(id), data), webhookOk);
    r := Ok;
  }

  /** handleEnlistmentStatusUpdate: updateDoc of the status, then the webhook
      when the id is in the local list. */
  method HandleEnlistmentStatusUpdate(store: Store, id: string, st: EnlistmentStatus, local: seq<Listed<Enlistment>>,
                                      now: int, writeOk: bool, webhookOk: bool) returns (r: Outcome)
    modifies store
    ensures Step(store.State(), r) == EnlistmentStatusUpdate(old(store.State()), id, st, local, now, writeOk, webhookOk)
  {
    r := store.UpdateEnlistmentStatus(id, st, writeOk);
    if r != Ok {
      return;
    }
    var row := FindListed(local, id);
    if row.Some? {
      store.Notify(Some(EnlistmentStatusTitle(st)), EnlistmentPayload(row.value.record, st, now), webhookOk);
    }
  }

  /** handleUpdatePresentation: the guard, getDoc, updateDoc of five fields,
      then the webhook. */
  method HandleUpdatePresentation(store: Store, selected: Option<Listed<Presentation>>, form: EditForm,
                                  date: Option<int>, writeOk: bool, webhookOk: bool) returns (r: Outcome)
    modifies store
    ensures Step(store.State(), r) == UpdatePresentation(old(store.State()), selected, form, date, writeOk, webhookOk)
  {
    if selected.None? || date.None? {
      return ValidationError;
    }
    var id := selected.value.id;
    var found := store.GetPresentation(id);
    if found.None? {
      return NotFound;
    }
    var written := store.UpdatePresentationFields(id, form.city, date.value, form.time, form.description,
                                                  form.status, writeOk);
    if !written {
      return StoreWriteError;
    }
    var shown := selected.value.record.(city := form.city, date := date.value, time := form.time,
                                         description := form.description, status := form.status);
    store.Notify(Some(EditTitle), BookingPayload(Some(id), shown), webhookOk);
    r := Ok;
  }

  /** handleCreatePresentation: the guard, addDoc, then the webhook. */
  method HandleCreatePresentation(store: Store, form: EditForm, date: Option<int>, newId: string, now: int,
                                  writeOk: bool, webhookOk: bool) returns (r: Outcome)
    requires newId !in store.presentations
    modifies store
    ensures Step(store.State(), r) == CreatePresentation(old(store.State()), form, date, newId, now, writeOk, webhookOk)
  {
    if form.city == "" || date.None? || form.time == "" || form.description == "" {
      return ValidationError;
    }
    var p := Presentation(form.city, AdminEmail, date.value, form.time, form.description, AdminDiscordId, form.status, now);
    var written := store.AddPresentation(newId, p, writeOk);
    if !written {
      return StoreWriteError;
    }
    store.Notify(Some(CreateTitle), BookingPayload(Some(newId), p), webhookOk);
    r := Ok;
  }

  /** handleDeletePresentation: deleteDoc of the selected id; no notification. */
  method HandleDeletePresentation(store: Store, selected: Option<string>, writeOk: bool) returns (r: Outcome)
    modifies store
    ensures Step(store.State(), r) == DeletePresentation(old(store.State()), selected, writeOk)
  {
    if selected.None? {
      return NoSelection;
    }
    var deleted := store.DeletePresentation(selected.value, writeOk);
    r := if deleted then Ok else StoreWriteError;
  }

  /** handleDeleteEnlistment: deleteDoc of the selected id; no notification. */
  method HandleDeleteEnlistment(store: Store, selected: Option<string>, writeOk: bool) returns (r: Outcome)
    modifies store
    ensures Step(store.State(), r) == DeleteEnlistment(old(store.State()), selected, writeOk)
  {
    if selected.None? {
      return NoSelection;
    }
    var deleted := store.DeleteEnlistment(selected.value, writeOk);
    r := if deleted then Ok else StoreWriteError;
  }
}
