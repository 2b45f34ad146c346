/** The records of the two request collections ("presentations" for booking
    requests, "alistamentos" for recruitment applications), the notification
    payload, and the remote document store together with the notifier's log. */
module Records {

  datatype Option<+T> = None | Some(value: T)

  /** How one workflow operation ends, as reported to the operator. */
  datatype Outcome =
    | Ok
    | NotFound          // the id does not resolve to a stored record
    | ValidationError   // a required field is missing, caught before any store call
    | StoreWriteError   // the remote write was rejected
    | NoSelection       // no record selected: the handler returns without doing anything

  /** The five booking statuses of a presentation. */
  datatype BookingStatus = Pending | Approved | Rejected | Rescheduled | Canceled

  /** The four statuses of an enlistment. */
  datatype EnlistmentStatus = Pending | InProgress | Approved | Rejected

  /** The string a booking status is stored as. */
  function BookingCode(st: BookingStatus): string
  {
    match st
    case Pending => "pending"
    case Approved => "approved"
    case Rejected => "rejected"
    case Rescheduled => "rescheduled"
    case Canceled => "canceled"
  }

  function ParseBookingStatus(s: string): (r: Option<BookingStatus>)
    ensures r.Some? ==> BookingCode(r.value) == s
  {
    if s == "pending" then Some(BookingStatus.Pending)
    else if s == "approved" then Some(BookingStatus.Approved)
    else if s == "rejected" then Some(BookingStatus.Rejected)
    else if s == "rescheduled" then Some(Rescheduled)
    else if s == "canceled" then Some(Canceled)
    else None
  }

  /** The string an enlistment status is stored as. */
  function EnlistmentCode(st: EnlistmentStatus): string
  {
    match st
    case Pending => "pending"
    case InProgress => "in_progress"
    case Approved => "approved"
    case Rejected => "rejected"
  }

  function ParseEnlistmentStatus(s: string): (r: Option<EnlistmentStatus>)
    ensures r.Some? ==> EnlistmentCode(r.value) == s
  {
    if s == "pending" then Some(EnlistmentStatus.Pending)
    else if s == "in_progress" then Some(InProgress)
    else if s == "approved" then Some(EnlistmentStatus.Approved)
    else if s == "rejected" then Some(EnlistmentStatus.Rejected)
    else None
  }

  /** Every status is stored as a distinct string that reads back as itself. */
  lemma BookingCodeRoundTrip(st: BookingStatus)
    ensures ParseBookingStatus(BookingCode(st)) == Some(st)
  {
  }

  lemma EnlistmentCodeRoundTrip(st: EnlistmentStatus)
    ensures ParseEnlistmentStatus(EnlistmentCode(st)) == Some(st)
  {
  }

  /** A booking request; its id is the key it is stored under. Dates are day
      numbers, createdAt is a clock reading. */
  datatype Presentation = Presentation(
    city: string,
    email: string,
    date: int,
    time: string,
    description: string,
    discordId: string,
    status: BookingStatus,
    createdAt: int)

  /** A recruitment application (stored fields nome, sobrenome, email,
      discordNick, motivoEntrada, conhecimentoAviao, idade, vooFivem,
      conheceEsquadrilha, turno, userIP, status, createdAt). */
  datatype Enlistment = Enlistment(
    firstName: string,
    lastName: string,
    email: string,
    discordNick: string,
    motivation: string,
    aviationKnowledge: string,
    age: string,
    simFlightExperience: string,
    knowsSquadron: string,
    shifts: seq<string>,
    userIp: string,
    status: EnlistmentStatus,
    createdAt: int)

  /** A record as a page holds it in its local list: the record and its id. */
  datatype Listed<T> = Listed(id: string, record: T)

  /** The booking-shaped object handed to the chat webhook. The status is the
      stored string of either record type's status. */
  datatype Payload = Payload(
    id: Option<string>,
    city: string,
    email: string,
    date: int,
    time: string,
    description: string,
    discordId: string,
    status: string,
    createdAt: int)

  /** One webhook call: its title (None when the caller passes none), its
      payload, and whether the remote call succeeded. */
  datatype Notification = Notification(title: Option<string>, payload: Payload, delivered: bool)

  /** The payload that carries a whole booking record. */
  function BookingPayload(id: Option<string>, p: Presentation): Payload
  {
    Payload(id, p.city, p.email, p.date, p.time, p.description, p.discordId, BookingCode(p.status), p.createdAt)
  }

  /** Reads a booking record back out of a payload. */
  function PayloadRecord(pl: Payload): Option<Presentation>
  {
    match ParseBookingStatus(pl.status)
    case None => None
    case Some(st) => Some(Presentation(pl.city, pl.email, pl.date, pl.time, pl.description, pl.discordId, st, pl.createdAt))
  }

  /** A booking payload carries the record exactly, and its id. */
  lemma BookingPayloadRoundTrip(id: Option<string>, p: Presentation)
    ensures PayloadRecord(BookingPayload(id, p)) == Some(p)
    ensures BookingPayload(id, p).id == id
  {
  }

  /** Everything the workflow can observe: both collections and the log of
      webhook calls made so far. */
  datatype Db = Db(
    presentations: map<string, Presentation>,
    enlistments: map<string, Enlistment>,
    log: seq<Notification>)

  /** The state after one operation and how the operation ended. */
  datatype Step = Step(db: Db, outcome: Outcome)

  /** The remote document store with the notifier's log. Each method is one
      remote call; `writeOk` and `webhookOk` say whether the remote side
      accepts it. */
  class Store {
    var presentations: map<string, Presentation>
    var enlistments: map<string, Enlistment>
    var log: seq<Notification>

    function State(): Db
      reads this
    {
      Db(presentations, enlistments, log)
    }

    constructor (ps: map<string, Presentation>, es: map<string, Enlistment>)
      ensures State() == Db(ps, es, [])
    {
      presentations := ps;
      enlistments := es;
      log := [];
    }

    /** getDoc on the presentations collection. */
    method GetPresentation(id: string) returns (r: Option<Presentation>)
      ensures r.Some? <==> id in presentations
      ensures r.Some? ==> r.value == presentations[id]
    {
      if id in presentations {
        r := Some(presentations[id]);
      } else {
        r := None;
      }
    }

    /** updateDoc of a presentation's status alone; like every updateDoc it
        fails when the document does not exist or the write is rejected. */
    method UpdatePresentationStatus(id: string, st: BookingStatus, writeOk: bool) returns (ok: bool)
      modifies this
      ensures ok <==> id in old(presentations) && writeOk
      ensures presentations == if ok then old(presentations)[id := old(presentations)[id].(status := st)] else old(presentations)
      ensures enlistments == old(enlistments) && log == old(log)
    {
      ok := id in presentations && writeOk;
      if ok {
        presentations := presentations[id := presentations[id].(status := st)];
      }
    }

    /** updateDoc of a presentation's city, date, time, description and
        status; the other stored fields stay as they are. */
    method UpdatePresentationFields(id: string, city: string, date: int, time: string, description: string,
                                    st: BookingStatus, writeOk: bool) returns (ok: bool)
      modifies this
      ensures ok <==> id in old(presentations) && writeOk
      ensures presentations == if ok then old(presentations)[id := old(presentations)[id].(city := city, date := date, time := time, description := description, status := st)] else old(presentations)
      ensures enlistments == old(enlistments) && log == old(log)
    {
      ok := id in presentations && writeOk;
      if ok {
        presentations := presentations[id := presentations[id].(city := city, date := date, time := time, description := description, status := st)];
      }
    }

    /** updateDoc of an enlistment's status; Firestore rejects an update of
        a document that does not exist. */
    method UpdateEnlistmentStatus(id: string, st: EnlistmentStatus, writeOk: bool) returns (r: Outcome)
      modifies this
      ensures r == (if id !in old(enlistments) then NotFound else if !writeOk then StoreWriteError else Ok)
      ensures enlistments == if r == Ok then old(enlistments)[id := old(enlistments)[id].(status := st)] else old(enlistments)
      ensures presentations == old(presentations) && log == old(log)
    {
      if id !in enlistments {
        r := NotFound;
      } else if !writeOk {
        r := StoreWriteError;
      } else {
        enlistments := enlistments[id := enlistments[id].(status := st)];
        r := Ok;
      }
    }

    /** addDoc: stores `p` under the id the store generates. */
    method AddPresentation(newId: string, p: Presentation, writeOk: bool) returns (ok: bool)
      requires newId !in presentations
      modifies this
      ensures ok == writeOk
      ensures presentations == if ok then old(presentations)[newId := p] else old(presentations)
      ensures enlistments == old(enlistments) && log == old(log)
    {
      ok := writeOk;
      if ok {
        presentations := presentations[newId := p];
      }
    }

    /** deleteDoc on the presentations collection; deleting an id that is
        not stored succeeds and changes nothing. */
    method DeletePresentation(id: string, writeOk: bool) returns (ok: bool)
      modifies this
      ensures ok == writeOk
      ensures presentations == if ok then old(presentations) - {id} else old(presentations)
      ensures enlistments == old(enlistments) && log == old(log)
    {
      ok := writeOk;
      if ok {
        presentations := presentations - {id};
      }
    }

    /** deleteDoc on the enlistments collection. */
    method DeleteEnlistment(id: string, writeOk: bool) returns (ok: bool)
      modifies this
      ensures ok == writeOk
      ensures enlistments == if ok then old(enlistments) - {id} else old(enlistments)
      ensures presentations == old(presentations) && log == old(log)
    {
      ok := writeOk;
      if ok {
        enlistments := enlistments - {id};
      }
    }

    /** One call of the chat webhook. It never fails past its own boundary:
        the call is logged with whether it was delivered. */
    method Notify(title: Option<string>, payload: Payload, webhookOk: bool)
      modifies this
      ensures log == old(log) + [Notification(title, payload, webhookOk)]
      ensures presentations == old(presentations) && enlistments == old(enlistments)
    {
      log := log + [Notification(title, payload, webhookOk)];
    }
  }
}
