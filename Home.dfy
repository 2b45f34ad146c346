/** The public home page: the booking form, the list of upcoming shows and
    the pilot roster. */
module Home {
  import opened Records
  import opened Sorting
  import BookingForm

  /** The home page's form handler; its webhook call carries no title. */
  method OnSubmit(store: Store, f: BookingForm.SubmissionForm, isEmail: string -> bool, date: Option<int>,
                  newId: string, now: int, writeOk: bool, webhookOk: bool) returns (r: Outcome)
    requires newId !in store.presentations
    modifies store
    ensures Step(store.State(), r) ==
            BookingForm.Submission(old(store.State()), f, isEmail, date, newId, now, None, writeOk, webhookOk)
  {
    r := BookingForm.Submit(store, f, isEmail, date, newId, now, None, writeOk, webhookOk);
  }

  // ---------------------------------------------------------------------
  // Upcoming shows

  /** An approved booking dated today or later (`today` is a day number). */
  predicate IsUpcoming(p: Listed<Presentation>, today: int)
  {
    p.record.status == BookingStatus.Approved && p.record.date >= today
  }

  function DateOf(p: Listed<Presentation>): int
  {
    p.record.date
  }

  /** The snapshot's upcoming entries, each as often as it occurs, in the
      snapshot's order. */
  function KeepUpcoming(snapshot: seq<Listed<Presentation>>, today: int): (r: seq<Listed<Presentation>>)
    ensures forall i :: 0 <= i < |r| ==> IsUpcoming(r[i], today)
    ensures forall x :: multiset(r)[x] == if IsUpcoming(x, today) then multiset(snapshot)[x] else 0
    decreases |snapshot|
  {
    if snapshot == [] then []
    else
      var rest := KeepUpcoming(snapshot[1..], today);
      assert snapshot == [snapshot[0]] + snapshot[1..];
      if IsUpcoming(snapshot[0], today) then [snapshot[0]] + rest else rest
  }

  /** What the page shows under "upcoming": the approved bookings dated
      today or later, earliest first. */
  function Upcoming(snapshot: seq<Listed<Presentation>>, today: int): (r: seq<Listed<Presentation>>)
    ensures forall i :: 0 <= i < |r| ==> r[i].record.status == BookingStatus.Approved && r[i].record.date >= today
    ensures forall x :: x in r <==> x in snapshot && IsUpcoming(x, today)
    ensures forall i, j :: 0 <= i < j < |r| ==> r[i].record.date <= r[j].record.date
    ensures multiset(r) == multiset(KeepUpcoming(snapshot, today))
  {
    var kept := KeepUpcoming(snapshot, today);
    var r := SortBy(kept, DateOf);
    SortByPermutes(kept, DateOf);
    SortBySorted(kept, DateOf);
    assert forall x :: x in r <==> x in multiset(kept);
    assert forall i :: 0 <= i < |r| ==> r[i] in multiset(kept);
    r
  }

  // ---------------------------------------------------------------------
  // Pilot roster

  datatype Pilot = Pilot(id: string, name: string, position: string, photoUrl: string, order: int, createdAt: int)

  predicate IsDigit(c: char)
  {
    '0' <= c <= '9'
  }

  /** The value of a string of decimal digits. */
  function DecimalValue(s: string): (n: nat)
    requires forall i :: 0 <= i < |s| ==> IsDigit(s[i])
    decreases |s|
  {
    if s == [] then 0
    else
      assert IsDigit(s[|s| - 1]);
      DecimalValue(s[..|s| - 1]) * 10 + (s[|s| - 1] as int - '0' as int)
  }

  /** Number(position) for a decimal numeral (the empty string is 0); any
      other string is ranked 0 as well. */
  function PositionNumber(position: string): nat
  {
    if forall i :: 0 <= i < |position| ==> IsDigit(position[i]) then DecimalValue(position) else 0
  }

  /** The decimal numeral of `n`, without leading zeros. */
  function Numeral(n: nat): (s: string)
    ensures |s| >= 1 && forall i :: 0 <= i < |s| ==> IsDigit(s[i])
    decreases n
  {
    var digit := [((n % 10) + '0' as int) as char];
    if n < 10 then digit else Numeral(n / 10) + digit
  }

  /** A position written as the numeral of `n` is ranked `n`: the rank is the
      number the position denotes. */
  lemma {:induction false} NumeralValue(n: nat)
    ensures PositionNumber(Numeral(n)) == n
    decreases n
  {
    var s := Numeral(n);
    if n >= 10 {
      NumeralValue(n / 10);
      assert s[..|s| - 1] == Numeral(n / 10);
      assert s[|s| - 1] as int - '0' as int == n % 10;
      assert DecimalValue(s) == DecimalValue(Numeral(n / 10)) * 10 + n % 10;
    }
  }

  /** Leading zeros do not change a numeral's value (Number("07") is 7). */
  lemma {:induction false} LeadingZeroValue(s: string)
    requires forall i :: 0 <= i < |s| ==> IsDigit(s[i])
    ensures DecimalValue("0" + s) == DecimalValue(s)
    decreases |s|
  {
    if s != [] {
      var t := "0" + s;
      assert t[..|t| - 1] == "0" + s[..|s| - 1];
      LeadingZeroValue(s[..|s| - 1]);
    }
  }

  lemma LeadingZeroRank(position: string)
    requires forall i :: 0 <= i < |position| ==> IsDigit(position[i])
    ensures PositionNumber("0" + position) == PositionNumber(position)
  {
    LeadingZeroValue(position);
  }

  function PositionRank(p: Pilot): int
  {
    PositionNumber(p.position)
  }

  /** The roster in ascending numeric position. */
  function SortPilots(pilots: seq<Pilot>): (r: seq<Pilot>)
    ensures multiset(r) == multiset(pilots)
    ensures forall i, j :: 0 <= i < j < |r| ==> PositionNumber(r[i].position) <= PositionNumber(r[j].position)
  {
    SortByPermutes(pilots, PositionRank);
    SortBySorted(pilots, PositionRank);
    SortBy(pilots, PositionRank)
  }

  /** The label shown under a pilot: the fixed name of one of the seven
      positions, or the position itself. */
  function PositionLabel(position: string): (r: string)
    ensures position <= r
    ensures r != position <==> position in {"1", "2", "3", "4", "5", "6", "7"}
  {
    match position
    case "1" => "1 - Líder"
    case "2" => "2 - Ala Direito"
    case "3" => "3 - Ala Esquerdo"
    case "4" => "4 - Ferrolho"
    case "5" => "5 - Ala Esquerdo Externo"
    case "6" => "6 - Ala Direito Externo"
    case "7" => "7 - Isolado"
    case _ => position
  }

  /** The seven positions are numbered 1 to 7 and sort in that order. */
  lemma PositionNumbersOfLabels(position: string)
    requires position in {"1", "2", "3", "4", "5", "6", "7"}
    ensures 1 <= PositionNumber(position) <= 7
    ensures PositionNumber(position) == (position[0] as int - '0' as int)
  {
  }
}
