/**
 * The session record and the generator's fixed reference tables, with the
 * deterministic rules that derive a record's fields: duration from the
 * session type, the billed amount from the therapist's rate, the type and
 * the status, the note from a per-status table, and the text of the
 * `S####`, `C###` and `HH:MM` fields.
 *
 * Money is held in integer cents. Rates are whole dollars, so the source's
 * `rate * 1.2` and `rate * 0.6` are exactly `rate * 120` and `rate * 60`
 * cents.
 */
module Sessions {
  import opened Dates
  import opened Text

  /** A therapist profile; `rate` is the session fee in whole dollars. */
  datatype Therapist = Therapist(id: string, name: string, rate: nat)

  const Therapists: seq<Therapist> := [
    Therapist("T001", "Dr. Sarah Johnson", 150),
    Therapist("T002", "Dr. Michael Chen", 175),
    Therapist("T003", "Dr. Emily Rodriguez", 160),
    Therapist("T004", "Dr. David Thompson", 180),
    Therapist("T005", "Dr. Lisa Anderson", 155),
    Therapist("T006", "Dr. James Wilson", 170)
  ]

  const IndividualTherapy: string := "Individual Therapy"
  const CouplesTherapy: string := "Couples Therapy"
  const FamilyTherapy: string := "Family Therapy"
  const GroupTherapy: string := "Group Therapy"
  const InitialConsultation: string := "Initial Consultation"

  const SessionTypes: seq<string> :=
    [IndividualTherapy, CouplesTherapy, FamilyTherapy, GroupTherapy, InitialConsultation]

  const Completed: string := "Completed"
  const Cancelled: string := "Cancelled"
  const NoShow: string := "No-Show"
  const Rescheduled: string := "Rescheduled"

  const SessionStatuses: seq<string> := [Completed, Cancelled, NoShow, Rescheduled]

  /**
   * One session row. Session types and statuses are kept as text, as in
   * the data file, so rows edited by hand may carry other values.
   */
  datatype Session = Session(
    sessionId: string,
    therapistId: string,
    therapistName: string,
    clientId: string,
    sessionDate: Date,
    sessionTime: string,
    sessionType: string,
    durationMinutes: int,
    status: string,
    amountCents: int,
    notes: string)

  /** Every therapist in the table charges a positive rate. */
  lemma TherapistRatesPositive()
    ensures |Therapists| == 6
    ensures forall t :: t in Therapists ==> t.rate > 0
  {
  }

  /** Session length in minutes: it depends on the session type alone. */
  function Duration(sessionType: string): (minutes: int)
    ensures minutes == 90 <==> sessionType == InitialConsultation
    ensures minutes == 60 <==> sessionType == CouplesTherapy || sessionType == FamilyTherapy
    ensures minutes == 50 || minutes == 60 || minutes == 90
  {
    if sessionType == InitialConsultation then 90
    else if sessionType == CouplesTherapy || sessionType == FamilyTherapy then 60
    else 50
  }

  /** The type-adjusted fee in cents: 120% for an initial consultation, 60% for group therapy. */
  function BaseAmountCents(rate: nat, sessionType: string): nat {
    if sessionType == InitialConsultation then rate * 120
    else if sessionType == GroupTherapy then rate * 60
    else rate * 100
  }

  /** Cancelled and no-show sessions are not billed. */
  predicate IsBillable(status: string) {
    status != Cancelled && status != NoShow
  }

  /** The amount billed for a session, in cents. */
  function AmountCents(rate: nat, sessionType: string, status: string): (cents: nat)
    ensures !IsBillable(status) ==> cents == 0
    ensures IsBillable(status) ==> cents == BaseAmountCents(rate, sessionType)
    ensures cents > 0 <==> IsBillable(status) && rate > 0
  {
    var amount := BaseAmountCents(rate, sessionType);
    if status == Cancelled || status == NoShow then 0 else amount
  }

  const NoteTemplates: map<string, seq<string>> := map[
    Completed := [
      "Session completed successfully",
      "Good progress noted",
      "Client engaged throughout session",
      "Homework assigned for next week",
      "Regular session, no concerns"],
    Cancelled := [
      "Client cancelled 24 hours in advance",
      "Cancelled due to illness",
      "Emergency cancellation",
      "Cancelled - family emergency",
      "Client requested reschedule"],
    NoShow := [
      "Client did not attend",
      "No advance notice given",
      "Third no-show this month",
      "Client not reachable",
      "Missed appointment"],
    Rescheduled := [
      "Rescheduled to next week",
      "Moved to different time slot",
      "Client requested different day",
      "Therapist availability conflict",
      "Mutual agreement to reschedule"]
  ]

  const FallbackNote: string := "Standard session"

  /** The notes a status may receive; a status outside the table gets the generic one only. */
  function NoteChoices(status: string): (notes: seq<string>)
    ensures status in SessionStatuses ==> |notes| == 5
    ensures status !in SessionStatuses ==> notes == [FallbackNote]
  {
    if status in NoteTemplates then NoteTemplates[status] else [FallbackNote]
  }

  /** The note picked by the random choice `pick` among the status's notes. */
  function Note(status: string, pick: nat): (note: string)
    requires pick < |NoteChoices(status)|
    ensures note in NoteChoices(status)
  {
    NoteChoices(status)[pick]
  }

  /** `f"S{i+1:04d}"` for candidate index i. */
  function SessionId(i: nat): string {
    "S" + ZeroPad(i + 1, 4)
  }

  /** `f"C{n:03d}"`. */
  function ClientId(n: nat): string {
    "C" + ZeroPad(n, 3)
  }

  /** `strftime("%H:%M")` of a time on the given hour and minute. */
  function SessionTime(hour: nat, minute: nat): string {
    ZeroPad(hour, 2) + ":" + ZeroPad(minute, 2)
  }

  /** A one-letter prefix followed by decimal digits. */
  predicate IsCode(s: string, prefix: char) {
    |s| >= 2 && s[0] == prefix && AllDigits(s[1..])
  }

  /** The number a code encodes. */
  function CodeNumber(s: string, prefix: char): nat
    requires IsCode(s, prefix)
  {
    ParseDigits(s[1..])
  }

  /** Ids read back as i+1, take 5 characters while i+1 < 10000, and differ for different candidates. */
  lemma SessionIdFormat(i: nat)
    ensures IsCode(SessionId(i), 'S') && CodeNumber(SessionId(i), 'S') == i + 1
    ensures i + 1 < 10000 ==> |SessionId(i)| == 5
  {
    assert SessionId(i)[1..] == ZeroPad(i + 1, 4);
    ZeroPadRoundTrip(i + 1, 4);
    if i + 1 < 10000 {
      ZeroPadWidth(i + 1, 4);
    }
  }

  /** A client id: 'C' and three digits encoding 1..200. */
  predicate IsClientId(c: string) {
    |c| == 4 && IsCode(c, 'C') && 1 <= CodeNumber(c, 'C') <= 200
  }

  lemma ClientIdFormat(n: nat)
    requires 1 <= n <= 200
    ensures IsClientId(ClientId(n)) && CodeNumber(ClientId(n), 'C') == n
  {
    assert ClientId(n)[1..] == ZeroPad(n, 3);
    ZeroPadRoundTrip(n, 3);
    ZeroPadWidth(n, 3);
  }

  /** "HH:MM" on the hour or half-hour, from 09:00 to 17:30. */
  predicate IsSessionTime(t: string) {
    && |t| == 5 && t[2] == ':' && AllDigits(t[..2]) && AllDigits(t[3..])
    && 9 <= ParseDigits(t[..2]) <= 17
    && (ParseDigits(t[3..]) == 0 || ParseDigits(t[3..]) == 30)
  }

  lemma SessionTimeFormat(hour: nat, minute: nat)
    requires 9 <= hour <= 17 && (minute == 0 || minute == 30)
    ensures IsSessionTime(SessionTime(hour, minute))
    ensures ParseDigits(SessionTime(hour, minute)[..2]) == hour
    ensures ParseDigits(SessionTime(hour, minute)[3..]) == minute
  {
    var h, m := ZeroPad(hour, 2), ZeroPad(minute, 2);
    ZeroPadWidth(hour, 2);
    ZeroPadWidth(minute, 2);
    ZeroPadRoundTrip(hour, 2);
    ZeroPadRoundTrip(minute, 2);
    var t := SessionTime(hour, minute);
    assert t[..2] == h;
    assert t[3..] == m;
  }
}
