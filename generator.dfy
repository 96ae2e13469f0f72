/**
 * `SessionDataGenerator.generate_sessions`: one candidate per index
 * i in 0 .. num_sessions-1, each built from random choices, and dropped
 * (not redrawn) when its date is a Saturday or Sunday.
 *
 * The random choices are an input: one `Draw` per candidate, holding what
 * `random.choice`, `random.randint` and `np.random.choice` return for it.
 * `ValidChoices` and the `dayOffset` bound are the ranges those calls guarantee.
 */
module Generator {
  import opened Dates
  import opened Sessions

  datatype Draw = Draw(
    therapist: nat,      // index into Therapists
    dayOffset: nat,      // days after the start date
    hour: int,
    minute: int,
    sessionType: nat,    // index into SessionTypes
    status: nat,         // index into SessionStatuses
    client: int,         // client number
    note: nat)           // index into the status's notes

  /** `(end_date - start_date).days`. */
  function Span(start: Date, end: Date): int
    requires ValidDate(start) && ValidDate(end)
  {
    Ordinal(end) - Ordinal(start)
  }

  /** The ranges of the choices other than the date. */
  predicate ValidChoices(d: Draw) {
    && d.therapist < |Therapists|
    && 9 <= d.hour <= 17
    && (d.minute == 0 || d.minute == 30)
    && d.sessionType < |SessionTypes|
    && d.status < |SessionStatuses|
    && 1 <= d.client <= 200
    && d.note < |NoteChoices(SessionStatuses[d.status])|
  }

  /** The record that candidate `i` becomes when its date is a weekday. */
  function MakeSession(i: nat, date: Date, d: Draw): Session
    requires ValidChoices(d)
  {
    var t := Therapists[d.therapist];
    var sessionType := SessionTypes[d.sessionType];
    var status := SessionStatuses[d.status];
    Session(
      SessionId(i), t.id, t.name, ClientId(d.client), date,
      SessionTime(d.hour, d.minute), sessionType, Duration(sessionType),
      status, AmountCents(t.rate, sessionType, status), Note(status, d.note))
  }

  /** What candidate `i` contributes: nothing on a weekend, else its record. */
  function Emit(i: nat, start: Date, d: Draw): seq<Session>
    requires ValidDate(start) && ValidChoices(d)
  {
    var date := AddDays(start, d.dayOffset);
    if IsWeekend(date) then [] else [MakeSession(i, date, d)]
  }

  /** The records the first |draws| candidates produce, in candidate order. */
  function Generated(start: Date, draws: seq<Draw>): seq<Session>
    requires ValidDate(start)
    requires forall d :: d in draws ==> ValidChoices(d)
    decreases |draws|
  {
    if draws == [] then []
    else
      var n := |draws| - 1;
      Generated(start, draws[..n]) + Emit(n, start, draws[n])
  }

  /** The number of candidates whose date is a weekday. */
  function WeekdayCandidates(start: Date, draws: seq<Draw>): nat
    requires ValidDate(start)
  {
    if draws == [] then 0
    else
      var n := |draws| - 1;
      WeekdayCandidates(start, draws[..n])
        + (if IsWeekend(AddDays(start, draws[n].dayOffset)) then 0 else 1)
  }

  /** The generated record's number, read back from its `S####` id. */
  function IdNumber(s: Session): int {
    if IsCode(s.sessionId, 'S') then CodeNumber(s.sessionId, 'S') else 0
  }

  /**
   * The invariants every generated record satisfies: weekday date, known
   * therapist, type and status, duration fixed by type, the amount rule,
   * the `C###`, `HH:MM` and `S####` formats and a note for its status.
   */
  predicate WellFormed(s: Session) {
    && ValidDate(s.sessionDate) && !IsWeekend(s.sessionDate)
    && (exists k :: 0 <= k < |Therapists| && Therapists[k].id == s.therapistId
          && Therapists[k].name == s.therapistName
          && s.amountCents == AmountCents(Therapists[k].rate, s.sessionType, s.status))
    && s.sessionType in SessionTypes
    && s.status in SessionStatuses
    && s.durationMinutes == Duration(s.sessionType)
    && (s.amountCents == 0 <==> !IsBillable(s.status))
    && IsCode(s.sessionId, 'S')
    && IsClientId(s.clientId)
    && IsSessionTime(s.sessionTime)
    && s.notes in NoteChoices(s.status)
  }

  lemma MakeSessionWellFormed(i: nat, date: Date, d: Draw)
    requires ValidDate(date) && !IsWeekend(date) && ValidChoices(d)
    ensures WellFormed(MakeSession(i, date, d))
    ensures IdNumber(MakeSession(i, date, d)) == i + 1
  {
    var s := MakeSession(i, date, d);
    TherapistRatesPositive();
    assert Therapists[d.therapist] in Therapists;
    SessionIdFormat(i);
    ClientIdFormat(d.client);
    SessionTimeFormat(d.hour, d.minute);
    assert Therapists[d.therapist].id == s.therapistId;
  }

  lemma {:induction false} GeneratedPrefix(start: Date, draws: seq<Draw>, i: nat)
    requires ValidDate(start) && forall d :: d in draws ==> ValidChoices(d)
    requires i < |draws|
    ensures draws[..i + 1][..i] == draws[..i]
    ensures Generated(start, draws[..i + 1]) == Generated(start, draws[..i]) + Emit(i, start, draws[i])
  {
    assert draws[..i + 1][..i] == draws[..i];
  }

  /** One more candidate adds its record, unless its date is a Saturday or Sunday. */
  lemma GeneratedStep(start: Date, draws: seq<Draw>, i: nat)
    requires ValidDate(start) && forall d :: d in draws ==> ValidChoices(d)
    requires i < |draws|
    ensures draws[i] in draws
    ensures var date := AddDays(start, draws[i].dayOffset);
      Generated(start, draws[..i + 1])
      == Generated(start, draws[..i]) + (if Weekday(date) >= 5 then [] else [MakeSession(i, date, draws[i])])
  {
    GeneratedPrefix(start, draws, i);
  }

  /** Weekend candidates are dropped, not redrawn: one record per weekday candidate. */
  lemma {:induction false} GeneratedLength(start: Date, draws: seq<Draw>)
    requires ValidDate(start) && forall d :: d in draws ==> ValidChoices(d)
    ensures |Generated(start, draws)| == WeekdayCandidates(start, draws) <= |draws|
    decreases |draws|
  {
    if draws != [] {
      var n := |draws| - 1;
      assert draws[n] in draws;
      forall e | e in draws[..n] ensures ValidChoices(e) {
        assert e in draws;
      }
      GeneratedLength(start, draws[..n]);
    }
  }

  /** Every record lies on a weekday inside [start, end] and keeps the record invariants. */
  lemma {:induction false} GeneratedRecords(start: Date, end: Date, draws: seq<Draw>)
    requires ValidDate(start) && ValidDate(end) && Ordinal(start) <= Ordinal(end)
    requires forall d :: d in draws ==> ValidChoices(d) && d.dayOffset <= Span(start, end)
    ensures forall s :: s in Generated(start, draws) ==>
      (WellFormed(s) && DateLessEq(start, s.sessionDate) && DateLessEq(s.sessionDate, end))
    decreases |draws|
  {
    if draws != [] {
      var n := |draws| - 1;
      var d := draws[n];
      assert d in draws;
      forall e | e in draws[..n] ensures ValidChoices(e) && e.dayOffset <= Span(start, end) {
        assert e in draws;
      }
      GeneratedRecords(start, end, draws[..n]);
      var date := AddDays(start, d.dayOffset);
      if !IsWeekend(date) {
        MakeSessionWellFormed(n, date, d);
        OrdinalOrder(start, date);
        OrdinalOrder(date, end);
      }
    }
  }

  lemma EmitIdNumber(i: nat, start: Date, d: Draw)
    requires ValidDate(start) && ValidChoices(d)
    ensures |Emit(i, start, d)| <= 1
    ensures forall s :: s in Emit(i, start, d) ==> IdNumber(s) == i + 1
  {
    SessionIdFormat(i);
  }

  /** Ids of `out` lie in 1 .. bound and rise strictly. */
  predicate IdsRising(out: seq<Session>, bound: int) {
    && (forall p :: 0 <= p < |out| ==> 1 <= IdNumber(out[p]) <= bound)
    && (forall p, q :: 0 <= p < q < |out| ==> IdNumber(out[p]) < IdNumber(out[q]))
  }

  lemma AppendRisingId(prev: seq<Session>, last: seq<Session>, n: nat)
    requires IdsRising(prev, n)
    requires |last| <= 1 && forall s :: s in last ==> IdNumber(s) == n + 1
    ensures IdsRising(prev + last, n + 1)
  {
    var out := prev + last;
    forall p | 0 <= p < |out| ensures 1 <= IdNumber(out[p]) <= n + 1 {
      if p >= |prev| {
        assert out[p] in last;
      }
    }
    forall p, q | 0 <= p < q < |out| ensures IdNumber(out[p]) < IdNumber(out[q]) {
      if q >= |prev| {
        assert out[q] in last;
      }
    }
  }

  /** Id numbers rise strictly in output order and stay within 1 .. |draws|. */
  lemma {:induction false} GeneratedIdsIncrease(start: Date, draws: seq<Draw>)
    requires ValidDate(start) && forall d :: d in draws ==> ValidChoices(d)
    ensures IdsRising(Generated(start, draws), |draws|)
    decreases |draws|
  {
    if draws != [] {
      var n := |draws| - 1;
      assert draws[n] in draws;
      forall e | e in draws[..n] ensures ValidChoices(e) {
        assert e in draws;
      }
      GeneratedIdsIncrease(start, draws[..n]);
      EmitIdNumber(n, start, draws[n]);
      AppendRisingId(Generated(start, draws[..n]), Emit(n, start, draws[n]), n);
    }
  }

  /** Distinct records carry distinct ids. */
  lemma GeneratedIdsUnique(start: Date, draws: seq<Draw>)
    requires ValidDate(start) && forall d :: d in draws ==> ValidChoices(d)
    ensures var out := Generated(start, draws);
      forall p, q :: 0 <= p < q < |out| ==> out[p].sessionId != out[q].sessionId
  {
    GeneratedIdsIncrease(start, draws);
  }

  /**
   * `generate_sessions(num_sessions, start_date, end_date)` with the random
   * choices supplied as `draws`, one per candidate. With no candidates the
   * date range is never read, so it may be empty.
   */
  method GenerateSessions(numSessions: nat, start: Date, end: Date, draws: seq<Draw>)
    returns (sessions: seq<Session>)
    requires ValidDate(start) && ValidDate(end)
    requires numSessions > 0 ==> DateLessEq(start, end)
    requires |draws| == numSessions
    requires forall d :: d in draws ==> ValidChoices(d) && d.dayOffset <= Span(start, end)
    ensures sessions == Generated(start, draws)
    ensures |sessions| <= numSessions
    ensures forall s :: s in sessions ==>
      (WellFormed(s) && DateLessEq(start, s.sessionDate) && DateLessEq(s.sessionDate, end))
    ensures forall p, q :: 0 <= p < q < |sessions| ==> IdNumber(sessions[p]) < IdNumber(sessions[q])
  {
    sessions := [];
    for i := 0 to numSessions
      invariant sessions == Generated(start, draws[..i])
    {
      GeneratedStep(start, draws, i);
      var d := draws[i];
      var therapist := Therapists[d.therapist];
      var date := AddDays(start, d.dayOffset);
      if Weekday(date) >= 5 {
        continue;
      }
      var sessionType := SessionTypes[d.sessionType];
      var status := SessionStatuses[d.status];
      var duration := Duration(sessionType);
      var amount := AmountCents(therapist.rate, sessionType, status);
      var session := Session(
        SessionId(i), therapist.id, therapist.name, ClientId(d.client), date,
        SessionTime(d.hour, d.minute), sessionType, duration,
        status, amount, Note(status, d.note));
      sessions := sessions + [session];
    }
    assert draws[..numSessions] == draws;
    GeneratedLength(start, draws);
    if numSessions > 0 {
      OrdinalOrder(start, end);
      GeneratedRecords(start, end, draws);
    }
    GeneratedIdsIncrease(start, draws);
  }
}
