/**
 The append-only attempt ledger of the read-only network executor: what a lawful ledger is, and the
 one-pass validator that decides it.
 */
module NetworkLedger {
  import opened Wrappers
  import opened JsonValue
  import opened LedgerRecord

  datatype LedgerError = LedgerCorrupt

  // ---------------------------------------------------------------- lawful ledgers

  predicate SameAttempt(a: Event, b: Event) {
    a.session == b.session && a.attempt == b.attempt
  }

  /** `c` completes the reservation `p`. */
  predicate Completes(c: Event, p: Event) {
    c.Completed? && p.Pending? && SameAttempt(p, c) && p.asOf == c.asOf && SameVerdict(p.verdict, c.verdict)
  }

  ghost predicate ReservedOnce(es: seq<Event>) {
    forall i, j :: 0 <= i < j < |es| && es[i].Pending? && es[j].Pending? ==> !SameAttempt(es[i], es[j])
  }

  ghost predicate CompletedOnce(es: seq<Event>) {
    forall i, j :: 0 <= i < j < |es| && es[i].Completed? && es[j].Completed? ==> !SameAttempt(es[i], es[j])
  }

  ghost predicate CompletionsReserved(es: seq<Event>) {
    forall j :: 0 <= j < |es| && es[j].Completed? ==> exists i :: 0 <= i < j && Completes(es[j], es[i])
  }

  /** The attempt numbers reserved for `session`. */
  function Attempts(es: seq<Event>, session: string): set<nat> {
    set e | e in es && e.Pending? && e.session == session :: e.attempt
  }

  /** `set(range(1, n + 1))` */
  function FirstNumbers(n: nat): (numbers: set<nat>)
    ensures forall k: nat :: k in numbers <==> 1 <= k <= n
  {
    if n == 0 then {} else FirstNumbers(n - 1) + {n}
  }

  ghost predicate NumberedFromOne(es: seq<Event>) {
    forall session :: Attempts(es, session) == FirstNumbers(|Attempts(es, session)|)
  }

  /** Each session's reservations are numbered 1..N without repeats, every completion matches one
      earlier reservation on session, as-of, attempt and verdict, and none is completed twice. */
  ghost predicate Lawful(es: seq<Event>) {
    ReservedOnce(es) && CompletedOnce(es) && CompletionsReserved(es) && NumberedFromOne(es)
  }

  /** What the lines of a ledger say, one by one; None stands for a corrupt line. */
  function EntriesOf(ledger: seq<Line>, decode: Line -> Option<Event>): (entries: seq<Option<Event>>)
    ensures |entries| == |ledger|
  {
    seq(|ledger|, i requires 0 <= i < |ledger| => decode(ledger[i]))
  }

  function DecodeAll(ledger: seq<Line>): (entries: seq<Option<Event>>)
    ensures |entries| == |ledger|
    ensures forall i :: 0 <= i < |ledger| ==> entries[i] == Decode(ledger[i])
  {
    EntriesOf(ledger, line => Decode(line))
  }

  ghost predicate Readable(entries: seq<Option<Event>>) {
    forall i :: 0 <= i < |entries| ==> entries[i].Some?
  }

  function Events(entries: seq<Option<Event>>): (es: seq<Event>)
    requires Readable(entries)
    ensures |es| == |entries|
    ensures forall i :: 0 <= i < |entries| ==> entries[i] == Some(es[i])
  {
    seq(|entries|, i requires 0 <= i < |entries| => entries[i].value)
  }

  ghost predicate Accepted(entries: seq<Option<Event>>) {
    Readable(entries) && Lawful(Events(entries))
  }

  // ---------------------------------------------------------------- growing a ledger by one event

  ghost predicate Ordered(es: seq<Event>) {
    ReservedOnce(es) && CompletedOnce(es) && CompletionsReserved(es)
  }

  /** The test each appended event must pass against what the ledger already holds. */
  ghost predicate Admissible(es: seq<Event>, e: Event) {
    match e
    case Pending(_, _, _, _) => forall p :: p in es && p.Pending? ==> !SameAttempt(p, e)
    case Completed(_, _, _, _, _, _) =>
      && (exists p :: p in es && Completes(e, p))
      && (forall c :: c in es && c.Completed? ==> !SameAttempt(c, e))
    case Refused(_, _, _, _) => true
  }

  lemma OrderedExtend(es: seq<Event>, e: Event)
    ensures Ordered(es + [e]) <==> Ordered(es) && Admissible(es, e)
  {
    var all := es + [e];
    assert forall i :: 0 <= i < |es| ==> all[i] == es[i];
    assert all[|es|] == e;
    if Ordered(all) {
      assert Ordered(es) by {
        forall j | 0 <= j < |es| && es[j].Completed?
          ensures exists i :: 0 <= i < j && Completes(es[j], es[i])
        {
          var i :| 0 <= i < j && Completes(all[j], all[i]);
          assert Completes(es[j], es[i]);
        }
      }
      if e.Completed? {
        var i :| 0 <= i < |es| && Completes(all[|es|], all[i]);
        assert all[i] in es && Completes(e, all[i]);
      }
    }
    if Ordered(es) && Admissible(es, e) {
      forall j | 0 <= j < |all| && all[j].Completed?
        ensures exists i :: 0 <= i < j && Completes(all[j], all[i])
      {
        if j < |es| {
          var i :| 0 <= i < j && Completes(es[j], es[i]);
          assert Completes(all[j], all[i]);
        } else {
          var p :| p in es && Completes(e, p);
          var i :| 0 <= i < |es| && es[i] == p;
          assert Completes(all[j], all[i]);
        }
      }
    }
  }

  lemma OrderedPrefix(es: seq<Event>, k: nat)
    requires k <= |es| && Ordered(es)
    ensures Ordered(es[..k])
    decreases |es| - k
  {
    if k < |es| {
      OrderedPrefix(es, k + 1);
      assert es[..k + 1] == es[..k] + [es[k]];
      OrderedExtend(es[..k], es[k]);
    } else {
      assert es[..k] == es;
    }
  }

  lemma AttemptsExtend(es: seq<Event>, e: Event, session: string)
    ensures Attempts(es + [e], session)
         == Attempts(es, session) + if e.Pending? && e.session == session then {e.attempt} else {}
  {
    var all := es + [e];
    assert forall x :: x in all <==> x in es || x == e;
    forall n: nat
      ensures n in Attempts(all, session)
         <==> n in Attempts(es, session) || (e.Pending? && e.session == session && n == e.attempt)
    {
      if n in Attempts(es, session) {
        var x :| x in es && x.Pending? && x.session == session && x.attempt == n;
        assert x in all;
      }
      if e.Pending? && e.session == session && n == e.attempt {
        assert e in all;
      }
    }
  }

  lemma {:induction false} FirstNumbersCardinality(n: nat)
    ensures |FirstNumbers(n)| == n
  {
    if n == 0 {
      assert FirstNumbers(0) == {};
    } else {
      FirstNumbersCardinality(n - 1);
      assert FirstNumbers(n) == FirstNumbers(n - 1) + {n};
    }
  }

  // ---------------------------------------------------------------- the validator

  /** `pending_reservations`: the reservations seen so far, by id. */
  ghost predicate IndexesPending(pending: map<string, Event>, es: seq<Event>) {
    && (forall e :: e in es && e.Pending? ==> Id(e) in pending && pending[Id(e)] == e)
    && (forall id :: id in pending ==> pending[id] in es && pending[id].Pending? && Id(pending[id]) == id)
  }

  ghost predicate IndexesCompleted(completed: set<string>, es: seq<Event>) {
    && (forall e :: e in es && e.Completed? ==> Id(e) in completed)
    && (forall id :: id in completed ==> exists e :: e in es && e.Completed? && Id(e) == id)
  }

  /** `reservation_attempts`: the attempt numbers reserved per session. */
  ghost predicate IndexesAttempts(attempts: map<string, set<nat>>, es: seq<Event>) {
    && (forall e :: e in es && e.Pending? ==> e.session in attempts)
    && (forall s :: s in attempts ==> attempts[s] == Attempts(es, s))
  }

  function SessionIds(numbers: set<nat>, session: string): set<string> {
    set n | n in numbers :: RunId(session, n)
  }

  lemma {:induction false} SessionIdsCardinality(numbers: set<nat>, session: string)
    ensures |SessionIds(numbers, session)| == |numbers|
  {
    if numbers != {} {
      var n :| n in numbers;
      var rest := numbers - {n};
      SessionIdsCardinality(rest, session);
      if RunId(session, n) in SessionIds(rest, session) {
        var m :| m in rest && RunId(session, m) == RunId(session, n);
        RunIdInjective(session, m, session, n);
        assert false;
      }
      assert SessionIds(numbers, session) == SessionIds(rest, session) + {RunId(session, n)};
    }
  }

  /** Looking ids up in the dictionaries decides admissibility, because ids are injective. */
  lemma LookupDecidesAdmissible(pending: map<string, Event>, completed: set<string>, es: seq<Event>, e: Event)
    requires IndexesPending(pending, es) && IndexesCompleted(completed, es)
    ensures e.Pending? ==> (Admissible(es, e) <==> Id(e) !in pending)
    ensures e.Completed? ==>
              (Admissible(es, e) <==> Id(e) in pending && Id(e) !in completed && Completes(e, pending[Id(e)]))
  {
    if e.Pending? && Id(e) in pending {
      var p := pending[Id(e)];
      RunIdInjective(p.session, p.attempt, e.session, e.attempt);
    }
    if e.Completed? && Id(e) in completed {
      var c :| c in es && c.Completed? && Id(c) == Id(e);
      RunIdInjective(c.session, c.attempt, e.session, e.attempt);
    }
  }

  lemma PendingIndexExtend(pending: map<string, Event>, es: seq<Event>, e: Event)
    requires IndexesPending(pending, es) && (e.Pending? ==> Id(e) !in pending)
    ensures IndexesPending(if e.Pending? then pending[Id(e) := e] else pending, es + [e])
  {
    assert forall x :: x in es + [e] <==> x in es || x == e;
  }

  lemma CompletedIndexExtend(completed: set<string>, es: seq<Event>, e: Event)
    requires IndexesCompleted(completed, es)
    ensures IndexesCompleted(if e.Completed? then completed + {Id(e)} else completed, es + [e])
  {
    assert forall x :: x in es + [e] <==> x in es || x == e;
  }

  lemma AttemptsIndexExtend(attempts: map<string, set<nat>>, es: seq<Event>, e: Event)
    requires IndexesAttempts(attempts, es)
    ensures IndexesAttempts(
              if e.Pending?
              then attempts[e.session := (if e.session in attempts then attempts[e.session] else {}) + {e.attempt}]
              else attempts, es + [e])
  {
    assert forall x :: x in es + [e] <==> x in es || x == e;
    forall s: string
      ensures Attempts(es + [e], s) == Attempts(es, s) + if e.Pending? && e.session == s then {e.attempt} else {}
    {
      AttemptsExtend(es, e, s);
    }
    if e.Pending? && e.session !in attempts {
      assert Attempts(es, e.session) == {};
    }
  }

  /** The ids of `session`'s reservations, whichever of their records they are read from. */
  lemma SessionIdsExtend(es: seq<Event>, e: Event, session: string)
    requires Admissible(es, e)
    ensures SessionIds(Attempts(es + [e], session), session)
         == SessionIds(Attempts(es, session), session)
            + if !e.Refused? && e.session == session then {Id(e)} else {}
  {
    AttemptsExtend(es, e, session);
    if e.Completed? && e.session == session {
      var p :| p in es && Completes(e, p);
      assert p.attempt in Attempts(es, session);
    }
  }

  /** Everything the loop has built after reading the lines that state the events `es`. */
  ghost predicate Tracks(es: seq<Event>, session: string, pending: map<string, Event>, completed: set<string>,
                         sessionReservations: set<string>, attempts: map<string, set<nat>>)
  {
    && Ordered(es)
    && IndexesPending(pending, es)
    && IndexesCompleted(completed, es)
    && IndexesAttempts(attempts, es)
    && sessionReservations == SessionIds(Attempts(es, session), session)
  }

  /** The three dictionary tests made for one event, in the order the source makes them. */
  predicate PassesLookups(pending: map<string, Event>, completed: set<string>, e: Event)
    requires forall id :: id in pending ==> pending[id].Pending?
  {
    match e
    case Pending(_, _, _, _) => Id(e) !in pending
    case Completed(_, _, _, _, _, _) =>
      && Id(e) in pending && Id(e) !in completed
      && pending[Id(e)].session == e.session
      && pending[Id(e)].asOf == e.asOf
      && pending[Id(e)].attempt == e.attempt
      && SameVerdict(pending[Id(e)].verdict, e.verdict)
    case Refused(_, _, _, _) => true
  }

  lemma TracksExtend(es: seq<Event>, session: string, pending: map<string, Event>, completed: set<string>,
                     sessionReservations: set<string>, attempts: map<string, set<nat>>, e: Event)
    requires Tracks(es, session, pending, completed, sessionReservations, attempts)
    ensures PassesLookups(pending, completed, e) <==> Admissible(es, e)
    ensures PassesLookups(pending, completed, e) ==>
              Tracks(es + [e], session,
                     if e.Pending? then pending[Id(e) := e] else pending,
                     if e.Completed? then completed + {Id(e)} else completed,
                     if !e.Refused? && e.session == session then sessionReservations + {Id(e)} else sessionReservations,
                     if e.Pending?
                     then attempts[e.session := (if e.session in attempts then attempts[e.session] else {})
                                   + {e.attempt}]
                     else attempts)
  {
    LookupDecidesAdmissible(pending, completed, es, e);
    OrderedExtend(es, e);
    if PassesLookups(pending, completed, e) {
      PendingIndexExtend(pending, es, e);
      CompletedIndexExtend(completed, es, e);
      AttemptsIndexExtend(attempts, es, e);
      SessionIdsExtend(es, e, session);
    }
  }

  /** The closing check of the validator: every session's attempt numbers are `set(range(1, len + 1))`. */
  method AttemptsAreNumbered(attempts: map<string, set<nat>>) returns (ok: bool)
    ensures ok <==> forall s :: s in attempts ==> attempts[s] == FirstNumbers(|attempts[s]|)
  {
    var sessions := attempts.Keys;
    while sessions != {}
      invariant sessions <= attempts.Keys
      invariant forall s :: s in attempts && s !in sessions ==> attempts[s] == FirstNumbers(|attempts[s]|)
      decreases sessions
    {
      var s :| s in sessions;
      if attempts[s] != FirstNumbers(|attempts[s]|) {
        return false;
      }
      sessions := sessions - {s};
    }
    ok := true;
  }

  lemma NumberedIff(attempts: map<string, set<nat>>, es: seq<Event>)
    requires IndexesAttempts(attempts, es)
    ensures NumberedFromOne(es) <==> forall s :: s in attempts ==> attempts[s] == FirstNumbers(|attempts[s]|)
  {
    if forall s :: s in attempts ==> attempts[s] == FirstNumbers(|attempts[s]|) {
      UnreservedSessionsAreNumbered(attempts, es);
    }
  }

  /** `es` are the events of the first entries. */
  ghost predicate States(entries: seq<Option<Event>>, es: seq<Event>) {
    |es| <= |entries| && forall k :: 0 <= k < |es| ==> entries[k] == Some(es[k])
  }

  /** The entry after those that state `es` is corrupt or cannot follow them. */
  ghost predicate Offends(entries: seq<Option<Event>>, es: seq<Event>) {
    |es| < |entries| && match entries[|es|] case None => true case Some(e) => !Admissible(es, e)
  }

  /** An entry that cannot follow the ones before it makes the whole ledger unacceptable. */
  lemma InadmissibleRejects(entries: seq<Option<Event>>, es: seq<Event>)
    requires States(entries, es) && Offends(entries, es)
    ensures !Accepted(entries)
  {
    if Accepted(entries) {
      var e := entries[|es|].value;
      assert Events(entries)[..|es| + 1] == es + [e];
      OrderedPrefix(Events(entries), |es| + 1);
      OrderedExtend(es, e);
      assert false;
    }
  }

  /** What the loop does with the event of one line: look it up, and enter it. */
  method TrackEvent(e: Event, session: string, pending: map<string, Event>, completed: set<string>,
                    sessionReservations: set<string>, attempts: map<string, set<nat>>, ghost es: seq<Event>)
    returns (ok: bool, pending': map<string, Event>, completed': set<string>, sessionReservations': set<string>,
             attempts': map<string, set<nat>>)
    requires Tracks(es, session, pending, completed, sessionReservations, attempts)
    ensures ok <==> Admissible(es, e)
    ensures ok ==> Tracks(es + [e], session, pending', completed', sessionReservations', attempts')
  {
    pending', completed', sessionReservations', attempts' := pending, completed, sessionReservations, attempts;
    TracksExtend(es, session, pending, completed, sessionReservations, attempts, e);
    ok := PassesLookups(pending, completed, e);
    if !ok {
      return;
    }
    if e.Pending? {
      pending' := pending[Id(e) := e];
      attempts' := attempts[e.session := (if e.session in attempts then attempts[e.session] else {}) + {e.attempt}];
    }
    if e.Completed? {
      completed' := completed + {Id(e)};
    }
    if !e.Refused? && e.session == session {
      sessionReservations' := sessionReservations + {Id(e)};
    }
  }

  /** The validator's pass over the lines, with its per-record checks as `decode`; it stops at the first
      offending line. */
  method ScanLines(ledger: seq<Line>, session: string, decode: Line -> Option<Event>)
    returns (ok: bool, sessionReservations: set<string>, attempts: map<string, set<nat>>, records: seq<Line>,
             es: seq<Event>)
    ensures States(EntriesOf(ledger, decode), es)
    ensures if ok then |es| == |ledger| else Offends(EntriesOf(ledger, decode), es)
    ensures ok ==>
              && records == ledger
              && Ordered(es)
              && IndexesAttempts(attempts, es)
              && sessionReservations == SessionIds(Attempts(es, session), session)
  {
    ghost var entries := EntriesOf(ledger, decode);
    records := [];
    var pending: map<string, Event> := map[];
    var completed: set<string> := {};
    sessionReservations, attempts, es := {}, map[], [];
    NothingTracked(session);

    for i := 0 to |ledger|
      invariant records == ledger[..i] && |es| == i
      invariant States(entries, es)
      invariant Tracks(es, session, pending, completed, sessionReservations, attempts)
    {
      var decoded := decode(ledger[i]);
      assert entries[i] == decoded;
      if decoded == None {
        ok := false;
        return;
      }
      var e := decoded.value;
      ok, pending, completed, sessionReservations, attempts :=
        TrackEvent(e, session, pending, completed, sessionReservations, attempts, es);
      if !ok {
        return;
      }
      records := records + [ledger[i]];
      es := es + [e];
    }
    ok := true;
  }

  lemma NothingTracked(session: string)
    ensures Tracks([], session, map[], {}, {}, map[])
  {
    assert Attempts([], session) == {};
    assert SessionIds({}, session) == {};
  }

  /** Line by line, the ledger is what the writer writes of these events, up to the spelling of numbers. */
  ghost predicate WrittenAs(ledger: seq<Line>, es: seq<Event>) {
    |es| == |ledger| && forall i :: 0 <= i < |es| ==> WritesLine(es[i], ledger[i])
  }

  predicate WritesLine(e: Event, line: Line) {
    line.Entry? && Writable(e) && Respells(line.record, Encode(e).record)
  }

  /** The events a ledger was written from are the events read from it. */
  lemma WrittenAsIsRead(ledger: seq<Line>, es: seq<Event>)
    ensures WrittenAs(ledger, es) <==> Readable(DecodeAll(ledger)) && Events(DecodeAll(ledger)) == es
  {
    forall i | 0 <= i < |ledger| && |es| == |ledger|
      ensures DecodeAll(ledger)[i] == Some(es[i]) <==> WritesLine(es[i], ledger[i])
    {
      DecodesIff(ledger[i], es[i]);
    }
  }

  /** A ledger is accepted exactly when it could have been written from lawful events. */
  lemma AcceptedIffWritten(ledger: seq<Line>)
    ensures Accepted(DecodeAll(ledger)) <==> exists es :: WrittenAs(ledger, es) && Lawful(es)
  {
    if Accepted(DecodeAll(ledger)) {
      WrittenAsIsRead(ledger, Events(DecodeAll(ledger)));
    }
    forall es | WrittenAs(ledger, es) && Lawful(es)
      ensures Accepted(DecodeAll(ledger))
    {
      WrittenAsIsRead(ledger, es);
    }
  }

  /** Reads the ledger once and returns the number of reservations `session` holds with the records,
      or reports corruption. It accepts exactly the ledgers written from lawful events. */
  method ReadAndValidateLedger(ledger: seq<Line>, session: string)
    returns (r: Result<(nat, seq<Line>), LedgerError>)
    ensures r.Ok? <==> Accepted(DecodeAll(ledger))
    ensures r.Ok? <==> exists es :: WrittenAs(ledger, es) && Lawful(es)
    ensures r.Ok? ==> r.value == (|Attempts(Events(DecodeAll(ledger)), session)|, ledger)
    ensures r.Ok? ==> forall es :: WrittenAs(ledger, es) ==> r.value == (|Attempts(es, session)|, ledger)
  {
    AcceptedIffWritten(ledger);
    var ok, count, records := ScanAndCount(ledger, session);
    if ok {
      forall es | WrittenAs(ledger, es)
        ensures count == |Attempts(es, session)|
      {
        WrittenAsIsRead(ledger, es);
      }
    }
    r := if ok then Ok((count, records)) else Err(LedgerCorrupt);
  }

  /** The scan and the closing check of the attempt numbers. */
  method ScanAndCount(ledger: seq<Line>, session: string) returns (ok: bool, count: nat, kept: seq<Line>)
    ensures ok <==> Accepted(DecodeAll(ledger))
    ensures ok ==> count == |Attempts(Events(DecodeAll(ledger)), session)| && kept == ledger
  {
    ghost var entries := DecodeAll(ledger);
    var scanned, sessionReservations, attempts, records, es := ScanLines(ledger, session, line => Decode(line));
    if !scanned {
      InadmissibleRejects(entries, es);
      return false, 0, [];
    }
    assert Readable(entries) && es == Events(entries);
    NumberedIff(attempts, es);
    ok := AttemptsAreNumbered(attempts);
    SessionIdsCardinality(Attempts(es, session), session);
    count, kept := |sessionReservations|, records;
  }

  lemma UnreservedSessionsAreNumbered(attempts: map<string, set<nat>>, es: seq<Event>)
    requires IndexesAttempts(attempts, es)
    requires forall s :: s in attempts ==> attempts[s] == FirstNumbers(|attempts[s]|)
    ensures NumberedFromOne(es)
  {
    forall s: string
      ensures Attempts(es, s) == FirstNumbers(|Attempts(es, s)|)
    {
      if s !in attempts {
        assert Attempts(es, s) == {};
        assert FirstNumbers(0) == {};
      }
    }
  }

  // ---------------------------------------------------------------- consequences

  /** A completion need not repeat its reservation's verdict letter for letter: `true` completes 1. */
  lemma RespelledVerdictCompletes(p: Event, c: Event)
    requires p.Pending? && c.Completed? && SameAttempt(p, c) && p.asOf == c.asOf
    requires p.verdict == map["allowed" := Int(1)] && c.verdict == map["allowed" := Bool(true)]
    ensures Completes(c, p) && c.verdict != p.verdict
  {
    assert JsonEquals(Dict(p.verdict), Dict(c.verdict)) by {
      assert JsonEquals(p.verdict["allowed"], c.verdict["allowed"]);
    }
    assert p.verdict["allowed"] != c.verdict["allowed"];
  }

  lemma IdIsReserved(es: seq<Event>, i: nat)
    requires Lawful(es) && i < |es| && !es[i].Refused?
    ensures es[i].attempt in Attempts(es, es[i].session)
  {
    if es[i].Completed? {
      var k :| 0 <= k < i && Completes(es[i], es[k]);
      assert es[k].attempt in Attempts(es, es[k].session);
    }
  }

  /** On a validated ledger, the id the executor derives next occurs in no line. */
  lemma NextReservationIsFresh(ledger: seq<Line>, session: string, line: Line)
    requires Accepted(DecodeAll(ledger)) && line in ledger
    ensures line.Entry?
    ensures var next := |Attempts(Events(DecodeAll(ledger)), session)| + 1;
            line.record.reservationId != Str(RunId(session, next))
  {
    var es := Events(DecodeAll(ledger));
    var next := |Attempts(es, session)| + 1;
    var i :| 0 <= i < |ledger| && ledger[i] == line;
    assert DecodeAll(ledger)[i] == Decode(line) == Some(es[i]);
    ReservationIdOf(line, es[i]);
    if !es[i].Refused? {
      IdIsReserved(es, i);
      if Id(es[i]) == RunId(session, next) {
        RunIdInjective(es[i].session, es[i].attempt, session, next);
      }
    }
  }

  /** Appending the next reservation, its completion or a refusal keeps a ledger lawful. */
  lemma LawfulExtend(es: seq<Event>, e: Event)
    requires Lawful(es)
    requires match e
      case Pending(session, _, attempt, _) => attempt == |Attempts(es, session)| + 1
      case Completed(_, _, _, _, _, _) => Admissible(es, e)
      case Refused(_, _, _, _) => true
    ensures Lawful(es + [e])
  {
    if e.Pending? {
      forall p | p in es && p.Pending?
        ensures !SameAttempt(p, e)
      {
        assert p.attempt in Attempts(es, p.session);
      }
    }
    OrderedExtend(es, e);
    forall s: string
      ensures Attempts(es + [e], s) == FirstNumbers(|Attempts(es + [e], s)|)
    {
      AttemptsExtend(es, e, s);
      var n := |Attempts(es, s)|;
      if e.Pending? && e.session == s {
        assert Attempts(es + [e], s) == FirstNumbers(n + 1);
        FirstNumbersCardinality(n + 1);
      } else {
        assert Attempts(es + [e], s) == Attempts(es, s);
      }
    }
  }
}
