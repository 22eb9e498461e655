/** The round state machine of server/index.js: the `quizSettings` record,
    the claim and start endpoints, the snapshot sent to a connecting observer,
    and the two timer handlers `onQuizEnd` and `onResetTrigger`. Every handler
    is one atomic step; `io.emit` appends to the broadcast log `events`; the
    clock and the shuffle are parameters. */
module Server {
  import opened Wrappers
  import opened Masking
  import L = Ledger
  import S = Scheduler
  import opened Units

  const ResetDelayMs := HourMs   // the reset comes one hour after the draw
  const WinnerCount := 3
  const NotAvailable: string := "N/A"

  /** What `io.emit` broadcasts. */
  datatype Event =
    | InitialData(state: L.QuizState)
    | NumberSelected(number: int, maskedWhatsapp: string)
    | WinnersAnnounced(winners: seq<L.Winner>)
    | QuizEnded
    | DatabaseReset

  datatype BadRequestReason = SelectionOver | InvalidNumberOrWhatsapp | InvalidDuration

  /** The HTTP status of a reply: 200, 400, 409 or 500. */
  datatype Response = Success | BadRequest(reason: BadRequestReason) | Conflict | ServerError

  /** How a timer handler ends: normally, or with a thrown ReferenceError. */
  datatype HandlerEnd = Completed | ReferenceError

  // ---------------------------------------------------------------------------
  // Request validation
  // ---------------------------------------------------------------------------

  /** The claim request passes `!number || !whatsapp || number < 1 || number > 1000`
      when both fields are present and truthy and the number is in range. */
  predicate WellFormedClaim(number: Option<int>, whatsapp: Option<string>): (ok: bool)
    ensures ok <==> number.Some? && whatsapp.Some? && whatsapp.value != [] && number.value in L.AllNumbers()
  {
    if number.Some? then
      L.SlotMembership(number.value);
      number.value != 0 && whatsapp.Some? && whatsapp.value != [] && 1 <= number.value <= L.SlotCount
    else
      false
  }

  /** `durationHours` passes `!d || isNaN(d) || d <= 0` when present and positive. */
  predicate ValidDuration(durationHours: Option<int>): (ok: bool)
    ensures ok <==> durationHours.Some? && durationHours.value >= 1
    ensures ok ==> durationHours.value * HourMs >= HourMs
  {
    durationHours.Some? && durationHours.value != 0 && durationHours.value > 0
  }

  function ClaimResponse(outcome: L.ClaimOutcome): Response
  {
    match outcome
    case Claimed => Success
    case Refused => Conflict
    case StoreFault => ServerError
  }

  // ---------------------------------------------------------------------------
  // The draw
  // ---------------------------------------------------------------------------

  /** `Array.from({length: 1000}, (_, i) => i + 1).sort(...)`: whatever order the
      comparator produces, the result is a permutation of 1..1000. */
  predicate IsShuffleOfAll(shuffled: seq<int>)
  {
    multiset(shuffled) == multiset(L.AllNumbers())
  }

  predicate Distinct(s: seq<int>)
  {
    forall i, j :: 0 <= i < j < |s| ==> s[i] != s[j]
  }

  lemma {:induction false} DistinctOccursOnce(s: seq<int>, x: int)
    requires Distinct(s)
    ensures multiset(s)[x] <= 1
    decreases |s|
  {
    if s != [] {
      var tail := s[1..];
      forall i, j | 0 <= i < j < |tail|
        ensures tail[i] != tail[j]
      {
        assert tail[i] == s[i + 1] && tail[j] == s[j + 1];
      }
      DistinctOccursOnce(tail, x);
      assert s == [s[0]] + tail;
      assert multiset(s) == multiset([s[0]]) + multiset(tail);
      forall k | 0 <= k < |tail|
        ensures tail[k] != s[0]
      {
        assert tail[k] == s[k + 1];
      }
      assert s[0] !in multiset(tail);
    }
  }

  lemma RepeatedOccursTwice(s: seq<int>, i: nat, j: nat)
    requires i < j < |s|
    ensures s[i] == s[j] ==> multiset(s)[s[i]] >= 2
  {
    assert s == s[..i] + [s[i]] + s[i + 1..j] + [s[j]] + s[j + 1..];
  }

  /** A shuffle of 1..1000 has 1000 distinct entries, each in 1..1000. */
  lemma ShuffleIsDistinctInRange(shuffled: seq<int>)
    requires IsShuffleOfAll(shuffled)
    ensures |shuffled| == L.SlotCount
    ensures Distinct(shuffled)
    ensures forall i :: 0 <= i < |shuffled| ==> 1 <= shuffled[i] <= L.SlotCount
  {
    var all := L.AllNumbers();
    assert |multiset(shuffled)| == |shuffled|;
    assert |multiset(all)| == |all|;
    forall i | 0 <= i < |shuffled|
      ensures 1 <= shuffled[i] <= L.SlotCount
    {
      assert shuffled[i] in multiset(shuffled);
      assert shuffled[i] in all;
      L.SlotMembership(shuffled[i]);
    }
    assert Distinct(all);
    forall i, j | 0 <= i < j < |shuffled|
      ensures shuffled[i] != shuffled[j]
    {
      RepeatedOccursTwice(shuffled, i, j);
      DistinctOccursOnce(all, shuffled[i]);
    }
  }

  /** `shuffled.slice(0, 3)`: three distinct numbers, each in 1..1000. */
  lemma DrawIsThreeDistinctNumbers(shuffled: seq<int>)
    requires IsShuffleOfAll(shuffled)
    ensures |shuffled| >= WinnerCount
    ensures forall i :: 0 <= i < WinnerCount ==> 1 <= shuffled[i] <= L.SlotCount
    ensures shuffled[0] != shuffled[1] && shuffled[0] != shuffled[2] && shuffled[1] != shuffled[2]
  {
    ShuffleIsDistinctInRange(shuffled);
  }

  // ---------------------------------------------------------------------------
  // Winner identities
  // ---------------------------------------------------------------------------

  /** What `getNumberOwner(n)` resolves to: null without a row, otherwise the
      row's owner (itself null for an unclaimed number). */
  function OwnerInfo(numbers: map<int, L.Row>, n: int): (r: Option<Option<string>>)
    ensures r.None? <==> n !in numbers
    ensures L.RowsConsistent(numbers) ==> (r.Some? && r.value.None? <==> n in numbers && !numbers[n].selected)
  {
    if n in numbers then Some(numbers[n].owner) else None
  }

  /** As written (index.js:116): `ownerInfo ? ownerInfo.whatsapp : 'N/A'`. */
  function WinnerIdentityAsWritten(info: Option<Option<string>>): (r: Option<string>)
    ensures r.None? <==> info.Some? && info.value.None?
    ensures r.Some? ==> r.value == WinnerIdentity(info)
  {
    if info.None? then Some(NotAvailable) else info.value
  }

  /** Corrected: 'N/A' whenever there is no owner, row or not. */
  function WinnerIdentity(info: Option<Option<string>>): (w: string)
    ensures info.Some? && info.value.Some? ==> w == info.value.value
    ensures !(info.Some? && info.value.Some?) ==> w == NotAvailable
  {
    if info.Some? && info.value.Some? then info.value.value else NotAvailable
  }

  /** As written, a drawn number that nobody claimed has a row whose owner is
      null, so its winner entry has a null identity instead of 'N/A'; once that
      entry is saved, every snapshot with winners announced throws. */
  lemma UnclaimedWinnerBreaksSnapshot(numbers: map<int, L.Row>, n: int, rest: seq<L.Winner>, endTime: Option<int>)
    requires n in numbers && numbers[n] == L.Row(None, false)
    ensures WinnerIdentityAsWritten(OwnerInfo(numbers, n)) == None
    ensures L.QuizStateOf(numbers, L.Ranked([L.Winner(n, WinnerIdentityAsWritten(OwnerInfo(numbers, n)))] + rest),
                          endTime, false, true).Err?
  {
    var table := L.Ranked([L.Winner(n, None)] + rest);
    assert table[0].whatsapp == None;
  }

  /** The winners list `onQuizEnd` builds, in draw order (corrected lookup). */
  function DrawWinners(numbers: map<int, L.Row>, shuffled: seq<int>): (ws: seq<L.Winner>)
    requires |shuffled| >= WinnerCount
    ensures |ws| == WinnerCount
  {
    seq(WinnerCount, i requires 0 <= i < WinnerCount =>
      L.Winner(shuffled[i], Some(WinnerIdentity(OwnerInfo(numbers, shuffled[i])))))
  }

  /** The announced winners are three distinct numbers in draw order; each
      carries its owner's identity when the number was claimed and 'N/A'
      otherwise, and every identity fits the winners table. */
  lemma DrawWinnersAreOwners(numbers: map<int, L.Row>, shuffled: seq<int>)
    requires L.RowsConsistent(numbers) && numbers.Keys == L.Slots()
    requires IsShuffleOfAll(shuffled)
    ensures |shuffled| >= WinnerCount
    ensures forall i :: 0 <= i < WinnerCount ==>
      DrawWinners(numbers, shuffled)[i].number == shuffled[i] &&
      shuffled[i] in numbers &&
      DrawWinners(numbers, shuffled)[i].whatsapp ==
        Some(if numbers[shuffled[i]].selected then numbers[shuffled[i]].owner.value else NotAvailable)
    ensures forall i, j :: 0 <= i < j < WinnerCount ==>
      DrawWinners(numbers, shuffled)[i].number != DrawWinners(numbers, shuffled)[j].number
    ensures L.WinnersStorable(DrawWinners(numbers, shuffled))
    ensures L.Ranked(DrawWinners(numbers, shuffled)) ==
      seq(WinnerCount, i requires 0 <= i < WinnerCount =>
        L.WinnerRow(i + 1, shuffled[i], DrawWinners(numbers, shuffled)[i].whatsapp))
  {
    DrawIsThreeDistinctNumbers(shuffled);
    var ws := DrawWinners(numbers, shuffled);
    forall i | 0 <= i < WinnerCount
      ensures shuffled[i] in numbers
      ensures ws[i].whatsapp.Some? && |ws[i].whatsapp.value| <= L.IdentityWidth
    {
      L.SlotMembership(shuffled[i]);
    }
  }

  // ---------------------------------------------------------------------------
  // The server
  // ---------------------------------------------------------------------------

  class QuizServer {
    var quizEndTime: Option<int>
    var resetTime: Option<int>
    var isSelectionActive: bool
    var winnersAnnounced: bool
    var winners: seq<L.Winner>   // quizSettings.winners
    var events: seq<Event>       // everything broadcast, in order
    const ledger: L.SlotTable
    const timers: S.TimerRegistry

    /** Selection is never open while winners are announced; every saved
        winner has an identity. */
    ghost predicate Valid()
      reads this, ledger
    {
      ledger.Valid() &&
      !(isSelectionActive && winnersAnnounced) &&
      forall i :: 0 <= i < |ledger.winners| ==> ledger.winners[i].whatsapp.Some?
    }

    constructor ()
      ensures Valid() && fresh(ledger) && fresh(timers)
      ensures quizEndTime == None && resetTime == None
      ensures !isSelectionActive && !winnersAnnounced
      ensures winners == [] && events == []
      ensures ledger.numbers == map n | n in L.AllNumbers() :: L.Row(None, false)
      ensures ledger.winners == []
      ensures timers.Pending() == S.Timers(None, None)
    {
      quizEndTime := None;
      resetTime := None;
      isSelectionActive := false;
      winnersAnnounced := false;
      winners := [];
      events := [];
      ledger := new L.SlotTable();
      timers := new S.TimerRegistry();
    }

    /** `POST /api/select-number`. */
    method SelectNumber(number: Option<int>, whatsapp: Option<string>) returns (resp: Response)
      requires Valid()
      modifies this, ledger
      ensures Valid()
      ensures !old(isSelectionActive) ==>
        resp == BadRequest(SelectionOver) && ledger.numbers == old(ledger.numbers) && events == old(events)
      ensures old(isSelectionActive) && !WellFormedClaim(number, whatsapp) ==>
        resp == BadRequest(InvalidNumberOrWhatsapp) && ledger.numbers == old(ledger.numbers) && events == old(events)
      ensures old(isSelectionActive) && WellFormedClaim(number, whatsapp) ==>
        var step := L.Claim(old(ledger.numbers), number.value, whatsapp.value);
        ledger.numbers == step.numbers &&
        resp == ClaimResponse(step.outcome) &&
        events == old(events) +
          (if step.outcome == L.Claimed then [NumberSelected(number.value, Mask(whatsapp.value))] else [])
      ensures ledger.winners == old(ledger.winners)
      ensures quizEndTime == old(quizEndTime) && resetTime == old(resetTime)
      ensures isSelectionActive == old(isSelectionActive) && winnersAnnounced == old(winnersAnnounced)
      ensures winners == old(winners)
    {
      if !isSelectionActive {
        return BadRequest(SelectionOver);
      }
      if !WellFormedClaim(number, whatsapp) {
        return BadRequest(InvalidNumberOrWhatsapp);
      }
      var outcome := ledger.UpdateNumberStatus(number.value, whatsapp.value);
      if outcome == L.Claimed {
        events := events + [NumberSelected(number.value, Mask(whatsapp.value))];
      }
      resp := ClaimResponse(outcome);
    }

    /** `POST /api/admin/set-quiz-time`: opens a round ending `durationHours`
        from now, whatever phase the round is in, broadcasts the snapshot and
        arms the quiz-end timer. */
    method SetQuizTime(durationHours: Option<int>, now: int) returns (resp: Response)
      requires Valid()
      modifies this, timers
      ensures Valid()
      ensures !ValidDuration(durationHours) ==>
        resp == BadRequest(InvalidDuration) && events == old(events) &&
        quizEndTime == old(quizEndTime) && resetTime == old(resetTime) &&
        isSelectionActive == old(isSelectionActive) && winnersAnnounced == old(winnersAnnounced) &&
        timers.Pending() == old(timers.Pending())
      ensures ValidDuration(durationHours) ==>
        var endTime := now + durationHours.value * HourMs;
        resp == Success &&
        quizEndTime == Some(endTime) && isSelectionActive && !winnersAnnounced && resetTime == None &&
        L.QuizStateOf(ledger.numbers, ledger.winners, Some(endTime), true, false).Ok? &&
        events == old(events) +
          [InitialData(L.QuizStateOf(ledger.numbers, ledger.winners, Some(endTime), true, false).value)] &&
        timers.Pending() == S.StartQuiz(endTime, now, Some(S.QuizEnd), Some(S.ResetTrigger)).timers
      ensures winners == old(winners)
      ensures ledger.numbers == old(ledger.numbers) && ledger.winners == old(ledger.winners)
    {
      if !ValidDuration(durationHours) {
        return BadRequest(InvalidDuration);
      }
      var endTime := now + durationHours.value * HourMs;
      quizEndTime := Some(endTime);
      isSelectionActive := true;
      winnersAnnounced := false;
      resetTime := None;
      var snapshot := ledger.GetQuizState(quizEndTime, isSelectionActive, winnersAnnounced);
      events := events + [InitialData(snapshot.value)];
      resp := Success;
      var runNow := timers.StartQuizScheduler(endTime, now, Some(S.QuizEnd), Some(S.ResetTrigger));
      assert runNow == None;
    }

    /** `io.on('connection')`: the snapshot sent to a joining observer only. */
    method Connect() returns (snapshot: Result<L.QuizState, L.Fault>)
      requires Valid()
      ensures snapshot.Ok?
      ensures snapshot == L.QuizStateOf(ledger.numbers, ledger.winners, quizEndTime, isSelectionActive, winnersAnnounced)
    {
      snapshot := ledger.GetQuizState(quizEndTime, isSelectionActive, winnersAnnounced);
    }

    /** `onQuizEnd` as written: selection closes and winners are marked
        announced, then the first `getNumberOwner` call throws a ReferenceError,
        because server/index.js does not import it. Nothing is drawn, saved,
        broadcast or scheduled. */
    method OnQuizEndAsWritten() returns (end: HandlerEnd)
      requires Valid()
      modifies this
      ensures Valid()
      ensures end == ReferenceError
      ensures !isSelectionActive && winnersAnnounced
      ensures events == old(events) && winners == old(winners)
      ensures quizEndTime == old(quizEndTime) && resetTime == old(resetTime)
    {
      isSelectionActive := false;
      winnersAnnounced := true;
      end := ReferenceError;
    }

    /** `onQuizEnd` with `getNumberOwner` imported, 'N/A' for every number
        without an owner, and the reset armed on the reset slot with the reset
        handler. There is no guard against running it twice. */
    method OnQuizEnd(shuffled: seq<int>, now: int) returns (end: HandlerEnd)
      requires Valid() && IsShuffleOfAll(shuffled)
      modifies this, ledger, timers
      ensures Valid()
      ensures end == Completed
      ensures !isSelectionActive && winnersAnnounced
      ensures |shuffled| >= WinnerCount
      ensures winners == DrawWinners(old(ledger.numbers), shuffled)
      ensures ledger.numbers == old(ledger.numbers) && ledger.winners == L.Ranked(winners)
      ensures resetTime == Some(now + ResetDelayMs) && quizEndTime == old(quizEndTime)
      ensures events == old(events) + [WinnersAnnounced(winners), QuizEnded]
      ensures timers.Pending() ==
        S.ScheduleResetOf(old(timers.Pending()), now + ResetDelayMs, now, Some(S.ResetTrigger)).timers
    {
      isSelectionActive := false;
      winnersAnnounced := true;
      DrawWinnersAreOwners(ledger.numbers, shuffled);
      var winning := shuffled[..WinnerCount];
      ghost var expected := DrawWinners(ledger.numbers, shuffled);
      var winnersData: seq<L.Winner> := [];
      var i := 0;
      while i < |winning|
        invariant 0 <= i <= |winning|
        invariant winnersData == expected[..i]
        modifies {}
      {
        var info := ledger.GetNumberOwner(winning[i]);
        winnersData := winnersData + [L.Winner(winning[i], Some(WinnerIdentity(info)))];
        i := i + 1;
      }
      assert winnersData == expected;
      var saved := ledger.SaveWinners(winnersData);
      assert saved;
      winners := winnersData;
      resetTime := Some(now + ResetDelayMs);
      events := events + [WinnersAnnounced(winnersData), QuizEnded];
      var runNow := timers.ScheduleReset(now + ResetDelayMs, now, Some(S.ResetTrigger));
      assert runNow == None;
      end := Completed;
    }

    /** `onResetTrigger`: clears the ledger and the round, then broadcasts the
        reset and a fresh snapshot. Pending timers are left as they are. */
    method OnResetTrigger()
      requires Valid()
      modifies this, ledger
      ensures Valid()
      ensures ledger.numbers == L.ResetRows(old(ledger.numbers)) && ledger.winners == []
      ensures quizEndTime == None && resetTime == None
      ensures !isSelectionActive && !winnersAnnounced && winners == []
      ensures L.QuizStateOf(ledger.numbers, [], None, false, false).Ok?
      ensures events == old(events) +
        [DatabaseReset, InitialData(L.QuizStateOf(ledger.numbers, [], None, false, false).value)]
    {
      ledger.ResetDatabase();
      quizEndTime := None;
      resetTime := None;
      isSelectionActive := false;
      winnersAnnounced := false;
      winners := [];
      events := events + [DatabaseReset];
      var snapshot := ledger.GetQuizState(quizEndTime, isSelectionActive, winnersAnnounced);
      events := events + [InitialData(snapshot.value)];
    }

    /** The runtime fires a due timer on `slot` and runs the handler its
        callback stands for; a null callback runs nothing. */
    method Tick(slot: S.Slot, now: int, shuffled: seq<int>)
      requires Valid() && IsShuffleOfAll(shuffled)
      modifies this, ledger, timers
      ensures Valid()
      ensures |shuffled| >= WinnerCount
      ensures var f := S.FireOf(old(timers.Pending()), slot, now);
        f.callback == None ==>
          timers.Pending() == f.timers && events == old(events) &&
          ledger.numbers == old(ledger.numbers) && ledger.winners == old(ledger.winners) &&
          quizEndTime == old(quizEndTime) && resetTime == old(resetTime) &&
          isSelectionActive == old(isSelectionActive) && winnersAnnounced == old(winnersAnnounced) &&
          winners == old(winners)
      ensures var f := S.FireOf(old(timers.Pending()), slot, now);
        f.callback == Some(S.QuizEnd) ==>
          !isSelectionActive && winnersAnnounced &&
          winners == DrawWinners(old(ledger.numbers), shuffled) &&
          ledger.numbers == old(ledger.numbers) && ledger.winners == L.Ranked(winners) &&
          resetTime == Some(now + ResetDelayMs) && quizEndTime == old(quizEndTime) &&
          events == old(events) + [WinnersAnnounced(winners), QuizEnded] &&
          timers.Pending() == S.ScheduleResetOf(f.timers, now + ResetDelayMs, now, Some(S.ResetTrigger)).timers
      ensures var f := S.FireOf(old(timers.Pending()), slot, now);
        f.callback == Some(S.ResetTrigger) ==>
          ledger.numbers == L.ResetRows(old(ledger.numbers)) && ledger.winners == [] &&
          quizEndTime == None && resetTime == None &&
          !isSelectionActive && !winnersAnnounced && winners == [] &&
          L.QuizStateOf(ledger.numbers, [], None, false, false).Ok? &&
          events == old(events) +
            [DatabaseReset, InitialData(L.QuizStateOf(ledger.numbers, [], None, false, false).value)] &&
          timers.Pending() == f.timers
    {
      DrawIsThreeDistinctNumbers(shuffled);
      var callback := timers.Fire(slot, now);
      if callback == Some(S.QuizEnd) {
        var _ := OnQuizEnd(shuffled, now);
      } else if callback == Some(S.ResetTrigger) {
        OnResetTrigger();
      }
    }
  }
}
