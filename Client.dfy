/** The observer page of public/js/main.js: the `quizState` record and
    `selectedNumber`, updated by the socket handlers and by clicks, and the pure
    decisions the page takes (cell classification, countdown split, submission
    check, leaderboard rows). The DOM is left out; what the page would render
    is returned as a value. */
module Client {
  import opened Wrappers
  import opened Masking
  import opened Units
  import L = Ledger

  const MinDigits := 10
  const MaxDigits := 15

  // ---------------------------------------------------------------------------
  // Countdown
  // ---------------------------------------------------------------------------

  datatype Countdown = Countdown(days: int, hours: int, minutes: int, seconds: int)

  /** The `Math.floor` split of a non-negative distance in milliseconds. For
      non-negative operands JavaScript's `%` and floored `/` agree with Dafny's. */
  function CountdownOf(distance: int): (c: Countdown)
    requires distance >= 0
    ensures c.days >= 0
    ensures 0 <= c.hours < 24 && 0 <= c.minutes < 60 && 0 <= c.seconds < 60
  {
    Countdown(distance / DayMs,
              (distance % DayMs) / HourMs,
              (distance % HourMs) / MinuteMs,
              (distance % MinuteMs) / SecondMs)
  }

  /** `x % (a * k)` keeps the remainder modulo `a`. */
  lemma ModOfMultiple(x: int, a: int, k: int)
    requires x >= 0 && a > 0 && k > 0
    ensures (x % (a * k)) % a == x % a
  {
    var q := x / (a * k);
    var r := x % (a * k);
    assert x == q * (a * k) + r;
    var q2 := r / a;
    var r2 := r % a;
    assert r == q2 * a + r2;
    assert x == (q * k + q2) * a + r2;
    DivModUnique(x, a, q * k + q2, r2);
  }

  lemma DivModUnique(x: int, a: int, q: int, r: int)
    requires a > 0 && 0 <= r < a && x == q * a + r
    ensures x / a == q && x % a == r
  {
    var q0 := x / a;
    var r0 := x % a;
    var d := q0 - q;
    assert d * a == r - r0 && (-d) * a == r0 - r by {
      assert x == q0 * a + r0;
      assert q0 * a - q * a == (q0 - q) * a;
      assert q * a - q0 * a == (q - q0) * a;
    }
    if d > 0 {
      AtLeastOneMultiple(d, a);
    } else if d < 0 {
      AtLeastOneMultiple(-d, a);
    }
  }

  lemma AtLeastOneMultiple(d: int, a: int)
    requires d >= 1 && a > 0
    ensures d * a >= a
  {
    assert d * a == (d - 1) * a + a;
    assert (d - 1) * a >= 0;
  }

  /** The four fields and the leftover milliseconds add back up to the
      distance, and hours, minutes and seconds stay below their wrap-around. */
  lemma CountdownRecomposes(distance: int)
    requires distance >= 0
    ensures var c := CountdownOf(distance);
      c.days >= 0 && 0 <= c.hours < 24 && 0 <= c.minutes < 60 && 0 <= c.seconds < 60 &&
      c.days * DayMs + c.hours * HourMs + c.minutes * MinuteMs + c.seconds * SecondMs
        + distance % SecondMs == distance
  {
    ModOfMultiple(distance, HourMs, 24);
    ModOfMultiple(distance, MinuteMs, 60);
    ModOfMultiple(distance, SecondMs, 60);
    var rd := distance % DayMs;
    var rh := distance % HourMs;
    var rm := distance % MinuteMs;
    assert distance == (distance / DayMs) * DayMs + rd;
    assert rd == (rd / HourMs) * HourMs + rh;
    assert rh == (rh / MinuteMs) * MinuteMs + rm;
    ModOfMultiple(distance, SecondMs, 60);
    assert rm == (rm / SecondMs) * SecondMs + distance % SecondMs;
  }

  /** What `updateCountdown` shows. */
  datatype CountdownText = NotStarted | TimeUp | Remaining(left: Countdown)

  /** `!countdownEndTime` is true for null and for 0. */
  predicate Truthy(t: Option<int>)
  {
    t.Some? && t.value != 0
  }

  function CountdownShown(endTime: Option<int>, now: int): (shown: CountdownText)
    ensures shown == NotStarted <==> !Truthy(endTime)
    ensures shown == TimeUp <==> Truthy(endTime) && endTime.value - now < 0
    ensures shown.Remaining? ==> shown.left == CountdownOf(endTime.value - now)
  {
    if !Truthy(endTime) then NotStarted
    else if endTime.value - now < 0 then TimeUp
    else Remaining(CountdownOf(endTime.value - now))
  }

  /** A remaining countdown accounts for the time left to the whole second. */
  lemma RemainingRecomposes(endTime: Option<int>, now: int)
    requires CountdownShown(endTime, now).Remaining?
    ensures var c := CountdownShown(endTime, now).left;
      c.days * DayMs + c.hours * HourMs + c.minutes * MinuteMs + c.seconds * SecondMs
        <= endTime.value - now
        < c.days * DayMs + c.hours * HourMs + c.minutes * MinuteMs + c.seconds * SecondMs + SecondMs
  {
    CountdownRecomposes(endTime.value - now);
  }

  // ---------------------------------------------------------------------------
  // Submission check
  // ---------------------------------------------------------------------------

  /** The characters `String.prototype.trim` removes: white space and line
      terminators. */
  predicate IsJsSpace(c: char)
  {
    c == ' ' || c == '\t' || c == '\n' || c == '\U{000B}' || c == '\U{000C}' || c == '\r' ||
    c == '\U{00A0}' || c == '\U{1680}' || ('\U{2000}' <= c <= '\U{200A}') ||
    c == '\U{2028}' || c == '\U{2029}' || c == '\U{202F}' || c == '\U{205F}' ||
    c == '\U{3000}' || c == '\U{FEFF}'
  }

  function TrimStart(s: string): (r: string)
    ensures |r| <= |s| && r == s[|s| - |r|..]
    ensures forall i :: 0 <= i < |s| - |r| ==> IsJsSpace(s[i])
    ensures r == [] || !IsJsSpace(r[0])
    decreases |s|
  {
    if s != [] && IsJsSpace(s[0]) then TrimStart(s[1..]) else s
  }

  function TrimEnd(s: string): (r: string)
    ensures |r| <= |s| && r == s[..|r|]
    ensures forall i :: |r| <= i < |s| ==> IsJsSpace(s[i])
    ensures r == [] || !IsJsSpace(r[|r| - 1])
    decreases |s|
  {
    if s != [] && IsJsSpace(s[|s| - 1]) then TrimEnd(s[..|s| - 1]) else s
  }

  /** `r` is the part of `s` left once its first `i` characters and the
      characters after `r` are removed, all of them white space. */
  predicate StripsTo(s: string, i: int, r: string)
  {
    0 <= i <= |s| - |r| && r == s[i..i + |r|] &&
    (forall k :: 0 <= k < i ==> IsJsSpace(s[k])) &&
    (forall k :: i + |r| <= k < |s| ==> IsJsSpace(s[k]))
  }

  /** `value.trim()`. */
  function Trim(s: string): (r: string)
    ensures |r| <= |s|
    ensures r == [] || (!IsJsSpace(r[0]) && !IsJsSpace(r[|r| - 1]))
    ensures s == [] || (!IsJsSpace(s[0]) && !IsJsSpace(s[|s| - 1])) ==> r == s
    ensures exists i :: StripsTo(s, i, r)
  {
    var a := TrimStart(s);
    var t := TrimEnd(a);
    assert t == [] || t[0] == a[0];
    var i := |s| - |a|;
    forall k | i + |t| <= k < |s|
      ensures IsJsSpace(s[k])
    {
      assert s[k] == a[k - i];
    }
    assert StripsTo(s, i, t);
    t
  }

  /** Trimmed text neither starts nor ends with a space, and trimming it again
      changes nothing. */
  lemma TrimIdempotent(s: string)
    ensures Trim(s) == [] || (!IsJsSpace(Trim(s)[0]) && !IsJsSpace(Trim(s)[|Trim(s)| - 1]))
    ensures Trim(Trim(s)) == Trim(s)
  {
    var a := TrimStart(s);
    var t := TrimEnd(a);
    if t != [] {
      assert t[0] == a[0];
      assert TrimStart(t) == t;
    } else {
      assert TrimStart(t) == t;
    }
    assert TrimEnd(t) == t;
  }

  /** `/^\d{10,15}$/`: `\d` is an ASCII digit. */
  predicate IsWhatsappFormat(s: string): (ok: bool)
    ensures ok ==> s != [] && |s| <= L.IdentityWidth && L.Storable(s)
  {
    MinDigits <= |s| <= MaxDigits && forall i :: 0 <= i < |s| ==> '0' <= s[i] <= '9'
  }

  /** A well-formed identity survives the trim as it is. */
  lemma DigitsSurviveTrim(s: string)
    requires IsWhatsappFormat(s)
    ensures Trim(s) == s
  {
    assert !IsJsSpace(s[0]);
    assert TrimStart(s) == s;
    assert !IsJsSpace(s[|s| - 1]);
  }

  datatype SubmitError = MissingInput | BadFormat

  /** The request body `{number, whatsapp}` the page would send. */
  datatype Submission = Submission(number: int, whatsapp: string)

  /** The submit handler's checks on `selectedNumber` and the trimmed input. */
  function SubmitCheck(selected: Option<int>, raw: string): (r: Result<Submission, SubmitError>)
    ensures r.Ok? <==> selected.Some? && selected.value != 0 && IsWhatsappFormat(Trim(raw))
    ensures r.Ok? ==> r.value.number == selected.value && r.value.whatsapp == Trim(raw)
    ensures r == Err(MissingInput) <==> selected.None? || selected.value == 0 || Trim(raw) == []
  {
    var whatsapp := Trim(raw);
    if selected.None? || selected.value == 0 || whatsapp == [] then Err(MissingInput)
    else if !IsWhatsappFormat(whatsapp) then Err(BadFormat)
    else Ok(Submission(selected.value, whatsapp))
  }

  // ---------------------------------------------------------------------------
  // Cells and clicks
  // ---------------------------------------------------------------------------

  datatype CellClass = SelectedDisabled | Disabled | Clickable

  /** `renderNumbers`' decision for number `i`. */
  function ClassifyCell(numbers: map<int, L.Cell>, i: int, active: bool): (c: CellClass)
    ensures c == SelectedDisabled <==> i in numbers && numbers[i].selected
    ensures c == Disabled <==> !active && !(i in numbers && numbers[i].selected)
    ensures c == Clickable <==> active && !(i in numbers && numbers[i].selected)
  {
    if i in numbers && numbers[i].selected then SelectedDisabled
    else if !active then Disabled
    else Clickable
  }

  /** What `handleNumberClick` does: which error it shows, or the pick. */
  datatype ClickResult = SelectionClosed | AlreadyTaken | Picked

  function ClickOutcome(numbers: map<int, L.Cell>, n: int, active: bool): (r: ClickResult)
    ensures r == SelectionClosed <==> !active
    ensures r == AlreadyTaken <==> active && n in numbers && numbers[n].selected
  {
    if !active then SelectionClosed
    else if n in numbers && numbers[n].selected then AlreadyTaken
    else Picked
  }

  /** The click guards accept exactly the cells rendered clickable. */
  lemma ClickMatchesCell(numbers: map<int, L.Cell>, n: int, active: bool)
    ensures ClickOutcome(numbers, n, active) == Picked <==> ClassifyCell(numbers, n, active) == Clickable
    ensures ClickOutcome(numbers, n, active) == AlreadyTaken ==> ClassifyCell(numbers, n, active) == SelectedDisabled
    ensures ClickOutcome(numbers, n, active) == SelectionClosed ==> ClassifyCell(numbers, n, active) != Clickable
  {
  }

  // ---------------------------------------------------------------------------
  // Leaderboard
  // ---------------------------------------------------------------------------

  datatype LeaderRow = LeaderRow(rank: int, number: int, whatsapp: string)

  /** How many leading winners have an identity: `forEach` throws at the first
      null one, after inserting the rows before it. */
  function RowsShown(ws: seq<L.Winner>): (p: nat)
    ensures p <= |ws|
    ensures forall i :: 0 <= i < p ==> ws[i].whatsapp.Some?
    ensures p < |ws| ==> ws[p].whatsapp.None?
    decreases |ws|
  {
    if ws == [] || ws[0].whatsapp.None? then 0 else 1 + RowsShown(ws[1..])
  }

  /** The rows `renderWinners` inserts: rank index+1 in list order, the
      number, and the masked identity. */
  function LeaderRowsOf(ws: seq<L.Winner>): (rows: seq<LeaderRow>)
    ensures |rows| == RowsShown(ws)
    ensures forall i :: 0 <= i < |rows| ==>
      rows[i].rank == i + 1 && rows[i].number == ws[i].number && rows[i].whatsapp == Mask(ws[i].whatsapp.value)
  {
    seq(RowsShown(ws), i requires 0 <= i < RowsShown(ws) =>
      LeaderRow(i + 1, ws[i].number, Mask(ws[i].whatsapp.value)))
  }

  /** A snapshot's winners, as the page stores them. */
  function WinnersOfSnapshot(ws: seq<L.PublicWinner>): (r: seq<L.Winner>)
    ensures |r| == |ws|
    ensures forall i :: 0 <= i < |ws| ==> r[i] == L.Winner(ws[i].number, Some(ws[i].whatsapp))
  {
    seq(|ws|, i requires 0 <= i < |ws| => L.Winner(ws[i].number, Some(ws[i].whatsapp)))
  }

  /** Winners taken from a snapshot always render completely. */
  lemma SnapshotWinnersRenderFully(ws: seq<L.PublicWinner>)
    ensures RowsShown(WinnersOfSnapshot(ws)) == |ws|
    ensures forall i :: 0 <= i < |ws| ==>
      LeaderRowsOf(WinnersOfSnapshot(ws))[i] == LeaderRow(i + 1, ws[i].number, Mask(ws[i].whatsapp))
  {
  }

  /** `new Date(x).getTime()` for a truthy `x`, null otherwise. */
  function EndTimeOf(t: Option<int>): (r: Option<int>)
    ensures r == None || Truthy(r)
    ensures Truthy(t) ==> r == t
    ensures !Truthy(t) ==> r == None
  {
    if Truthy(t) then t else None
  }

  // ---------------------------------------------------------------------------
  // The page
  // ---------------------------------------------------------------------------

  class ClientPage {
    var numbers: map<int, L.Cell>
    var countdownEndTime: Option<int>
    var winners: seq<L.Winner>
    var isSelectionActive: bool
    var selectedNumber: Option<int>

    /** The page as loaded (and as reloaded by `location.reload()`). */
    constructor ()
      ensures numbers == map[] && countdownEndTime == None && winners == []
      ensures !isSelectionActive && selectedNumber == None
    {
      numbers := map[];
      countdownEndTime := None;
      winners := [];
      isSelectionActive := false;
      selectedNumber := None;
    }

    /** `renderNumbers`: one class per number 1..1000. */
    method RenderNumbers() returns (cells: seq<CellClass>)
      ensures |cells| == L.SlotCount
      ensures forall i :: 0 <= i < L.SlotCount ==> cells[i] == ClassifyCell(numbers, i + 1, isSelectionActive)
    {
      cells := [];
      var i := 1;
      while i <= L.SlotCount
        invariant 1 <= i <= L.SlotCount + 1
        invariant |cells| == i - 1
        invariant forall j :: 0 <= j < i - 1 ==> cells[j] == ClassifyCell(numbers, j + 1, isSelectionActive)
      {
        var c: CellClass;
        if i in numbers && numbers[i].selected {
          c := SelectedDisabled;
        } else if !isSelectionActive {
          c := Disabled;
        } else {
          c := Clickable;
        }
        cells := cells + [c];
        i := i + 1;
      }
    }

    /** `renderWinners`: whether the leaderboard is visible, the rows
        inserted, and whether masking a null identity threw. */
    method RenderWinners() returns (visible: bool, rows: seq<LeaderRow>, thrown: bool)
      ensures visible <==> |winners| > 0
      ensures rows == LeaderRowsOf(winners)
      ensures thrown <==> RowsShown(winners) < |winners|
    {
      visible := |winners| > 0;
      rows := [];
      thrown := false;
      var i := 0;
      while i < |winners|
        invariant 0 <= i <= RowsShown(winners)
        invariant rows == LeaderRowsOf(winners)[..i]
        invariant !thrown
      {
        if winners[i].whatsapp.None? {
          thrown := true;
          break;
        }
        rows := rows + [LeaderRow(i + 1, winners[i].number, Mask(winners[i].whatsapp.value))];
        i := i + 1;
      }
      assert rows == LeaderRowsOf(winners);
    }

    /** `updateCountdown`: a past end time closes selection on the page. */
    method UpdateCountdown(now: int) returns (shown: CountdownText)
      modifies this
      ensures shown == CountdownShown(countdownEndTime, now)
      ensures isSelectionActive == (old(isSelectionActive) && shown != TimeUp)
      ensures numbers == old(numbers) && countdownEndTime == old(countdownEndTime)
      ensures winners == old(winners) && selectedNumber == old(selectedNumber)
    {
      if !Truthy(countdownEndTime) {
        return NotStarted;
      }
      var distance := countdownEndTime.value - now;
      if distance < 0 {
        isSelectionActive := false;
        return TimeUp;
      }
      shown := Remaining(CountdownOf(distance));
    }

    /** `handleNumberClick`: the pick is taken only past both guards. */
    method HandleNumberClick(n: int) returns (result: ClickResult)
      modifies this
      ensures result == ClickOutcome(numbers, n, isSelectionActive)
      ensures selectedNumber == if result == Picked then Some(n) else old(selectedNumber)
      ensures numbers == old(numbers) && countdownEndTime == old(countdownEndTime)
      ensures winners == old(winners) && isSelectionActive == old(isSelectionActive)
    {
      if !isSelectionActive {
        return SelectionClosed;
      }
      if n in numbers && numbers[n].selected {
        return AlreadyTaken;
      }
      selectedNumber := Some(n);
      result := Picked;
    }

    /** The submit button: the request the page would send, if any. */
    method Submit(raw: string) returns (req: Result<Submission, SubmitError>)
      ensures req == SubmitCheck(selectedNumber, raw)
    {
      req := SubmitCheck(selectedNumber, raw);
    }

    /** The reply to a sent submission: a 2xx reply clears the pick. */
    method OnSubmitResponse(success: bool)
      modifies this
      ensures selectedNumber == if success then None else old(selectedNumber)
      ensures numbers == old(numbers) && countdownEndTime == old(countdownEndTime)
      ensures winners == old(winners) && isSelectionActive == old(isSelectionActive)
    {
      if success {
        selectedNumber := None;
      }
    }

    /** `initialData`: the snapshot replaces the page's state, then the
        countdown runs once. */
    method OnInitialData(data: L.QuizState, now: int) returns (shown: CountdownText)
      modifies this
      ensures numbers == data.numbers
      ensures countdownEndTime == EndTimeOf(data.countdownEndTime)
      ensures winners == WinnersOfSnapshot(data.winners)
      ensures shown == CountdownShown(countdownEndTime, now)
      ensures isSelectionActive == (data.isSelectionActive && shown != TimeUp)
      ensures selectedNumber == old(selectedNumber)
    {
      numbers := data.numbers;
      countdownEndTime := EndTimeOf(data.countdownEndTime);
      winners := WinnersOfSnapshot(data.winners);
      isSelectionActive := data.isSelectionActive;
      shown := UpdateCountdown(now);
    }

    /** `numberSelected`: only entry `n` changes. */
    method OnNumberSelected(n: int, maskedWhatsapp: string)
      modifies this
      ensures numbers == old(numbers)[n := L.Cell(true, Some(maskedWhatsapp))]
      ensures countdownEndTime == old(countdownEndTime) && winners == old(winners)
      ensures isSelectionActive == old(isSelectionActive) && selectedNumber == old(selectedNumber)
    {
      numbers := numbers[n := L.Cell(true, Some(maskedWhatsapp))];
    }

    /** `quizEnded`: selection closes; the pick is kept. */
    method OnQuizEnded()
      modifies this
      ensures !isSelectionActive
      ensures numbers == old(numbers) && countdownEndTime == old(countdownEndTime)
      ensures winners == old(winners) && selectedNumber == old(selectedNumber)
    {
      isSelectionActive := false;
    }

    /** `winnersAnnounced`: the broadcast list replaces the winners as sent. */
    method OnWinnersAnnounced(ws: seq<L.Winner>)
      modifies this
      ensures winners == ws
      ensures numbers == old(numbers) && countdownEndTime == old(countdownEndTime)
      ensures isSelectionActive == old(isSelectionActive) && selectedNumber == old(selectedNumber)
    {
      winners := ws;
    }

    /** `databaseReset`: the page reloads into its initial state. */
    method OnDatabaseReset()
      modifies this
      ensures numbers == map[] && countdownEndTime == None && winners == []
      ensures !isSelectionActive && selectedNumber == None
    {
      numbers := map[];
      countdownEndTime := None;
      winners := [];
      isSelectionActive := false;
      selectedNumber := None;
    }
  }
}
