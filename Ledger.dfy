/** The slot ledger and the winners table of server/utils/db.js: the `numbers`
    table (one row per raffle number: owner, selected flag) and the `winners`
    table (rank, number, identity), held in memory. Each exported database
    function is a method of `SlotTable`, specified by a pure function over the
    table contents; the lemmas below are about those functions. */
module Ledger {
  import opened Wrappers
  import opened Masking

  /** Rows 1..SlotCount are seeded once and never deleted. */
  const SlotCount := 1000

  /** `owner_whatsapp` and `winner_whatsapp` are VARCHAR(20). */
  const IdentityWidth := 20

  /** Winners returned by the snapshot: `ORDER BY rank ASC LIMIT 3`. */
  const SnapshotWinners := 3

  /** The numbers seeded into the table, in order: 1, 2, ..., SlotCount. */
  function AllNumbers(): (s: seq<int>)
    ensures |s| == SlotCount
    ensures forall i :: 0 <= i < SlotCount ==> s[i] == i + 1
  {
    seq(SlotCount, i => i + 1)
  }

  lemma SlotMembership(n: int)
    ensures n in AllNumbers() <==> 1 <= n <= SlotCount
  {
    if 1 <= n <= SlotCount {
      assert AllNumbers()[n - 1] == n;
    }
  }

  ghost function Slots(): set<int>
  {
    set n | n in AllNumbers()
  }

  /** A row of `numbers`: `owner_whatsapp` (NULL = None) and `selected`. */
  datatype Row = Row(owner: Option<string>, selected: bool)

  /** An element of the list handed to `saveWinners`: `{number, whatsapp}`;
      `whatsapp` may be null. */
  datatype Winner = Winner(number: int, whatsapp: Option<string>)

  /** A row of `winners`: `rank`, `winner_number`, `winner_whatsapp`. */
  datatype WinnerRow = WinnerRow(rank: int, number: int, whatsapp: Option<string>)

  /** `updateNumberStatus`: `{success: true}`, `{success: false}` after a
      rollback, or a thrown store error (the identity does not fit its column). */
  datatype ClaimOutcome = Claimed | Refused | StoreFault

  /** An observer's view of one number: `{selected, owner}` with a masked owner. */
  datatype Cell = Cell(selected: bool, owner: Option<string>)

  /** An announced winner as observers see it: `{number, whatsapp}`, masked. */
  datatype PublicWinner = PublicWinner(number: int, whatsapp: string)

  /** The value `getQuizState` resolves to. */
  datatype QuizState = QuizState(
    numbers: map<int, Cell>,
    countdownEndTime: Option<int>,
    isSelectionActive: bool,
    winners: seq<PublicWinner>)

  /** Why `getQuizState` rejects: it called `substring` on a null identity. */
  datatype Fault = NullIdentity

  // ---------------------------------------------------------------------------
  // Column width (VARCHAR(20))
  // ---------------------------------------------------------------------------

  /** PostgreSQL stores a string longer than the column width only when every
      excess character is a space (it then truncates); otherwise the statement
      fails. */
  predicate Storable(w: string): (ok: bool)
    ensures |w| <= IdentityWidth ==> ok
    ensures ok ==> forall i :: |Stored(w)| <= i < |w| ==> w[i] == ' '
  {
    forall i :: IdentityWidth <= i < |w| ==> w[i] == ' '
  }

  /** The value a storable string is kept as. */
  function Stored(w: string): (r: string)
    ensures |r| <= IdentityWidth
    ensures |w| <= IdentityWidth ==> r == w
    ensures r == w[..|r|]
  {
    if |w| <= IdentityWidth then w else w[..IdentityWidth]
  }

  function StoredOpt(o: Option<string>): Option<string>
  {
    if o.Some? then Some(Stored(o.value)) else None
  }

  // ---------------------------------------------------------------------------
  // Table invariants
  // ---------------------------------------------------------------------------

  /** A number is selected exactly when it has an owner, and owners fit the column. */
  ghost predicate RowsConsistent(numbers: map<int, Row>)
  {
    forall k :: k in numbers ==>
      (numbers[k].selected <==> numbers[k].owner.Some?) &&
      (numbers[k].owner.Some? ==> |numbers[k].owner.value| <= IdentityWidth)
  }

  /** The winners table holds ranks 1..n in storage order, so `ORDER BY rank`
      is the stored order. */
  ghost predicate RanksInOrder(winners: seq<WinnerRow>)
  {
    forall i :: 0 <= i < |winners| ==>
      winners[i].rank == i + 1 &&
      (winners[i].whatsapp.Some? ==> |winners[i].whatsapp.value| <= IdentityWidth)
  }

  // ---------------------------------------------------------------------------
  // updateNumberStatus
  // ---------------------------------------------------------------------------

  datatype ClaimStep = ClaimStep(outcome: ClaimOutcome, numbers: map<int, Row>)

  /** One claim under the row lock: a missing or already selected row is refused
      and rolled back; otherwise the row becomes selected and owned, unless the
      identity does not fit its column, in which case the UPDATE fails and the
      transaction is rolled back. */
  function Claim(numbers: map<int, Row>, n: int, w: string): (r: ClaimStep)
    ensures r.outcome == Claimed <==> n in numbers && !numbers[n].selected && Storable(w)
    ensures r.outcome == StoreFault <==> n in numbers && !numbers[n].selected && !Storable(w)
    ensures r.outcome == Claimed ==> r.numbers == numbers[n := Row(Some(Stored(w)), true)]
    ensures r.outcome != Claimed ==> r.numbers == numbers
  {
    if n !in numbers || numbers[n].selected then ClaimStep(Refused, numbers)
    else if !Storable(w) then ClaimStep(StoreFault, numbers)
    else ClaimStep(Claimed, numbers[n := Row(Some(Stored(w)), true)])
  }

  /** A claim changes at most the targeted row: no row is added or removed and
      every other row is untouched. */
  lemma ClaimTouchesOnlyTarget(numbers: map<int, Row>, n: int, w: string, k: int)
    requires k in numbers && k != n
    ensures Claim(numbers, n, w).numbers.Keys == numbers.Keys
    ensures Claim(numbers, n, w).numbers[k] == numbers[k]
  {
  }

  /** Claims keep the table invariant. */
  lemma ClaimKeepsRowsConsistent(numbers: map<int, Row>, n: int, w: string)
    requires RowsConsistent(numbers)
    ensures RowsConsistent(Claim(numbers, n, w).numbers)
  {
  }

  datatype ClaimRequest = ClaimRequest(number: int, whatsapp: string)

  datatype ClaimRun = ClaimRun(outcomes: seq<ClaimOutcome>, numbers: map<int, Row>)

  /** Claims applied one after another, with no reset in between: the
      sequential reading of concurrent requests serialised by the row lock. */
  function ClaimAll(numbers: map<int, Row>, reqs: seq<ClaimRequest>): (r: ClaimRun)
    ensures |r.outcomes| == |reqs|
    ensures r.numbers.Keys == numbers.Keys
    decreases |reqs|
  {
    if reqs == [] then ClaimRun([], numbers)
    else
      var step := Claim(numbers, reqs[0].number, reqs[0].whatsapp);
      var rest := ClaimAll(step.numbers, reqs[1..]);
      ClaimRun([step.outcome] + rest.outcomes, rest.numbers)
  }

  /** Once a number is selected, every later claim on it is refused, whoever
      makes it, and its row keeps its owner. */
  lemma {:induction false} SelectedSlotRefusesAll(numbers: map<int, Row>, reqs: seq<ClaimRequest>, n: int)
    requires n in numbers && numbers[n].selected
    ensures forall i :: 0 <= i < |reqs| && reqs[i].number == n ==> ClaimAll(numbers, reqs).outcomes[i] == Refused
    ensures n in ClaimAll(numbers, reqs).numbers && ClaimAll(numbers, reqs).numbers[n] == numbers[n]
    decreases |reqs|
  {
    if reqs != [] {
      var step := Claim(numbers, reqs[0].number, reqs[0].whatsapp);
      SelectedSlotRefusesAll(step.numbers, reqs[1..], n);
      var all := ClaimAll(numbers, reqs);
      forall i | 0 <= i < |reqs| && reqs[i].number == n
        ensures all.outcomes[i] == Refused
      {
        if i > 0 {
          assert reqs[1..][i - 1] == reqs[i];
        }
      }
    }
  }

  /** Between resets at most one claim per number succeeds: after the first
      successful claim on a number, every later claim on it fails. */
  lemma {:induction false} FirstClaimWins(numbers: map<int, Row>, reqs: seq<ClaimRequest>, i: nat, j: nat)
    requires i < j < |reqs| && reqs[i].number == reqs[j].number
    requires ClaimAll(numbers, reqs).outcomes[i] == Claimed
    ensures ClaimAll(numbers, reqs).outcomes[j] == Refused
    decreases i
  {
    var step := Claim(numbers, reqs[0].number, reqs[0].whatsapp);
    assert reqs[1..][j - 1] == reqs[j];
    if i == 0 {
      SelectedSlotRefusesAll(step.numbers, reqs[1..], reqs[0].number);
    } else {
      assert reqs[1..][i - 1] == reqs[i];
      FirstClaimWins(step.numbers, reqs[1..], i - 1, j - 1);
    }
  }

  /** Contention on one free number: when every request targets it with a
      storable identity, the first request wins and takes ownership, and every
      other request is refused. */
  lemma ContendedSlotHasOneWinner(numbers: map<int, Row>, reqs: seq<ClaimRequest>, n: int)
    requires n in numbers && !numbers[n].selected && |reqs| >= 1
    requires forall i :: 0 <= i < |reqs| ==> reqs[i].number == n && Storable(reqs[i].whatsapp)
    ensures ClaimAll(numbers, reqs).outcomes[0] == Claimed
    ensures forall i :: 1 <= i < |reqs| ==> ClaimAll(numbers, reqs).outcomes[i] == Refused
    ensures ClaimAll(numbers, reqs).numbers[n] == Row(Some(Stored(reqs[0].whatsapp)), true)
  {
    var step := Claim(numbers, n, reqs[0].whatsapp);
    SelectedSlotRefusesAll(step.numbers, reqs[1..], n);
    var all := ClaimAll(numbers, reqs);
    forall i | 1 <= i < |reqs|
      ensures all.outcomes[i] == Refused
    {
      assert reqs[1..][i - 1] == reqs[i];
    }
  }

  // ---------------------------------------------------------------------------
  // resetDatabase, saveWinners
  // ---------------------------------------------------------------------------

  /** `UPDATE numbers SET selected = FALSE, owner_whatsapp = NULL`. */
  function ResetRows(numbers: map<int, Row>): (r: map<int, Row>)
    ensures r.Keys == numbers.Keys
    ensures forall k :: k in r ==> r[k] == Row(None, false)
  {
    map k | k in numbers :: Row(None, false)
  }

  /** After a reset every number in the table can be claimed again, once. */
  lemma ClaimAfterResetSucceeds(numbers: map<int, Row>, n: int, w: string)
    requires n in numbers && Storable(w)
    ensures Claim(ResetRows(numbers), n, w).outcome == Claimed
    ensures RowsConsistent(ResetRows(numbers))
  {
  }

  /** The row `saveWinners` inserts for element i: rank i + 1. */
  function RankedRow(ws: seq<Winner>, i: nat): WinnerRow
    requires i < |ws|
  {
    WinnerRow(i + 1, ws[i].number, StoredOpt(ws[i].whatsapp))
  }

  /** The winners table after `saveWinners(ws)` commits. */
  function Ranked(ws: seq<Winner>): (r: seq<WinnerRow>)
    ensures |r| == |ws|
    ensures forall i :: 0 <= i < |ws| ==>
      r[i].rank == i + 1 && r[i].number == ws[i].number && r[i].whatsapp == StoredOpt(ws[i].whatsapp)
  {
    seq(|ws|, i requires 0 <= i < |ws| => RankedRow(ws, i))
  }

  predicate WinnersStorable(ws: seq<Winner>)
  {
    forall i :: 0 <= i < |ws| ==> ws[i].whatsapp.Some? ==> Storable(ws[i].whatsapp.value)
  }

  /** A saved winners table keeps its ranks in storage order. When every
      identity is storable, a null identity stays null, an identity that fits
      the column is kept as it is, and a longer one loses only trailing spaces. */
  lemma RankedInOrder(ws: seq<Winner>)
    ensures RanksInOrder(Ranked(ws))
    ensures WinnersStorable(ws) ==> forall i :: 0 <= i < |ws| ==>
      (Ranked(ws)[i].whatsapp.None? <==> ws[i].whatsapp.None?) &&
      (ws[i].whatsapp.Some? && |ws[i].whatsapp.value| <= IdentityWidth ==> Ranked(ws)[i].whatsapp == ws[i].whatsapp) &&
      (ws[i].whatsapp.Some? ==>
        ws[i].whatsapp.value == Ranked(ws)[i].whatsapp.value +
          ws[i].whatsapp.value[|Ranked(ws)[i].whatsapp.value|..] &&
        forall k :: |Ranked(ws)[i].whatsapp.value| <= k < |ws[i].whatsapp.value| ==> ws[i].whatsapp.value[k] == ' ')
  {
  }

  // ---------------------------------------------------------------------------
  // getQuizState
  // ---------------------------------------------------------------------------

  /** One entry of `numbersMap`; None when the row is selected but its owner is
      null, where masking throws. */
  function CellOf(row: Row): (r: Option<Cell>)
    ensures r.None? <==> row.selected && row.owner.None?
    ensures (row.selected <==> row.owner.Some?) ==> r.Some?
    ensures r.Some? ==> r.value.selected == row.selected && (r.value.owner.None? <==> !row.selected)
    ensures r.Some? && row.selected ==> r.value.owner == Some(Mask(row.owner.value))
  {
    if !row.selected then Some(Cell(false, None))
    else if row.owner.None? then None
    else Some(Cell(true, Some(Mask(row.owner.value))))
  }

  predicate RowsMaskable(numbers: map<int, Row>)
  {
    forall k :: k in numbers ==> CellOf(numbers[k]).Some?
  }

  /** `ORDER BY rank ASC LIMIT 3` over a table kept in rank order. */
  function TopWinners(winners: seq<WinnerRow>): (r: seq<WinnerRow>)
    ensures |r| == (if |winners| < SnapshotWinners then |winners| else SnapshotWinners)
    ensures r == winners[..|r|]
  {
    if |winners| <= SnapshotWinners then winners else winners[..SnapshotWinners]
  }

  predicate WinnersMaskable(ws: seq<WinnerRow>)
  {
    forall i :: 0 <= i < |ws| ==> ws[i].whatsapp.Some?
  }

  function PublicWinnersOf(ws: seq<WinnerRow>): seq<PublicWinner>
    requires WinnersMaskable(ws)
  {
    seq(|ws|, i requires 0 <= i < |ws| => PublicWinner(ws[i].number, Mask(ws[i].whatsapp.value)))
  }

  /** The snapshot sent to observers, or the fault it throws. */
  function QuizStateOf(numbers: map<int, Row>, winners: seq<WinnerRow>,
                       endTime: Option<int>, active: bool, announced: bool): (r: Result<QuizState, Fault>)
    ensures r.Ok? <==>
      (forall k :: k in numbers && numbers[k].selected ==> numbers[k].owner.Some?) &&
      (announced ==> forall i :: 0 <= i < |winners| && i < SnapshotWinners ==> winners[i].whatsapp.Some?)
    ensures r.Ok? ==> r.value.numbers.Keys == numbers.Keys
    ensures r.Ok? ==> forall k :: k in numbers ==>
      r.value.numbers[k].selected == numbers[k].selected &&
      (r.value.numbers[k].owner.None? <==> !numbers[k].selected) &&
      (numbers[k].selected ==> r.value.numbers[k].owner == Some(Mask(numbers[k].owner.value)))
    ensures r.Ok? ==> r.value.countdownEndTime == endTime && r.value.isSelectionActive == active
    ensures r.Ok? ==> |r.value.winners| <= SnapshotWinners
    ensures r.Ok? && !announced ==> r.value.winners == []
    ensures r.Ok? && announced ==>
      |r.value.winners| == (if |winners| < SnapshotWinners then |winners| else SnapshotWinners) &&
      forall i :: 0 <= i < |r.value.winners| ==>
        r.value.winners[i] == PublicWinner(winners[i].number, Mask(winners[i].whatsapp.value))
  {
    if !RowsMaskable(numbers) then Err(NullIdentity)
    else if announced && !WinnersMaskable(TopWinners(winners)) then Err(NullIdentity)
    else
      var cells := map k | k in numbers :: CellOf(numbers[k]).value;
      Ok(QuizState(cells, endTime, active,
                   if announced then PublicWinnersOf(TopWinners(winners)) else []))
  }

  /** A consistent table always yields a snapshot when no winners are shown,
      and when every shown winner has an identity. */
  lemma ConsistentRowsHaveSnapshot(numbers: map<int, Row>, winners: seq<WinnerRow>,
                                   endTime: Option<int>, active: bool, announced: bool)
    requires RowsConsistent(numbers)
    requires announced ==> forall i :: 0 <= i < |winners| ==> winners[i].whatsapp.Some?
    ensures QuizStateOf(numbers, winners, endTime, active, announced).Ok?
  {
  }

  // ---------------------------------------------------------------------------
  // The tables
  // ---------------------------------------------------------------------------

  class SlotTable {
    var numbers: map<int, Row>
    var winners: seq<WinnerRow>

    ghost predicate Valid()
      reads this
    {
      numbers.Keys == Slots() && RowsConsistent(numbers) && RanksInOrder(winners)
    }

    /** The seeded state: numbers 1..1000, none selected; no winners. */
    constructor ()
      ensures Valid()
      ensures numbers == map n | n in AllNumbers() :: Row(None, false)
      ensures winners == []
    {
      numbers := map n | n in AllNumbers() :: Row(None, false);
      winners := [];
    }

    /** `updateNumberStatus(number, whatsapp)`: check-then-set under the row lock. */
    method UpdateNumberStatus(number: int, whatsapp: string) returns (outcome: ClaimOutcome)
      requires Valid()
      modifies this
      ensures Valid()
      ensures outcome == Claim(old(numbers), number, whatsapp).outcome
      ensures numbers == Claim(old(numbers), number, whatsapp).numbers
      ensures winners == old(winners)
    {
      ClaimKeepsRowsConsistent(numbers, number, whatsapp);
      if number !in numbers || numbers[number].selected {
        return Refused;
      }
      if !Storable(whatsapp) {
        return StoreFault;
      }
      numbers := numbers[number := Row(Some(Stored(whatsapp)), true)];
      outcome := Claimed;
    }

    /** `getNumberOwner(number)`: null when the row is absent, otherwise
        `{whatsapp: owner_whatsapp}`, whose identity is null for an unselected row. */
    method GetNumberOwner(number: int) returns (info: Option<Option<string>>)
      ensures info.None? <==> number !in numbers
      ensures info.Some? ==> info.value == numbers[number].owner
    {
      if number in numbers {
        info := Some(numbers[number].owner);
      } else {
        info := None;
      }
    }

    /** `saveWinners(ws)`: in one transaction, delete every winner and insert
        ws[i] with rank i + 1; an identity that does not fit its column makes an
        INSERT fail and the whole transaction roll back. */
    method SaveWinners(ws: seq<Winner>) returns (ok: bool)
      requires Valid()
      modifies this
      ensures Valid()
      ensures ok <==> WinnersStorable(ws)
      ensures winners == if ok then Ranked(ws) else old(winners)
      ensures numbers == old(numbers)
    {
      var table: seq<WinnerRow> := [];
      var i := 0;
      while i < |ws|
        invariant 0 <= i <= |ws|
        invariant |table| == i
        invariant forall j :: 0 <= j < i ==> table[j] == RankedRow(ws, j)
        invariant forall j :: 0 <= j < i ==> ws[j].whatsapp.Some? ==> Storable(ws[j].whatsapp.value)
      {
        if ws[i].whatsapp.Some? && !Storable(ws[i].whatsapp.value) {
          return false;
        }
        table := table + [RankedRow(ws, i)];
        i := i + 1;
      }
      winners := table;
      ok := true;
    }

    /** `resetDatabase()`: every number unselected with no owner, no winners. */
    method ResetDatabase()
      requires Valid()
      modifies this
      ensures Valid()
      ensures numbers == ResetRows(old(numbers))
      ensures winners == []
    {
      numbers := ResetRows(numbers);
      winners := [];
    }

    /** `getQuizState(quizEndTime, isSelectionActive, winnersAnnounced)`:
        fills the masked view of every row (the table holds exactly the
        numbers 1..1000), then the first three winners by rank when they are
        announced. */
    method GetQuizState(endTime: Option<int>, active: bool, announced: bool)
      returns (r: Result<QuizState, Fault>)
      requires Valid()
      ensures r == QuizStateOf(numbers, winners, endTime, active, announced)
    {
      var numbersMap: map<int, Cell> := map[];
      var n := 1;
      while n <= SlotCount
        invariant 1 <= n <= SlotCount + 1
        invariant forall k :: k in numbersMap <==> 1 <= k < n
        invariant forall k :: k in numbersMap ==> k in numbers && CellOf(numbers[k]) == Some(numbersMap[k])
      {
        SlotMembership(n);
        numbersMap := numbersMap[n := CellOf(numbers[n]).value];
        n := n + 1;
      }
      var shown: seq<PublicWinner> := [];
      if announced {
        var top := TopWinners(winners);
        if !WinnersMaskable(top) {
          return Err(NullIdentity);
        }
        shown := PublicWinnersOf(top);
      }
      forall k | k in numbers
        ensures k in numbersMap
      {
        SlotMembership(k);
      }
      assert numbersMap == map k | k in numbers :: CellOf(numbers[k]).value;
      r := Ok(QuizState(numbersMap, endTime, active, shown));
    }
  }
}
