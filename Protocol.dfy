/** How the server's broadcasts and snapshots meet the page: a page that
    applies the events stays in step with what a newly connecting page
    receives, and what the page submits passes the server's checks. */
module Protocol {
  import opened Wrappers
  import opened Masking
  import L = Ledger
  import Srv = Server
  import C = Client

  /** A snapshot renders each number as the ledger has it: taken numbers are
      selected and disabled, the rest follow the selection flag. */
  lemma SnapshotCellsMatchLedger(numbers: map<int, L.Row>, winners: seq<L.WinnerRow>,
                                 endTime: Option<int>, active: bool, announced: bool, k: int)
    requires L.QuizStateOf(numbers, winners, endTime, active, announced).Ok?
    requires k in numbers
    ensures C.ClassifyCell(L.QuizStateOf(numbers, winners, endTime, active, announced).value.numbers, k, active) ==
      (if numbers[k].selected then C.SelectedDisabled else if !active then C.Disabled else C.Clickable)
  {
  }

  /** A page holding a snapshot that applies the `numberSelected` broadcast of
      a successful claim holds exactly the cells of the snapshot taken after the
      claim, for identities that fit the column unchanged. */
  lemma NumberSelectedKeepsPageInSync(numbers: map<int, L.Row>, winners: seq<L.WinnerRow>,
                                      endTime: Option<int>, active: bool, announced: bool,
                                      n: int, w: string)
    requires L.QuizStateOf(numbers, winners, endTime, active, announced).Ok?
    requires L.Claim(numbers, n, w).outcome == L.Claimed
    requires |w| <= L.IdentityWidth
    ensures L.QuizStateOf(L.Claim(numbers, n, w).numbers, winners, endTime, active, announced).Ok?
    ensures L.QuizStateOf(numbers, winners, endTime, active, announced).value.numbers[n := L.Cell(true, Some(Mask(w)))] ==
            L.QuizStateOf(L.Claim(numbers, n, w).numbers, winners, endTime, active, announced).value.numbers
  {
    var claimed := L.Claim(numbers, n, w).numbers;
    assert claimed == numbers[n := L.Row(Some(w), true)];
    var before := L.QuizStateOf(numbers, winners, endTime, active, announced).value.numbers;
    var after := L.QuizStateOf(claimed, winners, endTime, active, announced).value.numbers;
    var applied := before[n := L.Cell(true, Some(Mask(w)))];
    assert after.Keys == applied.Keys;
    forall k | k in after
      ensures after[k] == applied[k]
    {
    }
  }

  /** What the page submits passes the server's request checks and always fits
      the identity column, so the claim can only succeed or be refused. */
  lemma SubmissionPassesServerChecks(selected: Option<int>, raw: string, numbers: map<int, L.Row>)
    requires C.SubmitCheck(selected, raw).Ok?
    requires 1 <= selected.value <= L.SlotCount
    ensures var s := C.SubmitCheck(selected, raw).value;
      Srv.WellFormedClaim(Some(s.number), Some(s.whatsapp)) &&
      L.Storable(s.whatsapp) && |s.whatsapp| <= L.IdentityWidth &&
      L.Claim(numbers, s.number, s.whatsapp).outcome != L.StoreFault
  {
  }

  /** The leaderboard a page draws from the `winnersAnnounced` broadcast
      (unmasked identities, masked by the page) is the one a page joining later
      draws from its snapshot (identities masked by the server, then again by
      the page), because masking is idempotent. */
  lemma AnnouncedLeaderboardMatchesSnapshot(numbers: map<int, L.Row>, shuffled: seq<int>,
                                            endTime: Option<int>)
    requires L.RowsConsistent(numbers) && numbers.Keys == L.Slots()
    requires Srv.IsShuffleOfAll(shuffled)
    ensures |shuffled| >= Srv.WinnerCount
    ensures C.RowsShown(Srv.DrawWinners(numbers, shuffled)) == Srv.WinnerCount
    ensures L.QuizStateOf(numbers, L.Ranked(Srv.DrawWinners(numbers, shuffled)), endTime, false, true).Ok?
    ensures C.LeaderRowsOf(Srv.DrawWinners(numbers, shuffled)) ==
      C.LeaderRowsOf(C.WinnersOfSnapshot(
        L.QuizStateOf(numbers, L.Ranked(Srv.DrawWinners(numbers, shuffled)), endTime, false, true).value.winners))
  {
    Srv.DrawWinnersAreOwners(numbers, shuffled);
    var ws := Srv.DrawWinners(numbers, shuffled);
    var table := L.Ranked(ws);
    forall i | 0 <= i < Srv.WinnerCount
      ensures |ws[i].whatsapp.value| <= L.IdentityWidth
      ensures table[i].whatsapp == ws[i].whatsapp
    {
      L.SlotMembership(shuffled[i]);
    }
    L.ConsistentRowsHaveSnapshot(numbers, table, endTime, false, true);
    var shown := L.QuizStateOf(numbers, table, endTime, false, true).value.winners;
    var page := C.WinnersOfSnapshot(shown);
    C.SnapshotWinnersRenderFully(shown);
    var live := C.LeaderRowsOf(ws);
    var joined := C.LeaderRowsOf(page);
    assert |live| == |joined|;
    forall i | 0 <= i < |live|
      ensures live[i] == joined[i]
    {
      MaskIdempotent(ws[i].whatsapp.value);
    }
  }

  /** As written, a drawn number nobody claimed yields a winner entry with a
      null identity: the page's leaderboard throws before completing the first row. */
  lemma UnclaimedWinnerBreaksLeaderboard(numbers: map<int, L.Row>, n: int, rest: seq<L.Winner>)
    requires n in numbers && numbers[n] == L.Row(None, false)
    ensures C.RowsShown([L.Winner(n, Srv.WinnerIdentityAsWritten(Srv.OwnerInfo(numbers, n)))] + rest) == 0
  {
  }
}
