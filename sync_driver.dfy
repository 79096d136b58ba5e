/**
 * The sync pass of src/main.ts: for every player and every account, a date cursor starts at the
 * account's last pull date (or the game's launch date), moves forward a day at a time while it
 * is before now, and each day's queries give one output row unless both ratings are missing.
 * Rows are buffered per run and written after every twentieth player.
 *
 * The rating queries (`getPlayerMMR` / `getPlayerNumGamesPlayed` of the imported module) are
 * parameters with the signatures of the engine in tracker.dfy; `TrackerOracles` gives the
 * answers that engine computes. Days are integers: consecutive integers are consecutive local
 * calendar days, and the date library is a parameter.
 */
module SyncDriver {
  import opened Wrappers
  import opened TrackerModel
  import opened DeltaSheetModel

  /** Where a cursor starts for an account with no last pull date. */
  const LaunchDateText: string := "2015/07/07"

  /** The buffer is written after every player whose index is a multiple of this. */
  const FlushEvery: nat := 20

  /** What `new Date()` returns, at day granularity: the local day, and whether any time of it
      has passed since its midnight. */
  datatype Instant = Instant(day: int, pastMidnight: bool)

  /** The JS Date library at day granularity: reading a date from text (a local day at midnight,
      or an invalid date), the local calendar fields of a day, and `toLocaleDateString`. */
  datatype DateLibrary = DateLibrary(parse: string -> Timestamp, calendar: int -> CalendarDate, locale: int -> string)

  /** The two queries, by (platform id, platform, playlist[, day]); an `Err` is a thrown error. */
  datatype Oracles = Oracles(mmr: (string, string, Playlist, int) -> Result<Option<int>>,
                             gamesPlayed: (string, string, Playlist) -> Result<int>)

  datatype Context = Context(oracles: Oracles, dates: DateLibrary, now: Instant)

  /** The first day whose midnight is not before now: today when now is exactly midnight,
      tomorrow otherwise. */
  function Bound(now: Instant): int {
    if now.pastMidnight then now.day + 1 else now.day
  }

  /** `on < today` for a cursor at local midnight; an invalid date compares false. */
  predicate Before(on: Timestamp, now: Instant)
    ensures Before(on, now) <==> on.At? && on.day < Bound(now)
  {
    on.At? && (on.day < now.day || (on.day == now.day && now.pastMidnight))
  }

  /** The cursor an account starts from: its entry in the dictionary (any `Date`, valid or not,
      is truthy), or the launch date when there is none. */
  function StartCursor(last: Option<Timestamp>, dates: DateLibrary): Timestamp {
    if last.Some? then last.value else dates.parse(LaunchDateText)
  }

  // ---------------------------------------------------------------------------------------------
  // One day
  // ---------------------------------------------------------------------------------------------

  datatype DayOutcome = Failed | Skipped | Emitted(row: OutputRow)

  /** The four queries of one day, in the source's order; the first error ends the day. */
  function Day(ctx: Context, player: Player, account: Account, day: int): DayOutcome {
    var o, id, pf := ctx.oracles, account.platformID, account.platform;
    var twosMMR := o.mmr(id, pf, RankedTwos, day);
    if twosMMR.Err? then Failed else
    var twosGamesPlayed := o.gamesPlayed(id, pf, RankedTwos);
    if twosGamesPlayed.Err? then Failed else
    var threesMMR := o.mmr(id, pf, RankedThrees, day);
    if threesMMR.Err? then Failed else
    var threesGamesPlayed := o.gamesPlayed(id, pf, RankedThrees);
    if threesGamesPlayed.Err? then Failed
    else if twosMMR.value.None? && threesMMR.value.None? then Skipped
    else Emitted(OutputRow(player.deltaID, account.accountID, player.name, ctx.dates.locale(day),
                           twosMMR.value, twosGamesPlayed.value, threesMMR.value, threesGamesPlayed.value))
  }

  /** All four queries of the day succeed. */
  predicate Answered(ctx: Context, account: Account, day: int) {
    var o, id, pf := ctx.oracles, account.platformID, account.platform;
    o.mmr(id, pf, RankedTwos, day).Ok? && o.gamesPlayed(id, pf, RankedTwos).Ok?
    && o.mmr(id, pf, RankedThrees, day).Ok? && o.gamesPlayed(id, pf, RankedThrees).Ok?
  }

  /** A day fails exactly when a query throws; otherwise it is skipped exactly when both ratings
      are null, and else it gives the row of the player, the account, the day's local date and
      the four answers, a null rating carried as it is. */
  lemma DayOutcomes(ctx: Context, player: Player, account: Account, day: int)
    ensures Day(ctx, player, account, day).Failed? <==> !Answered(ctx, account, day)
    ensures Answered(ctx, account, day) ==>
              var o, id, pf := ctx.oracles, account.platformID, account.platform;
              var twos, threes := o.mmr(id, pf, RankedTwos, day).value, o.mmr(id, pf, RankedThrees, day).value;
              && (Day(ctx, player, account, day).Skipped? <==> twos.None? && threes.None?)
              && (Day(ctx, player, account, day).Emitted? ==>
                    Day(ctx, player, account, day).row
                    == OutputRow(player.deltaID, account.accountID, player.name, ctx.dates.locale(day),
                                 twos, o.gamesPlayed(id, pf, RankedTwos).value,
                                 threes, o.gamesPlayed(id, pf, RankedThrees).value))
  {
  }

  // ---------------------------------------------------------------------------------------------
  // One account: the day loop
  // ---------------------------------------------------------------------------------------------

  /** The rows of a run of days, the cursor it leaves, whether a query threw, and the days
      queried. */
  datatype AccountRun = AccountRun(rows: seq<OutputRow>, cursor: int, failed: bool, visited: seq<int>)

  /** The loop from a cursor at `start` while it is below `stop`: advance, then query. */
  function RunDays(ctx: Context, player: Player, account: Account, start: int, stop: int): AccountRun
    decreases stop - start
  {
    if start >= stop then AccountRun([], start, false, [])
    else
      match Day(ctx, player, account, start + 1)
      case Failed => AccountRun([], start + 1, true, [start + 1])
      case Skipped =>
        var rest := RunDays(ctx, player, account, start + 1, stop);
        rest.(visited := [start + 1] + rest.visited)
      case Emitted(row) =>
        var rest := RunDays(ctx, player, account, start + 1, stop);
        rest.(rows := [row] + rest.rows, visited := [start + 1] + rest.visited)
  }

  /** The rows of the days that are emitted, in order. */
  function EmittedRows(ctx: Context, player: Player, account: Account, days: seq<int>): seq<OutputRow> {
    if days == [] then []
    else
      (match Day(ctx, player, account, days[0])
       case Emitted(row) => [row]
       case _ => [])
      + EmittedRows(ctx, player, account, days[1..])
  }

  /** The consecutive days a + 1, ..., b. */
  function DaysAfter(a: int, b: int): (days: seq<int>)
    ensures |days| == if b <= a then 0 else b - a
    ensures forall k :: 0 <= k < |days| ==> days[k] == a + 1 + k
    decreases b - a
  {
    if b <= a then [] else [a + 1] + DaysAfter(a + 1, b)
  }

  /** A run whose first day does not fail is that day followed by the run from it. */
  lemma RunDaysStep(ctx: Context, player: Player, account: Account, start: int, stop: int)
    requires start < stop && !Day(ctx, player, account, start + 1).Failed?
    ensures var run, rest := RunDays(ctx, player, account, start, stop), RunDays(ctx, player, account, start + 1, stop);
            && run.cursor == rest.cursor && run.failed == rest.failed
            && run.visited == [start + 1] + rest.visited
            && run.rows == EmittedRows(ctx, player, account, [start + 1]) + rest.rows
  {
    assert [start + 1][1..] == [];
  }

  /** From a cursor at `start`, the days queried are start + 1, start + 2, ... in order, each
      once, and the cursor ends on the last of them. */
  lemma {:induction false} RunDaysConsecutive(ctx: Context, player: Player, account: Account, start: int, stop: int)
    ensures var run := RunDays(ctx, player, account, start, stop);
            run.visited == DaysAfter(start, run.cursor) && run.cursor >= start
    decreases stop - start
  {
    if start < stop && !Day(ctx, player, account, start + 1).Failed? {
      RunDaysConsecutive(ctx, player, account, start + 1, stop);
      RunDaysStep(ctx, player, account, start, stop);
    }
  }

  /** The loop stops at `stop` (at once when start >= stop), or earlier exactly on the first day
      whose queries throw: the cursor ends on that day and no day before it failed. */
  lemma {:induction false} RunDaysEnd(ctx: Context, player: Player, account: Account, start: int, stop: int)
    ensures var run := RunDays(ctx, player, account, start, stop);
            && (!run.failed ==> run.cursor == if start < stop then stop else start)
            && (run.failed ==> start < run.cursor <= stop && Day(ctx, player, account, run.cursor).Failed?)
            && (forall d :: start < d < run.cursor ==> !Day(ctx, player, account, d).Failed?)
            && (!run.failed ==> forall d :: start < d <= run.cursor ==> !Day(ctx, player, account, d).Failed?)
    decreases stop - start
  {
    if start < stop && !Day(ctx, player, account, start + 1).Failed? {
      RunDaysEnd(ctx, player, account, start + 1, stop);
      RunDaysStep(ctx, player, account, start, stop);
    }
  }

  lemma {:induction false} EmittedRowsAppend(ctx: Context, player: Player, account: Account, a: seq<int>, b: seq<int>)
    ensures EmittedRows(ctx, player, account, a + b) == EmittedRows(ctx, player, account, a) + EmittedRows(ctx, player, account, b)
    decreases |a|
  {
    if a == [] {
      assert a + b == b;
    } else {
      assert (a + b)[1..] == a[1..] + b;
      EmittedRowsAppend(ctx, player, account, a[1..], b);
    }
  }

  /** The rows are those of the emitted days among the days queried, in order: those of the
      days before a failure are kept. */
  lemma {:induction false} RunDaysRows(ctx: Context, player: Player, account: Account, start: int, stop: int)
    ensures var run := RunDays(ctx, player, account, start, stop);
            run.rows == EmittedRows(ctx, player, account, run.visited)
    decreases stop - start
  {
    var run := RunDays(ctx, player, account, start, stop);
    if start < stop {
      if Day(ctx, player, account, start + 1).Failed? {
        assert run.visited[1..] == [];
      } else {
        RunDaysRows(ctx, player, account, start + 1, stop);
        RunDaysStep(ctx, player, account, start, stop);
        EmittedRowsAppend(ctx, player, account, [start + 1], RunDays(ctx, player, account, start + 1, stop).visited);
      }
    }
  }

  /** When no query throws on the days start + 1 .. stop, those are exactly the days queried
      and the rows are their emitted rows. */
  lemma RunDaysAllAnswered(ctx: Context, player: Player, account: Account, start: int, stop: int)
    requires forall d :: start < d <= stop ==> Answered(ctx, account, d)
    ensures var run := RunDays(ctx, player, account, start, stop);
            && !run.failed
            && run.visited == DaysAfter(start, stop)
            && run.rows == EmittedRows(ctx, player, account, DaysAfter(start, stop))
  {
    RunDaysConsecutive(ctx, player, account, start, stop);
    RunDaysEnd(ctx, player, account, start, stop);
    RunDaysRows(ctx, player, account, start, stop);
    var run := RunDays(ctx, player, account, start, stop);
    if run.failed {
      DayOutcomes(ctx, player, account, run.cursor);
    }
  }

  /** Every row of a run has at least one rating, belongs to the player and the account, and
      carries the games-played counts of the account, which are the same on every day. */
  lemma {:induction false} RunRowsShape(ctx: Context, player: Player, account: Account, start: int, stop: int)
    ensures var run, o := RunDays(ctx, player, account, start, stop), ctx.oracles;
            forall k :: 0 <= k < |run.rows| ==>
              var row := run.rows[k];
              && (row.twosMMR.Some? || row.threesMMR.Some?)
              && row.playerID == player.deltaID && row.playerName == player.name && row.accountID == account.accountID
              && row.twosGamesPlayed == o.gamesPlayed(account.platformID, account.platform, RankedTwos).value
              && row.threesGamesPlayed == o.gamesPlayed(account.platformID, account.platform, RankedThrees).value
    decreases stop - start
  {
    if start < stop {
      DayOutcomes(ctx, player, account, start + 1);
      if !Day(ctx, player, account, start + 1).Failed? {
        RunRowsShape(ctx, player, account, start + 1, stop);
        RunDaysStep(ctx, player, account, start, stop);
      }
    }
  }

  // ---------------------------------------------------------------------------------------------
  // Accounts, players, the pass
  // ---------------------------------------------------------------------------------------------

  /** Rows produced so far and the dictionary they leave. */
  datatype Progress = Progress(rows: seq<OutputRow>, tracking: map<string, Timestamp>)

  /** One account: its cursor starts from the dictionary; when it came from there, it is that
      entry itself, so the entry ends on the cursor's last day. */
  function AccountSync(ctx: Context, player: Player, account: Account, tracking: map<string, Timestamp>): Progress {
    var last := Lookup(tracking, account.accountID);
    var start := StartCursor(last, ctx.dates);
    if start.InvalidDate? then Progress([], tracking)
    else
      var run := RunDays(ctx, player, account, start.day, Bound(ctx.now));
      Progress(run.rows, if last.Some? then tracking[account.accountID := At(run.cursor)] else tracking)
  }

  /** One account in terms of its start: an invalid start queries nothing and changes nothing;
      otherwise the rows are the emitted ones of the days queried from the start, and only the
      account's own entry changes, to the last day queried, when the start came from it. */
  lemma AccountSyncShape(ctx: Context, player: Player, account: Account, tracking: map<string, Timestamp>)
    ensures var p, start := AccountSync(ctx, player, account, tracking), StartCursor(Lookup(tracking, account.accountID), ctx.dates);
            && (account.accountID !in tracking ==> start == ctx.dates.parse(LaunchDateText) && p.tracking == tracking)
            && (start.InvalidDate? ==> p == Progress([], tracking))
            && (start.At? ==>
                  var run := RunDays(ctx, player, account, start.day, Bound(ctx.now));
                  && run.visited == DaysAfter(start.day, run.cursor)
                  && p.rows == EmittedRows(ctx, player, account, run.visited)
                  && (account.accountID in tracking ==> p.tracking == tracking[account.accountID := At(run.cursor)]))
  {
    var start := StartCursor(Lookup(tracking, account.accountID), ctx.dates);
    if start.At? {
      RunDaysConsecutive(ctx, player, account, start.day, Bound(ctx.now));
      RunDaysRows(ctx, player, account, start.day, Bound(ctx.now));
    }
  }

  /** When now is past midnight, an account pulled up to today still queries the day after
      today, and its entry moves on to that day. */
  lemma TomorrowIsQueried(ctx: Context, player: Player, account: Account, tracking: map<string, Timestamp>)
    requires ctx.now.pastMidnight && Lookup(tracking, account.accountID) == Some(At(ctx.now.day))
    ensures var p, tomorrow := AccountSync(ctx, player, account, tracking), ctx.now.day + 1;
            && RunDays(ctx, player, account, ctx.now.day, Bound(ctx.now)).visited == [tomorrow]
            && p.rows == EmittedRows(ctx, player, account, [tomorrow])
            && p.tracking == tracking[account.accountID := At(tomorrow)]
  {
    var d := ctx.now.day;
    var stop := Bound(ctx.now);
    assert RunDays(ctx, player, account, d + 1, stop) == AccountRun([], d + 1, false, []);
    assert [d + 1][1..] == [];
  }

  /** Two accounts with the same id in one pass share the dictionary entry: once the first has
      answered every day up to now, the second starts where the first ended and yields nothing. */
  lemma RepeatedAccountResumes(ctx: Context, player: Player, a: Account, b: Account, tracking: map<string, Timestamp>, last: int)
    requires a.accountID == b.accountID && Lookup(tracking, a.accountID) == Some(At(last))
    requires forall d :: last < d <= Bound(ctx.now) ==> !Day(ctx, player, a, d).Failed?
    ensures var first := AccountSync(ctx, player, a, tracking);
            && Lookup(first.tracking, b.accountID) == Some(At(if last < Bound(ctx.now) then Bound(ctx.now) else last))
            && AccountSync(ctx, player, b, first.tracking).rows == []
  {
    var stop := Bound(ctx.now);
    RunDaysEnd(ctx, player, a, last, stop);
    var next := if last < stop then stop else last;
    assert RunDays(ctx, player, b, next, stop).rows == [];
  }

  /** The accounts of a player in order, each after the ones before it. */
  function AccountsSync(ctx: Context, player: Player, accounts: seq<Account>, tracking: map<string, Timestamp>): Progress {
    if accounts == [] then Progress([], tracking)
    else
      var prev := AccountsSync(ctx, player, accounts[..|accounts| - 1], tracking);
      var last := AccountSync(ctx, player, accounts[|accounts| - 1], prev.tracking);
      Progress(prev.rows + last.rows, last.tracking)
  }

  /** The rows of each player in turn, and the dictionary after them. */
  datatype Rollout = Rollout(perPlayer: seq<seq<OutputRow>>, tracking: map<string, Timestamp>)

  function PlayersSync(ctx: Context, players: seq<Player>, tracking: map<string, Timestamp>): (r: Rollout)
    ensures |r.perPlayer| == |players|
  {
    if players == [] then Rollout([], tracking)
    else
      var prev := PlayersSync(ctx, players[..|players| - 1], tracking);
      var p := players[|players| - 1];
      var now := AccountsSync(ctx, p, p.accounts, prev.tracking);
      Rollout(prev.perPlayer + [now.rows], now.tracking)
  }

  /** The batches handed to the sheet and the rows still buffered at the end. */
  datatype Flushed = Flushed(written: seq<seq<OutputRow>>, buffer: seq<OutputRow>)

  /** The buffering of the player loop: after player i the buffer takes its rows, and when i is a
      multiple of 20 the buffer is written and emptied. Nothing is written after the loop. */
  function Batches(perPlayer: seq<seq<OutputRow>>): Flushed {
    if perPlayer == [] then Flushed([], [])
    else
      var i := |perPlayer| - 1;
      var prev := Batches(perPlayer[..i]);
      var buffer := prev.buffer + perPlayer[i];
      if i % FlushEvery == 0 then Flushed(prev.written + [buffer], []) else Flushed(prev.written, buffer)
  }

  function Flatten(parts: seq<seq<OutputRow>>): seq<OutputRow> {
    if parts == [] then [] else Flatten(parts[..|parts| - 1]) + parts[|parts| - 1]
  }

  lemma {:induction false} FlattenAppend(a: seq<seq<OutputRow>>, b: seq<seq<OutputRow>>)
    ensures Flatten(a + b) == Flatten(a) + Flatten(b)
    decreases |b|
  {
    if b == [] {
      assert a + b == a;
    } else {
      var init, last := b[..|b| - 1], b[|b| - 1];
      assert a + b == (a + init) + [last];
      FlattenSnoc(a + init, last);
      FlattenAppend(a, init);
    }
  }

  lemma FlattenSnoc(parts: seq<seq<OutputRow>>, last: seq<OutputRow>)
    ensures Flatten(parts + [last]) == Flatten(parts) + last
  {
    assert (parts + [last])[..|parts|] == parts;
  }

  /** No row is lost, duplicated or reordered: the written batches followed by the buffer are
      all rows, player by player. */
  lemma {:induction false} BatchesKeepRows(perPlayer: seq<seq<OutputRow>>)
    ensures Flatten(Batches(perPlayer).written) + Batches(perPlayer).buffer == Flatten(perPlayer)
    decreases |perPlayer|
  {
    if perPlayer != [] {
      var i := |perPlayer| - 1;
      BatchesKeepRows(perPlayer[..i]);
      var prev := Batches(perPlayer[..i]);
      FlattenAppend(prev.written, [prev.buffer + perPlayer[i]]);
      assert Flatten([prev.buffer + perPlayer[i]]) == prev.buffer + perPlayer[i] by {
        assert [prev.buffer + perPlayer[i]][..0] == [];
      }
    }
  }

  /** The number of players up to and including the last one after which the buffer was
      written: the last index that is a multiple of 20, plus one. */
  function FlushedPlayers(n: nat): (f: nat)
    ensures f <= n
    ensures n > 0 ==> f >= 1 && (f - 1) % FlushEvery == 0 && n - f < FlushEvery
  {
    if n == 0 then 0 else if (n - 1) % FlushEvery == 0 then n else FlushedPlayers(n - 1)
  }

  /** With n players there are (n + 19) / 20 writes: one after each of players 0, 20, 40, ... */
  lemma {:induction false} BatchesCount(perPlayer: seq<seq<OutputRow>>)
    ensures |Batches(perPlayer).written| == (|perPlayer| + FlushEvery - 1) / FlushEvery
    decreases |perPlayer|
  {
    if perPlayer != [] {
      BatchesCount(perPlayer[..|perPlayer| - 1]);
    }
  }

  /** Write k is made after player 20k: it holds the players after the previous write, from
      20(k - 1) + 1 (from 0 for the first write) up to and including 20k. */
  function BatchStart(k: nat): nat {
    if k == 0 then 0 else FlushEvery * (k - 1) + 1
  }

  function BatchEnd(k: nat): nat {
    FlushEvery * k + 1
  }

  /** Write k exists once player 20k has run, and holds exactly the rows of players
      BatchStart(k) to BatchEnd(k) - 1, in order: player 0 alone, then twenty at a time. */
  lemma {:induction false} BatchContents(perPlayer: seq<seq<OutputRow>>, k: nat)
    requires BatchEnd(k) <= |perPlayer|
    ensures k < |Batches(perPlayer).written|
    ensures Batches(perPlayer).written[k] == Flatten(perPlayer[BatchStart(k)..BatchEnd(k)])
    decreases |perPlayer|
  {
    var i := |perPlayer| - 1;
    var init := perPlayer[..i];
    BatchesCount(init);
    if BatchEnd(k) <= i {
      BatchContents(init, k);
      assert init[BatchStart(k)..BatchEnd(k)] == perPlayer[BatchStart(k)..BatchEnd(k)];
    } else {
      assert i == FlushEvery * k;
      BatchesBuffer(init);
      FlushedAtBatchEnd(k);
      assert init[BatchStart(k)..] == perPlayer[BatchStart(k)..i];
      FlattenSliceSnoc(perPlayer, BatchStart(k), i);
    }
  }

  /** Just before player 20k, the last write was made after player 20(k - 1). */
  lemma FlushedAtBatchEnd(k: nat)
    ensures FlushedPlayers(FlushEvery * k) == BatchStart(k)
  {
    if k > 0 {
      var f := FlushedPlayers(FlushEvery * k);
      var q := (f - 1) / FlushEvery;
      assert f - 1 == FlushEvery * q;
      assert q == k - 1;
    }
  }

  lemma FlattenSliceSnoc(parts: seq<seq<OutputRow>>, a: nat, i: nat)
    requires a <= i < |parts|
    ensures Flatten(parts[a..i + 1]) == Flatten(parts[a..i]) + parts[i]
  {
    assert parts[a..i + 1] == parts[a..i] + [parts[i]];
    FlattenSnoc(parts[a..i], parts[i]);
  }

  /** At the end the buffer holds the rows of the players after the last multiple of 20, which
      are never written. */
  lemma {:induction false} BatchesBuffer(perPlayer: seq<seq<OutputRow>>)
    ensures Batches(perPlayer).buffer == Flatten(perPlayer[FlushedPlayers(|perPlayer|)..])
    decreases |perPlayer|
  {
    var n := |perPlayer|;
    if n > 0 {
      var i := n - 1;
      var init := perPlayer[..i];
      BatchesBuffer(init);
      var f := FlushedPlayers(n);
      if i % FlushEvery == 0 {
        assert perPlayer[f..] == [];
      } else {
        assert f == FlushedPlayers(i);
        assert init[f..] + [perPlayer[i]] == perPlayer[f..];
        FlattenAppend(init[f..], [perPlayer[i]]);
        assert Flatten([perPlayer[i]]) == perPlayer[i] by {
          assert [perPlayer[i]][..0] == [];
        }
      }
    }
  }

  /** The writes hold exactly the rows of the players up to the last multiple of 20, in order. */
  lemma BatchesWritten(perPlayer: seq<seq<OutputRow>>)
    ensures Flatten(Batches(perPlayer).written) == Flatten(perPlayer[..FlushedPlayers(|perPlayer|)])
  {
    var f, b := FlushedPlayers(|perPlayer|), Batches(perPlayer);
    BatchesKeepRows(perPlayer);
    BatchesBuffer(perPlayer);
    FlattenSplit(perPlayer, f);
    CancelSuffix(Flatten(b.written), Flatten(perPlayer[..f]), b.buffer);
  }

  lemma FlattenSplit(parts: seq<seq<OutputRow>>, k: nat)
    requires k <= |parts|
    ensures Flatten(parts) == Flatten(parts[..k]) + Flatten(parts[k..])
  {
    assert parts[..k] + parts[k..] == parts;
    FlattenAppend(parts[..k], parts[k..]);
  }

  lemma CancelSuffix<T>(a: seq<T>, b: seq<T>, c: seq<T>)
    requires a + c == b + c
    ensures a == b
  {
    assert a == (a + c)[..|a|];
    assert b == (b + c)[..|b|];
  }

  /** What a pass writes and leaves unwritten, from the roster players and the dictionary. */
  function Pass(ctx: Context, players: seq<Player>, tracking: map<string, Timestamp>): Flushed {
    Batches(PlayersSync(ctx, players, tracking).perPlayer)
  }

  // ---------------------------------------------------------------------------------------------
  // The loops
  // ---------------------------------------------------------------------------------------------

  /** The four queries of one day, each only when the ones before it answered. */
  method QueryDay(ctx: Context, player: Player, account: Account, day: int) returns (outcome: DayOutcome)
    ensures outcome == Day(ctx, player, account, day)
  {
    var id, pf := account.platformID, account.platform;
    outcome := Failed;
    var twosMMR := ctx.oracles.mmr(id, pf, RankedTwos, day);
    if twosMMR.Err? {
      return;
    }
    var twosGamesPlayed := ctx.oracles.gamesPlayed(id, pf, RankedTwos);
    if twosGamesPlayed.Err? {
      return;
    }
    var threesMMR := ctx.oracles.mmr(id, pf, RankedThrees, day);
    if threesMMR.Err? {
      return;
    }
    var threesGamesPlayed := ctx.oracles.gamesPlayed(id, pf, RankedThrees);
    if threesGamesPlayed.Err? {
      return;
    }
    if twosMMR.value.None? && threesMMR.value.None? {
      outcome := Skipped;
    } else {
      outcome := Emitted(OutputRow(player.deltaID, account.accountID, player.name, ctx.dates.locale(day),
                                   twosMMR.value, twosGamesPlayed.value, threesMMR.value, threesGamesPlayed.value));
    }
  }

  /** The day loop of one account; a thrown query ends the account (the catch), keeping its rows.
      The cursor taken from the dictionary is the entry's own `Date`, so advancing it also
      advances the entry. */
  method SyncAccount(ctx: Context, player: Player, account: Account, sheet: Sheet) returns (rows: seq<OutputRow>)
    modifies sheet
    ensures var p := AccountSync(ctx, player, account, old(sheet.trackingData));
            rows == p.rows && sheet.trackingData == p.tracking
  {
    ghost var tracking := sheet.trackingData;
    var on := sheet.LastPullDateForLinkID(account.accountID);
    var cursor: Timestamp;
    if on.Some? {
      cursor := on.value;
    } else {
      cursor := ctx.dates.parse(LaunchDateText);
    }
    rows := [];
    if cursor.InvalidDate? {
      return;
    }
    ghost var start, stop := cursor.day, Bound(ctx.now);
    assert on.Some? ==> tracking[account.accountID := cursor] == tracking;
    while Before(cursor, ctx.now)
      invariant cursor.At? && start <= cursor.day
      invariant sheet.trackingData == if on.Some? then tracking[account.accountID := cursor] else tracking
      invariant var run, rest := RunDays(ctx, player, account, start, stop), RunDays(ctx, player, account, cursor.day, stop);
                run.rows == rows + rest.rows && run.cursor == rest.cursor
      decreases stop - cursor.day
    {
      cursor := At(cursor.day + 1);
      if on.Some? {
        sheet.trackingData := sheet.trackingData[account.accountID := cursor];
      }
      var outcome := QueryDay(ctx, player, account, cursor.day);
      if outcome.Failed? {
        return;
      }
      if outcome.Skipped? {
        continue;
      }
      rows := rows + [outcome.row];
    }
  }

  /** The account loop of one player; an error in one account ends only that account. */
  method SyncPlayer(ctx: Context, player: Player, sheet: Sheet) returns (rows: seq<OutputRow>)
    modifies sheet
    ensures var p := AccountsSync(ctx, player, player.accounts, old(sheet.trackingData));
            rows == p.rows && sheet.trackingData == p.tracking
  {
    ghost var tracking := sheet.trackingData;
    rows := [];
    for k := 0 to |player.accounts|
      invariant AccountsSync(ctx, player, player.accounts[..k], tracking) == Progress(rows, sheet.trackingData)
    {
      AccountsSyncStep(ctx, player, player.accounts, k, tracking);
      var accountRows := SyncAccount(ctx, player, player.accounts[k], sheet);
      rows := rows + accountRows;
    }
    assert player.accounts[..|player.accounts|] == player.accounts;
  }

  /** The accounts up to k + 1 are those up to k, then account k on the dictionary they leave. */
  lemma AccountsSyncStep(ctx: Context, player: Player, accounts: seq<Account>, k: nat, tracking: map<string, Timestamp>)
    requires k < |accounts|
    ensures var prev := AccountsSync(ctx, player, accounts[..k], tracking);
            var last := AccountSync(ctx, player, accounts[k], prev.tracking);
            AccountsSync(ctx, player, accounts[..k + 1], tracking) == Progress(prev.rows + last.rows, last.tracking)
  {
    assert accounts[..k + 1][..k] == accounts[..k];
  }

  /** The players up to i + 1 are those up to i, then player i on the dictionary they leave;
      the batches after player i are those before it with its rows added to the buffer, and
      written and emptied when i is a multiple of 20. */
  lemma PlayersSyncStep(ctx: Context, players: seq<Player>, i: nat, tracking: map<string, Timestamp>)
    requires i < |players|
    ensures var prev := PlayersSync(ctx, players[..i], tracking);
            var now := AccountsSync(ctx, players[i], players[i].accounts, prev.tracking);
            var b := Batches(prev.perPlayer);
            && PlayersSync(ctx, players[..i + 1], tracking) == Rollout(prev.perPlayer + [now.rows], now.tracking)
            && Batches(prev.perPlayer + [now.rows])
               == if i % FlushEvery == 0 then Flushed(b.written + [b.buffer + now.rows], []) else Flushed(b.written, b.buffer + now.rows)
  {
    assert players[..i + 1][..i] == players[..i];
    var prev := PlayersSync(ctx, players[..i], tracking);
    var now := AccountsSync(ctx, players[i], players[i].accounts, prev.tracking);
    assert (prev.perPlayer + [now.rows])[..i] == prev.perPlayer;
  }

  /** The player loop: per-player rows into the buffer, written and emptied after every player
      whose index is a multiple of 20. */
  method Sync(ctx: Context, players: seq<Player>, sheet: Sheet) returns (written: seq<seq<OutputRow>>, unwritten: seq<OutputRow>)
    modifies sheet
    ensures Flushed(written, unwritten) == Pass(ctx, players, old(sheet.trackingData))
    ensures sheet.trackingData == PlayersSync(ctx, players, old(sheet.trackingData)).tracking
  {
    ghost var tracking := sheet.trackingData;
    written := [];
    var outputRows: seq<OutputRow> := [];
    for i := 0 to |players|
      invariant var r := PlayersSync(ctx, players[..i], tracking);
                sheet.trackingData == r.tracking && Batches(r.perPlayer) == Flushed(written, outputRows)
    {
      PlayersSyncStep(ctx, players, i, tracking);
      var rows := SyncPlayer(ctx, players[i], sheet);
      outputRows := outputRows + rows;
      if i % FlushEvery == 0 {
        written := written + [outputRows];
        outputRows := [];
      }
    }
    assert players[..|players|] == players;
    unwritten := outputRows;
  }

  /** The whole program on its inputs: the roster rows, the tracking rows and the clock. The
      sheet's dictionary is built from the tracking rows, the players from the roster rows, and
      the pass writes its batches. */
  method Run(ctx: Context, rosterRows: seq<Row>, trackingRows: seq<Row>) returns (written: seq<seq<OutputRow>>)
    ensures written == Pass(ctx, PlayersOf(rosterRows), Tracking(trackingRows, ctx.dates.parse)).written
  {
    var sheet := new Sheet();
    sheet.PopulateLastTrackedData(trackingRows, ctx.dates.parse);
    var players := GetPlayers(rosterRows);
    var unwritten;
    written, unwritten := Sync(ctx, players, sheet);
  }

  // ---------------------------------------------------------------------------------------------
  // The queries answered by the tracker engine
  // ---------------------------------------------------------------------------------------------

  /** The queries as the engine answers them on a transport, reading a day's calendar fields. */
  function TrackerOracles(transport: Transport, dates: DateLibrary): Oracles {
    Oracles((id: string, pf: string, playlist: Playlist, day: int) => PureMMR(transport, id, pf, playlist, dates.calendar(day)),
            (id: string, pf: string, playlist: Playlist) => PureGamesPlayed(transport, id, pf, playlist))
  }

  /** The engine's answers for an account whose profile and history fetches succeed. */
  lemma TrackerAnswers(transport: Transport, dates: DateLibrary, id: string, pf: string, playlist: Playlist, day: int)
    requires PureHistory(transport, id, pf).Ok?
    ensures ProfileOf(transport, id, pf).Ok?
    ensures TrackerOracles(transport, dates).mmr(id, pf, playlist, day)
            == Ok(RatingOn(PureHistory(transport, id, pf).value, playlist, dates.calendar(day)))
    ensures TrackerOracles(transport, dates).gamesPlayed(id, pf, playlist)
            == Ok(GamesPlayed(ProfileOf(transport, id, pf).value.segments, playlist))
  {
    var oracles, on := TrackerOracles(transport, dates), dates.calendar(day);
    assert oracles.mmr(id, pf, playlist, day) == PureMMR(transport, id, pf, playlist, on);
    assert oracles.gamesPlayed(id, pf, playlist) == PureGamesPlayed(transport, id, pf, playlist);
  }

  /** Against the engine, a day of an account whose profile and history fetches succeed gives a
      row exactly when its day string has a non-zero rating for one of the playlists, with those
      ratings and the games-played counts of the first matching segments. */
  lemma TrackerDay(transport: Transport, dates: DateLibrary, now: Instant, player: Player, account: Account, day: int)
    requires PureHistory(transport, account.platformID, account.platform).Ok?
    ensures var ctx := Context(TrackerOracles(transport, dates), dates, now);
            var h := PureHistory(transport, account.platformID, account.platform).value;
            var on := dates.calendar(day);
            var outcome := Day(ctx, player, account, day);
            && !outcome.Failed?
            && (outcome.Skipped? <==> RatingOn(h, RankedTwos, on).None? && RatingOn(h, RankedThrees, on).None?)
            && (outcome.Emitted? ==>
                  && outcome.row.twosMMR == RatingOn(h, RankedTwos, on)
                  && outcome.row.threesMMR == RatingOn(h, RankedThrees, on)
                  && outcome.row.twosGamesPlayed == GamesPlayed(ProfileOf(transport, account.platformID, account.platform).value.segments, RankedTwos)
                  && outcome.row.threesGamesPlayed == GamesPlayed(ProfileOf(transport, account.platformID, account.platform).value.segments, RankedThrees))
  {
    var ctx := Context(TrackerOracles(transport, dates), dates, now);
    TrackerAnswers(transport, dates, account.platformID, account.platform, RankedTwos, day);
    TrackerAnswers(transport, dates, account.platformID, account.platform, RankedThrees, day);
    DayOutcomes(ctx, player, account, day);
  }
}
