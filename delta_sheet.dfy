/**
 * The row logic of src/delta-sheet.ts: turning roster rows into players and their accounts,
 * building the last-pull-date dictionary from the tracking rows, and projecting output rows to
 * the seven written columns with the range they are written to. The sheet reads and writes
 * themselves are I/O; their data are parameters here.
 */
module DeltaSheetModel {
  import opened Wrappers
  import opened Text

  /** A sheet row as the API returns it: trailing empty cells are omitted. */
  type Row = seq<string>

  /** What a missing cell (`undefined`) turns into when used as a key or in a template string. */
  const Undefined: string := "undefined"

  /** `row[i]` where it is used as a string. */
  function Cell(row: Row, i: nat): string {
    if i < |row| then row[i] else Undefined
  }

  datatype Account = Account(platformID: string, platform: string, accountID: string)

  datatype Player = Player(deltaID: string, name: string, accounts: seq<Account>)

  /** One output row, as main.ts assembles it; a `None` rating is the source's `null`. */
  datatype OutputRow = OutputRow(playerID: string, accountID: string, playerName: string, dateTime: string,
                                 twosMMR: Option<int>, twosGamesPlayed: int,
                                 threesMMR: Option<int>, threesGamesPlayed: int)

  // ---------------------------------------------------------------------------------------------
  // Roster rows to players
  // ---------------------------------------------------------------------------------------------

  /** The filter of `getPlayers`: cell 1 (the name) is present and non-empty. */
  predicate IsPlayerRow(row: Row) {
    |row| > 1 && |row[1]| > 0
  }

  /** `frags[i]` where it is used as a string. */
  function Fragment(frags: seq<string>, i: nat): string {
    if i < |frags| then frags[i] else Undefined
  }

  /** An account from a profile URL and the id in the cell before it: the URL is split on '/',
      and platform and platform id sit at fragments 4 and 5 when fragment 3 is 'profile', at 5
      and 6 otherwise. */
  function ParseAccount(url: string, accountID: string): Account {
    var frags := Split(url, '/');
    var idx := if Fragment(frags, 3) == "profile" then 4 else 5;
    Account(Fragment(frags, idx + 1), Fragment(frags, idx), accountID)
  }

  /** The accounts of cells i, i + 2, ... below the row length, each paired with the cell before. */
  function AccountsFrom(row: Row, i: nat): seq<Account>
    requires i >= 1
    decreases |row| - i
  {
    if i >= |row| then [] else [ParseAccount(row[i], row[i - 1])] + AccountsFrom(row, i + 2)
  }

  function PlayerOf(row: Row): Player
    requires IsPlayerRow(row)
  {
    Player(row[0], row[1], AccountsFrom(row, 3))
  }

  /** The rows that pass the filter, in order. */
  function PlayerRows(rows: seq<Row>): (kept: seq<Row>)
    ensures forall i :: 0 <= i < |kept| ==> IsPlayerRow(kept[i])
  {
    if rows == [] then []
    else PlayerRows(rows[..|rows| - 1]) + if IsPlayerRow(rows[|rows| - 1]) then [rows[|rows| - 1]] else []
  }

  /** The players of `getPlayers`: filter, then map each kept row to its player. */
  function PlayersOf(rows: seq<Row>): seq<Player> {
    var kept := PlayerRows(rows);
    seq(|kept|, i requires 0 <= i < |kept| => PlayerOf(kept[i]))
  }

  /** The map step of `getPlayers`: the stepped loop over a row's cells. */
  method ParsePlayer(row: Row) returns (player: Player)
    requires IsPlayerRow(row)
    ensures player == PlayerOf(row)
  {
    var accounts: seq<Account> := [];
    var i := 3;
    while i < |row|
      invariant i >= 3
      invariant accounts + AccountsFrom(row, i) == AccountsFrom(row, 3)
      decreases |row| - i
    {
      var urlFragments := Split(row[i], '/');
      var indexOfPlatform := 5;
      if Fragment(urlFragments, 3) == "profile" {
        indexOfPlatform := 4;
      }
      var accountID := row[i - 1];
      var account := Account(Fragment(urlFragments, indexOfPlatform + 1), Fragment(urlFragments, indexOfPlatform), accountID);
      AccountsStep(row, i, accounts, account);
      accounts := accounts + [account];
      i := i + 2;
    }
    player := Player(row[0], row[1], accounts);
  }

  /** One turn of the stepped loop: the account built from cell i moves from the accounts still
      to come to the accounts gathered. */
  lemma AccountsStep(row: Row, i: nat, gathered: seq<Account>, account: Account)
    requires 1 <= i < |row|
    requires account == ParseAccount(row[i], row[i - 1])
    ensures gathered + AccountsFrom(row, i) == (gathered + [account]) + AccountsFrom(row, i + 2)
  {
    assert AccountsFrom(row, i) == [account] + AccountsFrom(row, i + 2);
  }

  method GetPlayers(rows: seq<Row>) returns (players: seq<Player>)
    ensures players == PlayersOf(rows)
  {
    var kept: seq<Row> := [];
    for k := 0 to |rows|
      invariant kept == PlayerRows(rows[..k])
    {
      assert rows[..k + 1][..k] == rows[..k];
      if IsPlayerRow(rows[k]) {
        kept := kept + [rows[k]];
      }
    }
    assert rows[..|rows|] == rows;
    players := [];
    for k := 0 to |kept|
      invariant |players| == k
      invariant forall j :: 0 <= j < k ==> players[j] == PlayerOf(kept[j])
    {
      var player := ParsePlayer(kept[k]);
      players := players + [player];
    }
  }

  /** The filter keeps order: the kept rows of two blocks are the kept rows of each, in turn. */
  lemma {:induction false} PlayerRowsAppend(a: seq<Row>, b: seq<Row>)
    ensures PlayerRows(a + b) == PlayerRows(a) + PlayerRows(b)
    decreases |b|
  {
    if b != [] {
      var b' := b[..|b| - 1];
      assert (a + b)[..|a + b| - 1] == a + b';
      PlayerRowsAppend(a, b');
    } else {
      assert a + b == a;
    }
  }

  /** The filter keeps exactly the rows with a non-empty cell 1. */
  lemma {:induction false} PlayerRowsMembers(rows: seq<Row>, row: Row)
    ensures row in PlayerRows(rows) <==> row in rows && IsPlayerRow(row)
    decreases |rows|
  {
    if rows != [] {
      PlayerRowsMembers(rows[..|rows| - 1], row);
      assert rows == rows[..|rows| - 1] + [rows[|rows| - 1]];
    }
  }

  /** A row yields one account per odd index from i on below its length. */
  lemma {:induction false} AccountsCount(row: Row, i: nat)
    requires i >= 1
    ensures |AccountsFrom(row, i)| == if |row| <= i then 0 else (|row| - i + 1) / 2
    decreases |row| - i
  {
    if i < |row| {
      AccountsCount(row, i + 2);
    }
  }

  /** The k-th account from index i on is built from cells i + 2k (the URL) and i + 2k - 1
      (the account id). */
  lemma {:induction false} AccountAt(row: Row, i: nat, k: nat)
    requires i >= 1 && k < |AccountsFrom(row, i)|
    ensures i + 2 * k < |row| && AccountsFrom(row, i)[k] == ParseAccount(row[i + 2 * k], row[i + 2 * k - 1])
    decreases k
  {
    if k > 0 {
      AccountAt(row, i + 2, k - 1);
    }
  }

  /** The players: one per kept row, in order, named by cells 0 and 1, with one account per
      URL cell 3, 5, 7, ... and the account id from the cell before. */
  lemma PlayersLayout(rows: seq<Row>, j: int, k: int)
    requires 0 <= j < |PlayersOf(rows)|
    ensures var row, p := PlayerRows(rows)[j], PlayersOf(rows)[j];
            && p.deltaID == row[0] && p.name == row[1] && |p.name| > 0
            && |p.accounts| == (if |row| <= 3 then 0 else (|row| - 2) / 2)
            && (0 <= k < |p.accounts| ==> p.accounts[k] == ParseAccount(row[3 + 2 * k], row[2 + 2 * k]))
  {
    var row := PlayerRows(rows)[j];
    AccountsCount(row, 3);
    if 0 <= k < |AccountsFrom(row, 3)| {
      AccountAt(row, 3, k);
    }
  }

  /** When a row has an odd number of cells, its last cell (an account id with no URL after it)
      is never read. */
  lemma TrailingIdIgnored(row: Row, v: string)
    requires IsPlayerRow(row) && |row| % 2 == 1 && |row| >= 3
    ensures IsPlayerRow(row[|row| - 1 := v]) && PlayerOf(row[|row| - 1 := v]) == PlayerOf(row)
  {
    AccountsIgnoreLastCell(row, v, 3);
  }

  lemma {:induction false} AccountsIgnoreLastCell(row: Row, v: string, i: nat)
    requires |row| % 2 == 1 && i >= 1 && i % 2 == 1
    ensures AccountsFrom(row[|row| - 1 := v], i) == AccountsFrom(row, i)
    decreases |row| - i
  {
    if i < |row| {
      AccountsIgnoreLastCell(row, v, i + 2);
    }
  }

  /** A URL of the form scheme//host/profile/platform/id[/...] gives that platform and id. */
  lemma ParseShortProfileUrl(scheme: string, host: string, platform: string, id: string, rest: seq<string>, accountID: string)
    requires forall part :: part in [scheme, host, platform, id] + rest ==> '/' !in part
    ensures ParseAccount(Join([scheme, "", host, "profile", platform, id] + rest, '/'), accountID)
            == Account(id, platform, accountID)
  {
    var parts := [scheme, "", host, "profile", platform, id] + rest;
    forall i | 0 <= i < |parts| ensures '/' !in parts[i] {
      if i >= 6 {
        assert parts[i] in [scheme, host, platform, id] + rest;
      }
    }
    SplitJoin(parts, '/');
  }

  /** A URL of the form scheme//host/section/x/platform/id[/...] with a section other than
      'profile' gives the platform and id after the second section. */
  lemma ParseLongProfileUrl(scheme: string, host: string, section: string, x: string, platform: string, id: string,
                            rest: seq<string>, accountID: string)
    requires section != "profile"
    requires forall part :: part in [scheme, host, section, x, platform, id] + rest ==> '/' !in part
    ensures ParseAccount(Join([scheme, "", host, section, x, platform, id] + rest, '/'), accountID)
            == Account(id, platform, accountID)
  {
    var parts := [scheme, "", host, section, x, platform, id] + rest;
    forall i | 0 <= i < |parts| ensures '/' !in parts[i] {
      if i >= 7 {
        assert parts[i] in [scheme, host, section, x, platform, id] + rest;
      }
    }
    SplitJoin(parts, '/');
  }

  // ---------------------------------------------------------------------------------------------
  // The last-pull-date dictionary
  // ---------------------------------------------------------------------------------------------

  /** A `Date` at day granularity; `InvalidDate` is what parsing an unreadable or missing text
      gives. */
  datatype Timestamp = At(day: int) | InvalidDate

  /** `date > current`: false when either side is not a valid date or is undefined. */
  predicate IsLater(date: Timestamp, current: Option<Timestamp>) {
    date.At? && current.Some? && current.value.At? && date.day > current.value.day
  }

  function Lookup(t: map<string, Timestamp>, key: string): Option<Timestamp> {
    if key in t then Some(t[key]) else None
  }

  /** `new Date(row[2])`. */
  function RowDate(row: Row, parse: string -> Timestamp): Timestamp {
    if 2 < |row| then parse(row[2]) else InvalidDate
  }

  /** One iteration of the tracking loop: the membership test reads cell 1, the comparison and
      the write use cell 0. Only the entry of cell 0 can change, and it becomes the row's date or
      stays; behind a cell-1 key a valid entry never moves back, while without one it is simply
      overwritten, even by an earlier or invalid date. */
  function TrackRow(t: map<string, Timestamp>, row: Row, parse: string -> Timestamp): (t': map<string, Timestamp>)
    ensures t.Keys <= t'.Keys <= t.Keys + {Cell(row, 0)}
    ensures forall k :: k in t && k != Cell(row, 0) ==> t'[k] == t[k]
    ensures Cell(row, 0) in t' ==> t'[Cell(row, 0)] == RowDate(row, parse) || (Cell(row, 0) in t && t'[Cell(row, 0)] == t[Cell(row, 0)])
    ensures Cell(row, 1) in t && Cell(row, 0) in t && t[Cell(row, 0)].At?
            ==> t'[Cell(row, 0)].At? && t'[Cell(row, 0)].day >= t[Cell(row, 0)].day
    ensures Cell(row, 1) in t && Cell(row, 0) !in t ==> t' == t
    ensures Cell(row, 1) !in t ==> Cell(row, 0) in t' && t'[Cell(row, 0)] == RowDate(row, parse)
  {
    var date := RowDate(row, parse);
    if Cell(row, 1) in t then
      if IsLater(date, Lookup(t, Cell(row, 0))) then t[Cell(row, 0) := date] else t
    else
      t[Cell(row, 0) := date]
  }

  /** The dictionary after the tracking rows, starting from an empty one. */
  function Tracking(rows: seq<Row>, parse: string -> Timestamp): map<string, Timestamp> {
    if rows == [] then map[]
    else TrackRow(Tracking(rows[..|rows| - 1], parse), rows[|rows| - 1], parse)
  }

  /** Every key of the dictionary is the cell 0 of some row. (Not every cell 0 becomes a key: a
      row whose cell 1 is already a key is only compared, and a missing entry is never later.) */
  lemma {:induction false} TrackingKeys(rows: seq<Row>, parse: string -> Timestamp, key: string)
    ensures key in Tracking(rows, parse) ==> exists i :: 0 <= i < |rows| && Cell(rows[i], 0) == key
    decreases |rows|
  {
    if rows != [] {
      var init := rows[..|rows| - 1];
      TrackingKeys(init, parse, key);
      if key in Tracking(init, parse) {
        var i :| 0 <= i < |init| && Cell(init[i], 0) == key;
        assert Cell(rows[i], 0) == key;
      }
    }
  }

  /** No row's cell 1 equals any row's cell 0 (player ids and account ids never coincide). */
  predicate ColumnsDisjoint(rows: seq<Row>) {
    forall i, j :: 0 <= i < |rows| && 0 <= j < |rows| ==> Cell(rows[i], 1) != Cell(rows[j], 0)
  }

  /** Row `i` is the last one for its account. */
  predicate IsLastForAccount(rows: seq<Row>, i: int)
    requires 0 <= i < |rows|
  {
    forall j :: i < j < |rows| ==> Cell(rows[j], 0) != Cell(rows[i], 0)
  }

  /** When cell 1 never names a key, every row overwrites its account's entry, so each account
      maps to the date of its LAST row, whether or not that date is the latest. */
  lemma {:induction false} TrackingLastRowWins(rows: seq<Row>, parse: string -> Timestamp, i: int)
    requires ColumnsDisjoint(rows) && 0 <= i < |rows| && IsLastForAccount(rows, i)
    ensures Lookup(Tracking(rows, parse), Cell(rows[i], 0)) == Some(RowDate(rows[i], parse))
    decreases |rows|
  {
    var init := rows[..|rows| - 1];
    var last := rows[|rows| - 1];
    assert ColumnsDisjoint(init) by {
      forall a, b | 0 <= a < |init| && 0 <= b < |init| ensures Cell(init[a], 1) != Cell(init[b], 0) {
        assert init[a] == rows[a] && init[b] == rows[b];
      }
    }
    if Cell(last, 1) in Tracking(init, parse) {
      TrackingKeys(init, parse, Cell(last, 1));
      assert false;
    }
    if i < |rows| - 1 {
      assert IsLastForAccount(init, i) by {
        forall j | i < j < |init| ensures Cell(init[j], 0) != Cell(init[i], 0) {
          assert init[j] == rows[j];
        }
      }
      TrackingLastRowWins(init, parse, i);
    }
  }

  /** A date reading: "x" is day 2, everything else day 1. */
  function QuirkDate(s: string): Timestamp {
    if s == "x" then At(2) else At(1)
  }

  /** The membership test on the player column: with rows for account "A" of player "P",
      dated day 2 and then day 1, the entry ends at day 1 (the later row wins, though earlier);
      had the test used the account column, the entry would have stayed at day 2. And an account
      whose player id is already a key never gets an entry of its own. */
  lemma PlayerColumnQuirk()
    ensures Tracking([["A", "P", "x"], ["A", "P", "y"]], QuirkDate) == map["A" := At(1)]
    ensures Tracking([["A", "A", "x"], ["A", "A", "y"]], QuirkDate) == map["A" := At(2)]
    ensures Tracking([["P", "Q", "x"], ["A", "P", "y"]], QuirkDate) == map["P" := At(2)]
  {
    var r1, r2 := ["A", "P", "x"], ["A", "P", "y"];
    assert [r1, r2][..1] == [r1];
    assert Tracking([r1], QuirkDate) == map["A" := At(2)];
    var q1, q2 := ["A", "A", "x"], ["A", "A", "y"];
    assert [q1, q2][..1] == [q1];
    assert Tracking([q1], QuirkDate) == map["A" := At(2)];
    var s1, s2 := ["P", "Q", "x"], ["A", "P", "y"];
    assert [s1, s2][..1] == [s1];
    assert Tracking([s1], QuirkDate) == map["P" := At(2)];
  }

  /** The sheet object's state: the last-pull-date dictionary. */
  class Sheet {
    var trackingData: map<string, Timestamp>

    constructor ()
      ensures trackingData == map[]
    {
      trackingData := map[];
    }

    /** Rebuilds the dictionary from the tracking rows, discarding whatever it held. */
    method PopulateLastTrackedData(data: seq<Row>, parse: string -> Timestamp)
      modifies this
      ensures trackingData == Tracking(data, parse)
    {
      trackingData := map[];
      for k := 0 to |data|
        invariant trackingData == Tracking(data[..k], parse)
      {
        var row := data[k];
        assert data[..k + 1][..k] == data[..k];
        if Cell(row, 1) in trackingData {
          var date := RowDate(row, parse);
          if IsLater(date, Lookup(trackingData, Cell(row, 0))) {
            trackingData := trackingData[Cell(row, 0) := date];
          }
        } else {
          trackingData := trackingData[Cell(row, 0) := RowDate(row, parse)];
        }
      }
      assert data[..|data|] == data;
    }

    /** The entry for the account id, or nothing (`undefined`) when there is none. */
    function LastPullDateForLinkID(accountID: string): (r: Option<Timestamp>)
      reads this
      ensures r.Some? <==> accountID in trackingData
      ensures r.Some? ==> r.value == trackingData[accountID]
    {
      Lookup(trackingData, accountID)
    }
  }

  /** After populating from rows whose columns are disjoint, an account's last pull date is the
      date of its last tracking row, and an account with no row has none. */
  method LastPullDateAfterPopulate(data: seq<Row>, parse: string -> Timestamp, accountID: string)
    returns (r: Option<Timestamp>)
    ensures (forall i :: 0 <= i < |data| ==> Cell(data[i], 0) != accountID) ==> r == None
    ensures forall i :: 0 <= i < |data| && ColumnsDisjoint(data) && IsLastForAccount(data, i) && Cell(data[i], 0) == accountID
              ==> r == Some(RowDate(data[i], parse))
  {
    var sheet := new Sheet();
    sheet.PopulateLastTrackedData(data, parse);
    r := sheet.LastPullDateForLinkID(accountID);
    TrackingKeys(data, parse, accountID);
    forall i | 0 <= i < |data| && ColumnsDisjoint(data) && IsLastForAccount(data, i) && Cell(data[i], 0) == accountID
      ensures r == Some(RowDate(data[i], parse))
    {
      TrackingLastRowWins(data, parse, i);
    }
  }

  // ---------------------------------------------------------------------------------------------
  // Output rows to written cells
  // ---------------------------------------------------------------------------------------------

  datatype CellValue = TextCell(text: string) | NumberCell(number: int) | NullCell

  function RatingCell(rating: Option<int>): CellValue {
    match rating
    case Some(v) => NumberCell(v)
    case None => NullCell
  }

  /** The seven written columns C..I: account id, player id, date, 2v2 rating, 2v2 games,
      3v3 rating, 3v3 games. */
  function RowCells(row: OutputRow): seq<CellValue> {
    [TextCell(row.accountID), TextCell(row.playerID), TextCell(row.dateTime),
     RatingCell(row.twosMMR), NumberCell(row.twosGamesPlayed),
     RatingCell(row.threesMMR), NumberCell(row.threesGamesPlayed)]
  }

  /** Two rows are written identically exactly when they agree on everything but the player
      name: the name is dropped and every other field has its own column. */
  lemma RowCellsDropOnlyName(a: OutputRow, b: OutputRow)
    ensures RowCells(a) == RowCells(b) <==> a.(playerName := b.playerName) == b
  {
    if RowCells(a) == RowCells(b) {
      assert RowCells(a)[3] == RowCells(b)[3] && RowCells(a)[5] == RowCells(b)[5];
      assert a.twosMMR == b.twosMMR by {
        if a.twosMMR.Some? || b.twosMMR.Some? {
        }
      }
    }
  }

  const InsertRangePrefix: string := "Daily Tracking!C"

  /** The range written to: from the row after the existing ones, columns C to I. */
  function InsertRange(existingRows: nat): string {
    InsertRangePrefix + NatToString(existingRows + 1) + ":I"
  }

  /** The range names the sheet, starts at column C on the row whose number reads back as one
      past the existing rows, and ends at column I. */
  lemma InsertRangeRow(existingRows: nat)
    ensures var r := InsertRange(existingRows);
            && |r| > |InsertRangePrefix| + 2
            && r[..|InsertRangePrefix|] == InsertRangePrefix
            && r[|r| - 2..] == ":I"
            && AllDigits(r[|InsertRangePrefix|..|r| - 2])
            && DigitsValue(r[|InsertRangePrefix|..|r| - 2]) == existingRows + 1
  {
    var r, n := InsertRange(existingRows), NatToString(existingRows + 1);
    assert r == InsertRangePrefix + (n + ":I");
    assert r[|InsertRangePrefix|..] == n + ":I";
    assert r[|InsertRangePrefix|..|r| - 2] == n;
    NatToStringRoundTrip(existingRows + 1);
  }

  /** The values update request of `insertHistoryRows`. */
  datatype UpdateRequest = UpdateRequest(range: string, values: seq<seq<CellValue>>)

  /** Projects each row, in order, to its seven cells and targets the rows after the existing
      ones; `existingRows` is the number of rows the read of column C returned. */
  method InsertHistoryRows(rows: seq<OutputRow>, existingRows: nat) returns (request: UpdateRequest)
    ensures request.range == InsertRange(existingRows)
    ensures |request.values| == |rows|
    ensures forall i :: 0 <= i < |rows| ==> request.values[i] == RowCells(rows[i])
  {
    var formattedRows: seq<seq<CellValue>> := [];
    for k := 0 to |rows|
      invariant |formattedRows| == k
      invariant forall i :: 0 <= i < k ==> formattedRows[i] == RowCells(rows[i])
    {
      formattedRows := formattedRows + [RowCells(rows[k])];
    }
    var insertRow := existingRows + 1;
    var insertRange := InsertRangePrefix + NatToString(insertRow) + ":I";
    request := UpdateRequest(insertRange, formattedRows);
  }
}
