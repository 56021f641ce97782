/** The leaderboard routes: the tier of a score, the experience points it is worth,
    the all-time and monthly boards built from rows the database has already
    ordered by score, and a user's rank on the all-time board. */
module Leaderboard {
  import opened Common

  // ---------------------------------------------------------------------------
  // Tiers and experience points
  // ---------------------------------------------------------------------------

  /** The tier names, lowest first. */
  const TierNames: seq<string> := ["Bronze", "Silver", "Gold", "Platinum", "Diamond"]

  /** Position of a score's tier in TierNames: the first threshold it reaches,
      from the top. */
  function TierLevel(score: real): (k: nat)
    ensures k < |TierNames|
    ensures k == 4 <==> score >= 90.0
    ensures k == 3 <==> 75.0 <= score < 90.0
    ensures k == 2 <==> 60.0 <= score < 75.0
    ensures k == 1 <==> 45.0 <= score < 60.0
    ensures k == 0 <==> score < 45.0
  {
    if score >= 90.0 then 4
    else if score >= 75.0 then 3
    else if score >= 60.0 then 2
    else if score >= 45.0 then 1
    else 0
  }

  /** The tier of a score, by name. */
  function GetTier(score: real): (t: string)
    ensures t == TierNames[TierLevel(score)]
    ensures t == "Diamond" <==> score >= 90.0
    ensures t == "Bronze" <==> score < 45.0
  {
    TierNames[TierLevel(score)]
  }

  /** A higher score never earns a lower tier. */
  lemma GetTierMonotone(a: real, b: real)
    requires a <= b
    ensures TierLevel(a) <= TierLevel(b)
  {
  }

  /** `int(score * 12.5)`: truncation toward zero. */
  function ScoreToXp(score: real): (xp: int)
    ensures 0.0 <= score ==> 0 <= xp && xp as real <= score * 12.5 < xp as real + 1.0
    ensures score < 0.0 ==> xp <= 0 && xp as real - 1.0 < score * 12.5 <= xp as real
  {
    Trunc(score * 12.5)
  }

  /** For non-negative scores the points are the floor of 12.5 times the score, and
      they never fall as the score rises. */
  lemma ScoreToXpFloorMonotone(a: real, b: real)
    requires 0.0 <= a <= b
    ensures ScoreToXp(a) == (a * 12.5).Floor
    ensures ScoreToXp(a) <= ScoreToXp(b)
  {
    TruncMonotone(a * 12.5, b * 12.5);
  }

  // ---------------------------------------------------------------------------
  // The boards
  // ---------------------------------------------------------------------------

  /** A row of the all-time board; `createdAt` is kept opaque. */
  datatype Row = Row(userId: int, userName: string, score: real, createdAt: int)

  datatype Entry = Entry(userId: int, name: string, score: real, tier: string, xp: int, createdAt: int)

  /** One all-time board entry per row, in the rows' order. */
  function LeaderboardEntries(rows: seq<Row>): (entries: seq<Entry>)
    ensures |entries| == |rows|
    ensures forall i :: 0 <= i < |rows| ==>
      entries[i].userId == rows[i].userId && entries[i].name == rows[i].userName
      && entries[i].score == rows[i].score && entries[i].createdAt == rows[i].createdAt
    ensures forall i :: 0 <= i < |rows| ==>
      entries[i].tier == GetTier(rows[i].score) && entries[i].xp == ScoreToXp(rows[i].score)
  {
    seq(|rows|, i requires 0 <= i < |rows| =>
      Entry(rows[i].userId, rows[i].userName, rows[i].score, GetTier(rows[i].score), ScoreToXp(rows[i].score),
        rows[i].createdAt))
  }

  /** On a board ordered by descending score, tiers and points are ordered too. */
  lemma EntriesOrdered(rows: seq<Row>, i: nat, j: nat)
    requires i <= j < |rows| && rows[j].score <= rows[i].score
    ensures LeaderboardEntries(rows)[j].tier == TierNames[TierLevel(rows[j].score)]
    ensures LeaderboardEntries(rows)[i].tier == TierNames[TierLevel(rows[i].score)]
    ensures TierLevel(rows[j].score) <= TierLevel(rows[i].score)
    ensures LeaderboardEntries(rows)[j].xp <= LeaderboardEntries(rows)[i].xp
  {
    GetTierMonotone(rows[j].score, rows[i].score);
    TruncMonotone(rows[j].score * 12.5, rows[i].score * 12.5);
  }

  /** A footprint run of the last thirty days; a missing user id is None. */
  datatype Run = Run(userId: Option<int>, score: real, totalKg: real)

  datatype MonthlyEntry = MonthlyEntry(userId: Option<int>, name: string, score: real, totalKg: real, tier: string, xp: int)

  const Anonymous: string := "Anonymous"

  /** The name shown for a run: "User #<id>" when the id is set and not 0. */
  function MonthlyName(userId: Option<int>): (name: string)
    ensures userId.Some? && userId.value != 0 ==> name == "User #" + IntToString(userId.value)
    ensures !(userId.Some? && userId.value != 0) ==> name == Anonymous
  {
    if userId.Some? && userId.value != 0 then "User #" + IntToString(userId.value) else Anonymous
  }

  /** Two runs share a name exactly when both are anonymous or both belong to the
      same user. */
  lemma MonthlyNameDistinguishesUsers(a: Option<int>, b: Option<int>)
    ensures MonthlyName(a) == MonthlyName(b) <==>
      (a.Some? && a.value != 0 && b.Some? && b.value != 0 && a.value == b.value)
      || (!(a.Some? && a.value != 0) && !(b.Some? && b.value != 0))
  {
    var p := "User #";
    if a.Some? && a.value != 0 && b.Some? && b.value != 0 && MonthlyName(a) == MonthlyName(b) {
      assert IntToString(a.value) == MonthlyName(a)[|p|..];
      assert IntToString(b.value) == MonthlyName(b)[|p|..];
      IntToStringInjective(a.value, b.value);
    }
    if a.Some? && a.value != 0 {
      assert MonthlyName(a)[0] == 'U' != Anonymous[0];
    }
    if b.Some? && b.value != 0 {
      assert MonthlyName(b)[0] == 'U' != Anonymous[0];
    }
  }

  /** One monthly board entry per run, in the runs' order. */
  function MonthlyEntries(runs: seq<Run>): (entries: seq<MonthlyEntry>)
    ensures |entries| == |runs|
    ensures forall i :: 0 <= i < |runs| ==>
      entries[i].userId == runs[i].userId && entries[i].name == MonthlyName(runs[i].userId)
      && entries[i].score == runs[i].score && entries[i].totalKg == runs[i].totalKg
    ensures forall i :: 0 <= i < |runs| ==>
      entries[i].tier == GetTier(runs[i].score) && entries[i].xp == ScoreToXp(runs[i].score)
  {
    seq(|runs|, i requires 0 <= i < |runs| =>
      MonthlyEntry(runs[i].userId, MonthlyName(runs[i].userId), runs[i].score, runs[i].totalKg,
        GetTier(runs[i].score), ScoreToXp(runs[i].score)))
  }

  // ---------------------------------------------------------------------------
  // A user's rank
  // ---------------------------------------------------------------------------

  /** The 0-based position of the first row of the user, if any. */
  function FirstRowOf(rows: seq<Row>, userId: int): (k: Option<nat>)
    ensures k.Some? ==> (k.value < |rows| && rows[k.value].userId == userId
      && forall j :: 0 <= j < k.value ==> rows[j].userId != userId)
    ensures k.None? <==> forall j :: 0 <= j < |rows| ==> rows[j].userId != userId
  {
    if rows == [] then None
    else if rows[0].userId == userId then Some(0)
    else
      match FirstRowOf(rows[1..], userId)
      case None => None
      case Some(k) => Some(k + 1)
  }

  datatype RankInfo = Unranked | Ranked(rank: nat, score: real, tier: string, xp: int)

  /** The user's 1-based rank on the all-time board with that row's score, tier and
      points, or no rank when the user has no row. */
  method GetUserRank(rows: seq<Row>, userId: int) returns (info: RankInfo)
    ensures info.Unranked? <==> FirstRowOf(rows, userId).None?
    ensures info.Ranked? ==> 1 <= info.rank <= |rows| && info.rank - 1 == FirstRowOf(rows, userId).value
    ensures info.Ranked? ==> (rows[info.rank - 1].userId == userId
      && forall j :: 0 <= j < info.rank - 1 ==> rows[j].userId != userId)
    ensures info.Ranked? ==> (info.score == rows[info.rank - 1].score
      && info.tier == GetTier(info.score) && info.xp == ScoreToXp(info.score))
  {
    var idx := 1;
    while idx <= |rows|
      invariant 1 <= idx <= |rows| + 1
      invariant forall j :: 0 <= j < idx - 1 ==> rows[j].userId != userId
    {
      var r := rows[idx - 1];
      if r.userId == userId {
        FirstRowIsUnique(rows, userId, idx - 1);
        return Ranked(idx, r.score, GetTier(r.score), ScoreToXp(r.score));
      }
      idx := idx + 1;
    }
    return Unranked;
  }

  /** A matching row with no match before it is the first row of the user. */
  lemma FirstRowIsUnique(rows: seq<Row>, userId: int, k: nat)
    requires k < |rows| && rows[k].userId == userId
    requires forall j :: 0 <= j < k ==> rows[j].userId != userId
    ensures FirstRowOf(rows, userId) == Some(k)
  {
    var f := FirstRowOf(rows, userId);
    assert f.Some?;
  }

  /** The all-time board and the rank agree: the ranked user's entry sits at the
      rank's position with the rank's score, tier and points. */
  lemma RankMatchesBoard(rows: seq<Row>, userId: int)
    requires FirstRowOf(rows, userId).Some?
    ensures var k := FirstRowOf(rows, userId).value;
      LeaderboardEntries(rows)[k].userId == userId
      && LeaderboardEntries(rows)[k].tier == GetTier(rows[k].score)
      && LeaderboardEntries(rows)[k].xp == ScoreToXp(rows[k].score)
  {
  }
}
