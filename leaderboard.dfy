/** The display helpers of the leaderboard screen: ordinal rank labels, player
    name truncation, podium colours and the rows built from the stored entries. */
module Leaderboard {
  import Settings

  /** A Java reference that may be null. */
  datatype Option<T> = None | Some(value: T)

  // ---------------------------------------------------------------------------
  // Decimal rendering of integers (Java's String.valueOf(int))

  predicate IsDigit(c: char)
  {
    '0' as int <= c as int <= '9' as int
  }

  function DigitChar(d: nat): (c: char)
    requires d < 10
    ensures IsDigit(c) && c as int - '0' as int == d
  {
    ('0' as int + d) as char
  }

  /** The shortest decimal numeral of n. */
  function NatToString(n: nat): (s: string)
    ensures |s| >= 1
    ensures forall c :: c in s ==> IsDigit(c)
    ensures n > 0 ==> s[0] != '0'
    decreases n
  {
    if n < 10 then [DigitChar(n)] else NatToString(n / 10) + [DigitChar(n % 10)]
  }

  /** A leading minus sign for negative numbers, then the digits. */
  function IntToString(n: int): (s: string)
    ensures |s| >= 1
    ensures s[0] == '-' <==> n < 0
  {
    var digits := NatToString(if n < 0 then -n else n);
    assert digits[0] in digits;
    if n < 0 then "-" + digits else digits
  }

  /** The value of a string of decimal digits. */
  function DigitsValue(s: string): nat
    requires forall c :: c in s ==> IsDigit(c)
  {
    if s == [] then 0
    else
      assert s[|s| - 1] in s && IsDigit(s[|s| - 1]);
      DigitsValue(s[..|s| - 1]) * 10 + (s[|s| - 1] as int - '0' as int)
  }

  /** Reading back a rendered natural number gives the number. */
  lemma {:induction false} NatToStringRoundTrip(n: nat)
    ensures DigitsValue(NatToString(n)) == n
    decreases n
  {
    if n >= 10 {
      var s := NatToString(n);
      NatToStringRoundTrip(n / 10);
      assert s[..|s| - 1] == NatToString(n / 10);
    }
  }

  /** Different integers render differently. */
  lemma {:induction false} IntToStringInjective(a: int, b: int)
    requires IntToString(a) == IntToString(b)
    ensures a == b
  {
    if a < 0 {
      assert IntToString(a)[1..] == NatToString(-a);
      assert IntToString(b)[1..] == NatToString(-b);
      NatToStringRoundTrip(-a);
      NatToStringRoundTrip(-b);
    } else {
      NatToStringRoundTrip(a);
      NatToStringRoundTrip(b);
    }
  }

  // ---------------------------------------------------------------------------
  // Rank labels

  /** "1st", "2nd", "3rd", and the number followed by "th" for every other rank:
      every label is the rank's numeral followed by a two-letter suffix, and the
      suffix is "th" exactly off the podium. */
  function RankDisplay(rank: int): (s: string)
    ensures |s| >= 3 && s[..|s| - 2] == IntToString(rank)
    ensures s[|s| - 2..] == "th" <==> !(1 <= rank <= 3)
  {
    if rank == 1 then "1st"
    else if rank == 2 then "2nd"
    else if rank == 3 then "3rd"
    else IntToString(rank) + "th"
  }

  /** Every rank other than the podium ranks reads as its numeral plus "th", and
      no two ranks share a label. */
  lemma {:induction false} RankDisplayInjective(a: int, b: int)
    requires RankDisplay(a) == RankDisplay(b)
    ensures a == b
  {
    var s := RankDisplay(a);
    var t := RankDisplay(b);
    if a !in {1, 2, 3} && b !in {1, 2, 3} {
      assert IntToString(a) == s[..|s| - 2];
      assert IntToString(b) == t[..|t| - 2];
      IntToStringInjective(a, b);
    } else if a !in {1, 2, 3} {
      // "…th" against one of "1st", "2nd", "3rd": the next-to-last letters differ
      assert false;
    } else if b !in {1, 2, 3} {
      PodiumLabelsStandApart(a, b);
      assert false;
    }
  }

  /** A podium label ("1st", "2nd", "3rd") is never a "…th" label. */
  lemma PodiumLabelsStandApart(podium: int, other: int)
    requires podium in {1, 2, 3} && other !in {1, 2, 3}
    ensures RankDisplay(podium) != RankDisplay(other)
  {
    var t := RankDisplay(other);
    assert t[|t| - 2] == 't';
  }

  // ---------------------------------------------------------------------------
  // Player names

  const MaxNameLength: nat := 15
  const KeptNameLength: nat := 12
  const Ellipsis: string := "..."
  const UnknownName: string := "Unknown"

  /** A missing name reads "Unknown"; a name longer than 15 characters keeps its
      first 12 and gains "..."; any other name is shown as it is. */
  function TruncateName(name: Option<string>): (r: string)
    ensures |r| <= MaxNameLength
    ensures name.None? ==> r == UnknownName
    ensures name.Some? && |name.value| <= MaxNameLength ==> r == name.value
    ensures name.Some? && |name.value| > MaxNameLength ==>
      && |r| == MaxNameLength
      && r[..KeptNameLength] == name.value[..KeptNameLength]
      && r[KeptNameLength..] == Ellipsis
  {
    match name
    case None => UnknownName
    case Some(s) => if |s| > MaxNameLength then s[..KeptNameLength] + Ellipsis else s
  }

  /** Truncating an already shown name changes nothing. */
  lemma TruncateNameIdempotent(name: Option<string>)
    ensures TruncateName(Some(TruncateName(name))) == TruncateName(name)
  {
  }

  // ---------------------------------------------------------------------------
  // Rows of the leaderboard table

  /** The label colours used by the table; Bronze is (0.8, 0.5, 0.2, 1). */
  datatype Colour = Gold | LightGray | Bronze | White

  /** Gold, light grey and bronze for the podium, white for everyone else. */
  function RowColour(rank: int): (c: Colour)
    ensures c != White <==> 1 <= rank <= 3
  {
    if rank == 1 then Gold
    else if rank == 2 then LightGray
    else if rank == 3 then Bronze
    else White
  }

  /** The podium colours are pairwise distinct, so the top three rows are told apart. */
  lemma PodiumColoursDistinct(a: int, b: int)
    requires 1 <= a <= 3 && 1 <= b <= 3 && a != b
    ensures RowColour(a) != RowColour(b)
  {
  }

  /** A stored score: a possibly missing name, the score, and a possibly missing
      difficulty label. */
  datatype Entry = Entry(name: Option<string>, score: int, difficulty: Option<string>)

  /** One row of the table: the message shown when there are no entries, or the
      four labels of one entry, all in the row's colour. */
  datatype Row =
    | Message(text: string, colour: Colour)
    | ScoreRow(rank: string, name: string, score: string, difficulty: string, colour: Colour)

  const EmptyMessage: string := "No scores yet!"

  /** A stored difficulty label is shown as it is; a missing one is shown as
      the display name of the default difficulty, Normal. */
  function DifficultyLabel(d: Option<string>): (s: string)
    ensures d.Some? ==> s == d.value
    ensures d.None? ==> s == Settings.DisplayName(Settings.Normal)
  {
    match d
    case Some(s) => s
    case None => "Normal"
  }

  /** The row of one entry at the given rank: a score row whose rank label is
      the rank's numeral with a suffix that is "th" exactly when the colour is
      white, which is exactly off the podium; whose name fits in 15 characters;
      whose score carries a sign exactly when negative; and whose difficulty
      falls back to Normal. */
  function EntryRow(rank: int, e: Entry): (r: Row)
    ensures r.ScoreRow?
    ensures |r.rank| >= 3 && r.rank[..|r.rank| - 2] == IntToString(rank)
    ensures r.rank[|r.rank| - 2..] == "th" <==> r.colour == White
    ensures (r.colour == White) <==> !(1 <= rank <= 3)
    ensures |r.name| <= MaxNameLength
    ensures |r.score| >= 1 && (r.score[0] == '-' <==> e.score < 0)
    ensures e.difficulty.None? ==> r.difficulty == Settings.DisplayName(Settings.Normal)
  {
    ScoreRow(RankDisplay(rank), TruncateName(e.name), IntToString(e.score), DifficultyLabel(e.difficulty), RowColour(rank))
  }

  /** The rows under the header: only the light-grey "No scores yet!" message for
      an empty leaderboard, otherwise one row per entry, in list order, ranked
      1, 2, 3, ... */
  method LeaderboardRows(entries: seq<Entry>) returns (rows: seq<Row>)
    ensures entries == [] ==> rows == [Message(EmptyMessage, LightGray)]
    ensures entries != [] ==> |rows| == |entries|
    ensures entries != [] ==> forall k :: 0 <= k < |entries| ==> rows[k] == EntryRow(k + 1, entries[k])
  {
    if |entries| == 0 {
      rows := [Message(EmptyMessage, LightGray)];
      return;
    }
    rows := [];
    var rank := 1;
    var i := 0;
    while i < |entries|
      invariant 0 <= i <= |entries|
      invariant rank == i + 1
      invariant |rows| == i
      invariant forall k :: 0 <= k < i ==> rows[k] == EntryRow(k + 1, entries[k])
    {
      rows := rows + [EntryRow(rank, entries[i])];
      rank := rank + 1;
      i := i + 1;
    }
  }
}
