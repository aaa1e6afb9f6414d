/**
 Names of grid rooms and the channel pattern of the broadcast schema.
 A room is named gridSize_column_row, each number printed in decimal.
 */
module RoomNames {
  import opened Decimals

  /** Two fields around an underscore. */
  function Joined(head: string, tail: string): string {
    head + "_" + tail
  }

  function RoomName(gridSize: int, i: int, j: int): string {
    Joined(Decimal(gridSize), Joined(Decimal(i), Decimal(j)))
  }

  lemma RoomNameText(gridSize: int, i: int, j: int)
    ensures RoomName(gridSize, i, j) == Decimal(gridSize) + "_" + Decimal(i) + "_" + Decimal(j)
  {
    hide Decimal;
  }

  /** Two fields joined by a separator that the first fields lack can be told apart. */
  lemma SeparatorSplits(a: string, b: string, c: string, d: string)
    requires '_' !in a && '_' !in c
    requires Joined(a, b) == Joined(c, d)
    ensures a == c && b == d
  {
    var s, t := Joined(a, b), Joined(c, d);
    assert s[|a|] == '_' && t[|c|] == '_';
    assert forall k | 0 <= k < |a| :: s[k] == a[k];
    assert forall k | 0 <= k < |c| :: t[k] == c[k];
    assert |a| == |c|;
    assert s[..|a|] == a && t[..|c|] == c;
    assert s[|a| + 1..] == b && t[|c| + 1..] == d;
  }

  /** No two rooms share a name, negative columns and rows included. */
  lemma RoomNameInjective(g1: int, i1: int, j1: int, g2: int, i2: int, j2: int)
    requires RoomName(g1, i1, j1) == RoomName(g2, i2, j2)
    ensures g1 == g2 && i1 == i2 && j1 == j2
  {
    DecimalShape(g1);
    DecimalShape(g2);
    DecimalShape(i1);
    DecimalShape(i2);
    SeparatorSplits(Decimal(g1), Joined(Decimal(i1), Decimal(j1)), Decimal(g2), Joined(Decimal(i2), Decimal(j2)));
    SeparatorSplits(Decimal(i1), Decimal(j1), Decimal(i2), Decimal(j2));
    DecimalInjective(g1, g2);
    DecimalInjective(i1, i2);
    DecimalInjective(j1, j2);
  }

  // ---- The channel pattern ----

  /** The pattern: two runs of digits, each followed by an underscore, then one to three digits. */
  ghost predicate MatchesChannel(s: string) {
    exists a, b, c :: ChannelParts(s, a, b, c)
  }

  predicate ChannelParts(s: string, a: string, b: string, c: string) {
    && s == a + "_" + b + "_" + c
    && a != [] && IsDigits(a)
    && b != [] && IsDigits(b)
    && 1 <= |c| <= 3 && IsDigits(c)
  }

  lemma NaturalLength(n: nat)
    ensures |Natural(n)| <= 3 <==> n <= 999
  {
    if n >= 10 {
      assert |Natural(n)| == 1 + |Natural(n / 10)|;
      if n >= 100 {
        assert |Natural(n / 10)| == 1 + |Natural(n / 10 / 10)|;
        if n >= 1000 {
          assert |Natural(n / 10 / 10)| == 1 + |Natural(n / 10 / 10 / 10)|;
        }
      }
    }
  }

  lemma MatchingParts(g: int, i: int, j: int, a: string, b: string, c: string)
    requires ChannelParts(RoomName(g, i, j), a, b, c)
    ensures a == Decimal(g) && b == Decimal(i) && c == Decimal(j)
  {
    hide Decimal;
    DecimalShape(g);
    DecimalShape(i);
    assert RoomName(g, i, j) == Joined(a, Joined(b, c));
    SeparatorSplits(Decimal(g), Joined(Decimal(i), Decimal(j)), a, Joined(b, c));
    SeparatorSplits(Decimal(i), Decimal(j), b, c);
  }

  /** The pattern refuses a room that lies left of or above the map, or below row 999. */
  lemma ChannelAccepts(g: int, i: int, j: int)
    ensures MatchesChannel(RoomName(g, i, j)) <==> 0 <= g && 0 <= i && 0 <= j <= 999
  {
    DecimalShape(g);
    DecimalShape(i);
    DecimalShape(j);
    if 0 <= g && 0 <= i && 0 <= j {
      NaturalLength(j);
    }
    if 0 <= g && 0 <= i && 0 <= j <= 999 {
      RoomNameText(g, i, j);
      assert ChannelParts(RoomName(g, i, j), Decimal(g), Decimal(i), Decimal(j));
    } else if MatchesChannel(RoomName(g, i, j)) {
      var a, b, c :| ChannelParts(RoomName(g, i, j), a, b, c);
      MatchingParts(g, i, j, a, b, c);
      assert false;
    }
  }

  // ---- The broadcast schema ----

  /** The checks of the position schema on the fields the relay fills from unsigned numbers. */
  ghost predicate SchemaAccepts(channel: string, x: int, y: int, flags: int) {
    && MatchesChannel(channel)
    && 0 <= x <= 81920
    && 0 <= y <= 114688
    && 0 <= flags && flags % 0x1_0000_0000 / 4 == 0 // 32 bits under the mask, and none but the two known flags
  }

  /** The relay's channel, at its grid size of 500. */
  function RelayChannel(x: int, y: int): string {
    RoomName(500, x / 500, y / 500)
  }

  lemma RelayChannelText(x: int, y: int)
    ensures RelayChannel(x, y) == "500_" + Decimal(x / 500) + "_" + Decimal(y / 500)
  {
    RoomNameText(500, x / 500, y / 500);
    assert Decimal(500) == "500";
  }

  /** On the map, a position is never discarded because of its channel. */
  lemma ChannelNeverDiscards(x: nat, y: nat, flags: nat)
    ensures SchemaAccepts(RelayChannel(x, y), x, y, flags)
            <==> x <= 81920 && y <= 114688 && flags % 0x1_0000_0000 <= 3
  {
    ChannelAccepts(500, x / 500, y / 500);
  }
}
