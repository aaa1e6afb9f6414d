/** From the publisher to the subscriber: who receives the position that the relay broadcasts for a message. */
module Broadcasts {
  import Decimals
  import opened Positions
  import opened RoomNames
  import opened Rooms
  import Relay
  import RelayAuthority

  lemma WholeCell(v: nat)
    ensures Cell(v as real, 500) == v / 500
  {
    var q, r := v / 500, v % 500;
    assert v as real / 500.0 == q as real + r as real / 500.0;
  }

  /** The relay publishes on the very room of the grid that holds the player. */
  lemma ChannelIsGridRoom(x: nat, y: nat)
    ensures RelayChannel(x, y) == GridRoom(x as real, y as real, 500)
  {
    WholeCell(x);
    WholeCell(y);
  }

  /**
   A viewer is subscribed to the channel of a player's position exactly when the player's cell lies in
   the viewer's disc of cells.
   */
  lemma PublishedIsHeard(m: Message, name: string, vx: real, vy: real, radius: real)
    requires radius >= 0.0
    ensures PositionOf(m, name).channel in Names(500, ScannedCells(vx, vy, 500, radius))
            <==> Hears(vx, vy, 500, radius, m.x as real, m.y as real)
  {
    ChannelIsGridRoom(m.x, m.y);
    HearingIsSubscribing(vx, vy, 500, radius, m.x as real, m.y as real);
    hide GridRoom, Names, ScannedCells, Hears, RelayChannel;
  }

  lemma ReachOf(radius: real)
    ensures Reach(radius, 500) == 500.0 * (radius / 500.0).Floor as real
  {
    assert 500 as real == 500.0;
  }

  lemma RoomReachesViewers(vx: real, vy: real, radius: real, px: real, py: real)
    requires radius >= 0.0
    ensures var subscribed := GridRoom(px, py, 500) in Names(500, ScannedCells(vx, vy, 500, radius));
            var (dx, dy) := (Abs(px - vx), Abs(py - vy));
            && (subscribed <==> Hears(vx, vy, 500, radius, px, py))
            && (Square(dx + 500.0) + Square(dy + 500.0) <= Square(500.0 * (radius / 500.0).Floor as real) ==>
                  subscribed)
            && (subscribed ==> Square(Excess(dx - 500.0)) + Square(Excess(dy - 500.0)) <= Square(radius))
  {
    hide GridRoom, Names, ScannedCells, Hears, Square, Excess, Abs;
    HearingIsSubscribing(vx, vy, 500, radius, px, py);
    ReachOf(radius);
    var (dx, dy) := (Abs(px - vx), Abs(py - vy));
    if Square(dx + 500.0) + Square(dy + 500.0) <= Square(500.0 * (radius / 500.0).Floor as real) {
      NearbyIsHeard(vx, vy, 500, radius, px, py);
    }
    if GridRoom(px, py, 500) in Names(500, ScannedCells(vx, vy, 500, radius)) {
      HeardIsNearby(vx, vy, 500, radius, px, py);
    }
  }

  lemma ChannelOfCarried(p: Position, m: Message, name: string)
    requires Carries(p, m, name)
    ensures p.channel == GridRoom(p.x as real, p.y as real, 500)
  {
    ChannelIsGridRoom(m.x, m.y);
    RelayChannelText(m.x, m.y);
    hide RelayChannel, GridRoom, Decimals.Decimal;
  }

  lemma BroadcastRoom(setup: Relay.Setup, run: seq<Relay.Action>, i: nat)
    requires Relay.IsRun(setup, run) && i < |Relay.StateAfter(setup, run).log|
    requires Relay.StateAfter(setup, run).log[i].Broadcast?
    ensures var p := Relay.StateAfter(setup, run).log[i].position;
            p.channel == GridRoom(p.x as real, p.y as real, 500)
  {
    hide Relay.IsRun, Relay.StateAfter, GridRoom, Carries, RelayAuthority.Speaks, RelayAuthority.ReceivedUnder,
         RelayAuthority.Authorised;
    var msg, player := RelayAuthority.LabelsAreAuthorised(setup, run, i);
    var p := Relay.StateAfter(setup, run).log[i].position;
    ChannelOfCarried(p, msg, p.name);
  }

  /**
   In every interleaving, whatever is broadcast reaches exactly the viewers whose disc of cells holds
   the position it carries: all that are closer than the radius in whole cells by a cell on each axis,
   and none that are farther than the radius by a cell on each axis.
   */
  lemma BroadcastsReachViewers(setup: Relay.Setup, run: seq<Relay.Action>, i: nat, vx: real, vy: real, radius: real)
    requires Relay.IsRun(setup, run) && i < |Relay.StateAfter(setup, run).log| && radius >= 0.0
    requires Relay.StateAfter(setup, run).log[i].Broadcast?
    ensures var p := Relay.StateAfter(setup, run).log[i].position;
            var subscribed := p.channel in Names(500, ScannedCells(vx, vy, 500, radius));
            var (dx, dy) := (Abs(p.x as real - vx), Abs(p.y as real - vy));
            && (subscribed <==> Hears(vx, vy, 500, radius, p.x as real, p.y as real))
            && (Square(dx + 500.0) + Square(dy + 500.0) <= Square(500.0 * (radius / 500.0).Floor as real) ==>
                  subscribed)
            && (subscribed ==> Square(Excess(dx - 500.0)) + Square(Excess(dy - 500.0)) <= Square(radius))
  {
    hide Relay.IsRun, Relay.StateAfter, GridRoom, Names, ScannedCells, Hears, Square, Excess, Abs;
    var p := Relay.StateAfter(setup, run).log[i].position;
    BroadcastRoom(setup, run, i);
    RoomReachesViewers(vx, vy, radius, p.x as real, p.y as real);
  }
}
