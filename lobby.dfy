/** The war room: a private room of at most eight seats, the host's and the
    bots'. */
module LobbyPage {
  import opened Basics
  import opened BotLogic

  const MaxPlayers := 8
  const BotsPerSummons := 3

  /** A seat of the player list: the host's mock entry or a generated bot. */
  datatype Seat =
    | HostSeat(id: string, pseudo: string, house: string, power: int, status: string, isHost: bool)
    | BotSeat(bot: Bot)

  /** The entry createRoom puts in for the current user. */
  const TheHost := HostSeat("host", "Vous (Seigneur)", "Votre Choix", 10000, "online", true)

  function SeatId(s: Seat): string {
    if s.BotSeat? then s.bot.id else s.id
  }

  function BotSeats(bots: seq<Bot>): (r: seq<Seat>)
    ensures |r| == |bots| && forall i :: 0 <= i < |bots| ==> r[i] == BotSeat(bots[i])
  {
    seq(|bots|, i requires 0 <= i < |bots| => BotSeat(bots[i]))
  }

  /** How many bots one press of "Convoquer des bots" adds to `n` seats:
      the free places, but at most three. */
  function SummonCount(n: nat): (k: nat)
    ensures n < MaxPlayers ==> k > 0 && k <= BotsPerSummons && n + k <= MaxPlayers
    ensures n >= MaxPlayers ==> k == 0
    ensures k == BotsPerSummons || n + k == MaxPlayers || n >= MaxPlayers
  {
    if MaxPlayers - n > 0 then Min(MaxPlayers - n, BotsPerSummons) else 0
  }

  /** From at most eight seats, every press adds three bots until the room
      is full: after `presses` presses the room holds min(8, n + 3 * presses)
      seats (a fresh room of one is full after three presses). */
  lemma {:induction false} PressesFillUpToCapacity(n: nat, presses: nat)
    requires n <= MaxPlayers
    ensures Seated(n, presses) == Min(MaxPlayers, n + BotsPerSummons * presses)
    decreases presses
  {
    if presses > 0 {
      PressesFillUpToCapacity(n + SummonCount(n), presses - 1);
    }
  }

  /** The seat count after `presses` presses starting from `n` seats. */
  function Seated(n: nat, presses: nat): nat
    decreases presses
  {
    if presses == 0 then n else Seated(n + SummonCount(n), presses - 1)
  }

  class Lobby {
    var roomCode: Option<string>
    var players: seq<Seat>

    ghost predicate Valid()
      reads this
    {
      |players| <= MaxPlayers
    }

    constructor ()
      ensures Valid() && roomCode == None && players == []
    {
      roomCode, players := None, [];
    }

    /** createRoom: open a room under `code` (the upper-cased base-36 digits
        of a Math.random() draw) with the host as its only seat. */
    method CreateRoom(code: string)
      modifies this
      ensures Valid() && roomCode == Some(code) && players == [TheHost] && players[0].isHost
    {
      roomCode := Some(code);
      players := [TheHost];
    }

    /** addBots: fill the free places, three at most, with generated bots;
        `draws` are the Math.random() and Date.now() readings of the batch. */
    method AddBots(draws: seq<BotDraws>)
      requires Valid() && |draws| >= BotsPerSummons && forall i :: 0 <= i < |draws| ==> ValidDraws(draws[i])
      modifies this
      ensures Valid() && roomCode == old(roomCode)
      ensures var k := SummonCount(|old(players)|);
        players == old(players) + BotSeats(GenerateBots(k, draws[..k]))
    {
      var remaining := MaxPlayers - |players|;
      if remaining > 0 {
        var k := Min(remaining, BotsPerSummons);
        var bots := GenerateBots(k, draws[..k]);
        players := players + BotSeats(bots);
      } else {
        assert SummonCount(|players|) == 0 && draws[..0] == [];
        assert BotSeats(GenerateBots(0, [])) == [];
      }
    }

    /** "Quitter": close the room; the seat list is kept until the next room. */
    method Leave()
      modifies this
      ensures roomCode == None && players == old(players)
    {
      roomCode := None;
    }
  }

  /** The host's seat and one batch of bots have distinct ids: the host is
      "host" and each bot's id carries its position in the batch. */
  lemma FirstSummonsIdsDistinct(k: nat, draws: seq<BotDraws>)
    requires k <= |draws| && forall i :: 0 <= i < |draws| ==> ValidDraws(draws[i])
    ensures var seats := [TheHost] + BotSeats(GenerateBots(k, draws[..k]));
      forall i, j :: 0 <= i < j < |seats| ==> SeatId(seats[i]) != SeatId(seats[j])
  {
    var bots := GenerateBots(k, draws[..k]);
    GeneratedIdsDistinct(k, draws[..k]);
    GeneratedIdsNotHost(k, draws[..k]);
    SeatIdsDistinct(bots);
  }

  /** Bots with distinct ids, none of them "host", seated after the host. */
  lemma SeatIdsDistinct(bots: seq<Bot>)
    requires forall i, j :: 0 <= i < j < |bots| ==> bots[i].id != bots[j].id
    requires forall i :: 0 <= i < |bots| ==> bots[i].id != "host"
    ensures var seats := [TheHost] + BotSeats(bots);
      forall i, j :: 0 <= i < j < |seats| ==> SeatId(seats[i]) != SeatId(seats[j])
  {
    var seats := [TheHost] + BotSeats(bots);
    forall i, j | 0 <= i < j < |seats| ensures SeatId(seats[i]) != SeatId(seats[j]) {
      assert SeatId(seats[j]) == bots[j - 1].id;
      if i > 0 {
        assert SeatId(seats[i]) == bots[i - 1].id;
      }
    }
  }
}
