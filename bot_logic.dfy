/** The lobby's bot generator: a batch of lords with a random name, house,
    temperament and power. */
module BotLogic {
  import opened Basics

  datatype Behavior = Aggressive | Diplomatic | Balanced

  datatype Bot = Bot(id: string, pseudo: string, house: string, behavior: Behavior, power: int, status: string)

  /** The names, kept as written (the second one starts with a space). */
  const BotNames: seq<string> := [
    "Walder Bot", " Ramsay Machine", "Joffrey AI", "Littlefinger Bot",
    "Varys Logic", "Tywin Compute", "The Mountain.exe", "Hound Proxy"]

  const BotHouses: seq<string> := ["Stark", "Lannister", "Baratheon", "Targaryen", "Greyjoy", "Martell", "Tyrell", "Bolton"]

  const MinPower := 5000
  const PowerSpan := 20000
  const SuffixSpan := 999

  /** The Math.random() draws one bot consumes, in call order, and the
      Date.now() reading taken for its id. `temper` is drawn only when
      `aggression` is at most 0.6. */
  datatype BotDraws = BotDraws(aggression: real, temper: real, name: real, suffix: real, house: real, power: real, clockMs: nat)

  predicate ValidDraws(d: BotDraws) {
    IsDraw(d.aggression) && IsDraw(d.temper) && IsDraw(d.name) && IsDraw(d.suffix) && IsDraw(d.house) && IsDraw(d.power)
  }

  /** `Math.random() > 0.6 ? "aggressive" : (Math.random() > 0.5 ? "diplomatic" : "balanced")`. */
  function Temperament(aggression: real, temper: real): (b: Behavior)
    ensures b == Aggressive <==> aggression > 0.6
    ensures b == Diplomatic <==> aggression <= 0.6 && temper > 0.5
    ensures b == Balanced <==> aggression <= 0.6 && temper <= 0.5
  {
    if aggression > 0.6 then Aggressive else if temper > 0.5 then Diplomatic else Balanced
  }

  /** `bot-${i}-${Date.now()}`. */
  function BotId(i: nat, clockMs: nat): string {
    "bot-" + NatToString(i) + "-" + NatToString(clockMs)
  }

  /** The position of the first dash of a string (its length when it has none). */
  function FirstDash(s: string): nat {
    if s == [] || s[0] == '-' then 0 else 1 + FirstDash(s[1..])
  }

  lemma {:induction false} FirstDashAfterDigits(digits: string, rest: string)
    requires AllDigits(digits)
    ensures FirstDash(digits + "-" + rest) == |digits|
  {
    if digits != [] {
      assert (digits + "-" + rest)[1..] == digits[1..] + "-" + rest;
      FirstDashAfterDigits(digits[1..], rest);
    }
  }

  /** An id determines both the position in the batch and the clock reading:
      the decimal digits contain no dash. */
  lemma BotIdInjective(i: nat, t: nat, j: nat, u: nat)
    requires BotId(i, t) == BotId(j, u)
    ensures i == j && t == u
  {
    var a, b, c, d := NatToString(i), NatToString(t), NatToString(j), NatToString(u);
    var s := BotId(i, t);
    assert s == "bot-" + a + "-" + b;
    assert s == "bot-" + c + "-" + d;
    assert s[4..] == a + "-" + b == c + "-" + d;
    FirstDashAfterDigits(a, b);
    FirstDashAfterDigits(c, d);
    assert a == s[4..4 + |a|] == c;
    assert b == s[5 + |a|..] == d;
    NatToStringInjective(i, j);
    NatToStringInjective(t, u);
  }

  /** The i-th bot of a batch. */
  function MakeBot(i: nat, d: BotDraws): (b: Bot)
    requires ValidDraws(d)
    ensures b.id == BotId(i, d.clockMs) && b.status == "online"
    ensures b.behavior == Temperament(d.aggression, d.temper)
    ensures MinPower <= b.power < MinPower + PowerSpan
    ensures b.house in BotHouses
    ensures exists k, m :: 0 <= k < |BotNames| && 0 <= m < SuffixSpan && b.pseudo == BotNames[k] + " #" + NatToString(m)
  {
    var k := ScaleDraw(d.name, |BotNames|);
    var m := ScaleDraw(d.suffix, SuffixSpan);
    Bot(BotId(i, d.clockMs), BotNames[k] + " #" + NatToString(m), BotHouses[ScaleDraw(d.house, |BotHouses|)],
        Temperament(d.aggression, d.temper), ScaleDraw(d.power, PowerSpan) + MinPower, "online")
  }

  /** generateBots(count): `count` bots, the i-th built from the i-th draws. */
  function GenerateBots(count: nat, draws: seq<BotDraws>): (r: seq<Bot>)
    requires |draws| == count && forall i :: 0 <= i < |draws| ==> ValidDraws(draws[i])
    ensures |r| == count
  {
    seq(count, i requires 0 <= i < count => MakeBot(i, draws[i]))
  }

  /** Every generated bot is online, of a listed house, with a power in
      [5000, 25000) and aggressive exactly when its first draw exceeds 0.6;
      no two share an id, whatever the clock reads. */
  lemma GeneratedBots(count: nat, draws: seq<BotDraws>)
    requires |draws| == count && forall i :: 0 <= i < |draws| ==> ValidDraws(draws[i])
    ensures var r := GenerateBots(count, draws);
      (forall i :: 0 <= i < count ==>
         r[i].status == "online" && r[i].house in BotHouses && MinPower <= r[i].power < MinPower + PowerSpan &&
         (r[i].behavior == Aggressive <==> draws[i].aggression > 0.6)) &&
      (forall i, j :: 0 <= i < j < count ==> r[i].id != r[j].id)
  {
    var r := GenerateBots(count, draws);
    forall i | 0 <= i < count
      ensures r[i].status == "online" && r[i].house in BotHouses && MinPower <= r[i].power < MinPower + PowerSpan &&
              (r[i].behavior == Aggressive <==> draws[i].aggression > 0.6)
    {
      assert r[i] == MakeBot(i, draws[i]);
    }
    GeneratedIdsDistinct(count, draws);
  }

  /** No two bots of a batch share an id. */
  lemma GeneratedIdsDistinct(count: nat, draws: seq<BotDraws>)
    requires |draws| == count && forall i :: 0 <= i < |draws| ==> ValidDraws(draws[i])
    ensures var r := GenerateBots(count, draws);
      forall i, j :: 0 <= i < j < count ==> r[i].id != r[j].id
  {
    var r := GenerateBots(count, draws);
    forall i, j | 0 <= i < j < count ensures r[i].id != r[j].id {
      assert r[i] == MakeBot(i, draws[i]) && r[j] == MakeBot(j, draws[j]);
      if r[i].id == r[j].id {
        BotIdInjective(i, draws[i].clockMs, j, draws[j].clockMs);
      }
    }
  }

  /** A bot id starts with "bot-", so it is never the host's id. */
  lemma GeneratedIdsNotHost(count: nat, draws: seq<BotDraws>)
    requires |draws| == count && forall i :: 0 <= i < |draws| ==> ValidDraws(draws[i])
    ensures var r := GenerateBots(count, draws);
      forall i :: 0 <= i < count ==> r[i].id != "host"
  {
    var r := GenerateBots(count, draws);
    forall i | 0 <= i < count ensures r[i].id != "host" {
      assert r[i] == MakeBot(i, draws[i]);
      assert r[i].id[0] == 'b';
    }
  }
}
