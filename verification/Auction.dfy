/** The GPU auction: who wins a round, and the mining services that are stopped and started through the
    file of paused services. */
module Auction {
  import opened Wrappers

  datatype Winner = NoWinner | Mining | Kubernetes | Akash | Gaming

  /** What one round observes: whether a game runs, and the three bids. */
  datatype Round = Round(gaming: bool, mining: real, kubernetes: real, akash: real)

  /** The state files and the services systemd reports active. `paused` is None when there is no file. */
  datatype Market = Market(count: nat, winner: Winner, paused: Option<seq<string>>, active: set<string>)

  // ----- One round ------------------------------------------------------------------------------

  /** Mining is the default; a later bidder must bid strictly more than the best so far. */
  function Decide(r: Round): Winner {
    var best := if r.kubernetes > r.mining then r.kubernetes else r.mining;
    if r.akash > best then Akash else if r.kubernetes > r.mining then Kubernetes else Mining
  }

  function Append(file: Option<seq<string>>, line: string): Option<seq<string>> {
    Some((if file.Some? then file.value else []) + [line])
  }

  function PauseOne(m: Market, service: string): Market {
    if service in m.active
    then m.(active := m.active - {service}, paused := Append(m.paused, service))
    else m
  }

  function PauseAll(services: seq<string>, m: Market): Market {
    if services == [] then m
    else PauseOne(PauseAll(services[..|services| - 1], m), services[|services| - 1])
  }

  function StartAll(lines: seq<string>, active: set<string>): set<string> {
    if lines == [] then active
    else
      var rest := StartAll(lines[..|lines| - 1], active);
      if lines[|lines| - 1] == "" then rest else rest + {lines[|lines| - 1]}
  }

  function Resume(m: Market): Market {
    match m.paused
    case None => m
    case Some(lines) => m.(active := StartAll(lines, m.active), paused := None)
  }

  function ApplyProfile(services: seq<string>, m: Market, w: Winner): Market {
    match w
    case Mining => Resume(m)
    case Kubernetes => PauseAll(services, m)
    case Akash => PauseAll(services, m)
    case _ => m
  }

  function RunAuction(services: seq<string>, m: Market, r: Round): Market {
    var counted := m.(count := m.count + 1);
    if r.gaming then PauseAll(services, counted.(winner := Gaming))
    else if Decide(r) != m.winner then ApplyProfile(services, counted.(winner := Decide(r)), Decide(r))
    else counted
  }

  function RunAll(services: seq<string>, m: Market, rounds: seq<Round>): Market
    decreases rounds
  {
    if rounds == [] then m else RunAll(services, RunAuction(services, m, rounds[0]), rounds[1..])
  }

  /** A start of the engine resets the counter and the winner, and keeps the file. */
  function Restart(m: Market): Market {
    m.(count := 0, winner := NoWinner)
  }

  // ----- The winner -----------------------------------------------------------------------------

  function BidOf(r: Round, w: Winner): real {
    match w
    case Kubernetes => r.kubernetes
    case Akash => r.akash
    case _ => r.mining
  }

  /** The winner bids most, ties go to mining before Kubernetes before Akash, and only these three win. */
  lemma WinnerIsFirstBest(r: Round, w: Winner)
    ensures w == Decide(r) <==>
      && w in {Mining, Kubernetes, Akash}
      && BidOf(r, w) >= r.mining && BidOf(r, w) >= r.kubernetes && BidOf(r, w) >= r.akash
      && (w == Kubernetes ==> r.kubernetes > r.mining)
      && (w == Akash ==> r.akash > r.mining && r.akash > r.kubernetes)
  {
  }

  // ----- The memoryless rule --------------------------------------------------------------------

  function Elements(s: seq<string>): set<string> {
    set x | x in s
  }

  /** The services of the list that are active, each once, in the order of the list. */
  function Stopped(services: seq<string>, active: set<string>): seq<string> {
    if services == [] then []
    else
      var last := services[|services| - 1];
      var before := services[..|services| - 1];
      Stopped(before, active) + (if last in active && last !in before then [last] else [])
  }

  predicate MiningRuns(w: Winner) {
    w == NoWinner || w == Mining
  }

  /** Which services are active if nothing but the last winner counts: all that were active at first, or
      those without the managed ones. */
  function Memoryless(services: seq<string>, initial: set<string>, w: Winner): set<string> {
    if MiningRuns(w) then initial else initial - Elements(services)
  }

  function PausedFile(services: seq<string>, initial: set<string>, w: Winner): Option<seq<string>> {
    if MiningRuns(w) || Stopped(services, initial) == [] then None else Some(Stopped(services, initial))
  }

  predicate Follows(services: seq<string>, initial: set<string>, m: Market) {
    && m.active == Memoryless(services, initial, m.winner)
    && m.paused == PausedFile(services, initial, m.winner)
  }

  function AppendAll(file: Option<seq<string>>, lines: seq<string>): Option<seq<string>> {
    if lines == [] then file else Some((if file.Some? then file.value else []) + lines)
  }

  lemma {:induction false} PauseAllStops(services: seq<string>, m: Market)
    ensures PauseAll(services, m)
         == m.(active := m.active - Elements(services),
               paused := AppendAll(m.paused, Stopped(services, m.active)))
  {
    if services == [] {
      assert m.active - Elements(services) == m.active;
    } else {
      var last := services[|services| - 1];
      var before := services[..|services| - 1];
      PauseAllStops(before, m);
      assert services == before + [last];
      assert Elements(services) == Elements(before) + {last};
      assert m.active - Elements(services) == m.active - Elements(before) - {last};
      assert last in m.active - Elements(before) <==> last in m.active && last !in before;
      AppendOneMore(m.paused, Stopped(before, m.active), last);
    }
  }

  lemma AppendOneMore(file: Option<seq<string>>, lines: seq<string>, last: string)
    ensures Append(AppendAll(file, lines), last) == AppendAll(file, lines + [last])
    ensures lines + [] == lines
  {
    var f := if file.Some? then file.value else [];
    assert f + lines + [last] == f + (lines + [last]);
    assert f + [] == f;
  }

  /** The position of a service's first occurrence. */
  function First(services: seq<string>, x: string): (k: nat)
    requires x in services
    ensures k < |services| && services[k] == x && x !in services[..k]
  {
    if services[0] == x then 0 else 1 + First(services[1..], x)
  }

  lemma {:induction false} FirstInPrefix(services: seq<string>, more: seq<string>, x: string)
    requires x in services
    ensures First(services + more, x) == First(services, x)
  {
    if services[0] != x {
      assert (services + more)[1..] == services[1..] + more;
      FirstInPrefix(services[1..], more, x);
    }
  }

  /** Exactly the active services of the list. */
  lemma {:induction false} StoppedIs(services: seq<string>, active: set<string>)
    ensures Elements(Stopped(services, active)) == Elements(services) * active
    ensures Stopped(services, active) == [] <==> Elements(services) !! active
  {
    if services != [] {
      var last := services[|services| - 1];
      var before := services[..|services| - 1];
      StoppedIs(before, active);
      assert services == before + [last];
      assert Elements(services) == Elements(before) + {last};
      if last in active && last !in before {
        assert Stopped(services, active) == Stopped(before, active) + [last];
        assert Elements(Stopped(services, active)) == Elements(Stopped(before, active)) + {last};
      } else {
        assert Stopped(services, active) == Stopped(before, active);
      }
    }
  }

  ghost predicate InOrder(lines: seq<string>, services: seq<string>) {
    && (forall i :: 0 <= i < |lines| ==> lines[i] in services)
    && (forall i, j :: 0 <= i < j < |lines| ==> First(services, lines[i]) < First(services, lines[j]))
  }

  /** In list order; in particular no service twice. */
  lemma {:induction false} StoppedInOrder(services: seq<string>, active: set<string>)
    ensures InOrder(Stopped(services, active), services)
  {
    if services != [] {
      var last := services[|services| - 1];
      var before := services[..|services| - 1];
      StoppedInOrder(before, active);
      assert services == before + [last];
      InOrderLonger(Stopped(before, active), before, last);
    }
  }

  lemma InOrderLonger(lines: seq<string>, services: seq<string>, last: string)
    requires InOrder(lines, services)
    ensures InOrder(lines, services + [last])
    ensures last !in services ==> InOrder(lines + [last], services + [last])
  {
    forall i | 0 <= i < |lines|
      ensures First(services + [last], lines[i]) == First(services, lines[i]) < |services|
    {
      FirstInPrefix(services, [last], lines[i]);
    }
    var k := First(services + [last], last);
    assert k < |services| ==> services[k] == last;
  }

  lemma {:induction false} StartAllAdds(lines: seq<string>, active: set<string>)
    ensures StartAll(lines, active) == active + (Elements(lines) - {""})
  {
    if lines != [] {
      var last := lines[|lines| - 1];
      var before := lines[..|lines| - 1];
      StartAllAdds(before, active);
      ElementsOf(lines);
      OneMoreName(active, Elements(before), last);
    }
  }

  lemma ElementsOf(lines: seq<string>)
    requires lines != []
    ensures Elements(lines) == Elements(lines[..|lines| - 1]) + {lines[|lines| - 1]}
  {
    assert lines == lines[..|lines| - 1] + [lines[|lines| - 1]];
  }

  lemma OneMoreName(active: set<string>, names: set<string>, last: string)
    ensures active + (names + {last} - {""})
         == if last == "" then active + (names - {""}) else active + (names - {""}) + {last}
  {
  }

  lemma StoppedNamesNoBlank(services: seq<string>, active: set<string>)
    requires "" !in services
    ensures "" !in Elements(Stopped(services, active))
  {
    StoppedIs(services, active);
  }

  /** Stopping from a state that follows the rule: nothing is left to stop if mining was paused. */
  lemma PauseFollows(services: seq<string>, initial: set<string>, m: Market, w: Winner)
    requires Follows(services, initial, m) && !MiningRuns(w)
    ensures Follows(services, initial, PauseAll(services, m.(winner := w)))
  {
    PauseAllStops(services, m.(winner := w));
    assert [] + Stopped(services, initial) == Stopped(services, initial);
    if !MiningRuns(m.winner) {
      StoppedIs(services, m.active);
      assert m.active - Elements(services) == m.active;
    }
  }

  /** Starting what the file lists gives back exactly what was active at first. */
  lemma ResumeFollows(services: seq<string>, initial: set<string>, m: Market)
    requires Follows(services, initial, m) && "" !in services
    ensures Follows(services, initial, Resume(m.(winner := Mining)))
  {
    if m.paused.Some? {
      StartAllAdds(m.paused.value, m.active);
      StoppedIs(services, initial);
      StoppedNamesNoBlank(services, initial);
      assert initial - Elements(services) + (Elements(services) * initial - {""}) == initial;
    } else if !MiningRuns(m.winner) {
      StoppedIs(services, initial);
      assert Elements(services) !! initial;
      assert initial - Elements(services) == initial;
    }
  }

  lemma RoundFollows(services: seq<string>, initial: set<string>, m: Market, r: Round)
    requires Follows(services, initial, m) && "" !in services
    ensures Follows(services, initial, RunAuction(services, m, r))
  {
    var counted := m.(count := m.count + 1);
    assert Follows(services, initial, counted);
    if r.gaming {
      PauseFollows(services, initial, counted, Gaming);
    } else if Decide(r) != m.winner {
      if Decide(r) == Mining {
        ResumeFollows(services, initial, counted);
      } else {
        PauseFollows(services, initial, counted, Decide(r));
      }
    }
  }

  /** The winner of a sequence of rounds is that of its last round: a game, or the best bid. */
  function LastWinner(rounds: seq<Round>): Winner {
    if rounds == [] then NoWinner
    else if rounds[|rounds| - 1].gaming then Gaming
    else Decide(rounds[|rounds| - 1])
  }

  lemma {:induction false} RunAllWinner(services: seq<string>, m: Market, rounds: seq<Round>)
    ensures rounds != [] ==> RunAll(services, m, rounds).winner == LastWinner(rounds)
    ensures RunAll(services, m, rounds).count == m.count + |rounds|
    decreases rounds
  {
    if rounds != [] {
      var next := RunAuction(services, m, rounds[0]);
      PauseAllStops(services, m.(count := m.count + 1, winner := Gaming));
      PauseAllStops(services, m.(count := m.count + 1, winner := Decide(rounds[0])));
      assert next.winner == (if rounds[0].gaming then Gaming else Decide(rounds[0]));
      assert next.count == m.count + 1;
      RunAllWinner(services, next, rounds[1..]);
      if |rounds| == 1 {
        assert rounds[1..] == [];
      } else {
        assert rounds[|rounds| - 1] == rounds[1..][|rounds[1..]| - 1];
      }
    }
  }

  lemma {:induction false} RunAllFollows(services: seq<string>, initial: set<string>, m: Market, rounds: seq<Round>)
    requires Follows(services, initial, m) && "" !in services
    ensures Follows(services, initial, RunAll(services, m, rounds))
    decreases rounds
  {
    if rounds != [] {
      RoundFollows(services, initial, m, rounds[0]);
      RunAllFollows(services, initial, RunAuction(services, m, rounds[0]), rounds[1..]);
    }
  }

  /** The engine, which acts only on a change of winner and through the file, refines the memoryless
      rule: after any rounds, the active services and the file are those that the last winner alone
      calls for. */
  lemma RefinesMemoryless(services: seq<string>, initial: set<string>, rounds: seq<Round>)
    requires "" !in services
    ensures var m := RunAll(services, Market(0, NoWinner, None, initial), rounds);
      var runs := rounds == [] || MiningWins(rounds[|rounds| - 1]);
      && m.active == (if runs then initial else initial - Elements(services))
      && m.paused == (if runs || Elements(services) !! initial then None else Some(Stopped(services, initial)))
      && m.count == |rounds|
      && m.winner == LastWinner(rounds)
  {
    RunAllFollows(services, initial, Market(0, NoWinner, None, initial), rounds);
    RunAllWinner(services, Market(0, NoWinner, None, initial), rounds);
    StoppedIs(services, initial);
    if rounds != [] {
      WinnerIsFirstBest(rounds[|rounds| - 1], Mining);
    }
  }

  /** Mining wins a round exactly when no game runs and no other bid is higher. */
  predicate MiningWins(r: Round) {
    !r.gaming && r.mining >= r.kubernetes && r.mining >= r.akash
  }

  /** A restart in any state forgets the winner but not the file: one round later the rule holds again,
      for the services active before the first start. */
  lemma RestartRecovers(services: seq<string>, initial: set<string>, m: Market, r: Round)
    requires Follows(services, initial, m) && "" !in services
    ensures Follows(services, initial, RunAuction(services, Restart(m), r))
  {
    var s := Restart(m).(count := 1);
    if !r.gaming && Decide(r) == Mining {
      ResumeFollows(services, initial, m.(count := 1));
      assert Resume(s.(winner := Mining)) == Resume(m.(count := 1).(winner := Mining));
    } else {
      var w := if r.gaming then Gaming else Decide(r);
      PauseFollows(services, initial, m.(count := 1), w);
      assert PauseAll(services, s.(winner := w)) == PauseAll(services, m.(count := 1).(winner := w));
    }
  }

  /** A file left over from elsewhere: when mining wins first, the services active at the start stay as
      they are exactly when the file names no other service. */
  lemma LeftoverFileIff(services: seq<string>, initial: set<string>, lines: seq<string>, r: Round)
    requires !r.gaming && Decide(r) == Mining
    ensures RunAuction(services, Market(0, NoWinner, Some(lines), initial), r).active == initial
       <==> Elements(lines) - {""} <= initial
  {
    StartAllAdds(lines, initial);
  }

  // ----- The object -----------------------------------------------------------------------------

  class AuctionEngine {
    const services: seq<string>
    var auctionCount: nat
    var currentWinner: Winner
    var pausedServices: Option<seq<string>>
    var active: set<string>

    ghost function View(): Market
      reads this
    {
      Market(auctionCount, currentWinner, pausedServices, active)
    }

    /** The engine starts; the file and the services are as it finds them. */
    constructor (services: seq<string>, file: Option<seq<string>>, active: set<string>)
      ensures this.services == services && View() == Market(0, NoWinner, file, active)
    {
      this.services, this.active := services, active;
      auctionCount, currentWinner, pausedServices := 0, NoWinner, file;
    }

    method RunAuctionRound(r: Round)
      modifies this
      ensures View() == RunAuction(services, old(View()), r)
    {
      auctionCount := auctionCount + 1;
      if r.gaming {
        currentWinner := Gaming;
        PauseAllMining();
        return;
      }
      var winner, best := Mining, r.mining;
      if r.kubernetes > best {
        winner, best := Kubernetes, r.kubernetes;
      }
      if r.akash > best {
        winner, best := Akash, r.akash;
      }
      if winner != currentWinner {
        currentWinner := winner;
        ApplyWinnerProfile(winner);
      }
    }

    method ApplyWinnerProfile(w: Winner)
      modifies this`active, this`pausedServices
      ensures View() == ApplyProfile(services, old(View()), w)
    {
      match w {
        case Mining => ResumeMining();
        case Kubernetes => PauseAllMining();
        case Akash => PauseAllMining();
        case _ =>
      }
    }

    method PauseAllMining()
      modifies this`active, this`pausedServices
      ensures View() == PauseAll(services, old(View()))
    {
      for i := 0 to |services|
        invariant View() == PauseAll(services[..i], old(View()))
      {
        assert services[..i + 1][..i] == services[..i];
        if services[i] in active {
          active := active - {services[i]};
          pausedServices := Append(pausedServices, services[i]);
        }
      }
      assert services[..|services|] == services;
    }

    method ResumeMining()
      modifies this`active, this`pausedServices
      ensures View() == Resume(old(View()))
    {
      if pausedServices.Some? {
        var lines := pausedServices.value;
        var i := 0;
        while i < |lines|
          invariant 0 <= i <= |lines|
          invariant View() == old(View()).(active := StartAll(lines[..i], old(active)))
        {
          assert lines[..i + 1][..i] == lines[..i];
          if lines[i] != "" {
            active := active + {lines[i]};
          }
          i := i + 1;
        }
        assert lines[..|lines|] == lines;
        pausedServices := None;
      }
    }
  }
}
