/** app.py: the multi-room auction served over sockets. A room holds a roster
    of bidders, a list of lots auctioned one index at a time, and one team
    composition per bidder. Socket handlers become `Room` methods that return
    an error kind instead of emitting a message. Money is counted in paise
    (1 Cr is 10^7 paise). */
module Rooms {
  import opened Wrappers
  import opened Sorting
  import opened Text
  import opened BasePrice
  import opened Averages

  const Crore: int := 10_000_000
  /** The only amounts a bid may add to the current bid: +0.5 Cr and +1 Cr. */
  const ValidIncrements: seq<int> := [5_000_000, 10_000_000]

  /** `Room.__init__` defaults. */
  const DefaultMaxPlayers: int := 8
  const DefaultSquadSize: int := 11
  const DefaultOrder: string := "random"
  /** In crores. */
  const DefaultTeamPurse: int := 100

  /** The orders `sort_auction_players` knows; any other leaves the list as it is. */
  const KnownOrders: set<string> := {"alphabetical", "skill_desc", "skill_asc", "random"}

  /** The role names a composition keeps a count for. */
  const CountedRoles: set<string> := {"Batsman", "Bowler", "All-rounder", "Wicket-keeper"}

  /** A player record of the uploaded list. `name` is always present;
      `role` and `overall` may be missing from the record. */
  datatype LotPlayer = LotPlayer(name: string, role: Option<string>, overall: Option<real>, basePrice: int)

  /** A bidder's team. An entry of `players` is `None` when a sale went
      through while the room had no current lot. */
  datatype Composition = Composition(players: seq<Option<LotPlayer>>, totalSpent: int,
                                     remainingPurse: int, roles: map<string, int>)

  /** One entry of `sold_players`: the lot, its final bid and the winning
      team's name (`None` when the lot went unsold or was skipped). */
  datatype SoldRecord = SoldRecord(player: Option<LotPlayer>, finalBid: int, winner: Option<string>)

  datatype Statistics = Statistics(mostExpensive: Option<SoldRecord>, averagePrice: real,
                                   totalPlayersSold: nat, totalSpent: int)

  /** The rejections a handler reports to its caller. */
  datatype RoomError = Forbidden | NoPlayersToAuction | InvalidIncrement | ConsecutiveBid | BidNotHigher

  /** Where a sale or a skip leaves the room: the next lot opened at its base
      price, the auction complete with its statistics, or the handler stopped
      by an exception. */
  datatype Step = NextLot(player: LotPlayer, bid: int) | Complete(stats: Statistics) | Raised

  // ---------------------------------------------------------------------------
  // Team compositions

  /** `player.get('role', 'Unknown')`. */
  function RoleName(p: LotPlayer): string
  {
    p.role.GetOr("Unknown")
  }

  /** How many players on a roster carry the role name `k`. */
  function CountRoleName(ps: seq<Option<LotPlayer>>, k: string): (n: nat)
    ensures n <= |ps|
  {
    if ps == [] then 0
    else
      var last := ps[|ps| - 1];
      CountRoleName(ps[..|ps| - 1], k) + (if last.Some? && RoleName(last.value) == k then 1 else 0)
  }

  lemma CountRoleNameAppend(ps: seq<Option<LotPlayer>>, x: Option<LotPlayer>, k: string)
    ensures CountRoleName(ps + [x], k) == CountRoleName(ps, k) + (if x.Some? && RoleName(x.value) == k then 1 else 0)
  {
    assert (ps + [x])[..|ps|] == ps;
  }

  /** Spending and the remaining purse always make up the room's team purse. */
  predicate Balanced(c: Composition, purse: int)
  {
    c.totalSpent + c.remainingPurse == purse * Crore
  }

  /** The four role counts are kept, each equal to the number of players of that role. */
  predicate Tallied(c: Composition)
  {
    && c.roles.Keys == CountedRoles
    && forall k :: k in c.roles ==> c.roles[k] == CountRoleName(c.players, k)
  }

  /** The composition `add_bidder` gives a new bidder. */
  function FreshComposition(purse: int): (c: Composition)
    ensures c.players == [] && c.totalSpent == 0
    ensures Balanced(c, purse) && Tallied(c)
  {
    Composition([], 0, purse * Crore,
                map["Batsman" := 0, "Bowler" := 0, "All-rounder" := 0, "Wicket-keeper" := 0])
  }

  /** `update_team_composition` on one bidder's composition: the player joins
      the roster, the price moves from the purse to the spending, and one of
      the four role counts goes up when the player's role is among them. */
  function Credit(c: Composition, player: Option<LotPlayer>, price: int): (r: Composition)
    ensures r.players == c.players + [player]
    ensures r.totalSpent == c.totalSpent + price
    ensures r.totalSpent + r.remainingPurse == c.totalSpent + c.remainingPurse
    ensures r.roles.Keys == c.roles.Keys
    ensures forall k :: k in c.roles ==>
              r.roles[k] == c.roles[k] + (if player.Some? && RoleName(player.value) == k then 1 else 0)
  {
    var roles :=
      if player.Some? && RoleName(player.value) in c.roles
      then c.roles[RoleName(player.value) := c.roles[RoleName(player.value)] + 1]
      else c.roles;
    Composition(c.players + [player], c.totalSpent + price, c.remainingPurse - price, roles)
  }

  /** A sale keeps a composition balanced and its role counts exact. */
  lemma CreditKeepsInvariant(c: Composition, player: Option<LotPlayer>, price: int, purse: int)
    requires Balanced(c, purse) && Tallied(c)
    ensures Balanced(Credit(c, player, price), purse) && Tallied(Credit(c, player, price))
  {
    forall k | k in c.roles
      ensures CountRoleName(c.players + [player], k)
              == CountRoleName(c.players, k) + (if player.Some? && RoleName(player.value) == k then 1 else 0)
    {
      CountRoleNameAppend(c.players, player, k);
    }
  }

  /** The bidder `update_team_composition` credits: a non-empty name that has a composition. */
  predicate Creditable(cs: map<string, Composition>, bidder: Option<string>)
  {
    Truthy(bidder) && bidder.value in cs
  }

  /** The compositions after `update_team_composition(bidder, player, price)`. */
  function CreditBidder(cs: map<string, Composition>, bidder: Option<string>,
                        player: Option<LotPlayer>, price: int): (r: map<string, Composition>)
    ensures r.Keys == cs.Keys
    ensures forall b :: b in cs && !(Creditable(cs, bidder) && b == bidder.value) ==> r[b] == cs[b]
    ensures Creditable(cs, bidder) ==> r[bidder.value] == Credit(cs[bidder.value], player, price)
  {
    if Creditable(cs, bidder) then cs[bidder.value := Credit(cs[bidder.value], player, price)] else cs
  }

  /** Every composition is balanced against `purse` and counts its roles exactly. */
  ghost predicate AllKept(cs: map<string, Composition>, purse: int)
  {
    forall b :: b in cs ==> Balanced(cs[b], purse) && Tallied(cs[b])
  }

  lemma CreditBidderKeeps(cs: map<string, Composition>, bidder: Option<string>,
                          player: Option<LotPlayer>, price: int, purse: int)
    requires AllKept(cs, purse)
    ensures AllKept(CreditBidder(cs, bidder, player, price), purse)
  {
    if Creditable(cs, bidder) {
      CreditKeepsInvariant(cs[bidder.value], player, price, purse);
    }
  }

  /** A composition after the purse is reset to `purse` crores: spending is
      kept and the remaining purse is what is left of the new purse. */
  function Reprice(c: Composition, purse: int): (r: Composition)
    ensures r.players == c.players && r.totalSpent == c.totalSpent && r.roles == c.roles
    ensures Balanced(r, purse)
  {
    c.(remainingPurse := purse * Crore - c.totalSpent)
  }

  function Repriced(cs: map<string, Composition>, purse: int): (r: map<string, Composition>)
    ensures r.Keys == cs.Keys
    ensures forall b :: b in r ==> r[b] == Reprice(cs[b], purse)
  {
    map b | b in cs :: Reprice(cs[b], purse)
  }

  /** A bidder given a fresh composition keeps every composition balanced and tallied. */
  lemma FreshKeeps(cs: map<string, Composition>, b: string, purse: int)
    requires AllKept(cs, purse)
    ensures AllKept(cs[b := FreshComposition(purse)], purse)
  {
  }

  /** Repricing for a new purse balances every composition against it. */
  lemma RepricedKeeps(cs: map<string, Composition>, oldPurse: int, purse: int)
    requires AllKept(cs, oldPurse)
    ensures AllKept(Repriced(cs, purse), purse)
  {
    forall b | b in Repriced(cs, purse)
      ensures Balanced(Repriced(cs, purse)[b], purse) && Tallied(Repriced(cs, purse)[b])
    {
      assert Tallied(cs[b]);
    }
  }

  /** A room's roster: the owner is a bidder, nobody is listed twice, and
      every composition belongs to a bidder, has a team name, is balanced
      against the team purse and counts its roles exactly. */
  ghost predicate Roster(owner: string, bidders: seq<string>, names: map<string, string>,
                         cs: map<string, Composition>, purse: int)
  {
    && owner in bidders
    && (forall i, j :: 0 <= i < j < |bidders| ==> bidders[i] != bidders[j])
    && names.Keys == cs.Keys
    && (forall b :: b in cs ==> b in bidders)
    && AllKept(cs, purse)
  }

  /** A new bidder joining with a team name and a fresh composition keeps the roster. */
  lemma RosterJoin(owner: string, bidders: seq<string>, names: map<string, string>,
                   cs: map<string, Composition>, purse: int, u: string, name: string)
    requires Roster(owner, bidders, names, cs, purse) && u !in bidders
    ensures Roster(owner, bidders + [u], names[u := name], cs[u := FreshComposition(purse)], purse)
  {
    FreshKeeps(cs, u, purse);
  }

  /** The owner given a team name and a fresh composition keeps the roster. */
  lemma RosterRegister(owner: string, bidders: seq<string>, names: map<string, string>,
                       cs: map<string, Composition>, purse: int, name: string)
    requires Roster(owner, bidders, names, cs, purse)
    ensures Roster(owner, bidders, names[owner := name], cs[owner := FreshComposition(purse)], purse)
  {
    FreshKeeps(cs, owner, purse);
  }

  /** A sale credited to a bidder keeps the roster. */
  lemma RosterCredit(owner: string, bidders: seq<string>, names: map<string, string>,
                     cs: map<string, Composition>, purse: int,
                     bidder: Option<string>, player: Option<LotPlayer>, price: int)
    requires Roster(owner, bidders, names, cs, purse)
    ensures Roster(owner, bidders, names, CreditBidder(cs, bidder, player, price), purse)
  {
    CreditBidderKeeps(cs, bidder, player, price, purse);
  }

  /** A new team purse with every composition repriced keeps the roster. */
  lemma RosterReprice(owner: string, bidders: seq<string>, names: map<string, string>,
                      cs: map<string, Composition>, oldPurse: int, purse: int)
    requires Roster(owner, bidders, names, cs, oldPurse)
    ensures Roster(owner, bidders, names, Repriced(cs, purse), purse)
  {
    RepricedKeeps(cs, oldPurse, purse);
  }

  // ---------------------------------------------------------------------------
  // Lot order

  /** `sort(key=lambda x: x['name'])`. */
  predicate NameLe(a: LotPlayer, b: LotPlayer)
  {
    LexLe(a.name, b.name)
  }

  /** `x.get('overall', 0)`. */
  function OverallKey(p: LotPlayer): real
  {
    p.overall.GetOr(0.0)
  }

  predicate OverallLe(a: LotPlayer, b: LotPlayer)
  {
    OverallKey(a) <= OverallKey(b)
  }

  /** The order of `reverse=True`: Python keeps equal keys in input order. */
  predicate OverallGe(a: LotPlayer, b: LotPlayer)
  {
    OverallKey(a) >= OverallKey(b)
  }

  lemma NameLePreorder(dom: set<LotPlayer>)
    ensures PreorderOn(dom, NameLe)
  {
    forall a, b | a in dom && b in dom ensures NameLe(a, b) || NameLe(b, a) {
      LexLeTotal(a.name, b.name);
    }
    forall a, b, c | a in dom && b in dom && c in dom && NameLe(a, b) && NameLe(b, c)
      ensures NameLe(a, c)
    {
      LexLeTransitive(a.name, b.name, c.name);
    }
  }

  /** What `sort_auction_players` may leave in place of `before` under `order`. */
  ghost predicate Arrangement(order: string, before: seq<LotPlayer>, after: seq<LotPlayer>)
  {
    && multiset(after) == multiset(before)
    && (order == "alphabetical" ==> after == SortBy(before, NameLe))
    && (order == "skill_desc" ==> after == SortBy(before, OverallGe))
    && (order == "skill_asc" ==> after == SortBy(before, OverallLe))
    && (order !in KnownOrders ==> after == before)
  }

  /** Every arrangement is a permutation of the same length, in name order
      for "alphabetical" and in rating order for the two skill orders. */
  lemma ArrangementOrders(order: string, before: seq<LotPlayer>, after: seq<LotPlayer>)
    requires Arrangement(order, before, after)
    ensures |after| == |before|
    ensures order == "alphabetical" ==> SortedBy(after, NameLe)
    ensures order == "skill_desc" ==>
              forall i, j :: 0 <= i < j < |after| ==> OverallKey(after[j]) <= OverallKey(after[i])
    ensures order == "skill_asc" ==>
              forall i, j :: 0 <= i < j < |after| ==> OverallKey(after[i]) <= OverallKey(after[j])
  {
    assert |after| == |multiset(after)| == |multiset(before)| == |before|;
    var dom := set p | p in before;
    if order == "alphabetical" {
      NameLePreorder(dom);
      SortBySorted(before, NameLe, dom);
    } else if order == "skill_desc" {
      SortBySorted(before, OverallGe, dom);
      assert SortedBy(after, OverallGe);
    } else if order == "skill_asc" {
      SortBySorted(before, OverallLe, dom);
      assert SortedBy(after, OverallLe);
    }
  }

  /** Python's sorts are stable: for each sorted order, the lots whose key
      equals that of `y` keep their input order. */
  lemma ArrangementStable(order: string, before: seq<LotPlayer>, after: seq<LotPlayer>, y: LotPlayer)
    requires Arrangement(order, before, after)
    ensures order == "alphabetical" ==> TiesWith(after, NameLe, y) == TiesWith(before, NameLe, y)
    ensures order == "skill_desc" ==> TiesWith(after, OverallGe, y) == TiesWith(before, OverallGe, y)
    ensures order == "skill_asc" ==> TiesWith(after, OverallLe, y) == TiesWith(before, OverallLe, y)
  {
    var dom := (set p | p in before) + {y};
    if order == "alphabetical" {
      NameLePreorder(dom);
      SortByStable(before, NameLe, y, dom);
    } else if order == "skill_desc" {
      SortByStable(before, OverallGe, y, dom);
    } else if order == "skill_asc" {
      SortByStable(before, OverallLe, y, dom);
    }
  }

  // ---------------------------------------------------------------------------
  // Bids

  /** The checks `handle_place_bid` makes, in order. No purse, squad or
      lot check takes part. */
  function BidCheck(bid: int, lastBidder: Option<string>, amount: int, bidder: string): (r: Option<RoomError>)
    ensures r == Some(InvalidIncrement) <==> amount - bid !in ValidIncrements
    ensures r == Some(ConsecutiveBid) <==> amount - bid in ValidIncrements && lastBidder == Some(bidder)
    ensures r == None <==> amount - bid in ValidIncrements && lastBidder != Some(bidder)
    ensures r == None ==> amount > bid
    ensures r != Some(BidNotHigher)
  {
    if amount - bid !in ValidIncrements then Some(InvalidIncrement)
    else if lastBidder == Some(bidder) then Some(ConsecutiveBid)
    else if amount > bid then None
    else Some(BidNotHigher)
  }

  // ---------------------------------------------------------------------------
  // Completion statistics

  /** `if p['winner']`. */
  predicate HasWinner(r: SoldRecord)
  {
    Truthy(r.winner)
  }

  /** `[p for p in sold_players if p['winner']]`. */
  function Winners(rs: seq<SoldRecord>): (w: seq<SoldRecord>)
    ensures |w| <= |rs|
    ensures forall x :: x in w ==> x in rs && HasWinner(x)
    ensures forall x :: x in rs && HasWinner(x) ==> x in w
  {
    if rs == [] then []
    else
      var init, last := rs[..|rs| - 1], rs[|rs| - 1];
      assert rs == init + [last];
      Winners(init) + (if HasWinner(last) then [last] else [])
  }

  function SumBids(rs: seq<SoldRecord>): int
  {
    if rs == [] then 0 else SumBids(rs[..|rs| - 1]) + rs[|rs| - 1].finalBid
  }

  /** `max(rs, key=lambda x: x['final_bid'])`: the first record with the largest bid. */
  function FirstMaxBid(rs: seq<SoldRecord>): (r: SoldRecord)
    requires rs != []
    ensures r in rs
    ensures forall x :: x in rs ==> x.finalBid <= r.finalBid
    ensures exists i :: 0 <= i < |rs| && rs[i] == r && forall j :: 0 <= j < i ==> rs[j].finalBid < r.finalBid
  {
    if |rs| == 1 then rs[0]
    else
      var init, last := rs[..|rs| - 1], rs[|rs| - 1];
      assert rs == init + [last];
      var m := FirstMaxBid(init);
      if last.finalBid > m.finalBid then
        assert forall j :: 0 <= j < |rs| - 1 ==> rs[j].finalBid < last.finalBid by {
          forall j | 0 <= j < |rs| - 1 ensures rs[j].finalBid < last.finalBid {
            assert rs[j] in init;
          }
        }
        last
      else
        assert exists i :: 0 <= i < |rs| && rs[i] == m && forall j :: 0 <= j < i ==> rs[j].finalBid < m.finalBid by {
          var i :| 0 <= i < |init| && init[i] == m && forall j :: 0 <= j < i ==> init[j].finalBid < m.finalBid;
          assert rs[i] == m;
        }
        m
  }

  /** The statistics every completed auction reports. */
  function CompletionStats(rs: seq<SoldRecord>): (s: Statistics)
    ensures s.totalPlayersSold == |Winners(rs)|
    ensures s.totalSpent == SumBids(Winners(rs))
    ensures s.averagePrice == AveragePrice(s.totalSpent, s.totalPlayersSold)
    ensures s.mostExpensive.Some? <==> exists x :: x in rs && HasWinner(x)
    ensures s.mostExpensive.Some? ==> s.mostExpensive.value in rs && HasWinner(s.mostExpensive.value)
    ensures s.mostExpensive.Some? ==>
              forall x :: x in rs && HasWinner(x) ==> x.finalBid <= s.mostExpensive.value.finalBid
  {
    var sold := Winners(rs);
    if sold == [] then Statistics(None, 0.0, 0, 0)
    else
      var total := SumBids(sold);
      Statistics(Some(FirstMaxBid(sold)), AveragePrice(total, |sold|), |sold|, total)
  }

  /** A skip (a record without a winner) changes none of the statistics. */
  lemma SkipKeepsStats(rs: seq<SoldRecord>, r: SoldRecord)
    requires !HasWinner(r)
    ensures CompletionStats(rs + [r]) == CompletionStats(rs)
  {
    assert (rs + [r])[..|rs|] == rs;
    assert Winners(rs + [r]) == Winners(rs);
  }

  /** A sale with a winner counts once more, adds its bid to the total, and
      becomes the most expensive sale exactly when it beats every earlier one. */
  lemma SaleAddsToStats(rs: seq<SoldRecord>, r: SoldRecord)
    requires HasWinner(r)
    ensures var before, after := CompletionStats(rs), CompletionStats(rs + [r]);
            && after.totalPlayersSold == before.totalPlayersSold + 1
            && after.totalSpent == before.totalSpent + r.finalBid
            && after.mostExpensive == (if before.mostExpensive.Some? && r.finalBid <= before.mostExpensive.value.finalBid
                                       then before.mostExpensive else Some(r))
  {
    assert (rs + [r])[..|rs|] == rs;
    var w := Winners(rs);
    assert Winners(rs + [r]) == w + [r];
    assert (w + [r])[..|w|] == w;
  }

  // ---------------------------------------------------------------------------
  // Base prices

  /** A record as `handle_create_room` prices it: every field kept, the base
      price drawn from the tier of `player.get('overall', 50)`. */
  predicate PricedFrom(raw: LotPlayer, priced: LotPlayer)
  {
    priced == raw.(basePrice := priced.basePrice)
    && priced.basePrice in PaiseChoices(raw.overall.GetOr(50.0))
  }

  method PriceAll(players: seq<LotPlayer>) returns (priced: seq<LotPlayer>)
    ensures |priced| == |players|
    ensures forall i :: 0 <= i < |players| ==> PricedFrom(players[i], priced[i])
  {
    priced := [];
    for i := 0 to |players|
      invariant |priced| == i
      invariant forall j :: 0 <= j < i ==> PricedFrom(players[j], priced[j])
    {
      var price := CalculateBasePricePaise(players[i].overall.GetOr(50.0));
      priced := priced + [players[i].(basePrice := price)];
    }
  }

  // ---------------------------------------------------------------------------
  // The room

  /** `team_names.get(bidder, bidder) if bidder else None`. */
  function WinnerOf(bidder: Option<string>, names: map<string, string>): (w: Option<string>)
    ensures w.Some? <==> Truthy(bidder)
    ensures Truthy(bidder) && bidder.value in names ==> w == Some(names[bidder.value])
    ensures Truthy(bidder) && bidder.value !in names ==> w == bidder
  {
    if !Truthy(bidder) then None
    else if bidder.value in names then Some(names[bidder.value])
    else bidder
  }

  class Room {
    const code: string
    const owner: string
    var bidders: seq<string>
    var auctionPlayers: seq<LotPlayer>
    var currentPlayerIndex: nat
    var currentBid: int
    var currentBidder: Option<string>
    var auctionStarted: bool
    var soldPlayers: seq<SoldRecord>
    var auctionEndedEarly: bool
    var maxPlayers: int
    var squadSize: int
    var auctionOrder: string
    /** In crores. */
    var teamPurse: int
    var teamCompositions: map<string, Composition>
    var teamNames: map<string, string>

    /** The room invariant: the roster is consistent and the lot index is in range. */
    ghost predicate Valid()
      reads this
    {
      && Roster(owner, bidders, teamNames, teamCompositions, teamPurse)
      && (currentPlayerIndex == 0 || currentPlayerIndex < |auctionPlayers|)
    }

    constructor (code: string, owner: string, playerList: seq<LotPlayer>)
      ensures this.code == code && this.owner == owner && bidders == [owner]
      ensures auctionPlayers == playerList && currentPlayerIndex == 0
      ensures currentBid == 0 && currentBidder == None
      ensures !auctionStarted && soldPlayers == [] && !auctionEndedEarly
      ensures maxPlayers == DefaultMaxPlayers && squadSize == DefaultSquadSize
      ensures auctionOrder == DefaultOrder && teamPurse == DefaultTeamPurse
      ensures teamCompositions == map[] && teamNames == map[]
      ensures Valid()
    {
      this.code, this.owner := code, owner;
      bidders := [owner];
      auctionPlayers := playerList;
      currentPlayerIndex, currentBid, currentBidder := 0, 0, None;
      auctionStarted, soldPlayers, auctionEndedEarly := false, [], false;
      maxPlayers, squadSize := DefaultMaxPlayers, DefaultSquadSize;
      auctionOrder, teamPurse := DefaultOrder, DefaultTeamPurse;
      teamCompositions, teamNames := map[], map[];
    }

    /** A user already on the roster is left as they are; a new one is
        appended with a team name (the username when none is given) and a
        fresh composition at the current team purse. */
    method AddBidder(username: string, teamName: Option<string>)
      requires Valid()
      modifies this`bidders, this`teamNames, this`teamCompositions
      ensures Valid()
      ensures username in old(bidders) ==>
                bidders == old(bidders) && teamNames == old(teamNames) && teamCompositions == old(teamCompositions)
      ensures username !in old(bidders) ==>
                && bidders == old(bidders) + [username]
                && teamNames == old(teamNames)[username := OrElse(teamName, username)]
                && teamCompositions == old(teamCompositions)[username := FreshComposition(teamPurse)]
    {
      if username !in bidders {
        RosterJoin(owner, bidders, teamNames, teamCompositions, teamPurse, username, OrElse(teamName, username));
        bidders := bidders + [username];
        teamNames := teamNames[username := OrElse(teamName, username)];
        teamCompositions := teamCompositions[username := FreshComposition(teamPurse)];
        assert Roster(owner, bidders, teamNames, teamCompositions, teamPurse);
      }
    }

    function GetCurrentPlayer(): (r: Option<LotPlayer>)
      reads this`currentPlayerIndex, this`auctionPlayers
      ensures r.None? <==> currentPlayerIndex >= |auctionPlayers|
      ensures r.Some? ==> r.value == auctionPlayers[currentPlayerIndex]
    {
      if currentPlayerIndex < |auctionPlayers| then Some(auctionPlayers[currentPlayerIndex]) else None
    }

    /** Open the next lot with no bid, unless the current lot is the last one. */
    method NextPlayer() returns (ok: bool)
      requires Valid()
      modifies this`currentPlayerIndex, this`currentBid, this`currentBidder
      ensures Valid()
      ensures ok <==> old(currentPlayerIndex) + 1 < |auctionPlayers|
      ensures ok ==> currentPlayerIndex == old(currentPlayerIndex) + 1 && currentBid == 0 && currentBidder == None
      ensures ok ==> GetCurrentPlayer().Some?
      ensures !ok ==> currentPlayerIndex == old(currentPlayerIndex) && currentBid == old(currentBid)
                      && currentBidder == old(currentBidder)
    {
      if currentPlayerIndex + 1 < |auctionPlayers| {
        currentPlayerIndex := currentPlayerIndex + 1;
        currentBid := 0;
        currentBidder := None;
        ok := true;
      } else {
        ok := false;
      }
    }

    /** Credit a sale to `bidder`'s composition, when the bidder has one.
        With no player the roster and the money are updated and then the
        role lookup raises, before any role count changes. */
    method UpdateTeamComposition(bidder: Option<string>, player: Option<LotPlayer>, price: int)
      returns (raised: bool)
      requires Valid()
      modifies this`teamCompositions
      ensures Valid()
      ensures teamCompositions == CreditBidder(old(teamCompositions), bidder, player, price)
      ensures raised <==> Creditable(old(teamCompositions), bidder) && player.None?
    {
      raised := Creditable(teamCompositions, bidder) && player.None?;
      RosterCredit(owner, bidders, teamNames, teamCompositions, teamPurse, bidder, player, price);
      teamCompositions := CreditBidder(teamCompositions, bidder, player, price);
      assert Roster(owner, bidders, teamNames, teamCompositions, teamPurse);
    }

    /** Reorder the lots by the room's auction order. */
    method SortAuctionPlayers()
      requires Valid()
      modifies this`auctionPlayers
      ensures Valid()
      ensures Arrangement(auctionOrder, old(auctionPlayers), auctionPlayers)
    {
      if auctionOrder == "alphabetical" {
        auctionPlayers := SortBy(auctionPlayers, NameLe);
      } else if auctionOrder == "skill_desc" {
        auctionPlayers := SortBy(auctionPlayers, OverallGe);
      } else if auctionOrder == "skill_asc" {
        auctionPlayers := SortBy(auctionPlayers, OverallLe);
      } else if auctionOrder == "random" {
        ghost var same := auctionPlayers;
        assert multiset(same) == multiset(auctionPlayers);
        var shuffled :| multiset(shuffled) == multiset(auctionPlayers);
        assert |shuffled| == |multiset(shuffled)| == |auctionPlayers|;
        auctionPlayers := shuffled;
      }
    }

    /** Set every composition's remaining purse to the team purse less its spending. */
    method RepriceCompositions()
      modifies this`teamCompositions
      ensures teamCompositions == Repriced(old(teamCompositions), teamPurse)
    {
      var todo := teamCompositions.Keys;
      while todo != {}
        invariant todo <= teamCompositions.Keys == old(teamCompositions).Keys
        invariant forall b :: b in todo ==> teamCompositions[b] == old(teamCompositions)[b]
        invariant forall b :: b in teamCompositions && b !in todo ==>
                    teamCompositions[b] == Reprice(old(teamCompositions)[b], teamPurse)
        decreases todo
      {
        var b :| b in todo;
        var c := teamCompositions[b];
        teamCompositions := teamCompositions[b := c.(remainingPurse := teamPurse * Crore - c.totalSpent)];
        todo := todo - {b};
      }
    }

    /** `handle_update_room_settings`: only the owner may change the settings;
        each one supplied is set, a new order re-sorts the lots and a new
        purse reprices every composition. */
    method UpdateRoomSettings(username: string, newMaxPlayers: Option<int>, newSquadSize: Option<int>,
                              newOrder: Option<string>, newPurse: Option<int>) returns (err: Option<RoomError>)
      requires Valid()
      modifies this`maxPlayers, this`squadSize, this`auctionOrder, this`auctionPlayers,
               this`teamPurse, this`teamCompositions
      ensures Valid()
      ensures err == (if username == owner then None else Some(Forbidden))
      ensures err.Some? ==> unchanged(this)
      ensures err.None? ==>
                && maxPlayers == newMaxPlayers.GetOr(old(maxPlayers))
                && squadSize == newSquadSize.GetOr(old(squadSize))
                && auctionOrder == newOrder.GetOr(old(auctionOrder))
                && teamPurse == newPurse.GetOr(old(teamPurse))
      ensures err.None? && newOrder.Some? ==> Arrangement(newOrder.value, old(auctionPlayers), auctionPlayers)
      ensures newOrder.None? ==> auctionPlayers == old(auctionPlayers)
      ensures err.None? && newPurse.Some? ==> teamCompositions == Repriced(old(teamCompositions), newPurse.value)
      ensures newPurse.None? ==> teamCompositions == old(teamCompositions)
    {
      if owner != username {
        return Some(Forbidden);
      }
      err := None;
      if newMaxPlayers.Some? {
        maxPlayers := newMaxPlayers.value;
      }
      if newSquadSize.Some? {
        squadSize := newSquadSize.value;
      }
      if newOrder.Some? {
        ChangeOrder(newOrder.value);
      }
      if newPurse.Some? {
        ChangePurse(newPurse.value);
      }
    }

    /** A new auction order, and the lots re-sorted by it. */
    method ChangeOrder(order: string)
      requires Valid()
      modifies this`auctionOrder, this`auctionPlayers
      ensures Valid()
      ensures auctionOrder == order && Arrangement(order, old(auctionPlayers), auctionPlayers)
    {
      auctionOrder := order;
      SortAuctionPlayers();
    }

    /** A new team purse, and every composition repriced against it. */
    method ChangePurse(purse: int)
      requires Valid()
      modifies this`teamPurse, this`teamCompositions
      ensures Valid()
      ensures teamPurse == purse && teamCompositions == Repriced(old(teamCompositions), purse)
    {
      RosterReprice(owner, bidders, teamNames, teamCompositions, teamPurse, purse);
      teamPurse := purse;
      RepriceCompositions();
      assert Roster(owner, bidders, teamNames, teamCompositions, teamPurse);
    }

    /** `handle_start_auction`: sort the lots, mark the auction started and
        open the current lot at its base price. */
    method StartAuction() returns (err: Option<RoomError>)
      requires Valid()
      modifies this`auctionPlayers, this`auctionStarted, this`currentBid
      ensures Valid()
      ensures Arrangement(auctionOrder, old(auctionPlayers), auctionPlayers) && auctionStarted
      ensures err.Some? <==> old(auctionPlayers) == []
      ensures err.Some? ==> err == Some(NoPlayersToAuction) && currentBid == old(currentBid)
      ensures err.None? ==> currentBid == auctionPlayers[currentPlayerIndex].basePrice
    {
      SortAuctionPlayers();
      ArrangementOrders(auctionOrder, old(auctionPlayers), auctionPlayers);
      auctionStarted := true;
      var current := GetCurrentPlayer();
      if current.None? {
        return Some(NoPlayersToAuction);
      }
      currentBid := current.value.basePrice;
      err := None;
    }

    /** `handle_place_bid`: an accepted bid becomes the current bid, and its
        bidder then cannot place the next one. */
    method PlaceBid(amount: int, bidder: string) returns (err: Option<RoomError>)
      requires Valid()
      modifies this`currentBid, this`currentBidder
      ensures Valid()
      ensures err == BidCheck(old(currentBid), old(currentBidder), amount, bidder)
      ensures err.None? ==> currentBid == amount && currentBidder == Some(bidder)
      ensures err.None? ==> forall a :: BidCheck(currentBid, currentBidder, a, bidder).Some?
      ensures err.Some? ==> currentBid == old(currentBid) && currentBidder == old(currentBidder)
    {
      err := BidCheck(currentBid, currentBidder, amount, bidder);
      if err.None? {
        currentBid := amount;
        currentBidder := Some(bidder);
      }
    }

    /** How `next_player()` followed by the early-end test leaves the lot
        fields, and what the handler reports. */
    twostate predicate Advanced(outcome: Step)
      reads this
    {
      var moved := old(currentPlayerIndex) + 1 < |auctionPlayers|;
      && (moved ==> currentPlayerIndex == old(currentPlayerIndex) + 1 && currentBidder == None)
      && (!moved ==> currentPlayerIndex == old(currentPlayerIndex) && currentBid == old(currentBid)
                     && currentBidder == old(currentBidder))
      && (moved && !auctionEndedEarly ==>
            currentBid == auctionPlayers[currentPlayerIndex].basePrice
            && outcome == NextLot(auctionPlayers[currentPlayerIndex], currentBid))
      && (moved && auctionEndedEarly ==> currentBid == 0)
      && (!(moved && !auctionEndedEarly) ==> outcome == Complete(CompletionStats(soldPlayers)))
    }

    /** Move on after a sale or a skip. `next_player()` runs even when the
        auction has been ended early. */
    method Advance() returns (outcome: Step)
      requires Valid()
      modifies this`currentPlayerIndex, this`currentBid, this`currentBidder
      ensures Valid()
      ensures Advanced(outcome)
    {
      var moved := NextPlayer();
      if moved && !auctionEndedEarly {
        var next := auctionPlayers[currentPlayerIndex];
        currentBid := next.basePrice;
        outcome := NextLot(next, currentBid);
      } else {
        outcome := Complete(CompletionStats(soldPlayers));
      }
    }

    /** `handle_sell_player`: record the current lot with its final bid and
        winner, credit the winner's composition, and move on. */
    method SellPlayer() returns (outcome: Step)
      requires Valid()
      modifies this`soldPlayers, this`teamCompositions, this`currentPlayerIndex, this`currentBid, this`currentBidder
      ensures Valid()
      ensures soldPlayers == old(soldPlayers)
                + [SoldRecord(old(GetCurrentPlayer()), old(currentBid), WinnerOf(old(currentBidder), teamNames))]
      ensures teamCompositions
                == CreditBidder(old(teamCompositions), old(currentBidder), old(GetCurrentPlayer()), old(currentBid))
      ensures outcome == Raised <==> Creditable(old(teamCompositions), old(currentBidder)) && old(GetCurrentPlayer()).None?
      ensures outcome == Raised ==> currentPlayerIndex == old(currentPlayerIndex) && currentBid == old(currentBid)
                                    && currentBidder == old(currentBidder)
      ensures outcome != Raised ==> Advanced(outcome)
    {
      var raised := RecordSale();
      if raised {
        return Raised;
      }
      outcome := Advance();
    }

    /** The bookkeeping half of a sale: the record, then the composition. */
    method RecordSale() returns (raised: bool)
      requires Valid()
      modifies this`soldPlayers, this`teamCompositions
      ensures Valid()
      ensures soldPlayers == old(soldPlayers)
                + [SoldRecord(GetCurrentPlayer(), currentBid, WinnerOf(currentBidder, teamNames))]
      ensures teamCompositions
                == CreditBidder(old(teamCompositions), currentBidder, GetCurrentPlayer(), currentBid)
      ensures raised <==> Creditable(old(teamCompositions), currentBidder) && GetCurrentPlayer().None?
    {
      var current := GetCurrentPlayer();
      soldPlayers := soldPlayers + [SoldRecord(current, currentBid, WinnerOf(currentBidder, teamNames))];
      raised := false;
      if Truthy(currentBidder) {
        raised := UpdateTeamComposition(currentBidder, current, currentBid);
      }
    }

    /** `handle_skip_player`: record the current lot with no bid and no
        winner, and move on. */
    method SkipPlayer() returns (outcome: Step)
      requires Valid()
      modifies this`soldPlayers, this`currentPlayerIndex, this`currentBid, this`currentBidder
      ensures Valid()
      ensures soldPlayers == old(soldPlayers) + [SoldRecord(old(GetCurrentPlayer()), 0, None)]
      ensures outcome != Raised && Advanced(outcome)
    {
      var current := GetCurrentPlayer();
      soldPlayers := soldPlayers + [SoldRecord(current, 0, None)];
      outcome := Advance();
    }

    /** `handle_end_auction_early`: set the flag and report the statistics;
        no record is added and nobody is checked for ownership. */
    method EndAuctionEarly() returns (stats: Statistics)
      requires Valid()
      modifies this`auctionEndedEarly
      ensures Valid()
      ensures auctionEndedEarly && stats == CompletionStats(soldPlayers)
    {
      auctionEndedEarly := true;
      stats := CompletionStats(soldPlayers);
    }

    /** The owner's team name and a fresh composition, as every other bidder
        receives them on joining. */
    method RegisterOwner(teamName: Option<string>)
      requires Valid()
      modifies this`teamNames, this`teamCompositions
      ensures Valid()
      ensures teamNames == old(teamNames)[owner := OrElse(teamName, owner)]
      ensures teamCompositions == old(teamCompositions)[owner := FreshComposition(teamPurse)]
    {
      RosterRegister(owner, bidders, teamNames, teamCompositions, teamPurse, OrElse(teamName, owner));
      teamNames := teamNames[owner := OrElse(teamName, owner)];
      teamCompositions := teamCompositions[owner := FreshComposition(teamPurse)];
      assert Roster(owner, bidders, teamNames, teamCompositions, teamPurse);
    }
  }

  /** `handle_create_room` as written: price the lots, make the room and
      call `add_bidder` for the owner, which the constructor has already put
      on the roster, so the owner is left without a team name or a
      composition. */
  method CreateRoom(code: string, username: string, teamName: Option<string>, players: seq<LotPlayer>)
    returns (room: Room)
    ensures fresh(room) && room.Valid()
    ensures room.code == code && room.owner == username && room.bidders == [username]
    ensures |room.auctionPlayers| == |players|
    ensures forall i :: 0 <= i < |players| ==> PricedFrom(players[i], room.auctionPlayers[i])
    ensures room.teamPurse == DefaultTeamPurse && room.auctionOrder == DefaultOrder
    ensures username !in room.teamCompositions && username !in room.teamNames
  {
    var priced := PriceAll(players);
    room := new Room(code, username, priced);
    room.AddBidder(username, Some(teamName.GetOr(username)));
  }

  /** `handle_create_room` with the owner registered like any other bidder. */
  method CreateRoomCorrected(code: string, username: string, teamName: Option<string>, players: seq<LotPlayer>)
    returns (room: Room)
    ensures fresh(room) && room.Valid()
    ensures room.code == code && room.owner == username && room.bidders == [username]
    ensures |room.auctionPlayers| == |players|
    ensures forall i :: 0 <= i < |players| ==> PricedFrom(players[i], room.auctionPlayers[i])
    ensures room.teamPurse == DefaultTeamPurse && room.auctionOrder == DefaultOrder
    ensures room.teamCompositions == map[username := FreshComposition(DefaultTeamPurse)]
    ensures room.teamNames == map[username := OrElse(Some(teamName.GetOr(username)), username)]
  {
    var priced := PriceAll(players);
    room := new Room(code, username, priced);
    room.RegisterOwner(Some(teamName.GetOr(username)));
  }
}
