/** main.py: the single-process auction. Teams bid for players that are drawn
    from role batches; a sale moves the price from the team's purse to its
    roster. Money is counted in tenths of a crore (0.5 Cr is 5). */
module Manager {
  import opened Wrappers
  import opened Roles
  import opened Sorting
  import opened RoleNames
  import opened Averages

  /** A team may keep bidding while its purse holds at least 0.5 Cr. */
  const MinPurseToBid: int := 5
  /** The next player is drawn from this many of the top-ranked players. */
  const DrawWindow: nat := 10
  /** `AuctionManager.max_squad_size` before the setup page overrides it. */
  const DefaultMaxSquadSize: int := 15

  datatype Status = Unsold | Sold | Withdrawn

  /** A player record. Its identity and attributes never change; its auction
      outcome is written through whichever list holds it. */
  class Player {
    const id: string
    const name: string
    const role: string
    const country: string
    const basePrice: int
    const overallRating: int
    const skillRating: real
    var status: Status
    var soldTo: Option<string>
    var soldPrice: Option<int>

    constructor (id: string, name: string, role: string, country: string,
                 basePrice: int, overallRating: int, skillRating: real)
      ensures this.id == id && this.name == name && this.role == role && this.country == country
      ensures this.basePrice == basePrice && this.overallRating == overallRating
      ensures this.skillRating == skillRating
      ensures status == Unsold && soldTo == None && soldPrice == None
    {
      this.id, this.name, this.role, this.country := id, name, role, country;
      this.basePrice, this.overallRating, this.skillRating := basePrice, overallRating, skillRating;
      status, soldTo, soldPrice := Unsold, None, None;
    }
  }

  /** Number of players in `ps` whose role is exactly `role`. */
  function CountRole(ps: seq<Player>, role: string): (r: nat)
    ensures r <= |ps|
  {
    if ps == [] then 0 else (if ps[0].role == role then 1 else 0) + CountRole(ps[1..], role)
  }

  lemma {:induction false} CountRoleAppend(ps: seq<Player>, p: Player, role: string)
    ensures CountRole(ps + [p], role) == CountRole(ps, role) + (if p.role == role then 1 else 0)
  {
    if ps != [] {
      assert (ps + [p])[1..] == ps[1..] + [p];
      CountRoleAppend(ps[1..], p, role);
    }
  }

  /** When every role on a roster is one of the four role values, the four
      role counts add up to the roster size. */
  lemma {:induction false} RoleCountsCoverRoster(ps: seq<Player>)
    requires forall p :: p in ps ==> RoleOfValue(p.role).Some?
    ensures CountRole(ps, Batsman.Value()) + CountRole(ps, Bowler.Value())
            + CountRole(ps, AllRounder.Value()) + CountRole(ps, WicketKeeper.Value()) == |ps|
  {
    if ps != [] {
      assert ps[0] in ps;
      RoleCountsCoverRoster(ps[1..]);
    }
  }

  class Team {
    const id: string
    const name: string
    var purse: int
    const originalPurse: int
    var players: seq<Player>
    var canBid: bool

    /** The setup page creates every team with `original_purse == purse`. */
    constructor (id: string, name: string, purse: int)
      ensures this.id == id && this.name == name
      ensures this.purse == purse && originalPurse == purse
      ensures players == [] && canBid
    {
      this.id, this.name := id, name;
      this.purse, originalPurse := purse, purse;
      players, canBid := [], true;
    }

    /** Spending so far; together with the purse it always makes up the original purse.
        How it moves is proved by `SpentIsPurseLoss` and `SpentAfterSale`. */
    function TotalSpent(): (r: int)
      reads this`purse
      ensures r + purse == originalPurse
    {
      originalPurse - purse
    }

    function GetRoleCount(role: string): (r: nat)
      reads this
      ensures r <= |players|
      ensures players == [] ==> r == 0
    {
      CountRole(players, role)
    }

    /** Buy `player` for `price` if the purse covers it. */
    method AddPlayer(player: Player, price: int) returns (ok: bool)
      modifies this`purse, this`players, player
      ensures ok <==> old(purse) >= price
      ensures ok ==> purse == old(purse) - price && players == old(players) + [player]
      ensures ok ==> player.soldTo == Some(name) && player.soldPrice == Some(price)
                     && player.status == Sold
      ensures ok ==> TotalSpent() == old(TotalSpent()) + price
      ensures ok ==> forall role :: GetRoleCount(role)
                       == old(GetRoleCount(role)) + (if player.role == role then 1 else 0)
      ensures !ok ==> purse == old(purse) && players == old(players) && unchanged(player)
    {
      if purse >= price {
        player.soldTo := Some(name);
        player.soldPrice := Some(price);
        player.status := Sold;
        ok := true;
        forall role ensures CountRole(players + [player], role)
                            == CountRole(players, role) + (if player.role == role then 1 else 0) {
          CountRoleAppend(players, player, role);
        }
        players := players + [player];
        purse := purse - price;
      } else {
        ok := false;
      }
    }
  }

  /** Sum of every team's spending. */
  function SpentOf(ts: seq<Team>): int
    reads (set t | t in ts)`purse
  {
    if ts == [] then 0 else ts[0].TotalSpent() + SpentOf(ts[1..])
  }

  /** After team `ts[k]` alone has spent `d` more than the purses `before`
      record, total spending has grown by `d`. */
  lemma SpentAfterSale(ts: seq<Team>, before: seq<int>, k: nat, d: int)
    requires |before| == |ts| && k < |ts|
    requires ts[k].purse == before[k] - d
    requires forall i :: 0 <= i < |ts| && i != k ==> ts[i].purse == before[i]
    ensures SpentOf(ts) == OriginalTotal(ts) - Sum(before) + d
  {
    SpentIsPurseLoss(ts);
    SumOneLowered(before, Purses(ts), k, d);
  }

  ghost predicate DistinctTeams(ts: seq<Team>)
  {
    forall i, j :: 0 <= i < j < |ts| ==> ts[i] != ts[j]
  }

  /** The purses of `ts`, in order. */
  function Purses(ts: seq<Team>): (r: seq<int>)
    reads (set t | t in ts)`purse
    ensures |r| == |ts| && forall i :: 0 <= i < |ts| ==> r[i] == ts[i].purse
  {
    if ts == [] then [] else [ts[0].purse] + Purses(ts[1..])
  }

  /** The original purses of `ts` added up; they never change. */
  function OriginalTotal(ts: seq<Team>): int
  {
    if ts == [] then 0 else ts[0].originalPurse + OriginalTotal(ts[1..])
  }

  function Sum(xs: seq<int>): int
  {
    if xs == [] then 0 else xs[0] + Sum(xs[1..])
  }

  /** Total spending is what the purses have lost. */
  lemma {:induction false} SpentIsPurseLoss(ts: seq<Team>)
    ensures SpentOf(ts) == OriginalTotal(ts) - Sum(Purses(ts))
  {
    if ts != [] {
      SpentIsPurseLoss(ts[1..]);
    }
  }

  /** Lowering one entry by `d` lowers the sum by `d`. */
  lemma {:induction false} SumOneLowered(a: seq<int>, b: seq<int>, k: nat, d: int)
    requires |a| == |b| && k < |a|
    requires b[k] == a[k] - d
    requires forall i :: 0 <= i < |a| && i != k ==> b[i] == a[i]
    ensures Sum(b) == Sum(a) - d
  {
    if k == 0 {
      assert a[1..] == b[1..];
    } else {
      SumOneLowered(a[1..], b[1..], k - 1, d);
    }
  }

  /** main.py `get_team_by_id`: the first team with the given id. */
  function FindTeam(ts: seq<Team>, id: string): (r: Option<Team>)
    ensures r.Some? ==> r.value in ts && r.value.id == id
    ensures r.None? <==> forall t :: t in ts ==> t.id != id
  {
    if ts == [] then None
    else if ts[0].id == id then Some(ts[0])
    else
      var r := FindTeam(ts[1..], id);
      assert r.None? ==> forall t :: t in ts ==> t == ts[0] || t in ts[1..];
      r
  }

  /** The team found is the first one with that id. */
  lemma {:induction false} FindTeamFirst(ts: seq<Team>, id: string, i: nat)
    requires i < |ts| && ts[i].id == id
    requires forall j :: 0 <= j < i ==> ts[j].id != id
    ensures FindTeam(ts, id) == Some(ts[i])
  {
    if i > 0 {
      FindTeamFirst(ts[1..], id, i - 1);
    }
  }

  /** The role a player's batch is chosen by. */
  function RoleOf(p: Player): Role
  {
    NormalizeRole(p.role)
  }

  /** The players of `ps` that `f` assigns to role `r`, in input order. */
  function Classify(ps: seq<Player>, f: Player -> Role, r: Role): (b: seq<Player>)
    ensures |b| <= |ps|
  {
    if ps == [] then []
    else (if f(ps[0]) == r then [ps[0]] else []) + Classify(ps[1..], f, r)
  }

  /** `Classify` keeps exactly the players assigned to the role. */
  lemma {:induction false} ClassifyMembers(ps: seq<Player>, f: Player -> Role, r: Role)
    ensures forall p :: p in Classify(ps, f, r) ==> p in ps && f(p) == r
    ensures forall p :: p in ps && f(p) == r ==> p in Classify(ps, f, r)
  {
    if ps != [] {
      ClassifyMembers(ps[1..], f, r);
      ClassifyHead(ps, f, r);
      assert forall p :: p in ps ==> p == ps[0] || p in ps[1..];
    }
  }

  lemma {:induction false} ClassifyAppend(ps: seq<Player>, p: Player, f: Player -> Role, r: Role)
    ensures Classify(ps + [p], f, r) == Classify(ps, f, r) + (if f(p) == r then [p] else [])
  {
    if ps != [] {
      assert (ps + [p])[1..] == ps[1..] + [p];
      ClassifyAppend(ps[1..], p, f, r);
    }
  }

  /** One step of `Classify`: the head goes to its own role's batch only. */
  lemma ClassifyHead(ps: seq<Player>, f: Player -> Role, r: Role)
    requires ps != []
    ensures f(ps[0]) == r ==> Classify(ps, f, r) == [ps[0]] + Classify(ps[1..], f, r)
    ensures f(ps[0]) != r ==> Classify(ps, f, r) == Classify(ps[1..], f, r)
  {
  }

  /** The four batches of `ps` put back together. */
  function Rejoined(ps: seq<Player>, f: Player -> Role): multiset<Player>
  {
    multiset(Classify(ps, f, Batsman)) + multiset(Classify(ps, f, Bowler))
    + multiset(Classify(ps, f, AllRounder)) + multiset(Classify(ps, f, WicketKeeper))
  }

  /** The head of the list adds itself to the batch of its own role only. */
  lemma ClassifyHeadMultiset(ps: seq<Player>, f: Player -> Role, r: Role)
    requires ps != []
    ensures multiset(Classify(ps, f, r))
            == HeadShare(ps[0], f(ps[0]), r) + multiset(Classify(ps[1..], f, r))
  {
    ClassifyHead(ps, f, r);
  }

  /** The share of `p` in the batch of role `r`. */
  function HeadShare(p: Player, x: Role, r: Role): multiset<Player>
  {
    if x == r then multiset{p} else multiset{}
  }

  /** A player's four shares make up one copy of the player. */
  lemma HeadSharesSum(p: Player, x: Role)
    ensures HeadShare(p, x, Batsman) + HeadShare(p, x, Bowler)
            + HeadShare(p, x, AllRounder) + HeadShare(p, x, WicketKeeper) == multiset{p}
  {
    match x
    case Batsman =>
    case Bowler =>
    case AllRounder =>
    case WicketKeeper =>
  }

  /** Four unions regrouped: the heads together, the tails together. */
  lemma Regroup<T>(h: multiset<T>, hb: multiset<T>, ho: multiset<T>, ha: multiset<T>, hw: multiset<T>,
                   b: multiset<T>, o: multiset<T>, a: multiset<T>, w: multiset<T>)
    requires hb + ho + ha + hw == h
    ensures (hb + b) + (ho + o) + (ha + a) + (hw + w) == h + (b + o + a + w)
  {
  }

  /** The head of the list adds itself to exactly one batch. */
  lemma RejoinedCons(ps: seq<Player>, f: Player -> Role)
    requires ps != []
    ensures Rejoined(ps, f) == multiset{ps[0]} + Rejoined(ps[1..], f)
  {
    var h, t := ps[0], ps[1..];
    ClassifyHeadMultiset(ps, f, Batsman);
    ClassifyHeadMultiset(ps, f, Bowler);
    ClassifyHeadMultiset(ps, f, AllRounder);
    ClassifyHeadMultiset(ps, f, WicketKeeper);
    HeadSharesSum(h, f(h));
    Regroup(multiset{h}, HeadShare(h, f(h), Batsman), HeadShare(h, f(h), Bowler),
            HeadShare(h, f(h), AllRounder), HeadShare(h, f(h), WicketKeeper),
            multiset(Classify(t, f, Batsman)), multiset(Classify(t, f, Bowler)),
            multiset(Classify(t, f, AllRounder)), multiset(Classify(t, f, WicketKeeper)));
  }

  /** The four batches together are a permutation of the players. */
  lemma {:induction false} ClassifyPartition(ps: seq<Player>, f: Player -> Role)
    ensures Rejoined(ps, f) == multiset(ps)
  {
    if ps != [] {
      ClassifyPartition(ps[1..], f);
      RejoinedCons(ps, f);
      MultisetCons(ps);
    }
  }

  /** The multiset of a list is its head plus the multiset of its tail. */
  lemma MultisetCons<T>(s: seq<T>)
    requires s != []
    ensures multiset(s) == multiset{s[0]} + multiset(s[1..])
  {
    assert s == [s[0]] + s[1..];
  }

  lemma ClassifySizes(ps: seq<Player>, f: Player -> Role)
    ensures |Classify(ps, f, Batsman)| + |Classify(ps, f, Bowler)|
            + |Classify(ps, f, AllRounder)| + |Classify(ps, f, WicketKeeper)| == |ps|
  {
    ClassifyPartition(ps, f);
    assert |multiset(ps)| == |ps|;
  }

  /** The batch `organize_players_by_role` builds for role `r`. */
  function RoleBatch(ps: seq<Player>, r: Role): seq<Player>
  {
    Classify(ps, RoleOf, r)
  }

  /** A role's batch holds exactly the players whose role normalises to it. */
  lemma RoleBatchMembers(ps: seq<Player>, r: Role)
    ensures forall p :: p in RoleBatch(ps, r) ==> p in ps && NormalizeRole(p.role) == r
    ensures forall p :: p in ps && NormalizeRole(p.role) == r ==> p in RoleBatch(ps, r)
  {
    ClassifyMembers(ps, RoleOf, r);
  }

  /** Every player lands in exactly one of the four role batches. */
  lemma RoleBatchesPartition(ps: seq<Player>)
    ensures multiset(RoleBatch(ps, Batsman)) + multiset(RoleBatch(ps, Bowler))
            + multiset(RoleBatch(ps, AllRounder)) + multiset(RoleBatch(ps, WicketKeeper))
            == multiset(ps)
    ensures |RoleBatch(ps, Batsman)| + |RoleBatch(ps, Bowler)|
            + |RoleBatch(ps, AllRounder)| + |RoleBatch(ps, WicketKeeper)| == |ps|
  {
    ClassifyPartition(ps, RoleOf);
    ClassifySizes(ps, RoleOf);
  }

  /** `a` ranks strictly above `b` by `(base_price, skill_rating)`. */
  predicate Outranks(a: Player, b: Player)
  {
    a.basePrice > b.basePrice || (a.basePrice == b.basePrice && a.skillRating > b.skillRating)
  }

  /** "`a` may come first" in the descending `(base_price, skill_rating)` order. */
  predicate PriorityLe(a: Player, b: Player)
  {
    !Outranks(b, a)
  }

  lemma PriorityLePreorder(dom: set<Player>)
    ensures PreorderOn(dom, PriorityLe)
  {
  }

  /** `sorted(..., key=(base_price, skill_rating), reverse=True)`. */
  function SortedByPriority(ps: seq<Player>): (r: seq<Player>)
    ensures multiset(r) == multiset(ps)
    ensures SortedBy(r, PriorityLe)
  {
    PriorityLePreorder(set p | p in ps);
    SortBySorted(ps, PriorityLe, set p | p in ps);
    SortBy(ps, PriorityLe)
  }

  /** Players tied on `(base_price, skill_rating)` keep their pool order. */
  lemma SortedByPriorityStable(pool: seq<Player>, y: Player)
    ensures TiesWith(SortedByPriority(pool), PriorityLe, y) == TiesWith(pool, PriorityLe, y)
  {
    var dom := (set p | p in pool) + {y};
    PriorityLePreorder(dom);
    SortByStable(pool, PriorityLe, y, dom);
  }

  /** How many entries of `s` rank strictly above `x`. */
  function CountOutranking(s: seq<Player>, x: Player): (n: nat)
    ensures n <= |s|
  {
    if s == [] then 0 else (if Outranks(s[0], x) then 1 else 0) + CountOutranking(s[1..], x)
  }

  lemma {:induction false} CountOutrankingConcat(a: seq<Player>, b: seq<Player>, x: Player)
    ensures CountOutranking(a + b, x) == CountOutranking(a, x) + CountOutranking(b, x)
  {
    if a != [] {
      assert (a + b)[0] == a[0];
      assert (a + b)[1..] == a[1..] + b;
      CountOutrankingConcat(a[1..], b, x);
      assert CountOutranking(a + b, x)
             == (if Outranks(a[0], x) then 1 else 0) + CountOutranking(a[1..] + b, x);
    } else {
      assert a + b == b;
    }
  }

  lemma {:induction false} CountOutrankingInsert(y: Player, t: seq<Player>, x: Player)
    ensures CountOutranking(Insert(y, t, PriorityLe), x)
            == CountOutranking(t, x) + (if Outranks(y, x) then 1 else 0)
  {
    if t != [] && PriorityLe(t[0], y) {
      CountOutrankingInsert(y, t[1..], x);
    }
  }

  lemma {:induction false} CountOutrankingSort(s: seq<Player>, x: Player)
    ensures CountOutranking(SortBy(s, PriorityLe), x) == CountOutranking(s, x)
  {
    if s != [] {
      var init := s[..|s| - 1];
      CountOutrankingSort(init, x);
      CountOutrankingInsert(s[|s| - 1], SortBy(init, PriorityLe), x);
      CountOutrankingConcat(init, [s[|s| - 1]], x);
      assert init + [s[|s| - 1]] == s;
    }
  }

  /** In a list sorted by priority, no entry from position `k` on outranks the entry at `k`. */
  lemma {:induction false} NoneOutrankFromPosition(r: seq<Player>, k: nat, x: Player)
    requires SortedBy(r, PriorityLe) && k < |r| && r[k] == x
    ensures CountOutranking(r[k..], x) == 0
  {
    var i := |r|;
    while i > k
      invariant k <= i <= |r|
      invariant CountOutranking(r[i..], x) == 0
    {
      i := i - 1;
      assert r[i..] == [r[i]] + r[i + 1..];
      assert i == k || PriorityLe(r[k], r[i]);
    }
  }

  /** In a list sorted by priority, at most `k` entries outrank the entry at `k`. */
  lemma OutrankedAtMostPosition(r: seq<Player>, k: nat, x: Player)
    requires SortedBy(r, PriorityLe) && k < |r| && r[k] == x
    ensures CountOutranking(r, x) <= k
  {
    NoneOutrankFromPosition(r, k, x);
    CountOutrankingConcat(r[..k], r[k..], x);
    assert r[..k] + r[k..] == r;
  }

  /** The drawn player is outranked by fewer than `DrawWindow` players of the pool. */
  lemma DrawIsTopRanked(pool: seq<Player>, x: Player)
    requires x in SortedByPriority(pool)[..Min(DrawWindow, |pool|)]
    ensures x in pool
    ensures CountOutranking(pool, x) < DrawWindow
  {
    var r := SortedByPriority(pool);
    var w := Min(DrawWindow, |pool|);
    var k :| 0 <= k < w && r[..w][k] == x;
    assert r[k] == x;
    assert x in multiset(pool);
    OutrankedAtMostPosition(r, k, x);
    CountOutrankingSort(pool, x);
  }

  function Min(a: int, b: int): int
  {
    if a <= b then a else b
  }

  /** `[p for p in s if p.id != id]`. */
  function WithoutId(s: seq<Player>, id: string): (r: seq<Player>)
    ensures forall p :: p in r ==> p in s && p.id != id
    ensures forall p :: p in s && p.id != id ==> p in r
    ensures |r| <= |s|
    ensures (exists p :: p in s && p.id == id) ==> |r| < |s|
  {
    if s == [] then []
    else
      var rest := WithoutId(s[1..], id);
      assert forall p :: p in s ==> p == s[0] || p in s[1..];
      (if s[0].id != id then [s[0]] else []) + rest
  }

  /** main.py `_get_next_batch`: the first role of the order whose batch is
      present and not empty. */
  function FirstReadyRole(order: seq<string>, batches: map<Role, seq<Player>>): (r: Option<Role>)
    ensures r.Some? ==> r.value in batches && batches[r.value] != []
    ensures r.Some? ==> exists i :: 0 <= i < |order| && order[i] == r.value.Value()
                                    && forall j :: 0 <= j < i ==> !Ready(order[j], batches)
    ensures r.None? <==> forall i :: 0 <= i < |order| ==> !Ready(order[i], batches)
  {
    if order == [] then None
    else if Ready(order[0], batches) then RoleOfValue(order[0])
    else
      var r := FirstReadyRole(order[1..], batches);
      assert r.Some? ==> exists i :: 0 <= i < |order[1..]| && order[1..][i] == r.value.Value()
                                     && forall j :: 0 <= j < i ==> !Ready(order[1..][j], batches);
      assert forall i :: 1 <= i < |order| ==> order[i] == order[1..][i - 1];
      r
  }

  /** The role value names a batch that still has players. */
  predicate Ready(roleValue: string, batches: map<Role, seq<Player>>)
  {
    var r := RoleOfValue(roleValue);
    r.Some? && r.value in batches && batches[r.value] != []
  }

  /** Set every listed player's status to UNSOLD, leaving sale details alone. */
  method MarkAllUnsold(ps: seq<Player>)
    modifies (set p | p in ps)`status
    ensures forall p :: p in ps ==> p.status == Unsold
    ensures forall p :: p in ps ==> p.soldTo == old(p.soldTo) && p.soldPrice == old(p.soldPrice)
  {
    for i := 0 to |ps|
      invariant forall j :: 0 <= j < i ==> ps[j].status == Unsold
    {
      ps[i].status := Unsold;
    }
  }

  /** One bid-history entry; the wall-clock stamp is not modelled. */
  datatype BidEntry = BidEntry(team: string, player: string, amount: int)

  datatype AuctionStats = AuctionStats(
    totalPlayers: nat,
    soldPlayers: nat,
    unsoldPlayers: nat,
    totalSpent: int,
    averagePrice: real,
    highestPaid: Option<Player>,
    remainingInBatch: nat,
    totalRemaining: nat)

  /** The players of `ps` with status `st`, in order. */
  function WithStatus(ps: seq<Player>, st: Status): (r: seq<Player>)
    reads set p | p in ps
    ensures |r| <= |ps|
    ensures forall p :: p in r ==> p in ps && p.status == st
    ensures forall p :: p in ps && p.status == st ==> p in r
  {
    if ps == [] then []
    else (if ps[0].status == st then [ps[0]] else []) + WithStatus(ps[1..], st)
  }

  /** Sold and unsold players never outnumber the players, and match them
      exactly when nobody is withdrawn. */
  lemma {:induction false} StatusCounts(ps: seq<Player>)
    ensures |WithStatus(ps, Sold)| + |WithStatus(ps, Unsold)| <= |ps|
    ensures (forall p :: p in ps ==> p.status != Withdrawn)
            ==> |WithStatus(ps, Sold)| + |WithStatus(ps, Unsold)| == |ps|
  {
    if ps != [] {
      StatusCounts(ps[1..]);
      assert forall p :: p in ps[1..] ==> p in ps;
    }
  }

  /** `x.sold_price or 0`. */
  function PaidOrZero(p: Player): int
    reads p
  {
    p.soldPrice.GetOr(0)
  }

  /** Python's `max(ps, key=...)`: the first player with the largest price. */
  function FirstMaxPaid(ps: seq<Player>): (r: Player)
    requires ps != []
    reads set p | p in ps
    ensures r in ps
    ensures forall p :: p in ps ==> PaidOrZero(p) <= PaidOrZero(r)
    ensures exists i :: 0 <= i < |ps| && ps[i] == r && forall j :: 0 <= j < i ==> PaidOrZero(ps[j]) < PaidOrZero(r)
  {
    if |ps| == 1 then ps[0]
    else
      var m := FirstMaxPaid(ps[1..]);
      assert forall p :: p in ps ==> p == ps[0] || p in ps[1..];
      if PaidOrZero(ps[0]) >= PaidOrZero(m) then ps[0]
      else
        assert exists i :: 1 <= i < |ps| && ps[i] == m && forall j :: 0 <= j < i ==> PaidOrZero(ps[j]) < PaidOrZero(m) by {
          var i :| 0 <= i < |ps[1..]| && ps[1..][i] == m && forall j :: 0 <= j < i ==> PaidOrZero(ps[1..][j]) < PaidOrZero(m);
          assert ps[i + 1] == m;
          forall j | 0 <= j < i + 1 ensures PaidOrZero(ps[j]) < PaidOrZero(m) {
            if j > 0 { assert ps[j] == ps[1..][j - 1]; }
          }
        }
        m
  }

  /** The sold player with the highest price, the first such in list order;
      nothing when nobody is sold. */
  function HighestPaid(ps: seq<Player>): (r: Option<Player>)
    reads set p | p in ps
    ensures r.Some? <==> exists p :: p in ps && p.status == Sold
    ensures r.Some? ==> r.value in ps && r.value.status == Sold
    ensures r.Some? ==> forall p :: p in ps && p.status == Sold ==> PaidOrZero(p) <= PaidOrZero(r.value)
  {
    var sold := WithStatus(ps, Sold);
    if sold == [] then None else Some(FirstMaxPaid(sold))
  }

  /** A batch as setup leaves it: the role's players in input order, or any
      reordering of them when batches are shuffled. */
  ghost predicate Arranged(batch: seq<Player>, ps: seq<Player>, r: Role, shuffled: bool)
  {
    if shuffled then multiset(batch) == multiset(RoleBatch(ps, r)) else batch == RoleBatch(ps, r)
  }

  /** `random.shuffle` on every batch: each comes back in some order of its own players. */
  method ShuffleEach(batches: map<Role, seq<Player>>) returns (shuffled: map<Role, seq<Player>>)
    requires forall r: Role :: r in batches
    ensures forall r: Role :: r in shuffled && multiset(shuffled[r]) == multiset(batches[r])
  {
    shuffled := batches;
    for k := 0 to |AllRoles|
      invariant forall r: Role :: r in shuffled
      invariant forall r: Role :: r in AllRoles[..k] ==> multiset(shuffled[r]) == multiset(batches[r])
      invariant forall r: Role :: r !in AllRoles[..k] ==> shuffled[r] == batches[r]
    {
      var role := AllRoles[k];
      var order :| multiset(order) == multiset(batches[role]);
      assert AllRoles[..k + 1] == AllRoles[..k] + [role];
      shuffled := shuffled[role := order];
    }
    AllRolesListed();
    assert AllRoles[..|AllRoles|] == AllRoles;
  }

  /** The loop of `organize_players_by_role`: append each player, in order,
      to the batch of the role `f` gives it. */
  method Distribute(ps: seq<Player>, f: Player -> Role) returns (batches: map<Role, seq<Player>>)
    ensures forall r: Role :: r in batches
    ensures forall r: Role :: batches[r] == Classify(ps, f, r)
  {
    batches := map r: Role | r in AllRoles :: [];
    AllRolesListed();
    for i := 0 to |ps|
      invariant forall r: Role :: r in batches
      invariant forall r: Role :: batches[r] == Classify(ps[..i], f, r)
    {
      var player := ps[i];
      // `f` always yields one of the four keys, so the fallback to the
      // all-rounder batch is never taken.
      var roleKey := f(player);
      forall r: Role ensures Classify(ps[..i] + [player], f, r)
                             == Classify(ps[..i], f, r) + (if roleKey == r then [player] else []) {
        ClassifyAppend(ps[..i], player, f, r);
      }
      assert ps[..i + 1] == ps[..i] + [player];
      batches := batches[roleKey := batches[roleKey] + [player]];
    }
    assert ps[..|ps|] == ps;
  }

  class AuctionManager {
    var teams: seq<Team>
    var players: seq<Player>
    var currentPlayer: Player?
    var currentBid: int
    var currentTeamId: Option<string>
    var lastBidderId: Option<string>
    var auctionComplete: bool
    var remainingPlayers: seq<Player>
    var playerBatches: map<Role, seq<Player>>
    var currentBatch: string
    var auctionOrder: seq<string>
    var maxSquadSize: int
    var bidHistory: seq<BidEntry>

    constructor ()
      ensures teams == [] && players == [] && currentPlayer == null && currentBid == 0
      ensures currentTeamId == None && lastBidderId == None && !auctionComplete
      ensures remainingPlayers == [] && playerBatches == map[] && currentBatch == ""
      ensures auctionOrder == [] && maxSquadSize == DefaultMaxSquadSize && bidHistory == []
    {
      teams, players, currentPlayer, currentBid := [], [], null, 0;
      currentTeamId, lastBidderId, auctionComplete := None, None, false;
      remainingPlayers, playerBatches, currentBatch := [], map[], "";
      auctionOrder, maxSquadSize, bidHistory := [], DefaultMaxSquadSize, [];
    }

    /** `organize_players_by_role`: one batch per role, in input order. */
    method OrganizePlayersByRole() returns (batches: map<Role, seq<Player>>)
      ensures forall r: Role :: r in batches
      ensures forall r: Role :: batches[r] == RoleBatch(players, r)
    {
      batches := Distribute(players, RoleOf);
    }

    /** `get_next_player`: draw one of the top-ranked remaining players and
        take every player with its id out of the pool. */
    method GetNextPlayer() returns (selected: Player?)
      modifies this`remainingPlayers
      ensures old(remainingPlayers) == [] ==> selected == null && remainingPlayers == []
      ensures old(remainingPlayers) != [] ==>
        && selected != null
        && selected in SortedByPriority(old(remainingPlayers))[..Min(DrawWindow, |old(remainingPlayers)|)]
        && remainingPlayers == WithoutId(old(remainingPlayers), selected.id)
    {
      if remainingPlayers == [] {
        return null;
      }
      var sortedPlayers := SortedByPriority(remainingPlayers);
      var maxIndex := Min(DrawWindow - 1, |sortedPlayers| - 1);
      var playerIndex :| 0 <= playerIndex <= maxIndex;
      selected := sortedPlayers[playerIndex];
      assert sortedPlayers[..Min(DrawWindow, |sortedPlayers|)][playerIndex] == selected;
      remainingPlayers := WithoutId(remainingPlayers, selected.id);
    }

    /** `can_team_bid`. `LastBidderCannotBid` and `PlaceBid` prove what it guarantees. */
    function CanTeamBid(team: Team, amount: int): (r: bool)
      reads this, team
      ensures r <==> team.canBid && team.purse >= amount && |team.players| < maxSquadSize
                     && lastBidderId != Some(team.id)
    {
      team.canBid && team.purse >= amount && |team.players| < maxSquadSize
      && lastBidderId != Some(team.id)
    }

    /** The team holding the last accepted bid may not bid again straight away. */
    lemma LastBidderCannotBid(team: Team, amount: int)
      requires lastBidderId == Some(team.id)
      ensures !CanTeamBid(team, amount)
    {
    }

    /** `place_bid`. */
    method PlaceBid(teamId: string, amount: int) returns (ok: bool)
      modifies this`currentBid, this`currentTeamId, this`lastBidderId, this`bidHistory
      ensures var team := FindTeam(teams, teamId);
        ok <==> team.Some? && old(CanTeamBid(team.value, amount))
      ensures ok ==> && currentBid == amount
                     && currentTeamId == Some(teamId) && lastBidderId == Some(teamId)
                     && bidHistory == old(bidHistory) + [BidEntry(FindTeam(teams, teamId).value.name,
                                                                  if currentPlayer != null then currentPlayer.name else "",
                                                                  amount)]
      ensures ok ==> forall a :: !CanTeamBid(FindTeam(teams, teamId).value, a)
      ensures !ok ==> unchanged(this)
    {
      var team := FindTeam(teams, teamId);
      if team.None? || !CanTeamBid(team.value, amount) {
        return false;
      }
      currentBid := amount;
      currentTeamId := Some(teamId);
      lastBidderId := Some(teamId);
      bidHistory := bidHistory + [BidEntry(team.value.name,
                                           if currentPlayer != null then currentPlayer.name else "",
                                           amount)];
      ok := true;
    }

    /** The team named by `current_team_id`, when that id is set. */
    function CurrentTeam(): Option<Team>
      reads this
    {
      if Truthy(currentTeamId) then FindTeam(teams, currentTeamId.value) else None
    }

    /** The eligibility `_update_team_eligibility` assigns. */
    predicate EligibleNow(t: Team)
      reads this`maxSquadSize, t`purse, t`players
    {
      t.purse >= MinPurseToBid && |t.players| < maxSquadSize
    }

    ghost predicate EligibilityCurrent()
      reads this`teams, this`maxSquadSize, set t | t in teams
    {
      forall t :: t in teams ==> t.canBid == EligibleNow(t)
    }

    function TeamsSpent(): int
      reads this`teams, (set t | t in teams)`purse
    {
      SpentOf(teams)
    }

    /** `sell_player`: the bidding team buys the current player at the current bid. */
    method SellPlayer() returns (ok: bool)
      modifies this`currentPlayer, this`currentBid, this`currentTeamId, this`lastBidderId
      modifies set t | t in teams
      modifies if currentPlayer == null then {} else {currentPlayer}
      ensures ok <==> old(currentPlayer != null && CurrentTeam().Some?
                          && CurrentTeam().value.purse >= currentBid)
      ensures !ok ==> && unchanged(this) && unchanged(set t | t in teams)
                      && (old(currentPlayer) != null ==> unchanged(old(currentPlayer)))
      ensures ok ==> SoldTo(old(CurrentTeam()).value, old(currentPlayer), old(currentBid))
      ensures ok ==> EligibilityCurrent()
      ensures ok ==> currentPlayer == null && currentBid == 0 && currentTeamId == None
                     && lastBidderId == None
    {
      if currentPlayer == null || !Truthy(currentTeamId) {
        return false;
      }
      var team := FindTeam(teams, currentTeamId.value);
      if team.None? {
        return false;
      }
      ok := Settle(team.value);
    }

    /** What a sale of `p` to `w` at `price` leaves behind, compared with
        the state before it. */
    twostate predicate SoldTo(w: Team, p: Player, price: int)
      reads this, w, p, set t | t in teams
    {
      && w.purse == old(w.purse) - price
      && w.players == old(w.players) + [p]
      && p.status == Sold && p.soldTo == Some(w.name) && p.soldPrice == Some(price)
      && teams == old(teams)
      && (forall t :: t in old(teams) && t != w ==> t.purse == old(t.purse) && t.players == old(t.players))
      && (DistinctTeams(teams) ==> TeamsSpent() == old(TeamsSpent()) + price)
    }

    /** The part of `sell_player` after the buying team is found. */
    method Settle(w: Team) returns (ok: bool)
      requires w in teams && currentPlayer != null
      modifies this`currentPlayer, this`currentBid, this`currentTeamId, this`lastBidderId
      modifies set t | t in teams
      modifies currentPlayer
      ensures ok <==> old(w.purse) >= old(currentBid)
      ensures !ok ==> && unchanged(this) && unchanged(set t | t in teams) && unchanged(old(currentPlayer))
      ensures ok ==> SoldTo(w, old(currentPlayer), old(currentBid))
      ensures ok ==> EligibilityCurrent()
      ensures ok ==> currentPlayer == null && currentBid == 0 && currentTeamId == None
                     && lastBidderId == None
    {
      ok := Buy(w);
      if ok {
        UpdateTeamEligibility();
        ResetCurrentAuction();
      }
    }

    /** `team.add_player(self.current_player, self.current_bid)`, with what
        it does to the total spending of all teams. */
    method Buy(w: Team) returns (ok: bool)
      requires w in teams && currentPlayer != null
      modifies w`purse, w`players, currentPlayer
      ensures ok <==> old(w.purse) >= currentBid
      ensures ok ==> w.purse == old(w.purse) - currentBid && w.players == old(w.players) + [currentPlayer]
      ensures ok ==> currentPlayer.status == Sold && currentPlayer.soldTo == Some(w.name)
                     && currentPlayer.soldPrice == Some(currentBid)
      ensures ok ==> DistinctTeams(teams) ==> TeamsSpent() == old(TeamsSpent()) + currentBid
      ensures !ok ==> unchanged(w) && unchanged(currentPlayer)
    {
      ghost var pursesBefore := Purses(teams);
      SpentIsPurseLoss(teams);
      ok := w.AddPlayer(currentPlayer, currentBid);
      if ok && DistinctTeams(teams) {
        var k :| 0 <= k < |teams| && teams[k] == w;
        SpentAfterSale(teams, pursesBefore, k, currentBid);
      }
    }

    /** `mark_unsold`. */
    method MarkUnsold()
      modifies this`currentPlayer, this`currentBid, this`currentTeamId, this`lastBidderId
      modifies if currentPlayer == null then {} else {currentPlayer}
      ensures old(currentPlayer) == null ==> unchanged(this)
      ensures old(currentPlayer) != null ==>
        && old(currentPlayer).status == Unsold
        && old(currentPlayer).soldTo == old(currentPlayer.soldTo)
        && old(currentPlayer).soldPrice == old(currentPlayer.soldPrice)
        && currentPlayer == null && currentBid == 0 && currentTeamId == None && lastBidderId == None
    {
      if currentPlayer != null {
        currentPlayer.status := Unsold;
        ResetCurrentAuction();
      }
    }

    /** `_reset_current_auction`. */
    method ResetCurrentAuction()
      modifies this`currentPlayer, this`currentBid, this`currentTeamId, this`lastBidderId
      ensures currentPlayer == null && currentBid == 0 && currentTeamId == None && lastBidderId == None
    {
      currentPlayer := null;
      currentBid := 0;
      currentTeamId := None;
      lastBidderId := None;
    }

    /** `_update_team_eligibility`. */
    method UpdateTeamEligibility()
      modifies set t | t in teams
      ensures EligibilityCurrent()
      ensures forall t :: t in teams ==> t.purse == old(t.purse) && t.players == old(t.players)
    {
      for i := 0 to |teams|
        invariant forall j :: 0 <= j < i ==> teams[j].canBid == EligibleNow(teams[j])
        invariant forall t :: t in teams ==> t.purse == old(t.purse) && t.players == old(t.players)
      {
        teams[i].canBid := teams[i].purse >= MinPurseToBid && |teams[i].players| < maxSquadSize;
      }
    }

    /** `get_team_by_id`. */
    function GetTeamById(teamId: string): (r: Option<Team>)
      reads this
      ensures r.Some? ==> r.value in teams && r.value.id == teamId
      ensures r.None? <==> forall t :: t in teams ==> t.id != teamId
    {
      FindTeam(teams, teamId)
    }

    ghost predicate NoTeamCanBid()
      reads this, set t | t in teams
    {
      forall t :: t in teams ==> !t.canBid
    }

    /** `proceed_to_next_batch`: abandon the rest of the current batch and
        load the next ready batch of the auction order. */
    method ProceedToNextBatch() returns (ok: bool)
      modifies this`remainingPlayers, this`playerBatches, this`currentBatch, this`auctionComplete
      modifies this`currentPlayer, this`currentBid, this`currentTeamId, this`lastBidderId
      modifies (set p | p in remainingPlayers)`status
      ensures forall p :: p in old(remainingPlayers) ==>
                p.status == Unsold && p.soldTo == old(p.soldTo) && p.soldPrice == old(p.soldPrice)
      ensures currentPlayer == null && currentBid == 0 && currentTeamId == None && lastBidderId == None
      ensures var next := FirstReadyRole(old(auctionOrder), old(playerBatches));
        && (ok <==> next.Some?)
        && (ok ==> && remainingPlayers == old(playerBatches)[next.value]
                   && playerBatches == old(playerBatches)[next.value := []]
                   && currentBatch == next.value.Value()
                   && auctionComplete == old(auctionComplete))
        && (!ok ==> && remainingPlayers == [] && playerBatches == old(playerBatches)
                    && currentBatch == old(currentBatch)
                    && auctionComplete == (old(auctionComplete) || NoTeamCanBid()))
      ensures teams == old(teams) && players == old(players) && auctionOrder == old(auctionOrder)
      ensures maxSquadSize == old(maxSquadSize) && bidHistory == old(bidHistory)
    {
      ClearBatch();
      ok := LoadNextBatch();
    }

    /** The first half of `proceed_to_next_batch`: every player left in the
        current batch goes unsold, and the current lot is reset. */
    method ClearBatch()
      modifies this`remainingPlayers, this`currentPlayer, this`currentBid, this`currentTeamId, this`lastBidderId
      modifies (set p | p in remainingPlayers)`status
      ensures forall p :: p in old(remainingPlayers) ==> p.status == Unsold
      ensures remainingPlayers == []
      ensures currentPlayer == null && currentBid == 0 && currentTeamId == None && lastBidderId == None
    {
      MarkAllUnsold(remainingPlayers);
      remainingPlayers := [];
      ResetCurrentAuction();
    }

    /** The second half of `proceed_to_next_batch`, once the current batch
        is cleared: load the next ready batch, or close the auction when no
        batch is left and no team can bid. */
    method LoadNextBatch() returns (ok: bool)
      modifies this`remainingPlayers, this`playerBatches, this`currentBatch, this`auctionComplete
      ensures var next := FirstReadyRole(auctionOrder, old(playerBatches));
        && (ok <==> next.Some?)
        && (ok ==> && remainingPlayers == old(playerBatches)[next.value]
                   && playerBatches == old(playerBatches)[next.value := []]
                   && currentBatch == next.value.Value()
                   && auctionComplete == old(auctionComplete))
        && (!ok ==> && remainingPlayers == old(remainingPlayers) && playerBatches == old(playerBatches)
                    && currentBatch == old(currentBatch)
                    && auctionComplete == (old(auctionComplete) || NoTeamCanBid()))
    {
      var nextBatch := FirstReadyRole(auctionOrder, playerBatches);
      if nextBatch.Some? {
        remainingPlayers := playerBatches[nextBatch.value];
        playerBatches := playerBatches[nextBatch.value := []];
        currentBatch := nextBatch.value.Value();
        return true;
      }
      var anyEligible := exists t :: t in teams && t.canBid;
      if !anyEligible {
        auctionComplete := true;
      }
      ok := false;
    }

    /** The batch of a role, or nothing when the role has no batch. */
    function BatchOf(r: Role): seq<Player>
      reads this
    {
      if r in playerBatches then playerBatches[r] else []
    }

    /** Every player not yet put up: the current batch and all waiting batches. */
    function Unauctioned(): seq<Player>
      reads this
    {
      remainingPlayers + BatchOf(Batsman) + BatchOf(Bowler) + BatchOf(AllRounder) + BatchOf(WicketKeeper)
    }

    /** `end_auction_early`. */
    method EndAuctionEarly()
      modifies this`auctionComplete, (set p | p in Unauctioned())`status
      ensures auctionComplete
      ensures forall p :: p in old(Unauctioned()) ==>
                p.status == Unsold && p.soldTo == old(p.soldTo) && p.soldPrice == old(p.soldPrice)
    {
      for k := 0 to |AllRoles|
        invariant forall j, p :: 0 <= j < k && p in BatchOf(AllRoles[j]) ==> p.status == Unsold
      {
        var role := AllRoles[k];
        if role in playerBatches {
          MarkAllUnsold(playerBatches[role]);
        }
      }
      MarkAllUnsold(remainingPlayers);
      auctionComplete := true;
      forall p | p in Unauctioned() ensures p.status == Unsold {
        if p in BatchOf(Batsman) {
          assert AllRoles[0] == Batsman;
        } else if p in BatchOf(Bowler) {
          assert AllRoles[1] == Bowler;
        } else if p in BatchOf(AllRounder) {
          assert AllRoles[2] == AllRounder;
        } else if p in BatchOf(WicketKeeper) {
          assert AllRoles[3] == WicketKeeper;
        }
      }
    }

    /** `get_auction_stats`. */
    function GetAuctionStats(): (r: AuctionStats)
      reads this, set p | p in players, (set t | t in teams)`purse
      ensures r.totalPlayers == |players|
      ensures r.soldPlayers == |WithStatus(players, Sold)|
      ensures r.unsoldPlayers == |WithStatus(players, Unsold)|
      ensures r.soldPlayers + r.unsoldPlayers <= r.totalPlayers
      ensures r.totalSpent == SpentOf(teams)
      ensures r.averagePrice == AveragePrice(r.totalSpent, r.soldPlayers)
      ensures r.highestPaid == HighestPaid(players)
      ensures r.remainingInBatch == |remainingPlayers|
      ensures r.totalRemaining == |Unauctioned()|
    {
      var sold := WithStatus(players, Sold);
      var total := SpentOf(teams);
      StatusCounts(players);
      AuctionStats(
        |players|,
        |sold|,
        |WithStatus(players, Unsold)|,
        total,
        AveragePrice(total, |sold|),
        HighestPaid(players),
        |remainingPlayers|,
        |remainingPlayers| + |BatchOf(Batsman)| + |BatchOf(Bowler)| + |BatchOf(AllRounder)| + |BatchOf(WicketKeeper)|)
    }

    /** The setup page's start button (main.py:592-608): install teams,
        players and settings, batch the players by role, optionally shuffle
        each batch, and load the first role of the order. */
    method SetUp(newTeams: seq<Team>, newPlayers: seq<Player>, squadSize: int,
                 order: seq<string>, shuffleBatches: bool)
      modifies this
      ensures teams == newTeams && players == newPlayers
      ensures maxSquadSize == squadSize && auctionOrder == order
      ensures forall r: Role :: r in playerBatches
      ensures var first := if order != [] then RoleOfValue(order[0]) else None;
        && (forall r: Role :: (first.Some? && r == first.value)
                              || Arranged(playerBatches[r], newPlayers, r, shuffleBatches))
        && (first.Some? ==> && Arranged(remainingPlayers, newPlayers, first.value, shuffleBatches)
                            && playerBatches[first.value] == [] && currentBatch == order[0])
        && (first.None? ==> remainingPlayers == old(remainingPlayers) && currentBatch == old(currentBatch))
      ensures currentPlayer == old(currentPlayer) && currentBid == old(currentBid)
      ensures currentTeamId == old(currentTeamId) && lastBidderId == old(lastBidderId)
      ensures auctionComplete == old(auctionComplete) && bidHistory == old(bidHistory)
    {
      teams := newTeams;
      players := newPlayers;
      maxSquadSize := squadSize;
      auctionOrder := order;
      LoadBatches(shuffleBatches);
      StartFirstBatch();
    }

    /** `player_batches = organize_players_by_role()`, then the optional shuffle. */
    method LoadBatches(shuffleBatches: bool)
      modifies this`playerBatches
      ensures forall r: Role :: r in playerBatches && Arranged(playerBatches[r], players, r, shuffleBatches)
    {
      var batches := OrganizePlayersByRole();
      if shuffleBatches {
        batches := ShuffleEach(batches);
      }
      playerBatches := batches;
    }

    /** Load the first role of the auction order, when it names a batch. */
    method StartFirstBatch()
      requires forall r: Role :: r in playerBatches
      modifies this`remainingPlayers, this`playerBatches, this`currentBatch
      ensures forall r: Role :: r in playerBatches
      ensures var first := if auctionOrder != [] then RoleOfValue(auctionOrder[0]) else None;
        && (forall r: Role :: (first.Some? && r == first.value) || playerBatches[r] == old(playerBatches[r]))
        && (first.Some? ==> && remainingPlayers == old(playerBatches[first.value])
                            && playerBatches[first.value] == [] && currentBatch == auctionOrder[0])
        && (first.None? ==> remainingPlayers == old(remainingPlayers) && currentBatch == old(currentBatch))
    {
      if auctionOrder != [] && RoleOfValue(auctionOrder[0]).Some? {
        var firstRole := RoleOfValue(auctionOrder[0]).value;
        remainingPlayers := playerBatches[firstRole];
        playerBatches := playerBatches[firstRole := []];
        currentBatch := firstRole.Value();
      }
    }

    /** The auction page's draw (main.py:656-660): with no player on the
        block and players left in the batch, draw one and open it at its base
        price with no bidder. */
    method BeginNextLot()
      modifies this`currentPlayer, this`currentBid, this`currentTeamId, this`lastBidderId
      modifies this`remainingPlayers
      ensures old(currentPlayer) != null || old(remainingPlayers) == [] ==> unchanged(this)
      ensures old(currentPlayer) == null && old(remainingPlayers) != [] ==>
        && currentPlayer != null
        && currentPlayer in SortedByPriority(old(remainingPlayers))[..Min(DrawWindow, |old(remainingPlayers)|)]
        && remainingPlayers == WithoutId(old(remainingPlayers), currentPlayer.id)
        && currentBid == currentPlayer.basePrice
        && currentTeamId == None && lastBidderId == None
    {
      if currentPlayer == null && remainingPlayers != [] {
        currentPlayer := GetNextPlayer();
        currentBid := if currentPlayer != null then currentPlayer.basePrice else 0;
        currentTeamId := None;
        lastBidderId := None;
      }
    }
  }
}
