/** main.py `AuctionManager._normalize_role`: free-form role names from
    player records mapped onto the four roles. */
module RoleNames {
  import opened Roles
  import Text

  /** The spellings `_normalize_role` accepts, after lower-casing and trimming. */
  const BatsmanSpellings: seq<string> := ["batsman", "batter"]
  const BowlerSpellings: seq<string> := ["bowler"]
  const AllRounderSpellings: seq<string> := ["all-rounder", "allrounder", "all rounder"]
  const KeeperSpellings: seq<string> := ["wicket-keeper", "wicketkeeper", "keeper"]

  /** `role.lower().strip()`. */
  function RoleKey(role: string): string
  {
    Text.Strip(Text.Lower(role))
  }

  /** No spelling stands for two roles. */
  lemma SpellingsDisjoint(key: string)
    ensures key in BatsmanSpellings ==> key !in BowlerSpellings + AllRounderSpellings + KeeperSpellings
    ensures key in BowlerSpellings ==> key !in AllRounderSpellings + KeeperSpellings
    ensures key in AllRounderSpellings ==> key !in KeeperSpellings
  {
  }

  /** The role a lower-cased, trimmed role name selects. */
  function RoleOfKey(key: string): Role
  {
    if key in BatsmanSpellings then Batsman
    else if key in BowlerSpellings then Bowler
    else if key in AllRounderSpellings then AllRounder
    else if key in KeeperSpellings then WicketKeeper
    else AllRounder
  }

  /** main.py `_normalize_role`. */
  function NormalizeRole(role: string): Role
  {
    RoleOfKey(RoleKey(role))
  }

  /** The role a free-form role name stands for, decided by its
      lower-cased, trimmed form; anything unrecognised counts as an
      all-rounder. */
  lemma NormalizeRoleSpellings(role: string)
    ensures NormalizeRole(role) == Batsman <==> RoleKey(role) in BatsmanSpellings
    ensures NormalizeRole(role) == Bowler <==> RoleKey(role) in BowlerSpellings
    ensures NormalizeRole(role) == WicketKeeper <==> RoleKey(role) in KeeperSpellings
    ensures NormalizeRole(role) == AllRounder
            <==> RoleKey(role) !in BatsmanSpellings + BowlerSpellings + KeeperSpellings
  {
    SpellingsDisjoint(RoleKey(role));
  }

  /** A name whose lower-cased form is `key`, and `key` has no white space
      at its ends, reduces to `key`. */
  lemma RoleKeyOf(name: string, key: string)
    requires |name| == |key| && key != []
    requires forall i :: 0 <= i < |key| ==> key[i] == Text.LowerChar(name[i])
    requires !Text.IsSpace(key[0]) && !Text.IsSpace(key[|key| - 1])
    ensures RoleKey(name) == key
  {
    assert Text.Lower(name) == key;
  }

  /** The first listed spelling of each role. */
  function CanonicalKey(r: Role): string
  {
    match r
    case Batsman => BatsmanSpellings[0]
    case Bowler => BowlerSpellings[0]
    case AllRounder => AllRounderSpellings[0]
    case WicketKeeper => KeeperSpellings[0]
  }

  /** Each role's value lower-cases and trims to its first spelling. */
  lemma RoleKeyOfValue(r: Role)
    ensures RoleKey(r.Value()) == CanonicalKey(r)
  {
    match r
    case Batsman => BatsmanKey();
    case Bowler => BowlerKey();
    case AllRounder => AllRounderKey();
    case WicketKeeper => KeeperKey();
  }

  lemma BatsmanKey() ensures RoleKey("Batsman") == "batsman" { RoleKeyOf("Batsman", "batsman"); }
  lemma BowlerKey() ensures RoleKey("Bowler") == "bowler" { RoleKeyOf("Bowler", "bowler"); }
  lemma AllRounderKey() ensures RoleKey("All-rounder") == "all-rounder" { RoleKeyOf("All-rounder", "all-rounder"); }
  lemma KeeperKey() ensures RoleKey("Wicket-keeper") == "wicket-keeper" { RoleKeyOf("Wicket-keeper", "wicket-keeper"); }

  /** Each role's first spelling selects that role. */
  lemma CanonicalKeySelects(r: Role)
    ensures RoleOfKey(CanonicalKey(r)) == r
  {
  }

  /** `NormalizeRole` through an intermediate key. */
  lemma NormalizeThroughKey(role: string, key: string, r: Role)
    requires RoleKey(role) == key && RoleOfKey(key) == r
    ensures NormalizeRole(role) == r
  {
  }

  /** Normalising a role's own value gives that role back. */
  lemma NormalizeRoleValue(r: Role)
    ensures NormalizeRole(r.Value()) == r
  {
    RoleKeyOfValue(r);
    CanonicalKeySelects(r);
    NormalizeThroughKey(r.Value(), CanonicalKey(r), r);
  }

  /** Normalisation is idempotent. */
  lemma NormalizeRoleIdempotent(role: string)
    ensures NormalizeRole(NormalizeRole(role).Value()) == NormalizeRole(role)
  {
    NormalizeRoleValue(NormalizeRole(role));
  }
}
