/** The four playing roles (main.py's `PlayerRole`; the same four names key
    app.py's per-team role counts). */
module Roles {
  import opened Wrappers

  datatype Role = Batsman | Bowler | AllRounder | WicketKeeper {

    /** The role's display value, as stored in player records. */
    function Value(): string
    {
      match this
      case Batsman => "Batsman"
      case Bowler => "Bowler"
      case AllRounder => "All-rounder"
      case WicketKeeper => "Wicket-keeper"
    }
  }

  /** The enumeration order of `PlayerRole`. */
  const AllRoles: seq<Role> := [Batsman, Bowler, AllRounder, WicketKeeper]

  /** The role whose value is exactly `s`, if any (a dictionary lookup keyed
      by role value: no case folding, no trimming). */
  function RoleOfValue(s: string): (r: Option<Role>)
    ensures r.Some? ==> r.value.Value() == s
    ensures r.None? ==> forall role: Role :: role.Value() != s
  {
    if s == "Batsman" then Some(Batsman)
    else if s == "Bowler" then Some(Bowler)
    else if s == "All-rounder" then Some(AllRounder)
    else if s == "Wicket-keeper" then Some(WicketKeeper)
    else None
  }

  /** Every role is listed in `AllRoles`. */
  lemma AllRolesListed()
    ensures forall r: Role :: r in AllRoles
  {
    forall r: Role ensures r in AllRoles {
      match r
      case Batsman => assert AllRoles[0] == r;
      case Bowler => assert AllRoles[1] == r;
      case AllRounder => assert AllRoles[2] == r;
      case WicketKeeper => assert AllRoles[3] == r;
    }
  }

  lemma ValuesDistinct(a: Role, b: Role)
    ensures a.Value() == b.Value() ==> a == b
  {
  }
}
