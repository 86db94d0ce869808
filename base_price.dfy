/** Base price of a player from its skill rating (main.py's
    `DataManager._calculate_base_price` and app.py's `calculate_base_price`).
    Each skill tier offers a fixed set of prices and one is drawn at random. */
module BasePrice {

  /** Tenths of a crore in one paisa unit: 1 Cr = 10^7 paise, so 0.1 Cr = 10^6 paise. */
  const PaisePerTenth: nat := 1_000_000

  /** The prices a skill tier offers, in tenths of a crore (45 is 4.5 Cr). */
  function TierChoices(skill: real): (r: seq<nat>)
    ensures |r| > 0
    ensures forall p :: p in r ==> 5 <= p <= 50 && p % 5 == 0
    ensures skill < 60.0 <==> r == [5]
    ensures skill >= 91.0 <==> 50 in r
  {
    if skill >= 91.0 then [45, 50]
    else if skill >= 86.0 then [30, 35, 40]
    else if skill >= 77.0 then [15, 20, 25]
    else if skill >= 70.0 then [10, 15]
    else if skill >= 60.0 then [10]
    else [5]
  }

  /** app.py's own tier table, in paise (4.5 Cr is 45_000_000). Each entry
      is the matching entry of main.py's table in tenths of a crore. */
  function PaiseChoices(skill: real): (r: seq<nat>)
    ensures |r| == |TierChoices(skill)|
    ensures forall i :: 0 <= i < |r| ==> r[i] == TierChoices(skill)[i] * PaisePerTenth
  {
    if skill >= 91.0 then [45_000_000, 50_000_000]
    else if skill >= 86.0 then [30_000_000, 35_000_000, 40_000_000]
    else if skill >= 77.0 then [15_000_000, 20_000_000, 25_000_000]
    else if skill >= 70.0 then [10_000_000, 15_000_000]
    else if skill >= 60.0 then [10_000_000]
    else [5_000_000]
  }

  /** main.py: `random.choice` over the tier, in tenths of a crore. */
  method CalculateBasePriceTenths(skill: real) returns (price: nat)
    ensures price in TierChoices(skill)
  {
    var t := TierChoices(skill);
    assert t[0] in t;
    price :| price in t;
  }

  /** app.py: `random.choice` over its own tier, in paise. */
  method CalculateBasePricePaise(skill: real) returns (price: nat)
    ensures price in PaiseChoices(skill)
    ensures price % PaisePerTenth == 0 && price / PaisePerTenth in TierChoices(skill)
  {
    var t := PaiseChoices(skill);
    assert t[0] in t;
    price :| price in t;
    var i :| 0 <= i < |t| && t[i] == price;
    assert price / PaisePerTenth == TierChoices(skill)[i];
  }

  function MinOf(s: seq<nat>): (m: nat)
    requires |s| > 0
    ensures m in s && forall x :: x in s ==> m <= x
  {
    if |s| == 1 then s[0] else
      assert s == [s[0]] + s[1..];
      var r := MinOf(s[1..]); if s[0] <= r then s[0] else r
  }

  function MaxOf(s: seq<nat>): (m: nat)
    requires |s| > 0
    ensures m in s && forall x :: x in s ==> x <= m
  {
    if |s| == 1 then s[0] else
      assert s == [s[0]] + s[1..];
      var r := MaxOf(s[1..]); if s[0] >= r then s[0] else r
  }

  /** A higher skill never lowers the cheapest or the dearest price on offer. */
  lemma TierMonotone(s1: real, s2: real)
    requires s1 <= s2
    ensures MinOf(TierChoices(s1)) <= MinOf(TierChoices(s2))
    ensures MaxOf(TierChoices(s1)) <= MaxOf(TierChoices(s2))
  {
    TierExtremes(s1);
    TierExtremes(s2);
    var a, b := TierChoices(s1), TierChoices(s2);
    assert a[0] <= b[0] && a[|a| - 1] <= b[|b| - 1];
  }

  /** Each tier lists its prices in increasing order, so its cheapest price
      comes first and its dearest last. */
  lemma TierExtremes(skill: real)
    ensures MinOf(TierChoices(skill)) == TierChoices(skill)[0]
    ensures MaxOf(TierChoices(skill)) == TierChoices(skill)[|TierChoices(skill)| - 1]
  {
    var t := TierChoices(skill);
    assert forall i, j :: 0 <= i < j < |t| ==> t[i] < t[j];
    assert t[0] in t && t[|t| - 1] in t;
  }
}
