/**
 * The policy impact simulator: a screening-access score per community,
 * computed from a fixed baseline and three policy toggles, clamped to
 * [0, 100] and given a colour band.
 */
module Simulator {

  datatype Community = Urban | Suburban | Underserved

  datatype Policy = ExpandCoverage | FreePrograms | MobileClinics

  /** The three checkboxes of the page; all start unchecked. */
  datatype Toggles = Toggles(expandCoverage: bool, freePrograms: bool, mobileClinics: bool)

  /** The bar colours: green for higher access, orange for moderate, red for low. */
  datatype Color = Green | Orange | Red

  /** One row of the chart data. */
  datatype Entry = Entry(key: Community, community: string, access: int, color: Color)

  /** The key order of the baseline table, which is the order of the chart rows. */
  const Communities: seq<Community> := [Urban, Suburban, Underserved]

  /** The order in which the page applies the policies. */
  const Policies: seq<Policy> := [ExpandCoverage, FreePrograms, MobileClinics]

  const AllOff: Toggles := Toggles(false, false, false)

  const AllOn: Toggles := Toggles(true, true, true)

  function BaseAccess(c: Community): int
  {
    match c
    case Urban => 40
    case Suburban => 75
    case Underserved => 25
  }

  function Label(c: Community): string
  {
    match c
    case Urban => "Urban"
    case Suburban => "Suburban"
    case Underserved => "Underserved"
  }

  function IsOn(t: Toggles, p: Policy): bool
  {
    match p
    case ExpandCoverage => t.expandCoverage
    case FreePrograms => t.freePrograms
    case MobileClinics => t.mobileClinics
  }

  /** The per-community increment of each policy, read as a table. */
  function Boost(p: Policy, c: Community): nat
  {
    match (p, c)
    case (ExpandCoverage, _) => 8
    case (FreePrograms, Underserved) => 15
    case (FreePrograms, Suburban) => 6
    case (FreePrograms, Urban) => 4
    case (MobileClinics, Underserved) => 18
    case (MobileClinics, Urban) => 6
    case (MobileClinics, Suburban) => 4
  }

  /** The increment a policy contributes under the given toggles. */
  function Contribution(t: Toggles, p: Policy, c: Community): nat
  {
    if IsOn(t, p) then Boost(p, c) else 0
  }

  /** The sum of the increments of the active policies, applied in the given order. */
  function Gain(t: Toggles, order: seq<Policy>, c: Community): int
  {
    if order == [] then 0
    else Contribution(t, order[0], c) + Gain(t, order[1..], c)
  }

  function Clamp(v: int): (r: int)
    ensures 0 <= r <= 100
    ensures 0 <= v <= 100 ==> r == v
    ensures v < 0 ==> r == 0
    ensures v > 100 ==> r == 100
  {
    if v < 0 then 0 else if v > 100 then 100 else v
  }

  /** The score of a community: its baseline plus the active increments, clamped once. */
  function Score(t: Toggles, c: Community): int
  {
    Clamp(BaseAccess(c) + Gain(t, Policies, c))
  }

  /** `computeValue`: starts from the baseline, adds each active policy's
      increment in turn and clamps once at the end. The clamp never bites:
      the result is exactly the baseline plus the active increments, and it
      is the specification Score. */
  method ComputeValue(t: Toggles, key: Community) returns (value: int)
    ensures value == Score(t, key)
    ensures value == BaseAccess(key) + Gain(t, Policies, key)
    ensures 0 <= value <= 100
  {
    value := match key
      case Urban => 40
      case Suburban => 75
      case Underserved => 25;

    if t.expandCoverage {
      value := value + 8;
    }

    if t.freePrograms {
      if key == Underserved {
        value := value + 15;
      } else if key == Suburban {
        value := value + 6;
      } else {
        value := value + 4;
      }
    }

    if t.mobileClinics {
      if key == Underserved {
        value := value + 18;
      } else if key == Urban {
        value := value + 6;
      } else {
        value := value + 4;
      }
    }

    value := if 100 < value then 100 else value;
    value := if value < 0 then 0 else value;
    GainOfPolicies(t, key);
  }

  /** The unclamped sum stays within [0, 93], so clamping leaves it unchanged. */
  lemma ScoreIsUnclamped(t: Toggles, c: Community)
    ensures 0 <= BaseAccess(c) + Gain(t, Policies, c) <= 93
    ensures Score(t, c) == BaseAccess(c) + Gain(t, Policies, c)
  {
    GainOfPolicies(t, c);
  }

  /** Every score lies in [0, 100]. */
  lemma ScoreInRange(t: Toggles, c: Community)
    ensures 0 <= Score(t, c) <= 100
  {
    ScoreIsUnclamped(t, c);
  }

  /** With every toggle off the scores are the baselines 40, 75 and 25. */
  lemma AllOffIsBaseline(c: Community)
    ensures Score(AllOff, c) == BaseAccess(c)
    ensures Score(AllOff, Urban) == 40 && Score(AllOff, Suburban) == 75 && Score(AllOff, Underserved) == 25
  {
    GainOfPolicies(AllOff, Urban);
    GainOfPolicies(AllOff, Suburban);
    GainOfPolicies(AllOff, Underserved);
  }

  /** With every toggle on: urban 58, suburban 93, underserved 66. */
  lemma AllOnValues()
    ensures Score(AllOn, Urban) == 58 && Score(AllOn, Suburban) == 93 && Score(AllOn, Underserved) == 66
  {
    GainOfPolicies(AllOn, Urban);
    GainOfPolicies(AllOn, Suburban);
    GainOfPolicies(AllOn, Underserved);
  }

  /** Turning expand-coverage on adds exactly 8 to every community, the other
      toggles held fixed. */
  lemma ExpandCoverageAddsEight(t: Toggles, c: Community)
    ensures Score(t.(expandCoverage := true), c) == Score(t.(expandCoverage := false), c) + 8
  {
    ScoreIsUnclamped(t.(expandCoverage := true), c);
    ScoreIsUnclamped(t.(expandCoverage := false), c);
  }

  /** Free programs add 15, 6 and 4 to underserved, suburban and urban. */
  lemma FreeProgramsIncrements(t: Toggles)
    ensures Score(t.(freePrograms := true), Underserved) == Score(t.(freePrograms := false), Underserved) + 15
    ensures Score(t.(freePrograms := true), Suburban) == Score(t.(freePrograms := false), Suburban) + 6
    ensures Score(t.(freePrograms := true), Urban) == Score(t.(freePrograms := false), Urban) + 4
  {
    ScoreIsUnclamped(t.(freePrograms := true), Urban);
    ScoreIsUnclamped(t.(freePrograms := false), Urban);
    ScoreIsUnclamped(t.(freePrograms := true), Suburban);
    ScoreIsUnclamped(t.(freePrograms := false), Suburban);
    ScoreIsUnclamped(t.(freePrograms := true), Underserved);
    ScoreIsUnclamped(t.(freePrograms := false), Underserved);
  }

  /** Mobile clinics add 18, 6 and 4 to underserved, urban and suburban. */
  lemma MobileClinicsIncrements(t: Toggles)
    ensures Score(t.(mobileClinics := true), Underserved) == Score(t.(mobileClinics := false), Underserved) + 18
    ensures Score(t.(mobileClinics := true), Urban) == Score(t.(mobileClinics := false), Urban) + 6
    ensures Score(t.(mobileClinics := true), Suburban) == Score(t.(mobileClinics := false), Suburban) + 4
  {
    ScoreIsUnclamped(t.(mobileClinics := true), Urban);
    ScoreIsUnclamped(t.(mobileClinics := false), Urban);
    ScoreIsUnclamped(t.(mobileClinics := true), Suburban);
    ScoreIsUnclamped(t.(mobileClinics := false), Suburban);
    ScoreIsUnclamped(t.(mobileClinics := true), Underserved);
    ScoreIsUnclamped(t.(mobileClinics := false), Underserved);
  }

  /** The gain of two runs of policies, one after the other, is the sum of their gains. */
  lemma {:induction false} GainConcat(t: Toggles, u: seq<Policy>, v: seq<Policy>, c: Community)
    ensures Gain(t, u + v, c) == Gain(t, u, c) + Gain(t, v, c)
  {
    if u != [] {
      GainConcat(t, u[1..], v, c);
      assert (u + v)[1..] == u[1..] + v;
    } else {
      assert u + v == v;
    }
  }

  /** Removing the same element from two sequences with equal multisets keeps them equal. */
  lemma RemoveOne<T>(a: seq<T>, b: seq<T>, j: nat)
    requires multiset(a) == multiset(b) && a != [] && j < |b| && b[j] == a[0]
    ensures multiset(a[1..]) == multiset(b[..j] + b[j + 1..])
  {
    assert a == [a[0]] + a[1..];
    assert b == b[..j] + [b[j]] + b[j + 1..];
    assert multiset(a[1..]) == multiset(a) - multiset{a[0]};
    assert multiset(b[..j] + b[j + 1..]) == multiset(b) - multiset{a[0]};
  }

  /** Taking one policy out of the middle of an order takes its contribution
      out of the gain. */
  lemma GainExtract(t: Toggles, left: seq<Policy>, x: Policy, right: seq<Policy>, c: Community)
    ensures Gain(t, left + [x] + right, c) == Contribution(t, x, c) + Gain(t, left + right, c)
  {
    GainConcat(t, left + [x], right, c);
    GainConcat(t, left, [x], c);
    GainConcat(t, left, right, c);
    assert [x][1..] == [];
  }

  /** The gain depends only on which policies are applied, not on their order. */
  lemma {:induction false} GainPermutation(t: Toggles, a: seq<Policy>, b: seq<Policy>, c: Community)
    requires multiset(a) == multiset(b)
    ensures Gain(t, a, c) == Gain(t, b, c)
    decreases |a|
  {
    if a == [] {
      assert |b| == |multiset(b)| == 0;
    } else {
      var x := a[0];
      assert x in multiset(b);
      var j :| 0 <= j < |b| && b[j] == x;
      var left, right := b[..j], b[j + 1..];
      assert b == left + [x] + right;
      RemoveOne(a, b, j);
      GainPermutation(t, a[1..], left + right, c);
      GainExtract(t, left, x, right, c);
    }
  }

  /** The gain in the page's own order is the sum of the three contributions. */
  lemma GainOfPolicies(t: Toggles, c: Community)
    ensures Gain(t, Policies, c)
      == Contribution(t, ExpandCoverage, c) + Contribution(t, FreePrograms, c) + Contribution(t, MobileClinics, c)
  {
    var rest := Policies[1..];
    assert rest == [FreePrograms, MobileClinics];
    var last := rest[1..];
    assert last == [MobileClinics];
    assert Gain(t, last, c) == Contribution(t, MobileClinics, c) + Gain(t, last[1..], c);
    assert Gain(t, rest, c) == Contribution(t, FreePrograms, c) + Gain(t, last, c);
  }

  /** Applying the three policies in any order, then clamping, gives the same
      score: the adjustments commute. */
  lemma OrderIndependent(t: Toggles, order: seq<Policy>, c: Community)
    requires multiset(order) == multiset(Policies)
    ensures Clamp(BaseAccess(c) + Gain(t, order, c)) == Score(t, c)
  {
    GainPermutation(t, order, Policies, c);
  }

  /** Pointwise order on toggle settings: every toggle on in `t` is on in `u`. */
  predicate AtMost(t: Toggles, u: Toggles)
  {
    (t.expandCoverage ==> u.expandCoverage)
    && (t.freePrograms ==> u.freePrograms)
    && (t.mobileClinics ==> u.mobileClinics)
  }

  /** Switching toggles on never lowers any community's score. */
  lemma ScoreMonotone(t: Toggles, u: Toggles, c: Community)
    requires AtMost(t, u)
    ensures Score(t, c) <= Score(u, c)
  {
    ScoreIsUnclamped(t, c);
    ScoreIsUnclamped(u, c);
    GainOfPolicies(t, c);
    GainOfPolicies(u, c);
  }

  /** `getAccessColor`: green from 70 up, orange from 40 below 70, red below 40. */
  function AccessColor(value: int): (r: Color)
    ensures r == Green <==> value >= 70
    ensures r == Orange <==> 40 <= value < 70
    ensures r == Red <==> value < 40
  {
    if value >= 70 then Green
    else if value >= 40 then Orange
    else Red
  }

  /** Bands ordered from low to high. */
  function Rank(color: Color): nat
  {
    match color
    case Red => 0
    case Orange => 1
    case Green => 2
  }

  /** A higher value never gets a lower band. */
  lemma AccessColorMonotone(v: int, w: int)
    requires v <= w
    ensures Rank(AccessColor(v)) <= Rank(AccessColor(w))
  {
  }

  function MakeEntry(t: Toggles, key: Community): Entry
  {
    var access := Score(t, key);
    Entry(key, Label(key), access, AccessColor(access))
  }

  /** The chart data: one entry per community in the order urban, suburban,
      underserved, each carrying its label, its score and the colour of that
      score. */
  function Data(t: Toggles): (r: seq<Entry>)
    ensures |r| == 3
    ensures r[0].key == Urban && r[1].key == Suburban && r[2].key == Underserved
    ensures forall i :: 0 <= i < |r| ==> r[i].community == Label(r[i].key)
    ensures forall i :: 0 <= i < |r| ==> r[i].access == Score(t, r[i].key)
    ensures forall i :: 0 <= i < |r| ==> r[i].color == AccessColor(r[i].access)
  {
    seq(|Communities|, i requires 0 <= i < |Communities| => MakeEntry(t, Communities[i]))
  }
}
