/** Rack balance of the chosen control planes, and which control plane is given up first. */
module Racks {
  import opened Seqs
  import opened Machines

  /** A rack that lags two or more behind has no machine left to offer. */
  ghost predicate Balanced(cps: seq<Machine>, unused: seq<Machine>, eligible: Machine -> bool) {
    forall r1: int, r2: int, m ::
      RackCount(cps, r1) >= RackCount(cps, r2) + 2 && m in unused && m.rack == r2 ==> !eligible(m)
  }

  ghost predicate Highest(m: Machine, from: seq<Machine>, eligible: Machine -> bool, cps: seq<Machine>, now: int) {
    && m in from && eligible(m)
    && forall x :: x in from && eligible(x) ==> Score(x, cps, now) <= Score(m, cps, now)
  }

  /** Machine `x` passes every threshold of remaining days that `m` passes. */
  ghost predicate PassesAll(x: Machine, m: Machine, now: int) {
    forall t :: IsThreshold(t) && DaysLeft(m, now) >= t ==> DaysLeft(x, now) >= t
  }

  /** Fewer control planes in the rack, or as few and no threshold of remaining days missed that the other passes. */
  ghost predicate AtLeastAsGood(m: Machine, x: Machine, cps: seq<Machine>, now: int) {
    || RackCount(cps, m.rack) < RackCount(cps, x.rack)
    || (RackCount(cps, m.rack) == RackCount(cps, x.rack) && PassesAll(m, x, now))
  }

  /** That is the order of the scores. */
  lemma ScoreOrder(m: Machine, x: Machine, cps: seq<Machine>, now: int)
    ensures Score(x, cps, now) <= Score(m, cps, now) <==> AtLeastAsGood(m, x, cps, now)
  {
    DaysScoreOrders(DaysLeft(x, now), DaysLeft(m, now));
  }

  /** The rack count outweighs the days left. */
  lemma HighestInEmptiestRack(
    m: Machine, x: Machine, from: seq<Machine>, eligible: Machine -> bool, cps: seq<Machine>, now: int)
    requires Highest(m, from, eligible, cps, now)
    requires x in from && eligible(x)
    ensures RackCount(cps, m.rack) <= RackCount(cps, x.rack)
  {
    assert Score(x, cps, now) <= Score(m, cps, now);
  }

  lemma ChoiceKeepsBalance(
    cps: seq<Machine>, unused: seq<Machine>, rest: seq<Machine>, m: Machine, eligible: Machine -> bool, now: int)
    requires Balanced(cps, unused, eligible)
    requires Highest(m, unused, eligible, cps, now)
    requires forall x :: x in rest ==> x in unused
    ensures Balanced(cps + [m], rest, eligible)
  {
    forall r1: int, r2: int, x
      | RackCount(cps + [m], r1) >= RackCount(cps + [m], r2) + 2 && x in rest && x.rack == r2
      ensures !eligible(x)
    {
      AppendedCount(cps, m, InRack(r1));
      AppendedCount(cps, m, InRack(r2));
      if eligible(x) && RackCount(cps, r1) < RackCount(cps, r2) + 2 {
        HighestInEmptiestRack(m, x, unused, eligible, cps, now);
      }
    }
  }

  // ----- Giving up control planes -----

  ghost predicate RacksAreSmall(cps: seq<Machine>) {
    forall m :: m in cps ==> RackCount(cps, m.rack) <= MAX_COUNT_PER_RACK
  }

  ghost predicate AllHealthy(s: seq<Machine>) {
    forall m :: m in s ==> m.state == Healthy
  }

  lemma RackSubset(a: seq<Machine>, b: seq<Machine>, rack: int)
    requires Distinct(a) && Distinct(b)
    requires forall m :: m in a ==> m in b
    ensures RackCount(a, rack) <= RackCount(b, rack)
  {
    var xs := set m | m in a && m.rack == rack;
    var ys := set m | m in b && m.rack == rack;
    KeepSize(a, InRack(rack), xs);
    KeepSize(b, InRack(rack), ys);
    SubsetSize(xs, ys);
  }

  lemma FewerStaySmall(a: seq<Machine>, b: seq<Machine>)
    requires Distinct(a) && Distinct(b) && RacksAreSmall(b)
    requires forall m :: m in a ==> m in b
    ensures RacksAreSmall(a)
  {
    forall m | m in a ensures RackCount(a, m.rack) <= MAX_COUNT_PER_RACK {
      RackSubset(a, b, m.rack);
    }
  }

  lemma RackIsInhabited(cps: seq<Machine>, m: Machine)
    requires m in cps
    ensures RackCount(cps, m.rack) >= 1
  {
    KeepMember(cps, InRack(m.rack), m);
  }

  /** Ill health before good health, and otherwise the less good one. */
  ghost predicate GivenUpFirst(m: Machine, x: Machine, cps: seq<Machine>, now: int) {
    || (m.state != Healthy && x.state == Healthy)
    || ((m.state == Healthy <==> x.state == Healthy) && AtLeastAsGood(x, m, cps, now))
  }

  lemma HealthScoreOrder(m: Machine, x: Machine, cps: seq<Machine>, now: int)
    requires m in cps && x in cps && RacksAreSmall(cps)
    ensures ScoreWithHealth(m, cps, now) <= ScoreWithHealth(x, cps, now) <==> GivenUpFirst(m, x, cps, now)
  {
    RackIsInhabited(cps, m);
    RackIsInhabited(cps, x);
    ScoreOrder(x, m, cps, now);
  }

  /** The bonus for health outweighs everything else as long as racks are small. */
  lemma LowestIsUnhealthy(m: Machine, cps: seq<Machine>, now: int)
    requires m in cps && RacksAreSmall(cps)
    requires forall x :: x in cps ==> ScoreWithHealth(m, cps, now) <= ScoreWithHealth(x, cps, now)
    requires m.state == Healthy
    ensures AllHealthy(cps)
  {
    forall x | x in cps ensures x.state == Healthy {
      HealthScoreOrder(m, x, cps, now);
    }
  }

  lemma SameHealthOrder(m: Machine, x: Machine, cps: seq<Machine>, now: int)
    requires m.state == Healthy <==> x.state == Healthy
    ensures ScoreWithHealth(m, cps, now) <= ScoreWithHealth(x, cps, now) <==> AtLeastAsGood(x, m, cps, now)
  {
    ScoreOrder(x, m, cps, now);
  }
}
