/**
 * The tax-bracket table and the scan that picks one flat rate for the
 * whole net income.
 */
module TaxBrackets {
  import opened Wrappers

  /** A bracket's upper limit; the last bracket has none. */
  datatype Limit = UpTo(bound: real) | Unbounded
  {
    /** The bracket applies to `net` when `net` does not exceed its limit. */
    predicate Covers(net: real) {
      match this
      case UpTo(bound) => net <= bound
      case Unbounded => true
    }
  }

  datatype Bracket = Bracket(limit: Limit, rate: real)

  /** The fixed schedule, ascending by limit; the last bracket is unbounded. */
  const Brackets: seq<Bracket> := [
    Bracket(UpTo(300000.0), 0.0),
    Bracket(UpTo(400000.0), 0.1),
    Bracket(UpTo(650000.0), 0.15),
    Bracket(UpTo(1000000.0), 0.2),
    Bracket(UpTo(1500000.0), 0.25),
    Bracket(Unbounded, 0.3)
  ]

  /**
   * The shape of the schedule: six brackets, only the last one unbounded,
   * limits strictly ascending, rates non-decreasing.
   */
  lemma BracketTable()
    ensures |Brackets| == 6 && Brackets[5].limit == Unbounded
    ensures forall i :: 0 <= i < 5 ==> Brackets[i].limit.UpTo?
    ensures forall i, j :: 0 <= i < j < 5 ==> Brackets[i].limit.bound < Brackets[j].limit.bound
    ensures forall i, j :: 0 <= i < j < 6 ==> Brackets[i].rate <= Brackets[j].rate
  {
  }

  /** The rate of the first bracket of `bs` that covers `net`, if any does. */
  function FirstMatch(bs: seq<Bracket>, net: real): (r: Option<real>)
    ensures r.None? <==> forall i :: 0 <= i < |bs| ==> !bs[i].limit.Covers(net)
    ensures r.Some? ==> exists i :: 0 <= i < |bs| && bs[i].limit.Covers(net) && r.value == bs[i].rate
                                    && forall j :: 0 <= j < i ==> !bs[j].limit.Covers(net)
  {
    if bs == [] then None
    else if bs[0].limit.Covers(net) then Some(bs[0].rate)
    else
      var r := FirstMatch(bs[1..], net);
      assert forall i :: 1 <= i < |bs| ==> bs[i] == bs[1..][i - 1];
      r
  }

  /** The rate the scan picks for `net`; the unbounded last bracket always matches. */
  function RateFor(net: real): (rate: real)
    ensures rate in {0.0, 0.1, 0.15, 0.2, 0.25, 0.3}
    ensures net <= 300000.0 ==> rate == 0.0
  {
    assert Brackets[5].limit.Covers(net);
    FirstMatch(Brackets, net).value
  }

  /** An independent statement of the schedule, threshold by threshold. */
  function StatutoryRate(net: real): real
  {
    if net <= 300000.0 then 0.0
    else if net <= 400000.0 then 0.1
    else if net <= 650000.0 then 0.15
    else if net <= 1000000.0 then 0.2
    else if net <= 1500000.0 then 0.25
    else 0.3
  }

  /** The scan over the table agrees with the threshold schedule. */
  lemma RateForIsStatutory(net: real)
    ensures RateFor(net) == StatutoryRate(net)
  {
    var t1 := Brackets[1..];
    var t2 := t1[1..];
    var t3 := t2[1..];
    var t4 := t3[1..];
    var t5 := t4[1..];
    assert t5 == [Bracket(Unbounded, 0.3)];
    assert FirstMatch(t5, net) == Some(0.3);
    assert FirstMatch(t4, net) == if net <= 1500000.0 then Some(0.25) else Some(0.3);
    assert FirstMatch(t3, net) == if net <= 1000000.0 then Some(0.2) else FirstMatch(t4, net);
    assert FirstMatch(t2, net) == if net <= 650000.0 then Some(0.15) else FirstMatch(t3, net);
    assert FirstMatch(t1, net) == if net <= 400000.0 then Some(0.1) else FirstMatch(t2, net);
    assert FirstMatch(Brackets, net) == if net <= 300000.0 then Some(0.0) else FirstMatch(t1, net);
  }

  /** A larger net income never gets a smaller rate. */
  lemma RateMonotone(a: real, b: real)
    requires a <= b
    ensures RateFor(a) <= RateFor(b)
  {
    RateForIsStatutory(a);
    RateForIsStatutory(b);
  }

  /** Rates at the schedule's edges: each limit belongs to its own bracket. */
  lemma RateAtLimits()
    ensures RateFor(-1.0) == 0.0 && RateFor(300000.0) == 0.0
    ensures RateFor(300001.0) == 0.1 && RateFor(400000.0) == 0.1
    ensures RateFor(650000.0) == 0.15 && RateFor(1000000.0) == 0.2
    ensures RateFor(1500000.0) == 0.25 && RateFor(1500001.0) == 0.3 && RateFor(2000000.0) == 0.3
  {
    RateForIsStatutory(300001.0);
    RateForIsStatutory(400000.0);
    RateForIsStatutory(650000.0);
    RateForIsStatutory(1000000.0);
    RateForIsStatutory(1500000.0);
    RateForIsStatutory(1500001.0);
    RateForIsStatutory(2000000.0);
  }

  /** The scan of `get_tax_rate`: walk the table and return the first covering bracket's rate. */
  method GetTaxRate(net: real) returns (rate: real)
    ensures rate == RateFor(net)
  {
    var i := 0;
    // The last limit is unbounded, so its bracket is the fallback once the others fail.
    while i < |Brackets| - 1
      invariant 0 <= i <= |Brackets| - 1
      invariant FirstMatch(Brackets[i..], net) == FirstMatch(Brackets, net)
    {
      if Brackets[i].limit.Covers(net) {
        return Brackets[i].rate;
      }
      assert Brackets[i..][1..] == Brackets[i + 1..];
      i := i + 1;
    }
    assert Brackets[i..] == [Bracket(Unbounded, 0.3)];
    return Brackets[i].rate;
  }
}
