/** roundDownCapacityPretty and the size check built on it. */
module Capacity {
  import opened Common
  import opened HostPath

  const MIB: int := 1024 * 1024
  const GIB: int := 1024 * MIB

  /** Down to whole GiB from 10 GiB, to whole MiB from 10 MiB, otherwise unchanged. */
  function Rounded(capacity: int): int {
    if capacity >= 10 * GIB then capacity / GIB * GIB
    else if capacity >= 10 * MIB then capacity / MIB * MIB
    else capacity
  }

  /** Go's integer division truncates towards zero. */
  function Quotient(a: int, b: int): int
    requires b > 0
  {
    if a >= 0 then a / b else -(-a / b)
  }

  /** The loop over the easy-to-read units, for every 64-bit argument, negative ones included. */
  method RoundDownCapacityPretty(capacity: int) returns (r: int)
    ensures r == Rounded(capacity)
  {
    var units := [GIB, MIB];
    var i := 0;
    while i < |units|
      invariant 0 <= i <= 2
      invariant i >= 1 ==> capacity < 10 * GIB
      invariant i >= 2 ==> capacity < 10 * MIB
    {
      var unit := units[i];
      var size := Quotient(capacity, unit);
      if size >= 10 {
        return size * unit;
      }
      i := i + 1;
    }
    return capacity;
  }

  /** The largest multiple of `unit` that is not above `capacity`. */
  ghost predicate IsFloor(capacity: int, unit: int, r: int) {
    unit > 0 && r % unit == 0 && r <= capacity && forall m | m % unit == 0 && m <= capacity :: m <= r
  }

  lemma QuotientIsFloor(capacity: int, unit: int)
    requires unit > 0
    ensures IsFloor(capacity, unit, capacity / unit * unit)
  {
    var q := capacity / unit;
    MultipleDivides(q, unit);
    assert capacity == q * unit + capacity % unit;
    assert q * unit == q * unit / unit * unit + q * unit % unit;
    forall m | m % unit == 0 && m <= capacity
      ensures m <= q * unit
    {
      assert m == m / unit * unit;
      QuotientMonotone(m, capacity, unit);
    }
  }

  /** From 10 GiB on whole GiB, from 10 MiB on whole MiB, and below that every byte, with the units in bytes. */
  lemma RoundedIsFloor(capacity: int)
    ensures capacity >= 10_737_418_240 ==> IsFloor(capacity, 1_073_741_824, Rounded(capacity))
    ensures 10_485_760 <= capacity < 10_737_418_240 ==> IsFloor(capacity, 1_048_576, Rounded(capacity))
    ensures capacity < 10_485_760 ==> Rounded(capacity) == capacity
  {
    if capacity >= 10 * GIB {
      QuotientIsFloor(capacity, GIB);
    } else if capacity >= 10 * MIB {
      QuotientIsFloor(capacity, MIB);
    }
  }

  /** Rounding never promises more than there is, and loses less than a tenth of what it promises. */
  lemma RoundedLoss(capacity: int)
    requires capacity >= 0
    ensures 0 <= Rounded(capacity) <= capacity
    ensures Rounded(capacity) != capacity ==> 10 * (capacity - Rounded(capacity)) < Rounded(capacity)
  {
    if capacity >= 10 * GIB {
      DivisionBounds(capacity, GIB);
    } else if capacity >= 10 * MIB {
      DivisionBounds(capacity, MIB);
    }
  }

  lemma DivisionBounds(a: int, unit: int)
    requires unit > 0 && a >= 10 * unit
    ensures 10 * unit <= a / unit * unit <= a < a / unit * unit + unit
  {
    var q := a / unit;
    assert a == q * unit + a % unit;
    assert q >= 10;
  }

  lemma RoundedIdempotent(capacity: int)
    ensures Rounded(Rounded(capacity)) == Rounded(capacity)
  {
    if capacity >= 10 * GIB {
      DivisionBounds(capacity, GIB);
      MultipleDivides(capacity / GIB, GIB);
    } else if capacity >= 10 * MIB {
      DivisionBounds(capacity, MIB);
      MultipleDivides(capacity / MIB, MIB);
    }
  }

  lemma MultipleDivides(q: int, unit: int)
    requires unit > 0
    ensures q * unit / unit == q
  {
    var d := q * unit / unit;
    assert (q - d) * unit == q * unit % unit;
    assert q - d >= 1 ==> (q - d) * unit >= unit;
    assert q - d <= -1 ==> (q - d) * unit <= -unit;
  }

  lemma RoundedMonotone(a: int, b: int)
    requires a <= b
    ensures Rounded(a) <= Rounded(b)
  {
    if a >= 10 * GIB {
      QuotientMonotone(a, b, GIB);
    } else if b >= 10 * GIB {
      DivisionBounds(b, GIB);
      if a >= 10 * MIB {
        DivisionBounds(a, MIB);
      }
    } else if a >= 10 * MIB {
      QuotientMonotone(a, b, MIB);
    } else if b >= 10 * MIB {
      DivisionBounds(b, MIB);
    }
  }

  lemma QuotientMonotone(a: int, b: int, unit: int)
    requires unit > 0 && a <= b
    ensures a / unit * unit <= b / unit * unit
  {
    var p, q := a / unit, b / unit;
    if q < p {
      assert (q + 1) * unit <= p * unit;
    }
  }

  /** ShouldProvision: `total` is the size statfs reports, None when it fails. */
  method ShouldProvision(claim: ClaimObject, nodeName: string, mode: BindingMode, defaultName: string,
                         request: int, total: Option<int>)
    returns (should: bool)
    modifies claim
    ensures should <==> && TargetNode(old(claim.annotations), mode) == Some(nodeName)
                        && total.Some? && request <= Rounded(total.value)
    ensures should && total.value >= 0 ==> request <= total.value
    ensures TargetNode(claim.annotations, mode) == TargetNode(old(claim.annotations), mode)
  {
    should := IsCorrectNodeByBindingMode(claim, nodeName, mode, defaultName);
    if should {
      if total.None? {
        should := false;
      } else {
        var capacity := RoundDownCapacityPretty(total.value);
        if capacity < request {
          should := false;
        }
        if total.value >= 0 {
          RoundedLoss(total.value);
        }
      }
    }
  }
}
