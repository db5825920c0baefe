/** Basis-point arithmetic of the fee engine. */
module FeeMath {
  import opened Keys

  const U128_MAX: nat := 0xFFFF_FFFF_FFFF_FFFF_FFFF_FFFF_FFFF_FFFF

  /** Floor of `bps` ten-thousandths of an amount: the base fee on a rent, the cut of a fee. */
  function Cut(amount: nat, bps: nat): nat { amount * bps / BPS }

  /** `compute_fee_split` with its machine arithmetic: a saturating 128-bit product, a
      truncation to 64 bits and a saturating subtraction. */
  function ComputeFeeSplit(amount: nat, bps: nat): (nat, nat) {
    var product := if amount * bps <= U128_MAX then amount * bps else U128_MAX;
    var platform := product / BPS % (U64_MAX + 1);
    (if platform <= amount then amount - platform else 0, platform)
  }

  lemma CutBounds(amount: nat, bps: nat)
    ensures BPS * Cut(amount, bps) <= amount * bps < BPS * (Cut(amount, bps) + 1)
    ensures bps <= BPS ==> Cut(amount, bps) <= amount
    ensures bps <= MAX_FEE_CUT_BPS ==> 2 * Cut(amount, bps) <= amount
  {
    if bps <= BPS {
      assert amount * bps <= amount * BPS;
    }
    if bps <= MAX_FEE_CUT_BPS {
      assert amount * bps <= amount * MAX_FEE_CUT_BPS;
    }
  }

  /** Under the cap on cuts the machine split is the exact floor split: nothing is lost,
      nothing is minted, and the platform takes at most half. */
  lemma SplitIsExact(amount: nat, bps: nat)
    requires amount <= U64_MAX && bps <= BPS
    ensures ComputeFeeSplit(amount, bps) == (amount - Cut(amount, bps), Cut(amount, bps))
    ensures ComputeFeeSplit(amount, bps).0 + ComputeFeeSplit(amount, bps).1 == amount
    ensures bps <= MAX_FEE_CUT_BPS ==> ComputeFeeSplit(amount, bps).1 <= ComputeFeeSplit(amount, bps).0
  {
    CutBounds(amount, bps);
    assert amount * bps <= U64_MAX * BPS;
  }

  /** A rate splits every 64-bit amount without loss exactly when it is at most 100%. */
  lemma SplitConservesIff(bps: nat)
    requires bps <= U32_MAX
    ensures (forall amount: nat | amount <= U64_MAX ::
               ComputeFeeSplit(amount, bps).0 + ComputeFeeSplit(amount, bps).1 == amount)
            <==> bps <= BPS
  {
    if bps <= BPS {
      forall amount: nat | amount <= U64_MAX
        ensures ComputeFeeSplit(amount, bps).0 + ComputeFeeSplit(amount, bps).1 == amount
      {
        SplitIsExact(amount, bps);
      }
    } else {
      assert ComputeFeeSplit(BPS, bps).1 == bps;
    }
  }

  /** Two roundings of parts never exceed one rounding of the whole, and miss it by at most one. */
  lemma CutTelescopes(a: nat, b: nat, bps: nat)
    ensures Cut(a, bps) + Cut(b, bps) <= Cut(a + b, bps) <= Cut(a, bps) + Cut(b, bps) + 1
  {
    CutBounds(a, bps);
    CutBounds(b, bps);
    CutBounds(a + b, bps);
    assert (a + b) * bps == a * bps + b * bps;
  }
}
