/** ReportsGenerator: claims per month, the average claim per policy type,
    the highest claim and the pending claims with their policyholders. */
module ReportsGenerator {
  import opened Records
  import opened Store
  import opened Tallies

  // ---------------------------------------------------------------------
  // get_monthly_claims
  // ---------------------------------------------------------------------

  /** The number of claims per "YYYY-MM" month, over `claims` in order. */
  function MonthlyCounts(claims: seq<Claim>): map<YearMonth, nat> {
    if claims == [] then map[]
    else Bump(MonthlyCounts(claims[..|claims| - 1]), MonthOf(claims[|claims| - 1].dateOfClaim))
  }

  /** The claims filed in month `month`. */
  function ClaimsInMonth(claims: seq<Claim>, month: YearMonth): (r: seq<Claim>)
    ensures |r| <= |claims|
  {
    if claims == [] then []
    else
      var rest := ClaimsInMonth(claims[..|claims| - 1], month);
      var last := claims[|claims| - 1];
      if MonthOf(last.dateOfClaim) == month then rest + [last] else rest
  }

  /** The months of the report are exactly the months some claim is filed in. */
  lemma {:induction false} MonthlyKeys(claims: seq<Claim>)
    ensures MonthlyCounts(claims).Keys == set c | c in claims :: MonthOf(c.dateOfClaim)
  {
    if claims != [] {
      var init, last := claims[..|claims| - 1], claims[|claims| - 1];
      assert claims == init + [last];
      MonthlyKeys(init);
      assert (set c | c in claims :: MonthOf(c.dateOfClaim))
          == (set c | c in init :: MonthOf(c.dateOfClaim)) + {MonthOf(last.dateOfClaim)};
    }
  }

  /** The count reported for a month (none: zero) is the number of claims
      filed in that month. */
  lemma {:induction false} MonthlyCount(claims: seq<Claim>, month: YearMonth)
    ensures (if month in MonthlyCounts(claims) then MonthlyCounts(claims)[month] else 0)
         == |ClaimsInMonth(claims, month)|
  {
    if claims != [] {
      MonthlyCount(claims[..|claims| - 1], month);
    }
  }

  /** Every claim is counted in exactly one month. */
  lemma {:induction false} MonthlyTotal(claims: seq<Claim>)
    ensures SumOver(MonthlyCounts(claims)) == |claims|
  {
    if claims == [] {
    } else {
      var init := claims[..|claims| - 1];
      MonthlyTotal(init);
      SumOverBump(MonthlyCounts(init), MonthOf(claims[|claims| - 1].dateOfClaim));
    }
  }

  /** get_monthly_claims, over the claims in dictionary order. */
  method GetMonthlyClaims(claims: seq<Claim>) returns (monthly: map<YearMonth, nat>)
    ensures monthly == MonthlyCounts(claims)
  {
    monthly := map[];
    var i := 0;
    while i < |claims|
      invariant 0 <= i <= |claims|
      invariant monthly == MonthlyCounts(claims[..i])
    {
      var monthYear := MonthOf(claims[i].dateOfClaim);
      assert claims[..i + 1][..i] == claims[..i];
      monthly := monthly[monthYear := (if monthYear in monthly then monthly[monthYear] else 0) + 1];
      i := i + 1;
    }
    assert claims[..i] == claims;
  }

  // ---------------------------------------------------------------------
  // get_average_claim_by_policy_type
  // ---------------------------------------------------------------------

  /** `policy_totals`: the summed claim amount per policy type. */
  function TypeTotals(claims: seq<Claim>, policyholders: map<string, Policyholder>): map<string, real>
    requires Resolves(claims, policyholders)
  {
    if claims == [] then map[]
    else
      var init, last := claims[..|claims| - 1], claims[|claims| - 1];
      assert claims == init + [last];
      var m, t := TypeTotals(init, policyholders), PolicyTypeOf(last, policyholders);
      m[t := (if t in m then m[t] else 0.0) + last.claimAmount]
  }

  /** `policy_counts`: the number of claims per policy type. */
  function TypeCounts(claims: seq<Claim>, policyholders: map<string, Policyholder>): map<string, nat>
    requires Resolves(claims, policyholders)
  {
    if claims == [] then map[]
    else
      var init, last := claims[..|claims| - 1], claims[|claims| - 1];
      assert claims == init + [last];
      Bump(TypeCounts(init, policyholders), PolicyTypeOf(last, policyholders))
  }

  /** Both dictionaries are keyed by the policy types the claims resolve to. */
  lemma {:induction false} TypeKeys(claims: seq<Claim>, policyholders: map<string, Policyholder>)
    requires Resolves(claims, policyholders)
    ensures TypeTotals(claims, policyholders).Keys == PolicyTypes(claims, policyholders)
    ensures TypeCounts(claims, policyholders).Keys == PolicyTypes(claims, policyholders)
  {
    if claims != [] {
      var init, last := claims[..|claims| - 1], claims[|claims| - 1];
      assert claims == init + [last];
      TypeKeys(init, policyholders);
      assert PolicyTypes(claims, policyholders) == PolicyTypes(init, policyholders) + {PolicyTypeOf(last, policyholders)};
    }
  }

  /** The count and total kept for a policy type (none: zero) are the number
      and the summed amount of that type's claims. */
  lemma {:induction false} TypeTotalsAndCounts(claims: seq<Claim>, policyholders: map<string, Policyholder>, policyType: string)
    requires Resolves(claims, policyholders)
    ensures var counts := TypeCounts(claims, policyholders);
      (if policyType in counts then counts[policyType] else 0) == |ClaimsOfType(claims, policyholders, policyType)|
    ensures var totals := TypeTotals(claims, policyholders);
      (if policyType in totals then totals[policyType] else 0.0) == SumAmounts(ClaimsOfType(claims, policyholders, policyType))
  {
    if claims != [] {
      var init, last := claims[..|claims| - 1], claims[|claims| - 1];
      assert claims == init + [last];
      TypeTotalsAndCounts(init, policyholders, policyType);
      var before := ClaimsOfType(init, policyholders, policyType);
      if PolicyTypeOf(last, policyholders) == policyType {
        var after := before + [last];
        assert after[..|after| - 1] == before;
      }
    }
  }

  /** The mean claim amount of each policy type that has claims. */
  function Averages(claims: seq<Claim>, policyholders: map<string, Policyholder>): map<string, real>
    requires Resolves(claims, policyholders)
  {
    map t | t in PolicyTypes(claims, policyholders) && ClaimsOfType(claims, policyholders, t) != [] ::
      SumAmounts(ClaimsOfType(claims, policyholders, t)) / (|ClaimsOfType(claims, policyholders, t)| as real)
  }

  /** Every policy type some claim resolves to has claims, so every one of
      them has an average. */
  lemma AveragesKeys(claims: seq<Claim>, policyholders: map<string, Policyholder>)
    requires Resolves(claims, policyholders)
    ensures Averages(claims, policyholders).Keys == PolicyTypes(claims, policyholders)
  {
    TypesHaveClaims(claims, policyholders);
  }

  /** The claims of a policy type some claim resolves to are not empty. */
  lemma TypesHaveClaims(claims: seq<Claim>, policyholders: map<string, Policyholder>)
    requires Resolves(claims, policyholders)
    ensures forall t | t in PolicyTypes(claims, policyholders) :: ClaimsOfType(claims, policyholders, t) != []
  {
    forall t | t in PolicyTypes(claims, policyholders)
      ensures ClaimsOfType(claims, policyholders, t) != []
    {
      var c :| c in claims && PolicyTypeOf(c, policyholders) == t;
      ClaimsOfTypeMembers(claims, policyholders, t);
      assert c in ClaimsOfType(claims, policyholders, t);
    }
  }

  /** get_average_claim_by_policy_type, over the claims in dictionary order. */
  method GetAverageClaimByPolicyType(claims: seq<Claim>, policyholders: map<string, Policyholder>)
    returns (averages: map<string, real>)
    requires Resolves(claims, policyholders)
    ensures averages == Averages(claims, policyholders)
  {
    var policyTotals: map<string, real> := map[];
    var policyCounts: map<string, nat> := map[];
    var i := 0;
    while i < |claims|
      invariant 0 <= i <= |claims|
      invariant policyTotals == TypeTotals(claims[..i], policyholders)
      invariant policyCounts == TypeCounts(claims[..i], policyholders)
    {
      var claim := claims[i];
      assert claims[..i + 1][..i] == claims[..i];
      var policyType := policyholders[claim.policyholderId].policyType;
      policyTotals := policyTotals[policyType := (if policyType in policyTotals then policyTotals[policyType] else 0.0) + claim.claimAmount];
      policyCounts := policyCounts[policyType := (if policyType in policyCounts then policyCounts[policyType] else 0) + 1];
      i := i + 1;
    }
    assert claims[..i] == claims;
    AveragesOfTallies(claims, policyholders);
    averages := map t | t in policyTotals :: policyTotals[t] / (policyCounts[t] as real);
  }

  /** Dividing each policy type's total by its count gives its average. */
  lemma AveragesOfTallies(claims: seq<Claim>, policyholders: map<string, Policyholder>)
    requires Resolves(claims, policyholders)
    ensures forall t | t in TypeTotals(claims, policyholders) ::
      t in TypeCounts(claims, policyholders) && TypeCounts(claims, policyholders)[t] > 0
    ensures Averages(claims, policyholders)
         == map t | t in TypeTotals(claims, policyholders) ::
              TypeTotals(claims, policyholders)[t] / (TypeCounts(claims, policyholders)[t] as real)
  {
    var totals, counts := TypeTotals(claims, policyholders), TypeCounts(claims, policyholders);
    TypeKeys(claims, policyholders);
    TypesHaveClaims(claims, policyholders);
    forall t | t in totals
      ensures counts[t] == |ClaimsOfType(claims, policyholders, t)| > 0
      ensures totals[t] == SumAmounts(ClaimsOfType(claims, policyholders, t))
    {
      TypeTotalsAndCounts(claims, policyholders, t);
    }
    AveragesKeys(claims, policyholders);
  }

  /** How far the amounts of `claims` together exceed `x` each: the sum of
      `claimAmount - x` over the claims. */
  function Excess(claims: seq<Claim>, x: real): real {
    if claims == [] then 0.0
    else Excess(claims[..|claims| - 1], x) + (claims[|claims| - 1].claimAmount - x)
  }

  lemma {:induction false} ExcessAntitone(claims: seq<Claim>, x: real, y: real)
    requires y <= x
    ensures Excess(claims, x) <= Excess(claims, y)
  {
    if claims != [] {
      ExcessAntitone(claims[..|claims| - 1], x, y);
    }
  }

  lemma {:induction false} ExcessOfSum(claims: seq<Claim>, x: real)
    ensures Excess(claims, x) == SumAmounts(claims) - (|claims| as real) * x
  {
    if claims != [] {
      var n := |claims| as real;
      ExcessOfSum(claims[..|claims| - 1], x);
      assert n * x == (n - 1.0) * x + x;
    }
  }

  /** A claim no larger than the mean of a non-empty list of claims. */
  lemma {:induction false} SmallestBelowMean(claims: seq<Claim>) returns (c: Claim)
    requires claims != []
    ensures c in claims && Excess(claims, c.claimAmount) >= 0.0
  {
    var init, last := claims[..|claims| - 1], claims[|claims| - 1];
    assert claims == init + [last];
    if init == [] {
      c := last;
    } else {
      var earlier := SmallestBelowMean(init);
      if last.claimAmount >= earlier.claimAmount {
        c := earlier;
      } else {
        ExcessAntitone(init, earlier.claimAmount, last.claimAmount);
        c := last;
      }
    }
  }

  /** A claim no smaller than the mean of a non-empty list of claims. */
  lemma {:induction false} LargestAboveMean(claims: seq<Claim>) returns (c: Claim)
    requires claims != []
    ensures c in claims && Excess(claims, c.claimAmount) <= 0.0
  {
    var init, last := claims[..|claims| - 1], claims[|claims| - 1];
    assert claims == init + [last];
    if init == [] {
      c := last;
    } else {
      var earlier := LargestAboveMean(init);
      if last.claimAmount <= earlier.claimAmount {
        c := earlier;
      } else {
        ExcessAntitone(init, last.claimAmount, earlier.claimAmount);
        c := last;
      }
    }
  }

  /** Each average lies between the smallest and the largest claim of its
      policy type. */
  lemma AverageBetweenClaims(claims: seq<Claim>, policyholders: map<string, Policyholder>, policyType: string)
    requires Resolves(claims, policyholders)
    requires policyType in Averages(claims, policyholders)
    ensures exists c | c in claims && PolicyTypeOf(c, policyholders) == policyType ::
              c.claimAmount <= Averages(claims, policyholders)[policyType]
    ensures exists c | c in claims && PolicyTypeOf(c, policyholders) == policyType ::
              c.claimAmount >= Averages(claims, policyholders)[policyType]
  {
    var mine := ClaimsOfType(claims, policyholders, policyType);
    var n, total := |mine| as real, SumAmounts(mine);
    assert Averages(claims, policyholders)[policyType] == total / n;
    ClaimsOfTypeMembers(claims, policyholders, policyType);
    var lo := SmallestBelowMean(mine);
    ExcessOfSum(mine, lo.claimAmount);
    ScaledBelow(lo.claimAmount, total, n);
    assert lo in claims;
    var hi := LargestAboveMean(mine);
    ExcessOfSum(mine, hi.claimAmount);
    ScaledBelow(-hi.claimAmount, -total, n);
    assert hi in claims;
  }

  /** `x * n <= s` with `n` positive bounds `x` by `s / n`. */
  lemma ScaledBelow(x: real, s: real, n: real)
    requires n > 0.0
    requires x * n <= s
    ensures x <= s / n
    ensures -s / n == -(s / n)
  {
    assert (s / n) * n == s;
    assert (x - s / n) * n <= 0.0;
  }

  // ---------------------------------------------------------------------
  // get_highest_claim
  // ---------------------------------------------------------------------

  /** `max(claims, key=claim_amount)`, None when there are no claims; Python's
      max keeps the earlier of two equal amounts. */
  function HighestClaim(claims: seq<Claim>): (r: Option<Claim>)
    ensures r.None? <==> claims == []
    ensures r.Some? ==> r.value in claims
    ensures r.Some? ==> forall c | c in claims :: c.claimAmount <= r.value.claimAmount
  {
    if claims == [] then None
    else
      var init, last := claims[..|claims| - 1], claims[|claims| - 1];
      assert claims == init + [last];
      match HighestClaim(init)
      case None => Some(last)
      case Some(best) => if last.claimAmount > best.claimAmount then Some(last) else Some(best)
  }

  /** The position of the claim returned: no claim before it is as large. */
  lemma {:induction false} HighestPosition(claims: seq<Claim>) returns (i: nat)
    requires claims != []
    ensures i < |claims| && claims[i] == HighestClaim(claims).value
    ensures forall j | 0 <= j < i :: claims[j].claimAmount < claims[i].claimAmount
  {
    var init, last := claims[..|claims| - 1], claims[|claims| - 1];
    assert claims == init + [last];
    if init == [] {
      i := 0;
    } else {
      var k := HighestPosition(init);
      var best := HighestClaim(init).value;
      if last.claimAmount > best.claimAmount {
        i := |claims| - 1;
        forall j | 0 <= j < i ensures claims[j].claimAmount < last.claimAmount {
          assert claims[j] == init[j] && init[j] in init;
        }
      } else {
        i := k;
        assert claims[i] == init[k];
      }
    }
  }

  /** The claim returned is the first of the claims with the highest amount. */
  lemma HighestIsFirst(claims: seq<Claim>)
    requires claims != []
    ensures exists i | 0 <= i < |claims| ::
      && claims[i] == HighestClaim(claims).value
      && forall j | 0 <= j < i :: claims[j].claimAmount < claims[i].claimAmount
  {
    var i := HighestPosition(claims);
  }

  // ---------------------------------------------------------------------
  // get_pending_claims
  // ---------------------------------------------------------------------

  /** One `{'claim': ..., 'policyholder': ...}` entry of the pending list. */
  datatype PendingEntry = PendingEntry(claim: Claim, policyholder: Policyholder)

  /** `status.lower() == 'pending'`. */
  predicate IsPending(c: Claim) {
    Lower(c.status) == "pending"
  }

  /** Only the pending claims are looked up, so only they must resolve. */
  predicate PendingResolve(claims: seq<Claim>, policyholders: map<string, Policyholder>) {
    forall c | c in claims && IsPending(c) :: c.policyholderId in policyholders
  }

  /** The pending claims, in order, each with its policyholder. */
  function PendingOf(claims: seq<Claim>, policyholders: map<string, Policyholder>): (r: seq<PendingEntry>)
    requires PendingResolve(claims, policyholders)
    ensures |r| <= |claims|
  {
    if claims == [] then []
    else
      var init, last := claims[..|claims| - 1], claims[|claims| - 1];
      assert claims == init + [last];
      var rest := PendingOf(init, policyholders);
      if IsPending(last) then rest + [PendingEntry(last, policyholders[last.policyholderId])] else rest
  }

  /** An entry is listed exactly when its claim is pending and it pairs the
      claim with the policyholder the claim names. */
  lemma {:induction false} PendingMembers(claims: seq<Claim>, policyholders: map<string, Policyholder>)
    requires PendingResolve(claims, policyholders)
    ensures forall e :: e in PendingOf(claims, policyholders) <==>
      && e.claim in claims
      && IsPending(e.claim)
      && e.claim.policyholderId in policyholders
      && e.policyholder == policyholders[e.claim.policyholderId]
  {
    if claims != [] {
      var init := claims[..|claims| - 1];
      assert claims == init + [claims[|claims| - 1]];
      PendingMembers(init, policyholders);
    }
  }

  /** get_pending_claims, over the claims in dictionary order. */
  method GetPendingClaims(claims: seq<Claim>, policyholders: map<string, Policyholder>)
    returns (pendingClaims: seq<PendingEntry>)
    requires PendingResolve(claims, policyholders)
    ensures pendingClaims == PendingOf(claims, policyholders)
  {
    pendingClaims := [];
    var i := 0;
    while i < |claims|
      invariant 0 <= i <= |claims|
      invariant pendingClaims == PendingOf(claims[..i], policyholders)
    {
      var claim := claims[i];
      assert claims[..i + 1][..i] == claims[..i];
      if Lower(claim.status) == "pending" {
        var policyholder := policyholders[claim.policyholderId];
        pendingClaims := pendingClaims + [PendingEntry(claim, policyholder)];
      }
      i := i + 1;
    }
    assert claims[..i] == claims;
  }
}
