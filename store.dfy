/** The in-memory store of policyholders and claims (InsuranceDataManager):
    its three validated mutators, and the queries it answers about one
    policyholder's claims and about high-risk policyholders. */
module Store {
  import opened Records

  /** Status given to a claim when the caller names none. */
  const DefaultStatus: string := "Pending"
  /** Trailing window, in days, of the claim frequency used for risk. */
  const FrequencyWindowDays: int := 365
  /** More claims than this in the window flags a policyholder. */
  const FrequencyThreshold: nat := 3
  /** A claimed-to-insured ratio above this flags a policyholder. */
  const RatioThreshold: real := 0.8

  // ---------------------------------------------------------------------
  // Dictionary iteration order
  // ---------------------------------------------------------------------

  /** `order` lists every key of `m` exactly once, in insertion order. */
  ghost predicate IsInsertionOrder<V>(order: seq<string>, m: map<string, V>) {
    && (forall i, j | 0 <= i < j < |order| :: order[i] != order[j])
    && (forall k :: k in m <==> k in order)
  }

  /** `m.values()` in the order given by `order`. */
  function InOrder<V>(m: map<string, V>, order: seq<string>): (r: seq<V>)
    requires forall k | k in order :: k in m
    ensures |r| == |order|
    ensures forall i | 0 <= i < |order| :: r[i] == m[order[i]]
  {
    seq(|order|, i requires 0 <= i < |order| => m[order[i]])
  }

  /** Iterating a dictionary in its insertion order visits exactly its values. */
  lemma ValuesInOrder<V>(m: map<string, V>, order: seq<string>)
    requires IsInsertionOrder(order, m)
    ensures forall v :: v in InOrder(m, order) <==> v in m.Values
  {
    var r := InOrder(m, order);
    forall v | v in m.Values ensures v in r {
      var k :| k in m && m[k] == v;
      var i :| 0 <= i < |order| && order[i] == k;
      assert r[i] == v;
    }
  }

  /** Inserting a new key puts its value last in iteration order. */
  lemma AppendInOrder<V>(m: map<string, V>, order: seq<string>, k: string, v: V)
    requires IsInsertionOrder(order, m)
    requires k !in m
    ensures InOrder(m[k := v], order + [k]) == InOrder(m, order) + [v]
  {
    var r, s := InOrder(m[k := v], order + [k]), InOrder(m, order) + [v];
    assert |r| == |s|;
    forall i | 0 <= i < |r| ensures r[i] == s[i] {
      if i < |order| {
        assert order[i] in m;
      }
    }
  }

  /** Every claim names a policyholder of `policyholders` (the lookups of the
      analytics cannot fail). */
  predicate Resolves(claims: seq<Claim>, policyholders: map<string, Policyholder>) {
    forall c | c in claims :: c.policyholderId in policyholders
  }

  // ---------------------------------------------------------------------
  // Queries over the claims, in dictionary order
  // ---------------------------------------------------------------------

  /** get_claims_by_policyholder: the claims filed against `policyholderId`. */
  function ClaimsByPolicyholder(claims: seq<Claim>, policyholderId: string): (r: seq<Claim>)
    ensures |r| <= |claims|
  {
    if claims == [] then []
    else
      var rest := ClaimsByPolicyholder(claims[..|claims| - 1], policyholderId);
      var last := claims[|claims| - 1];
      if last.policyholderId == policyholderId then rest + [last] else rest
  }

  /** The claims returned are exactly those naming the policyholder. */
  lemma {:induction false} ClaimsByPolicyholderMembers(claims: seq<Claim>, policyholderId: string)
    ensures forall c :: c in ClaimsByPolicyholder(claims, policyholderId)
                    <==> c in claims && c.policyholderId == policyholderId
  {
    if claims != [] {
      var init := claims[..|claims| - 1];
      assert claims == init + [claims[|claims| - 1]];
      ClaimsByPolicyholderMembers(init, policyholderId);
    }
  }

  /** A claim filed on `filed` lies in the trailing window of `days` days
      ending `today`: on or after the calendar day `days` days before today
      (whole days; see the findings in README for the comparison as written). */
  predicate InWindow(filed: Date, today: Date, days: int) {
    Ordinal(filed) >= Ordinal(today) - days
  }

  /** The claims of `claims` filed inside the window. */
  function RecentClaims(claims: seq<Claim>, today: Date, days: int): (r: seq<Claim>)
    ensures |r| <= |claims|
  {
    if claims == [] then []
    else
      var rest := RecentClaims(claims[..|claims| - 1], today, days);
      var last := claims[|claims| - 1];
      if InWindow(last.dateOfClaim, today, days) then rest + [last] else rest
  }

  /** The claims returned are exactly those filed inside the window. */
  lemma {:induction false} RecentClaimsMembers(claims: seq<Claim>, today: Date, days: int)
    ensures forall c :: c in RecentClaims(claims, today, days)
                    <==> c in claims && InWindow(c.dateOfClaim, today, days)
  {
    if claims != [] {
      var init := claims[..|claims| - 1];
      assert claims == init + [claims[|claims| - 1]];
      RecentClaimsMembers(init, today, days);
    }
  }

  /** calculate_claim_frequency: how many of the policyholder's claims lie in
      the window. */
  function ClaimFrequency(claims: seq<Claim>, policyholderId: string, today: Date, days: int): (n: nat)
    ensures n <= |ClaimsByPolicyholder(claims, policyholderId)|
  {
    |RecentClaims(ClaimsByPolicyholder(claims, policyholderId), today, days)|
  }

  /** Taking the recent claims first and then the policyholder's gives the
      same list: the frequency counts exactly the policyholder's claims that
      lie in the window. */
  lemma {:induction false} FiltersCommute(claims: seq<Claim>, policyholderId: string, today: Date, days: int)
    ensures RecentClaims(ClaimsByPolicyholder(claims, policyholderId), today, days)
         == ClaimsByPolicyholder(RecentClaims(claims, today, days), policyholderId)
  {
    if claims != [] {
      var init := claims[..|claims| - 1];
      FiltersCommute(init, policyholderId, today, days);
    }
  }

  lemma {:induction false} RecentClaimsMonotonic(claims: seq<Claim>, today: Date, shorter: int, longer: int)
    requires shorter <= longer
    ensures |RecentClaims(claims, today, shorter)| <= |RecentClaims(claims, today, longer)|
  {
    if claims != [] {
      RecentClaimsMonotonic(claims[..|claims| - 1], today, shorter, longer);
    }
  }

  /** A longer window never counts fewer claims. */
  lemma FrequencyMonotonic(claims: seq<Claim>, policyholderId: string, today: Date, shorter: int, longer: int)
    requires shorter <= longer
    ensures ClaimFrequency(claims, policyholderId, today, shorter)
         <= ClaimFrequency(claims, policyholderId, today, longer)
  {
    RecentClaimsMonotonic(ClaimsByPolicyholder(claims, policyholderId), today, shorter, longer);
  }

  lemma {:induction false} RecentClaimsAll(claims: seq<Claim>, today: Date, days: int)
    requires forall c | c in claims :: InWindow(c.dateOfClaim, today, days)
    ensures RecentClaims(claims, today, days) == claims
  {
    if claims != [] {
      var init := claims[..|claims| - 1];
      assert claims == init + [claims[|claims| - 1]];
      RecentClaimsAll(init, today, days);
    }
  }

  /** When all of a policyholder's claims lie in the window, the frequency is
      the number of their claims. */
  lemma FrequencyOfRecentClaims(claims: seq<Claim>, policyholderId: string, today: Date, days: int)
    requires forall c | c in claims && c.policyholderId == policyholderId :: InWindow(c.dateOfClaim, today, days)
    ensures ClaimFrequency(claims, policyholderId, today, days) == |ClaimsByPolicyholder(claims, policyholderId)|
  {
    ClaimsByPolicyholderMembers(claims, policyholderId);
    RecentClaimsAll(ClaimsByPolicyholder(claims, policyholderId), today, days);
  }

  /** The policy type of the policyholder a claim names. */
  function PolicyTypeOf(c: Claim, policyholders: map<string, Policyholder>): string
    requires c.policyholderId in policyholders
  {
    policyholders[c.policyholderId].policyType
  }

  /** The claims whose policyholder holds a policy of type `policyType`. */
  function ClaimsOfType(claims: seq<Claim>, policyholders: map<string, Policyholder>, policyType: string): (r: seq<Claim>)
    requires Resolves(claims, policyholders)
    ensures |r| <= |claims|
  {
    if claims == [] then []
    else
      var init, last := claims[..|claims| - 1], claims[|claims| - 1];
      assert claims == init + [last];
      var rest := ClaimsOfType(init, policyholders, policyType);
      if PolicyTypeOf(last, policyholders) == policyType then rest + [last] else rest
  }

  /** The claims returned are exactly those of a policyholder holding a
      policy of that type. */
  lemma {:induction false} ClaimsOfTypeMembers(claims: seq<Claim>, policyholders: map<string, Policyholder>, policyType: string)
    requires Resolves(claims, policyholders)
    ensures forall c :: c in ClaimsOfType(claims, policyholders, policyType)
                    <==> c in claims && PolicyTypeOf(c, policyholders) == policyType
  {
    if claims != [] {
      var init := claims[..|claims| - 1];
      assert claims == init + [claims[|claims| - 1]];
      ClaimsOfTypeMembers(init, policyholders, policyType);
    }
  }

  /** The policy types that at least one claim resolves to. */
  function PolicyTypes(claims: seq<Claim>, policyholders: map<string, Policyholder>): set<string>
    requires Resolves(claims, policyholders)
  {
    set c | c in claims :: PolicyTypeOf(c, policyholders)
  }

  /** `sum(claim.claim_amount for claim in claims)`. */
  function SumAmounts(claims: seq<Claim>): real {
    if claims == [] then 0.0
    else SumAmounts(claims[..|claims| - 1]) + claims[|claims| - 1].claimAmount
  }

  // ---------------------------------------------------------------------
  // The whole-day window, and the window as the source computes it
  // ---------------------------------------------------------------------

  const MicrosPerDay: int := 86_400_000_000

  /** The instant `datetime.now()` returns: a date and a time of day. */
  datatype Instant = Instant(date: Date, microsOfDay: int)

  /** The comparison as written: the claim's date at midnight against
      `now - timedelta(days)`, which keeps now's time of day. */
  predicate InWindowAsWritten(filed: Date, now: Instant, days: int) {
    Ordinal(filed) * MicrosPerDay >= Ordinal(now.date) * MicrosPerDay + now.microsOfDay - days * MicrosPerDay
  }

  /** As written, the boundary day of the window counts only when the code
      runs at exactly midnight; every other day agrees with `InWindow`. */
  lemma AsWrittenWindow(filed: Date, now: Instant, days: int)
    requires 0 <= now.microsOfDay < MicrosPerDay
    ensures InWindowAsWritten(filed, now, days)
        <==> (Ordinal(filed) > Ordinal(now.date) - days
              || (Ordinal(filed) == Ordinal(now.date) - days && now.microsOfDay == 0))
    ensures now.microsOfDay == 0 ==> (InWindowAsWritten(filed, now, days) <==> InWindow(filed, now.date, days))
  {
    var gap := Ordinal(filed) - (Ordinal(now.date) - days);
    assert InWindowAsWritten(filed, now, days) <==> gap * MicrosPerDay >= now.microsOfDay;
    if gap >= 1 {
      assert gap * MicrosPerDay >= MicrosPerDay;
    } else if gap <= -1 {
      assert gap * MicrosPerDay <= -MicrosPerDay;
    }
  }

  /** A claim filed exactly 365 days before a noon call: the whole-day window
      keeps it, the comparison as written drops it. */
  lemma BoundaryDayDropped()
    ensures var filed, now := Date(2022, 6, 1), Instant(Date(2023, 6, 1), 12 * 3_600_000_000);
      ValidDate(filed) && ValidDate(now.date)
      && Ordinal(now.date) - Ordinal(filed) == 365
      && InWindow(filed, now.date, 365)
      && !InWindowAsWritten(filed, now, 365)
  {
    var filed, now := Date(2022, 6, 1), Instant(Date(2023, 6, 1), 12 * 3_600_000_000);
    assert Ordinal(filed) == 738307;
    assert Ordinal(now.date) == 738672;
  }

  /** With whole days, a claim filed exactly `days` days before today is
      counted, whatever the time of day of the call. */
  lemma CutoffDayCounted(claims: seq<Claim>, c: Claim, today: Date, days: int)
    requires c in claims
    requires Ordinal(c.dateOfClaim) == Ordinal(today) - days
    ensures c in RecentClaims(claims, today, days)
  {
    RecentClaimsMembers(claims, today, days);
  }

  // ---------------------------------------------------------------------
  // High-risk assessment (get_high_risk_policyholders)
  // ---------------------------------------------------------------------

  /** The reasons attached to a flagged policyholder; the text of the
      source's messages is reduced to the figure each one shows. */
  datatype RiskFactor = HighFrequency(claimCount: nat) | HighRatio(ratio: real)

  datatype RiskEntry = RiskEntry(
    policyholder: Policyholder,
    claimFrequency: nat,
    totalClaims: real,
    claimRatio: real,
    riskFactors: seq<RiskFactor>)

  /** The two threshold rules, stated on the store's contents. */
  predicate Flagged(h: Policyholder, claims: seq<Claim>, today: Date)
    requires h.sumInsured > 0.0
  {
    || ClaimFrequency(claims, h.id, today, FrequencyWindowDays) > FrequencyThreshold
    || SumAmounts(ClaimsByPolicyholder(claims, h.id)) / h.sumInsured > RatioThreshold
  }

  /** The reasons for a frequency and a ratio: at most one per rule, the
      frequency reason before the ratio reason. */
  function RiskFactors(frequency: nat, ratio: real): (factors: seq<RiskFactor>)
    ensures |factors| <= 2
    ensures factors != [] <==> frequency > FrequencyThreshold || ratio > RatioThreshold
    ensures HighFrequency(frequency) in factors <==> frequency > FrequencyThreshold
    ensures HighRatio(ratio) in factors <==> ratio > RatioThreshold
    ensures frequency > FrequencyThreshold ==> factors[0] == HighFrequency(frequency)
    ensures ratio > RatioThreshold ==> factors[|factors| - 1] == HighRatio(ratio)
  {
    (if frequency > FrequencyThreshold then [HighFrequency(frequency)] else [])
      + (if ratio > RatioThreshold then [HighRatio(ratio)] else [])
  }

  /** The record computed for one policyholder: frequency over the window,
      total over all their claims, ratio of that total to the sum insured. */
  function Assess(h: Policyholder, claims: seq<Claim>, today: Date): (e: RiskEntry)
    requires h.sumInsured > 0.0
    ensures e.policyholder == h
    ensures e.claimFrequency == ClaimFrequency(claims, h.id, today, FrequencyWindowDays)
    ensures e.totalClaims == SumAmounts(ClaimsByPolicyholder(claims, h.id))
    ensures e.claimRatio == e.totalClaims / h.sumInsured
    ensures e.riskFactors == RiskFactors(e.claimFrequency, e.claimRatio)
    ensures e.riskFactors != [] <==> Flagged(h, claims, today)
  {
    var frequency := ClaimFrequency(claims, h.id, today, FrequencyWindowDays);
    var total := SumAmounts(ClaimsByPolicyholder(claims, h.id));
    var ratio := total / h.sumInsured;
    RiskEntry(h, frequency, total, ratio, RiskFactors(frequency, ratio))
  }

  /** The flagged entries of `policyholders`, in order. */
  function HighRiskOf(policyholders: seq<Policyholder>, claims: seq<Claim>, today: Date): seq<RiskEntry>
    requires forall h | h in policyholders :: h.sumInsured > 0.0
  {
    if policyholders == [] then []
    else
      var rest := HighRiskOf(policyholders[..|policyholders| - 1], claims, today);
      var e := Assess(policyholders[|policyholders| - 1], claims, today);
      if e.riskFactors != [] then rest + [e] else rest
  }

  /** A policyholder is listed iff one of the two rules flags them, and every
      listed entry is the assessment of a policyholder of the store. */
  lemma {:induction false} HighRiskMembership(policyholders: seq<Policyholder>, claims: seq<Claim>, today: Date)
    requires forall h | h in policyholders :: h.sumInsured > 0.0
    ensures |HighRiskOf(policyholders, claims, today)| <= |policyholders|
    ensures forall e | e in HighRiskOf(policyholders, claims, today) ::
              e.policyholder in policyholders && e == Assess(e.policyholder, claims, today)
              && 1 <= |e.riskFactors| <= 2
    ensures forall h | h in policyholders ::
              Assess(h, claims, today) in HighRiskOf(policyholders, claims, today) <==> Flagged(h, claims, today)
  {
    if policyholders != [] {
      var init, last := policyholders[..|policyholders| - 1], policyholders[|policyholders| - 1];
      assert policyholders == init + [last];
      HighRiskMembership(init, claims, today);
    }
  }

  /** One more policyholder adds its assessment when it is flagged. */
  lemma HighRiskStep(policyholders: seq<Policyholder>, i: nat, claims: seq<Claim>, today: Date)
    requires forall h | h in policyholders :: h.sumInsured > 0.0
    requires i < |policyholders|
    ensures var entry := Assess(policyholders[i], claims, today);
      HighRiskOf(policyholders[..i + 1], claims, today)
        == HighRiskOf(policyholders[..i], claims, today) + (if entry.riskFactors != [] then [entry] else [])
  {
    assert policyholders[..i + 1][..i] == policyholders[..i];
  }

  /** One pass of the loop of get_high_risk_policyholders: the figures of
      one policyholder and the risk factors they raise. */
  method AssessPolicyholder(policyholder: Policyholder, claims: seq<Claim>, today: Date) returns (entry: RiskEntry)
    requires policyholder.sumInsured > 0.0
    ensures entry == Assess(policyholder, claims, today)
  {
    var mine := ClaimsByPolicyholder(claims, policyholder.id);
    var frequency := ClaimFrequency(claims, policyholder.id, today, FrequencyWindowDays);
    var total := SumAmounts(mine);
    var ratio := total / policyholder.sumInsured;
    var factors := [];
    if frequency > FrequencyThreshold {
      factors := factors + [HighFrequency(frequency)];
    }
    if ratio > RatioThreshold {
      factors := factors + [HighRatio(ratio)];
    }
    entry := RiskEntry(policyholder, frequency, total, ratio, factors);
  }

  /** The loop of get_high_risk_policyholders over the policyholders in
      dictionary order, appending the record of each flagged one. */
  method ScanHighRisk(policyholders: seq<Policyholder>, claims: seq<Claim>, today: Date)
    returns (highRisk: seq<RiskEntry>)
    requires forall h | h in policyholders :: h.sumInsured > 0.0
    ensures highRisk == HighRiskOf(policyholders, claims, today)
  {
    highRisk := [];
    var i := 0;
    while i < |policyholders|
      invariant 0 <= i <= |policyholders|
      invariant highRisk == HighRiskOf(policyholders[..i], claims, today)
    {
      var entry := AssessPolicyholder(policyholders[i], claims, today);
      HighRiskStep(policyholders, i, claims, today);
      if entry.riskFactors != [] {
        highRisk := highRisk + [entry];
      }
      i := i + 1;
    }
    assert policyholders[..i] == policyholders;
  }

  // ---------------------------------------------------------------------
  // The store
  // ---------------------------------------------------------------------

  class InsuranceDataManager {
    var policyholders: map<string, Policyholder>
    var policyholderOrder: seq<string>
    var claims: map<string, Claim>
    var claimOrder: seq<string>

    /** Each record sits under its own id; policyholders passed the checks of
        add_policyholder; every claim names a stored policyholder, has a
        positive amount and a calendar date. */
    ghost predicate Valid()
      reads this
    {
      && IsInsertionOrder(policyholderOrder, policyholders)
      && IsInsertionOrder(claimOrder, claims)
      && (forall id | id in policyholders ::
            && policyholders[id].id == id
            && policyholders[id].name != ""
            && policyholders[id].age > 0
            && policyholders[id].sumInsured > 0.0)
      && (forall id | id in claims ::
            && claims[id].id == id
            && claims[id].policyholderId in policyholders
            && claims[id].claimAmount > 0.0
            && ValidDate(claims[id].dateOfClaim))
    }

    /** A store with no snapshot to load. */
    constructor ()
      ensures Valid()
      ensures policyholders == map[] && claims == map[]
    {
      policyholders, policyholderOrder := map[], [];
      claims, claimOrder := map[], [];
    }

    /** `self.policyholders.values()`, in insertion order. */
    function Policyholders(): (r: seq<Policyholder>)
      reads this
      requires Valid()
      ensures forall h | h in r :: h.id in policyholders && policyholders[h.id] == h && h.sumInsured > 0.0
    {
      InOrder(policyholders, policyholderOrder)
    }

    /** `self.claims.values()`, in insertion order. */
    function Claims(): (r: seq<Claim>)
      reads this
      requires Valid()
      ensures Resolves(r, policyholders)
      ensures forall c | c in r :: c.id in claims && claims[c.id] == c && c.claimAmount > 0.0
    {
      InOrder(claims, claimOrder)
    }

    /** get_claims_by_policyholder: the stored claims naming the policyholder. */
    function GetClaimsByPolicyholder(policyholderId: string): (r: seq<Claim>)
      reads this
      requires Valid()
      ensures forall c :: c in r <==> c in claims.Values && c.policyholderId == policyholderId
    {
      ClaimsByPolicyholderMembers(Claims(), policyholderId);
      ValuesInOrder(claims, claimOrder);
      ClaimsByPolicyholder(Claims(), policyholderId)
    }

    /** calculate_claim_frequency, with `today` the date of `datetime.now()`;
        `days` defaults to a year, as in the source. */
    function CalculateClaimFrequency(policyholderId: string, today: Date, days: int := FrequencyWindowDays): (n: nat)
      reads this
      requires Valid()
      ensures n <= |GetClaimsByPolicyholder(policyholderId)|
      ensures n == |RecentClaims(GetClaimsByPolicyholder(policyholderId), today, days)|
    {
      ClaimFrequency(Claims(), policyholderId, today, days)
    }

    /** add_policyholder. `freshId` stands for the new uuid4. */
    method AddPolicyholder(freshId: string, name: string, age: int, policyType: string, sumInsured: real)
      returns (r: Result<string>)
      requires Valid()
      requires freshId !in policyholders
      modifies this
      ensures Valid()
      ensures r.Ok? <==> name != "" && age > 0 && sumInsured > 0.0
      ensures r.Err? ==> r.error == InvalidPolicyholder && unchanged(this)
      ensures r.Ok? ==>
                && r.value == freshId
                && policyholders == old(policyholders)[freshId := Policyholder(freshId, name, age, policyType, sumInsured)]
                && policyholderOrder == old(policyholderOrder) + [freshId]
      ensures r.Ok? ==> Policyholders() == old(Policyholders()) + [Policyholder(freshId, name, age, policyType, sumInsured)]
      ensures claims == old(claims) && claimOrder == old(claimOrder)
    {
      if name == "" || age <= 0 || sumInsured <= 0.0 {
        return Err(InvalidPolicyholder);
      }
      policyholders := policyholders[freshId := Policyholder(freshId, name, age, policyType, sumInsured)];
      policyholderOrder := policyholderOrder + [freshId];
      AppendInOrder(old(policyholders), old(policyholderOrder), freshId, policyholders[freshId]);
      r := Ok(freshId);
    }

    /** add_claim. `freshId` stands for the new uuid4 and `today` for the
        date of `datetime.now()`; `status` defaults to "Pending". */
    method AddClaim(freshId: string, today: Date, policyholderId: string, claimAmount: real, reason: string,
                    status: string := DefaultStatus)
      returns (r: Result<string>)
      requires Valid()
      requires freshId !in claims
      requires ValidDate(today)
      modifies this
      ensures Valid()
      ensures policyholderId !in old(policyholders) ==> r == Err(PolicyholderNotFound)
      ensures policyholderId in old(policyholders) && claimAmount <= 0.0 ==> r == Err(NonPositiveClaimAmount)
      ensures r.Ok? <==> policyholderId in old(policyholders) && claimAmount > 0.0
      ensures r.Err? ==> unchanged(this)
      ensures r.Ok? ==>
                && r.value == freshId
                && claims == old(claims)[freshId := Claim(freshId, policyholderId, claimAmount, reason, status, today)]
                && claimOrder == old(claimOrder) + [freshId]
      ensures r.Ok? ==> Claims() == old(Claims()) + [Claim(freshId, policyholderId, claimAmount, reason, status, today)]
      ensures policyholders == old(policyholders) && policyholderOrder == old(policyholderOrder)
    {
      if policyholderId !in policyholders {
        return Err(PolicyholderNotFound);
      }
      if claimAmount <= 0.0 {
        return Err(NonPositiveClaimAmount);
      }
      claims := claims[freshId := Claim(freshId, policyholderId, claimAmount, reason, status, today)];
      claimOrder := claimOrder + [freshId];
      AppendInOrder(old(claims), old(claimOrder), freshId, claims[freshId]);
      r := Ok(freshId);
    }

    /** update_claim_status: any status text is accepted. */
    method UpdateClaimStatus(claimId: string, status: string) returns (r: Option<Error>)
      requires Valid()
      modifies this
      ensures Valid()
      ensures r == (if claimId in old(claims) then None else Some(ClaimNotFound))
      ensures r.Some? ==> unchanged(this)
      ensures r.None? ==> claims == old(claims)[claimId := old(claims)[claimId].(status := status)]
      ensures claims.Keys == old(claims.Keys) && claimOrder == old(claimOrder)
      ensures policyholders == old(policyholders) && policyholderOrder == old(policyholderOrder)
    {
      if claimId !in claims {
        return Some(ClaimNotFound);
      }
      ghost var before := claims;
      claims := claims[claimId := claims[claimId].(status := status)];
      assert forall id | id in claims ::
               && id in before
               && claims[id].id == before[id].id
               && claims[id].policyholderId == before[id].policyholderId
               && claims[id].claimAmount == before[id].claimAmount
               && claims[id].dateOfClaim == before[id].dateOfClaim;
      r := None;
    }

    /** get_high_risk_policyholders, with `today` the date of `datetime.now()`. */
    method GetHighRiskPolicyholders(today: Date) returns (highRisk: seq<RiskEntry>)
      requires Valid()
      ensures highRisk == HighRiskOf(Policyholders(), Claims(), today)
    {
      highRisk := ScanHighRisk(Policyholders(), Claims(), today);
    }
  }
}
