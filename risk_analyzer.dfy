/** RiskAnalyzer: claims grouped by the policy type of their policyholder,
    with a count, a total amount and a count per status for each type. */
module RiskAnalyzer {
  import opened Records
  import opened Store
  import opened Tallies

  /** The three status counts of a per-type record. */
  datatype StatusBucket = Pending | Approved | Rejected

  /** The five keys of a per-type record. `status.lower()` selects one of
      them: a status count, or, for the statuses "count" and "total_amount",
      one of the two figures the loop has already raised for the claim. */
  datatype RecordKey = StatusKey(bucket: StatusBucket) | CountKey | TotalKey

  /** The status count `status.lower()` selects, if it is one of the three. */
  function BucketOf(status: string): Option<StatusBucket> {
    var key := Lower(status);
    if key == "pending" then Some(Pending)
    else if key == "approved" then Some(Approved)
    else if key == "rejected" then Some(Rejected)
    else None
  }

  /** The record key `status.lower()` selects, if it is one of the five. */
  function KeyOf(status: string): Option<RecordKey> {
    match BucketOf(status)
    case Some(b) => Some(StatusKey(b))
    case None =>
      var key := Lower(status);
      if key == "count" then Some(CountKey)
      else if key == "total_amount" then Some(TotalKey)
      else None
  }

  datatype TypeTally = TypeTally(count: nat, totalAmount: real, pending: nat, approved: nat, rejected: nat)

  /** The record a policy type starts with when its first claim is met. */
  const EmptyTally := TypeTally(0, 0.0, 0, 0, 0)

  /** One more claim of `amount` whose status selects `key`: the count and
      the total grow, then the selected entry grows by one more. */
  function Add(t: TypeTally, amount: real, key: RecordKey): TypeTally {
    var t := t.(count := t.count + 1, totalAmount := t.totalAmount + amount);
    match key
    case StatusKey(Pending) => t.(pending := t.pending + 1)
    case StatusKey(Approved) => t.(approved := t.approved + 1)
    case StatusKey(Rejected) => t.(rejected := t.rejected + 1)
    case CountKey => t.(count := t.count + 1)
    case TotalKey => t.(totalAmount := t.totalAmount + 1.0)
  }

  /** One iteration of the loop: record `c` under its policy type, or fail
      with the KeyError of its status key. */
  function Step(acc: Result<map<string, TypeTally>>, c: Claim, policyholders: map<string, Policyholder>): Result<map<string, TypeTally>>
    requires c.policyholderId in policyholders
  {
    match acc
    case Err(e) => Err(e)
    case Ok(m) =>
      var policyType := PolicyTypeOf(c, policyholders);
      match KeyOf(c.status)
      case None => Err(UnknownStatusKey(Lower(c.status)))
      case Some(k) => Ok(m[policyType := Add(RecordOf(m, policyType), c.claimAmount, k)])
  }

  /** The record of `policyType`, or the empty record if there is none yet. */
  function RecordOf(m: map<string, TypeTally>, policyType: string): TypeTally {
    if policyType in m then m[policyType] else EmptyTally
  }

  /** The count a record keeps for one status bucket. */
  function BucketCount(t: TypeTally, bucket: StatusBucket): nat {
    match bucket
    case Pending => t.pending
    case Approved => t.approved
    case Rejected => t.rejected
  }

  /** The aggregation over `claims` in order; the first claim whose status
      is none of the five record keys ends it with the KeyError of its key. */
  function TallyByType(claims: seq<Claim>, policyholders: map<string, Policyholder>): Result<map<string, TypeTally>>
    requires Resolves(claims, policyholders)
  {
    if claims == [] then Ok(map[])
    else
      var init, last := claims[..|claims| - 1], claims[|claims| - 1];
      assert claims == init + [last];
      Step(TallyByType(init, policyholders), last, policyholders)
  }

  /** A successful aggregation is the successful aggregation of all claims
      but the last, with the last claim added to the record of its type. */
  lemma TallyLast(claims: seq<Claim>, policyholders: map<string, Policyholder>)
    requires Resolves(claims, policyholders)
    requires claims != []
    requires TallyByType(claims, policyholders).Ok?
    ensures var init, last := claims[..|claims| - 1], claims[|claims| - 1];
      && Resolves(init, policyholders)
      && TallyByType(init, policyholders).Ok?
      && KeyOf(last.status).Some?
      && var m, t := TallyByType(init, policyholders).value, PolicyTypeOf(last, policyholders);
         TallyByType(claims, policyholders).value
           == m[t := Add(RecordOf(m, t), last.claimAmount, KeyOf(last.status).value)]
  {
    var init, last := claims[..|claims| - 1], claims[|claims| - 1];
    assert claims == init + [last];
  }

  /** The aggregation of one more claim of a prefix is one more step. */
  lemma TallyPrefixStep(claims: seq<Claim>, policyholders: map<string, Policyholder>, i: nat)
    requires Resolves(claims, policyholders)
    requires i < |claims|
    ensures TallyByType(claims[..i + 1], policyholders)
         == Step(TallyByType(claims[..i], policyholders), claims[i], policyholders)
  {
    assert claims[..i + 1][..i] == claims[..i];
  }

  /** Once the aggregation of a prefix has failed, so has that of the whole. */
  lemma {:induction false} FailureIsFinal(claims: seq<Claim>, policyholders: map<string, Policyholder>, i: nat)
    requires Resolves(claims, policyholders)
    requires i <= |claims|
    requires TallyByType(claims[..i], policyholders).Err?
    ensures TallyByType(claims, policyholders) == TallyByType(claims[..i], policyholders)
    decreases |claims| - i
  {
    if i < |claims| {
      assert claims[..i + 1][..i] == claims[..i];
      FailureIsFinal(claims, policyholders, i + 1);
    } else {
      assert claims[..i] == claims;
    }
  }

  /** The claims whose status selects `key`. */
  function ClaimsWithKey(claims: seq<Claim>, key: RecordKey): (r: seq<Claim>)
    ensures |r| <= |claims|
  {
    if claims == [] then []
    else
      var rest := ClaimsWithKey(claims[..|claims| - 1], key);
      var last := claims[|claims| - 1];
      if KeyOf(last.status) == Some(key) then rest + [last] else rest
  }

  /** The claims returned are exactly those whose status selects `key`. */
  lemma {:induction false} ClaimsWithKeyMembers(claims: seq<Claim>, key: RecordKey)
    ensures forall c :: c in ClaimsWithKey(claims, key)
                    <==> c in claims && KeyOf(c.status) == Some(key)
  {
    if claims != [] {
      var init := claims[..|claims| - 1];
      assert claims == init + [claims[|claims| - 1]];
      ClaimsWithKeyMembers(init, key);
    }
  }

  /** The claims of a key grow by an appended claim exactly when its status
      selects that key. */
  lemma KeyAppend(claims: seq<Claim>, c: Claim, key: RecordKey)
    ensures ClaimsWithKey(claims + [c], key)
         == ClaimsWithKey(claims, key) + (if KeyOf(c.status) == Some(key) then [c] else [])
  {
    assert (claims + [c])[..|claims|] == claims;
  }

  /** When every status selects a key, the five keys split the claims. */
  lemma {:induction false} KeysPartition(claims: seq<Claim>)
    requires forall c | c in claims :: KeyOf(c.status).Some?
    ensures |claims| == |ClaimsWithKey(claims, StatusKey(Pending))| + |ClaimsWithKey(claims, StatusKey(Approved))|
                      + |ClaimsWithKey(claims, StatusKey(Rejected))| + |ClaimsWithKey(claims, CountKey)|
                      + |ClaimsWithKey(claims, TotalKey)|
  {
    if claims != [] {
      var init, last := claims[..|claims| - 1], claims[|claims| - 1];
      assert claims == init + [last];
      KeysPartition(init);
      assert KeyOf(last.status).Some?;
    }
  }

  /** A status that selects a bucket selects that bucket's key and no other. */
  lemma BucketedKey(claims: seq<Claim>, key: RecordKey)
    requires forall c | c in claims :: BucketOf(c.status).Some?
    requires !key.StatusKey?
    ensures ClaimsWithKey(claims, key) == []
  {
    ClaimsWithKeyMembers(claims, key);
    var r := ClaimsWithKey(claims, key);
    assert forall i | 0 <= i < |r| :: r[i] in r;
  }

  /** The per-type claim counts of an aggregation. */
  function CountsOf(m: map<string, TypeTally>): map<string, nat> {
    map t | t in m :: m[t].count
  }

  /** Adding a claim to the record of `t` counts one more claim of type `t`,
      and one more again when its status selects the count itself. */
  lemma CountsAfterAdd(m: map<string, TypeTally>, t: string, amount: real, key: RecordKey)
    ensures CountsOf(m[t := Add(RecordOf(m, t), amount, key)])
         == if key == CountKey then Bump(Bump(CountsOf(m), t), t) else Bump(CountsOf(m), t)
  {
    var r := Add(RecordOf(m, t), amount, key);
    assert r.count == RecordOf(m, t).count + if key == CountKey then 2 else 1;
  }

  /** The aggregation fails exactly when some claim's status lower-cases to
      none of the five record keys. */
  lemma {:induction false} TallyFailsIff(claims: seq<Claim>, policyholders: map<string, Policyholder>)
    requires Resolves(claims, policyholders)
    ensures TallyByType(claims, policyholders).Err?
        <==> exists c | c in claims :: KeyOf(c.status).None?
  {
    if claims != [] {
      var init, last := claims[..|claims| - 1], claims[|claims| - 1];
      assert claims == init + [last];
      TallyFailsIff(init, policyholders);
    }
  }

  /** A failed aggregation reports the KeyError of the first claim in order
      whose status names none of the five record keys. */
  lemma {:induction false} TallyFirstFailure(claims: seq<Claim>, policyholders: map<string, Policyholder>)
    requires Resolves(claims, policyholders)
    requires TallyByType(claims, policyholders).Err?
    ensures exists i | 0 <= i < |claims| ::
              && KeyOf(claims[i].status).None?
              && (forall j | 0 <= j < i :: KeyOf(claims[j].status).Some?)
              && TallyByType(claims, policyholders).error == UnknownStatusKey(Lower(claims[i].status))
  {
    var init, last := claims[..|claims| - 1], claims[|claims| - 1];
    assert claims == init + [last];
    if TallyByType(init, policyholders).Err? {
      TallyFirstFailure(init, policyholders);
      var i :| 0 <= i < |init| && KeyOf(init[i].status).None?
            && (forall j | 0 <= j < i :: KeyOf(init[j].status).Some?)
            && TallyByType(init, policyholders).error == UnknownStatusKey(Lower(init[i].status));
      assert forall j | 0 <= j <= i :: claims[j] == init[j];
    } else {
      TallyFailsIff(init, policyholders);
      assert forall j | 0 <= j < |init| :: claims[j] == init[j] && init[j] in init;
      assert KeyOf(claims[|init|].status).None?;
    }
  }

  /** The aggregation keeps one record per policy type that some claim
      resolves to, and no other. */
  lemma {:induction false} TallyKeys(claims: seq<Claim>, policyholders: map<string, Policyholder>)
    requires Resolves(claims, policyholders)
    requires TallyByType(claims, policyholders).Ok?
    ensures TallyByType(claims, policyholders).value.Keys == PolicyTypes(claims, policyholders)
  {
    if claims != [] {
      var init, last := claims[..|claims| - 1], claims[|claims| - 1];
      assert claims == init + [last];
      TallyKeys(init, policyholders);
      assert PolicyTypes(claims, policyholders) == PolicyTypes(init, policyholders) + {PolicyTypeOf(last, policyholders)};
    }
  }

  /** The claims of a type grow by the last claim exactly when it is of
      that type. */
  lemma ClaimsOfTypeLast(claims: seq<Claim>, policyholders: map<string, Policyholder>, t: string)
    requires Resolves(claims, policyholders)
    requires claims != []
    ensures var init, last := claims[..|claims| - 1], claims[|claims| - 1];
      ClaimsOfType(claims, policyholders, t)
        == ClaimsOfType(init, policyholders, t) + (if PolicyTypeOf(last, policyholders) == t then [last] else [])
  {
    assert claims == claims[..|claims| - 1] + [claims[|claims| - 1]];
  }

  /** Adding a claim raises the count by one, and by one more when its
      status selects the count; likewise the total by the amount and by one
      more when its status selects the total. */
  lemma FiguresAdd(r: TypeTally, amount: real, key: RecordKey)
    ensures Add(r, amount, key).count == r.count + 1 + (if key == CountKey then 1 else 0)
    ensures Add(r, amount, key).totalAmount == r.totalAmount + amount + (if key == TotalKey then 1.0 else 0.0)
  {
  }

  /** The count of a policy type's record (the empty record if it has none)
      is the number of that type's claims, plus one for each of them whose
      status is "count", which line 192 counts a second time. */
  lemma {:induction false} TallyCount(claims: seq<Claim>, policyholders: map<string, Policyholder>, t: string)
    requires Resolves(claims, policyholders)
    requires TallyByType(claims, policyholders).Ok?
    ensures var ofType := ClaimsOfType(claims, policyholders, t);
      RecordOf(TallyByType(claims, policyholders).value, t).count == |ofType| + |ClaimsWithKey(ofType, CountKey)|
  {
    if claims != [] {
      var init, last := claims[..|claims| - 1], claims[|claims| - 1];
      TallyLast(claims, policyholders);
      ClaimsOfTypeLast(claims, policyholders, t);
      TallyCount(init, policyholders, t);
      var m, k := TallyByType(init, policyholders).value, KeyOf(last.status).value;
      var m' := TallyByType(claims, policyholders).value;
      if PolicyTypeOf(last, policyholders) == t {
        KeyAppend(ClaimsOfType(init, policyholders, t), last, CountKey);
        FiguresAdd(RecordOf(m, t), last.claimAmount, k);
        assert RecordOf(m', t) == Add(RecordOf(m, t), last.claimAmount, k);
      } else {
        assert RecordOf(m', t) == RecordOf(m, t);
      }
    }
  }

  /** The total of a policy type's record is the sum of that type's claim
      amounts, plus one for each of them whose status is "total_amount". */
  lemma {:induction false} TallyTotal(claims: seq<Claim>, policyholders: map<string, Policyholder>, t: string)
    requires Resolves(claims, policyholders)
    requires TallyByType(claims, policyholders).Ok?
    ensures var ofType := ClaimsOfType(claims, policyholders, t);
      RecordOf(TallyByType(claims, policyholders).value, t).totalAmount
        == SumAmounts(ofType) + |ClaimsWithKey(ofType, TotalKey)| as real
  {
    if claims != [] {
      var init, last := claims[..|claims| - 1], claims[|claims| - 1];
      TallyLast(claims, policyholders);
      ClaimsOfTypeLast(claims, policyholders, t);
      TallyTotal(init, policyholders, t);
      var m, k := TallyByType(init, policyholders).value, KeyOf(last.status).value;
      var m' := TallyByType(claims, policyholders).value;
      if PolicyTypeOf(last, policyholders) == t {
        var before := ClaimsOfType(init, policyholders, t);
        assert (before + [last])[..|before|] == before;
        KeyAppend(before, last, TotalKey);
        FiguresAdd(RecordOf(m, t), last.claimAmount, k);
        assert RecordOf(m', t) == Add(RecordOf(m, t), last.claimAmount, k);
      } else {
        assert RecordOf(m', t) == RecordOf(m, t);
      }
    }
  }

  /** Adding a claim whose status selects `key` raises the count of bucket
      `bucket` by one when `key` is that bucket's, and leaves it otherwise. */
  lemma BucketCountAdd(r: TypeTally, amount: real, key: RecordKey, bucket: StatusBucket)
    ensures BucketCount(Add(r, amount, key), bucket) == BucketCount(r, bucket) + (if key == StatusKey(bucket) then 1 else 0)
  {
  }

  /** The record of a policy type counts that type's claims of each status. */
  lemma {:induction false} TallyBucket(claims: seq<Claim>, policyholders: map<string, Policyholder>, t: string, bucket: StatusBucket)
    requires Resolves(claims, policyholders)
    requires TallyByType(claims, policyholders).Ok?
    ensures BucketCount(RecordOf(TallyByType(claims, policyholders).value, t), bucket)
         == |ClaimsWithKey(ClaimsOfType(claims, policyholders, t), StatusKey(bucket))|
  {
    if claims != [] {
      var init, last := claims[..|claims| - 1], claims[|claims| - 1];
      TallyLast(claims, policyholders);
      ClaimsOfTypeLast(claims, policyholders, t);
      TallyBucket(init, policyholders, t, bucket);
      var before := ClaimsOfType(init, policyholders, t);
      var m, t0, k := TallyByType(init, policyholders).value, PolicyTypeOf(last, policyholders), KeyOf(last.status).value;
      var m' := TallyByType(claims, policyholders).value;
      if t == t0 {
        KeyAppend(before, last, StatusKey(bucket));
        BucketCountAdd(RecordOf(m, t), last.claimAmount, k, bucket);
        assert RecordOf(m', t) == Add(RecordOf(m, t), last.claimAmount, k);
      } else {
        assert RecordOf(m', t) == RecordOf(m, t);
      }
    }
  }

  /** In every record the three status counts make up the count, except
      that a claim with status "count" adds two to the count and none to a
      status, and one with status "total_amount" adds one and none. */
  lemma TallyBucketsSum(claims: seq<Claim>, policyholders: map<string, Policyholder>)
    requires Resolves(claims, policyholders)
    requires TallyByType(claims, policyholders).Ok?
    ensures forall t | t in TallyByType(claims, policyholders).value ::
      var r, ofType := TallyByType(claims, policyholders).value[t], ClaimsOfType(claims, policyholders, t);
      r.pending + r.approved + r.rejected + 2 * |ClaimsWithKey(ofType, CountKey)| + |ClaimsWithKey(ofType, TotalKey)|
        == r.count
  {
    forall t | t in TallyByType(claims, policyholders).value {
      RecordBucketsSum(claims, policyholders, t);
    }
  }

  /** The same for the record of one policy type. */
  lemma RecordBucketsSum(claims: seq<Claim>, policyholders: map<string, Policyholder>, t: string)
    requires Resolves(claims, policyholders)
    requires TallyByType(claims, policyholders).Ok?
    ensures var r, ofType := RecordOf(TallyByType(claims, policyholders).value, t), ClaimsOfType(claims, policyholders, t);
      r.pending + r.approved + r.rejected + 2 * |ClaimsWithKey(ofType, CountKey)| + |ClaimsWithKey(ofType, TotalKey)|
        == r.count
  {
    var ofType := ClaimsOfType(claims, policyholders, t);
    TallyFailsIff(claims, policyholders);
    ClaimsOfTypeMembers(claims, policyholders, t);
    assert forall c | c in ofType :: KeyOf(c.status).Some?;
    KeysPartition(ofType);
    TallyCount(claims, policyholders, t);
    TallyBucket(claims, policyholders, t, Pending);
    TallyBucket(claims, policyholders, t, Approved);
    TallyBucket(claims, policyholders, t, Rejected);
  }

  /** Every record at once: what get_claims_by_policy_type returns. */
  lemma TallyContents(claims: seq<Claim>, policyholders: map<string, Policyholder>)
    requires Resolves(claims, policyholders)
    requires TallyByType(claims, policyholders).Ok?
    ensures var m := TallyByType(claims, policyholders).value;
      && m.Keys == PolicyTypes(claims, policyholders)
      && forall t | t in m ::
           var ofType := ClaimsOfType(claims, policyholders, t);
           && m[t].count == |ofType| + |ClaimsWithKey(ofType, CountKey)|
           && m[t].totalAmount == SumAmounts(ofType) + |ClaimsWithKey(ofType, TotalKey)| as real
           && m[t].pending == |ClaimsWithKey(ofType, StatusKey(Pending))|
           && m[t].approved == |ClaimsWithKey(ofType, StatusKey(Approved))|
           && m[t].rejected == |ClaimsWithKey(ofType, StatusKey(Rejected))|
  {
    TallyKeys(claims, policyholders);
    var m := TallyByType(claims, policyholders).value;
    forall t | t in m
      ensures var ofType := ClaimsOfType(claims, policyholders, t);
        && m[t].count == |ofType| + |ClaimsWithKey(ofType, CountKey)|
        && m[t].totalAmount == SumAmounts(ofType) + |ClaimsWithKey(ofType, TotalKey)| as real
        && m[t].pending == |ClaimsWithKey(ofType, StatusKey(Pending))|
        && m[t].approved == |ClaimsWithKey(ofType, StatusKey(Approved))|
        && m[t].rejected == |ClaimsWithKey(ofType, StatusKey(Rejected))|
    {
      TallyCount(claims, policyholders, t);
      TallyTotal(claims, policyholders, t);
      TallyBucket(claims, policyholders, t, Pending);
      TallyBucket(claims, policyholders, t, Approved);
      TallyBucket(claims, policyholders, t, Rejected);
    }
  }

  /** When every status is "pending", "approved" or "rejected" in some case,
      the aggregation succeeds, each record counts and sums exactly its
      type's claims, and its three status counts make up its count. */
  lemma TallyOfStatuses(claims: seq<Claim>, policyholders: map<string, Policyholder>)
    requires Resolves(claims, policyholders)
    requires forall c | c in claims :: BucketOf(c.status).Some?
    ensures TallyByType(claims, policyholders).Ok?
    ensures var m := TallyByType(claims, policyholders).value;
      forall t | t in m ::
        && m[t].count == |ClaimsOfType(claims, policyholders, t)|
        && m[t].totalAmount == SumAmounts(ClaimsOfType(claims, policyholders, t))
        && m[t].pending + m[t].approved + m[t].rejected == m[t].count
  {
    TallyFailsIff(claims, policyholders);
    forall t | t in TallyByType(claims, policyholders).value {
      RecordOfStatuses(claims, policyholders, t);
    }
  }

  /** The record of one policy type, when every status names a bucket. */
  lemma RecordOfStatuses(claims: seq<Claim>, policyholders: map<string, Policyholder>, t: string)
    requires Resolves(claims, policyholders)
    requires forall c | c in claims :: BucketOf(c.status).Some?
    requires TallyByType(claims, policyholders).Ok?
    ensures var r := RecordOf(TallyByType(claims, policyholders).value, t);
      && r.count == |ClaimsOfType(claims, policyholders, t)|
      && r.totalAmount == SumAmounts(ClaimsOfType(claims, policyholders, t))
      && r.pending + r.approved + r.rejected == r.count
  {
    var ofType := ClaimsOfType(claims, policyholders, t);
    ClaimsOfTypeMembers(claims, policyholders, t);
    assert forall c | c in ofType :: BucketOf(c.status).Some?;
    BucketedKey(ofType, CountKey);
    BucketedKey(ofType, TotalKey);
    RecordBucketsSum(claims, policyholders, t);
    TallyCount(claims, policyholders, t);
    TallyTotal(claims, policyholders, t);
  }

  /** A claim with status "Count" is counted twice, and the call succeeds. */
  lemma CountStatusCountedTwice(h: Policyholder)
    requires h.id == "p"
    ensures var c := Claim("c", "p", 100.0, "r", "Count", Date(2023, 6, 1));
      TallyByType([c], map["p" := h]) == Ok(map[h.policyType := TypeTally(2, 100.0, 0, 0, 0)])
  {
    var c := Claim("c", "p", 100.0, "r", "Count", Date(2023, 6, 1));
    assert Lower("Count") == "count";
    assert [c][..0] == [];
  }

  /** The per-type counts add up to the number of claims, plus one for each
      claim whose status is "count". */
  lemma {:induction false} TallyCountsSum(claims: seq<Claim>, policyholders: map<string, Policyholder>)
    requires Resolves(claims, policyholders)
    requires TallyByType(claims, policyholders).Ok?
    ensures SumOver(CountsOf(TallyByType(claims, policyholders).value)) == |claims| + |ClaimsWithKey(claims, CountKey)|
  {
    if claims == [] {
      assert CountsOf(map[]) == map[];
    } else {
      var init, last := claims[..|claims| - 1], claims[|claims| - 1];
      assert claims == init + [last];
      TallyLast(claims, policyholders);
      TallyCountsSum(init, policyholders);
      KeyAppend(init, last, CountKey);
      var m := TallyByType(init, policyholders).value;
      var t0, k := PolicyTypeOf(last, policyholders), KeyOf(last.status).value;
      CountsAfterAdd(m, t0, last.claimAmount, k);
      SumOverBump(CountsOf(m), t0);
      if k == CountKey {
        SumOverBump(Bump(CountsOf(m), t0), t0);
      }
    }
  }

  /** One pass of the loop of get_claims_by_policy_type: the claim's record
      is created if missing, its count and total grow, then the entry its
      lower-cased status names grows by one. */
  method RecordClaim(policyClaims: map<string, TypeTally>, claim: Claim, policyholders: map<string, Policyholder>)
    returns (r: Result<map<string, TypeTally>>)
    requires claim.policyholderId in policyholders
    ensures r == Step(Ok(policyClaims), claim, policyholders)
  {
    var policyType := policyholders[claim.policyholderId].policyType;
    var updated := policyClaims;
    if policyType !in updated {
      updated := updated[policyType := EmptyTally];
    }
    var entry := updated[policyType];
    entry := entry.(count := entry.count + 1);
    entry := entry.(totalAmount := entry.totalAmount + claim.claimAmount);
    var key := Lower(claim.status);
    if key == "count" {
      entry := entry.(count := entry.count + 1);
    } else if key == "total_amount" {
      entry := entry.(totalAmount := entry.totalAmount + 1.0);
    } else if key == "pending" {
      entry := entry.(pending := entry.pending + 1);
    } else if key == "approved" {
      entry := entry.(approved := entry.approved + 1);
    } else if key == "rejected" {
      entry := entry.(rejected := entry.rejected + 1);
    } else {
      return Err(UnknownStatusKey(key));
    }
    updated := updated[policyType := entry];
    assert updated == policyClaims[policyType := entry];
    r := Ok(updated);
  }

  /** get_claims_by_policy_type, over the claims in dictionary order. */
  method GetClaimsByPolicyType(claims: seq<Claim>, policyholders: map<string, Policyholder>)
    returns (r: Result<map<string, TypeTally>>)
    requires Resolves(claims, policyholders)
    ensures r == TallyByType(claims, policyholders)
  {
    var policyClaims: map<string, TypeTally> := map[];
    var i := 0;
    while i < |claims|
      invariant 0 <= i <= |claims|
      invariant TallyByType(claims[..i], policyholders) == Ok(policyClaims)
    {
      TallyPrefixStep(claims, policyholders, i);
      var next := RecordClaim(policyClaims, claims[i], policyholders);
      if next.Err? {
        FailureIsFinal(claims, policyholders, i + 1);
        return next;
      }
      policyClaims := next.value;
      i := i + 1;
    }
    assert claims[..i] == claims;
    r := Ok(policyClaims);
  }
}
