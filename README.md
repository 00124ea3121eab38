# Insurance claims store: a verified model

This project models the in-memory core of a small insurance claims
application (`Assignment-1.py`). The store keeps policyholders and claims in
two dictionaries keyed by generated ids. Three analytics components read it.

- **Records** (`records.dfy`) holds:
  - the `Policyholder` and `Claim` records;
  - the errors the store raises;
  - the calendar dates claims are filed on. A date's day number equals Python's `date.toordinal()`, and it is proved to follow calendar order;
  - ASCII lower-casing of status text.
- **Tallies** (`tallies.dfy`) holds the counting idiom `d[k] = d.get(k, 0) + 1` and the sum of the counts in such a dictionary.
- **Store** (`store.dfy`) holds the class `InsuranceDataManager`:
  - it has the two dictionaries, plus the insertion order of each, because Python dictionaries iterate in insertion order;
  - its class invariant `Valid` says that every record sits under its own id, every policyholder has a non-empty name, a positive age and a positive sum insured, and every claim names a stored policyholder, has a positive amount and a calendar date;
  - its three mutators are `add_policyholder`, `add_claim` and `update_claim_status`;
  - its queries are claims by policyholder, claim frequency in a trailing window, and the high-risk scan with its two threshold rules.
- **RiskAnalyzer** (`risk_analyzer.dfy`) models `get_claims_by_policy_type`: a per-type record of count, total amount and one count per status bucket. The status of each claim, lower-cased, names the entry of the record that line 192 raises; any of the record's five keys is accepted there, so the statuses "count" and "total_amount" raise the count or the total a second time.
- **ReportsGenerator** (`reports_generator.dfy`) models:
  - claims per month;
  - the average claim per policy type;
  - the highest claim;
  - the pending claims, each with its policyholder.

`RiskAnalyzer` and `ReportsGenerator` only keep a reference to the manager. Their operations therefore take the manager's claims in dictionary order (`InsuranceDataManager.Claims()`) and its policyholder dictionary as arguments.

The loops of the source are methods with loop invariants. Each method is proved equal to a specification function. The properties the source promises are then proved about those functions as lemmas.

A few values come from outside the program:
- The ids produced by `uuid.uuid4()` are a `freshId` parameter that the caller guarantees is unused.
- The date of `datetime.now()` is a `today` parameter.
- The one place where the time of day matters (the frequency window) is modelled with an explicit `Instant` (see Findings).

Two behaviours of the code are modelled as written:
- `update_claim_status` accepts any status text. `get_claims_by_policy_type` then indexes the per-type record with the lower-cased status. A status that is none of the record's five keys (`count`, `total_amount`, `pending`, `approved`, `rejected`) raises `KeyError`; this is the result `Err(UnknownStatusKey(key))` of the first such claim. A status "count" adds a second 1 to the count; a status "total_amount" adds 1 to the total.
- The frequency window is taken in whole calendar days. The code's time-of-day comparison is stated separately in `Store.InWindowAsWritten`; see Findings.

## Model

| member | source | states |
|---|---|---|
| Records.OrdinalOrder | Assignment-1.py:135-137 | On calendar dates, one day number is below another exactly when its date comes first in the calendar, and day numbers are equal exactly when the dates are, so comparing parsed dates is comparing days |
| Store.ValuesInOrder | Assignment-1.py:128 | Iterating a dictionary in its insertion order visits exactly its values |
| Store.AppendInOrder | Assignment-1.py:88-95 | Storing a value under a new key puts it last in iteration order, after all earlier values in their order |
| Store.InsuranceDataManager.constructor | Assignment-1.py:46-50 | With no snapshot loaded the store is empty and satisfies the class invariant |
| Store.InsuranceDataManager.Policyholders | Assignment-1.py:144 | Each policyholder iterated is stored under its own id and has a positive sum insured |
| Store.InsuranceDataManager.Claims | Assignment-1.py:177-179 | Each claim iterated is stored under its own id, has a positive amount, and names a stored policyholder, so the lookups of the analytics cannot fail |
| Store.InsuranceDataManager.AddPolicyholder | Assignment-1.py:82-96 | Fails with the invalid-input error and changes nothing when the name is empty or age or sum insured is not positive; otherwise stores exactly one new record under the fresh id, carrying the given fields, appended last in iteration order, leaving every other policyholder and all claims unchanged, and keeps the invariant |
| Store.InsuranceDataManager.AddClaim | Assignment-1.py:98-116 | Fails with "policyholder not found" first, then with "amount must be positive", changing nothing; otherwise stores exactly one new claim under the fresh id with the given status ("Pending" by default) and today's date, appended last in iteration order, leaving policyholders and other claims unchanged, and keeps the invariant that every claim names a stored policyholder |
| Store.InsuranceDataManager.UpdateClaimStatus | Assignment-1.py:118-124 | Fails with "claim not found" and changes nothing for an unknown id; otherwise only the status of that one claim changes, keys, order, other fields, other claims and policyholders stay, and the invariant holds |
| Store.ClaimsByPolicyholder | Assignment-1.py:126-128 | The filtered list is never longer than the claims |
| Store.ClaimsByPolicyholderMembers | Assignment-1.py:126-128 | A claim is returned exactly when it is one of the claims and names the policyholder |
| Store.InsuranceDataManager.GetClaimsByPolicyholder | Assignment-1.py:126-128 | Returns exactly the stored claims whose policyholder id is the argument |
| Store.InWindow | Assignment-1.py:132-137 | The whole-day window used throughout: a claim counts when its date is on or after the calendar day `days` days before today |
| Store.RecentClaims | Assignment-1.py:135-138 | The claims the comprehension keeps, in their order, with the whole-day window; never more than the claims |
| Store.RecentClaimsMembers | Assignment-1.py:135-138 | A claim is kept exactly when it is one of the claims and is dated on or after the cutoff day |
| Store.ClaimFrequency | Assignment-1.py:130-139 | The frequency is at most the number of the policyholder's claims |
| Store.InsuranceDataManager.CalculateClaimFrequency | Assignment-1.py:130-139 | The frequency is at most the length of the policyholder's claim list and is the number of those claims inside the window, a year by default |
| Store.FiltersCommute | Assignment-1.py:133-138 | Windowing the policyholder's claims gives the same list as taking the policyholder's claims among the windowed ones |
| Store.FrequencyMonotonic | Assignment-1.py:130-139 | A longer window never counts fewer claims |
| Store.FrequencyOfRecentClaims | Assignment-1.py:130-139 | When all of a policyholder's claims lie in the window, the frequency is the number of their claims |
| Store.InWindowAsWritten | Assignment-1.py:132-137 | The comparison as written: the claim's date at midnight against `now` minus `days` days, which keeps now's time of day (the as-written half of the Findings row) |
| Store.AsWrittenWindow | Assignment-1.py:132-137 | As written, a claim counts exactly when it is dated after the cutoff day, or on it when the call happens at midnight; at midnight it agrees with the whole-day window |
| Store.BoundaryDayDropped | Assignment-1.py:132-137 | A claim of 2022-06-01 checked at noon on 2023-06-01 with a 365-day window is inside the whole-day window but excluded as written |
| Store.CutoffDayCounted | Assignment-1.py:132-137 | With whole days, a claim dated exactly `days` days before today is counted |
| Store.ClaimsOfTypeMembers | Assignment-1.py:178-180 | A claim is of a policy type exactly when its policyholder holds that type |
| Store.Flagged | Assignment-1.py:151-155 | A policyholder is flagged when the 365-day claim frequency exceeds 3 or the claimed total divided by the sum insured exceeds 0.8 |
| Store.RiskFactors | Assignment-1.py:151-155 | At most two factors; there is one exactly when frequency exceeds 3 or ratio exceeds 0.8; each factor is present exactly when its rule holds; the frequency factor comes first and the ratio factor last |
| Store.Assess | Assignment-1.py:145-155 | The entry carries the policyholder, the 365-day frequency, the total of all their claims, the total divided by the sum insured, and the factors of those figures; it has a factor exactly when one of the two rules flags the policyholder |
| Store.HighRiskOf | Assignment-1.py:141-166 | The assessments of the flagged policyholders, in the order of the policyholders |
| Store.HighRiskMembership | Assignment-1.py:141-166 | A policyholder's assessment is listed exactly when frequency > 3 or ratio > 0.8; every listed entry is the assessment of a listed policyholder with one or two factors; the list is no longer than the policyholders |
| Store.AssessPolicyholder | Assignment-1.py:145-155 | One pass of the loop computes exactly the policyholder's assessment |
| Store.ScanHighRisk | Assignment-1.py:143-166 | The loop appends, in dictionary order, exactly the flagged assessments |
| Store.InsuranceDataManager.GetHighRiskPolicyholders | Assignment-1.py:141-166 | The scan over the stored policyholders in order; the ratio's division is safe because the invariant keeps every sum insured positive |
| RiskAnalyzer.Step | Assignment-1.py:178-192 | One pass of the loop: the claim's record (created empty if missing) gets one more count and its amount, then the entry its lower-cased status names gets one more; a status that names no entry is the KeyError of that lowered status |
| RiskAnalyzer.TallyByType | Assignment-1.py:173-194 | The aggregation over the claims in dictionary order, ended by the first KeyError |
| RiskAnalyzer.FailureIsFinal | Assignment-1.py:192 | Once a claim's status raises the KeyError, the aggregation ends with that error |
| RiskAnalyzer.TallyFailsIff | Assignment-1.py:192 | The aggregation fails exactly when some claim's status lower-cases to none of the five record keys |
| RiskAnalyzer.TallyFirstFailure | Assignment-1.py:177-192 | A failed aggregation reports the lowered status of the first claim in dictionary order whose status names no record key; every claim before it names one |
| RiskAnalyzer.TallyKeys | Assignment-1.py:177-188 | A successful aggregation has one record per policy type that some claim resolves to, and no other |
| RiskAnalyzer.ClaimsWithKeyMembers | Assignment-1.py:192 | A claim selects a record key exactly when its lower-cased status names that key |
| RiskAnalyzer.KeysPartition | Assignment-1.py:192 | When every status names a record key, the five keys split the claims |
| RiskAnalyzer.BucketedKey | Assignment-1.py:192 | When every status is one of the three statuses, no claim selects the count or the total |
| RiskAnalyzer.TallyCount | Assignment-1.py:190-192 | The count of a type's record is the number of that type's claims plus the number of them whose status is "count" |
| RiskAnalyzer.TallyTotal | Assignment-1.py:191-192 | The total amount of a type's record is the sum of that type's claim amounts plus one per claim of that type whose status is "total_amount" |
| RiskAnalyzer.TallyBucket | Assignment-1.py:192 | Each status count of a type's record is the number of that type's claims with that status |
| RiskAnalyzer.TallyBucketsSum | Assignment-1.py:190-192 | In every record, pending + approved + rejected, plus two per "count" claim and one per "total_amount" claim of the type, equals count |
| RiskAnalyzer.RecordBucketsSum | Assignment-1.py:190-192 | The same for the record of one policy type (the empty record when it has none) |
| RiskAnalyzer.TallyContents | Assignment-1.py:173-194 | The keys and every field of every record of a successful aggregation, as above |
| RiskAnalyzer.TallyOfStatuses | Assignment-1.py:173-194 | When every status is pending, approved or rejected in any case, the aggregation succeeds, each record's count and total are the number and summed amount of its type's claims, and pending + approved + rejected equals count |
| RiskAnalyzer.RecordOfStatuses | Assignment-1.py:190-192 | The same for the record of one policy type |
| RiskAnalyzer.CountStatusCountedTwice | Assignment-1.py:190-192 | A single claim of 100.0 with status "Count" gives its type a record with count 2, total 100.0 and no status counts, and the aggregation succeeds |
| RiskAnalyzer.TallyCountsSum | Assignment-1.py:177-192 | The per-type counts add up to the number of claims plus the number of claims whose status is "count" |
| RiskAnalyzer.RecordClaim | Assignment-1.py:178-192 | One pass of the loop: creates the type's record if missing, raises count and total, then the entry the lowered status names, or fails with the lowered status |
| RiskAnalyzer.GetClaimsByPolicyType | Assignment-1.py:173-194 | The loop computes the aggregation over the claims in dictionary order, error included |
| ReportsGenerator.MonthlyCounts | Assignment-1.py:201-209 | The number of claims per year-month, counted over the claims in order |
| ReportsGenerator.MonthlyKeys | Assignment-1.py:201-209 | The months reported are exactly the year-months some claim is dated in |
| ReportsGenerator.MonthlyCount | Assignment-1.py:201-209 | The count of a month (zero when absent) is the number of claims dated in that month |
| ReportsGenerator.MonthlyTotal | Assignment-1.py:201-209 | The monthly counts add up to the number of claims |
| ReportsGenerator.GetMonthlyClaims | Assignment-1.py:201-209 | The loop computes the per-month counts |
| ReportsGenerator.TypeTotals | Assignment-1.py:216-220 | `policy_totals`: the summed claim amount per policy type |
| ReportsGenerator.TypeCounts | Assignment-1.py:216-221 | `policy_counts`: the number of claims per policy type |
| ReportsGenerator.TypeKeys | Assignment-1.py:216-221 | The totals and counts dictionaries are keyed by exactly the policy types some claim resolves to |
| ReportsGenerator.TypeTotalsAndCounts | Assignment-1.py:216-221 | The count and the total for a type (zero when absent) are the number and summed amount of that type's claims |
| ReportsGenerator.Averages | Assignment-1.py:223-226 | The reference definition of the report: for each policy type with claims, the summed amount of its claims divided by their number |
| ReportsGenerator.AveragesKeys | Assignment-1.py:223-226 | The averages are keyed by exactly the policy types with at least one claim |
| ReportsGenerator.AveragesOfTallies | Assignment-1.py:223-226 | Every total has a positive count, and dividing each total by its count gives the mean claim amount of that type |
| ReportsGenerator.GetAverageClaimByPolicyType | Assignment-1.py:211-226 | The loop and the final comprehension compute the mean claim amount of every policy type with claims |
| ReportsGenerator.SmallestBelowMean | Assignment-1.py:223-226 | A non-empty list of claims has a claim at or below its mean |
| ReportsGenerator.LargestAboveMean | Assignment-1.py:223-226 | A non-empty list of claims has a claim at or above its mean |
| ReportsGenerator.AverageBetweenClaims | Assignment-1.py:223-226 | Each average lies between the smallest and the largest claim amount of its type |
| ReportsGenerator.HighestClaim | Assignment-1.py:228-233 | None exactly when there are no claims; otherwise one of the claims, with an amount at least every claim's amount |
| ReportsGenerator.HighestPosition | Assignment-1.py:233 | The claim returned sits at a position before which every claim is strictly smaller |
| ReportsGenerator.HighestIsFirst | Assignment-1.py:233 | Among equal highest amounts, the first one in iteration order is returned |
| ReportsGenerator.PendingOf | Assignment-1.py:235-247 | The pending list is never longer than the claims |
| ReportsGenerator.PendingMembers | Assignment-1.py:235-247 | An entry is listed exactly when its claim is one of the claims, its status lower-cases to "pending", and it pairs the claim with the policyholder the claim names |
| ReportsGenerator.GetPendingClaims | Assignment-1.py:235-247 | The loop appends, in order, exactly the pending claims with their policyholders |

## Left out

- Persistence (`save_data`, `load_data`, lines 52-80) is file and JSON I/O. The `to_dict`/`from_dict` round trip (21-26, 37-42) is left out for the same reason. The constructor models a store with no snapshot. A loaded snapshot is not checked by the source, so the invariant `Valid` is only established for stores built through the mutators.
- The Streamlit pages and session state (lines 249 onwards) are presentation only.
- `uuid.uuid4()` is not modelled. The mutators take `freshId` with `requires freshId !in ...`, the uniqueness a random UUID gives in practice.
- `datetime.now()` is not modelled. `AddClaim` takes `today` and requires it to be a calendar date in years 1-9999, as `datetime` guarantees. The dates are kept as three fields rather than as "YYYY-MM-DD" text, so `strptime`/`strftime` and their format errors are not modelled.
- Store.ClaimFrequency: models the whole-day window, not the comparison as written, which carries the time of day (see Findings). Store.AsWrittenWindow states the comparison as written.
- Store.RiskFactors: the factors are tags carrying the figure shown (`HighFrequency(count)`, `HighRatio(ratio)`). The message text and its `:.2%` formatting are left out.
- Amounts, totals, ratios and averages are exact reals. IEEE rounding of Python floats is not modelled.
- `str.lower()` is modelled on ASCII letters only. Unicode case mapping is not modelled.
- Python `Claim` objects are shared references: the list of `get_claims_by_policyholder` aliases the stored objects. The model works on values, so a later status update is not seen through an earlier list.
- `RiskAnalyzer` and `ReportsGenerator` are modules over the manager's claims and policyholders rather than classes holding a reference to the manager.
- The `OverflowError` of `datetime.now() - timedelta(days=days)` is not modelled. It is raised once the cutoff would fall before 0001-01-01, which today means `days` above about 739,000; the model computes the window for any `days`.

## Findings

| source | as written | input that shows it | evidently intended | confidence | as-written member | corrected member |
|---|---|---|---|---|---|---|
| Assignment-1.py:132-137 | The cutoff `datetime.now() - timedelta(days=days)` keeps the current time of day, while each claim date is parsed at midnight. A claim dated exactly `days` days ago is therefore counted only when the call happens at midnight. | A claim dated 2022-06-01, frequency taken at 12:00 on 2023-06-01 with `days = 365`: the claim is on the cutoff day but is not counted | Whole calendar days: every claim dated on or after the day `days` days before today counts | not executed | Store.BoundaryDayDropped | Store.CutoffDayCounted |
