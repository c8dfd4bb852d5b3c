/** The provider spend of a period's customer rollups: what becomes of each reported
    total when it is split by the customers' estimates. */
module SpendTotals {
  import opened Options
  import opened Windows
  import opened Periods
  import opened UsageRecords
  import opened Sums
  import opened Estimates
  import opened Summaries
  import opened UsageTotals
  import ReconciledTotals

  ghost function CustomerProviders(
    entries: seq<Record>, customer: Id): set<Id> { ProvidersOf(OfCustomer(entries, customer)) }

  /** The spend of a reconciled customer rollup. */
  ghost function SpendByCustomer(totals: seq<CostTotal>, entries: seq<Record>, q: Query, period: Window): Id -> real {
    c => Spend(MatchingTotals(totals, CustomerProviders(entries, c), period), entries, q, period, c)
  }

  /** The part of one total that a customer's rollup takes up. */
  ghost function PartByCustomer(total: CostTotal, entries: seq<Record>, q: Query, period: Window): Id -> real {
    c => if total.provider in CustomerProviders(entries, c) && total.period == period
      then SpendOf(total, entries, q, period, c) else 0.0
  }

  /** Where a total finds a customer to land on: its provider has estimates to split it
      by, or is one of the providers of the Unallocated group. */
  ghost predicate Lands(total: CostTotal, entries: seq<Record>, period: Window) {
    && total.period == period && total.provider in ProvidersOf(entries)
    && (Estimate(WithValue(entries, ByProvider, total.provider), period, None) != 0.0
         || total.provider in CustomerProviders(entries, UNALLOCATED))
  }

  ghost function LandedTotal(totals: seq<CostTotal>, entries: seq<Record>, period: Window): real {
    if totals == [] then 0.0
    else
      var last := |totals| - 1;
      LandedTotal(totals[..last], entries, period)
        + (if Lands(totals[last], entries, period) then totals[last].amountUsd else 0.0)
  }

  // ----- Records of a customer -----

  lemma {:induction false} OfCustomerIff(entries: seq<Record>, customer: Id, r: Record)
    ensures r in OfCustomer(entries, customer) <==> r in entries && (r.kind == Capacity || r.customerId == customer)
  {
    if entries != [] {
      var last := |entries| - 1;
      OfCustomerIff(entries[..last], customer, r);
      assert entries == entries[..last] + [entries[last]];
    }
  }

  lemma ProviderMissing(entries: seq<Record>, customer: Id, provider: Id)
    requires provider !in CustomerProviders(entries, customer) && provider != UNRESOLVED
    ensures forall r :: r in WithValue(entries, ByProvider, provider) ==> r.kind == Attempt && r.customerId != customer
  {
    hide OfCustomer;
    forall r | r in WithValue(entries, ByProvider, provider) ensures r.kind == Attempt && r.customerId != customer {
      OfCustomerIff(entries, customer, r);
    }
  }

  lemma ProvidersAmong(entries: seq<Record>, customer: Id)
    ensures CustomerProviders(entries, customer) <= ProvidersOf(entries)
  {
    hide OfCustomer;
    forall p | p in CustomerProviders(entries, customer) ensures p in ProvidersOf(entries) {
      var r :| r in OfCustomer(entries, customer) && r.provider != UNRESOLVED && r.provider == p;
      OfCustomerIff(entries, customer, r);
    }
  }

  lemma UnallocatedListed(entries: seq<Record>, provider: Id)
    requires provider in CustomerProviders(entries, UNALLOCATED)
    ensures UNALLOCATED in ValueSet(GroupValues(entries, Some(ByCustomer)))
  {
    hide OfCustomer;
    var r :| r in OfCustomer(entries, UNALLOCATED) && r.provider != UNRESOLVED && r.provider == provider;
    OfCustomerIff(entries, UNALLOCATED, r);
    if r.kind == Attempt { assert UNALLOCATED in AttemptCustomers(entries); } else { assert HasCapacity(entries); }
  }

  /** A customer without a record among these is charged nothing for them. */
  lemma {:induction false} NoPart(records: seq<Record>, all: seq<Record>, period: Window, customer: Id)
    requires forall r :: r in records ==> r.kind == Attempt && r.customerId != customer
    ensures EstimateOf(records, all, period, Some(customer)) == 0.0
  {
    hide Share, SlotCharge;
    if records != [] {
      var last := |records| - 1;
      assert records[last] in records;
      NoPart(records[..last], all, period, customer);
      NothingCharged(records[last], period);
    }
  }

  // ----- One total -----

  lemma SplitQuotient(amount: real, part: real, whole: real)
    requires whole != 0.0
    ensures Times(amount, part / whole) == Times(amount / whole, part)
    ensures part == 0.0 ==> Times(amount, part / whole) == 0.0
    ensures Times(amount / whole, whole) == amount
  {
  }

  /** A total with estimates behind it is split without remainder. */
  lemma TotalSplits(total: CostTotal, entries: seq<Record>, q: Query, period: Window, customers: set<Id>)
    requires q.groupBy == Some(ByCustomer) && CustomersOf(entries, customers)
    requires total.period == period && total.provider != UNRESOLVED
    requires Estimate(WithValue(entries, ByProvider, total.provider), period, None) != 0.0
    ensures SumOver(customers, PartByCustomer(total, entries, q, period)) == total.amountUsd
  {
    hide SumOver, Times, WithValue, EstimateOf, CustomerProviders;
    var own := WithValue(entries, ByProvider, total.provider);
    var whole := Estimate(own, period, None);
    var part := EstimateByCustomer(own, own, period);
    var spend := PartByCustomer(total, entries, q, period);
    OwnCustomers(entries, total.provider, customers);
    CustomerEstimatesAddUp(own, period, customers);
    forall c | c in customers ensures spend(c) == Times(total.amountUsd / whole, part(c)) {
      SplitQuotient(total.amountUsd, part(c), whole);
      if total.provider !in CustomerProviders(entries, c) {
        ProviderMissing(entries, c, total.provider);
        NoPart(own, own, period, c);
      }
    }
    SumScale(customers, total.amountUsd / whole, part, spend);
    SplitQuotient(total.amountUsd, whole, whole);
  }

  lemma OwnCustomers(entries: seq<Record>, provider: Id, customers: set<Id>)
    requires CustomersOf(entries, customers)
    ensures CustomersOf(WithValue(entries, ByProvider, provider), customers)
  {
  }

  /** A customer's part of a total is to the total as its estimate at the provider is to the
      provider's. */
  lemma PartInProportion(total: CostTotal, entries: seq<Record>, q: Query, period: Window, c: Id)
    requires q.groupBy == Some(ByCustomer) && total.period == period && total.provider in CustomerProviders(entries, c)
    ensures var own := WithValue(entries, ByProvider, total.provider);
            Estimate(own, period, None) != 0.0 ==>
              Times(PartByCustomer(total, entries, q, period)(c), Estimate(own, period, None))
              == Times(total.amountUsd, Estimate(own, period, Some(c)))
  {
    hide WithValue, EstimateOf, CustomerProviders;
    var own := WithValue(entries, ByProvider, total.provider);
    if Estimate(own, period, None) != 0.0 {
      CrossMultiply(total.amountUsd, Estimate(own, period, Some(c)), Estimate(own, period, None));
    }
  }

  lemma CrossMultiply(amount: real, part: real, whole: real)
    requires whole != 0.0
    ensures Times(Times(amount, part / whole), whole) == Times(amount, part)
  {
    assert part / whole * whole == part;
  }

  /** Without estimates the whole total goes to Unallocated, where that group knows the
      provider, and nowhere otherwise. */
  lemma TotalUnsplit(total: CostTotal, entries: seq<Record>, q: Query, period: Window, customers: set<Id>)
    requires q.groupBy == Some(ByCustomer) && total.period == period
    requires Estimate(WithValue(entries, ByProvider, total.provider), period, None) == 0.0
    requires total.provider in CustomerProviders(entries, UNALLOCATED) ==> UNALLOCATED in customers
    ensures SumOver(customers, PartByCustomer(total, entries, q, period))
         == if total.provider in CustomerProviders(entries, UNALLOCATED) then total.amountUsd else 0.0
  {
    hide Estimate, WithValue, CustomerProviders;
    var spend := PartByCustomer(total, entries, q, period);
    if total.provider in CustomerProviders(entries, UNALLOCATED) { SumPoint(customers, UNALLOCATED, spend); }
      else { SumZero(customers, spend); }
  }

  lemma TotalLands(total: CostTotal, entries: seq<Record>, q: Query, period: Window, customers: set<Id>)
    requires q.groupBy == Some(ByCustomer) && AllBuilt(entries)
      && customers == ValueSet(GroupValues(entries, Some(ByCustomer)))
    ensures SumOver(customers, PartByCustomer(total, entries, q, period)) == if Lands(total, entries, period)
      then total.amountUsd else 0.0
  {
    hide Estimate, WithValue, CustomerProviders, SumOver;
    CustomersListed(entries);
    forall c ensures CustomerProviders(entries, c) <= ProvidersOf(entries) { ProvidersAmong(entries, c); }
    if total.period != period || total.provider !in ProvidersOf(entries) {
      SumZero(customers, PartByCustomer(total, entries, q, period));
    } else if Estimate(WithValue(entries, ByProvider, total.provider), period, None) != 0.0 {
      TotalSplits(total, entries, q, period, customers);
    } else {
      if total.provider in CustomerProviders(entries, UNALLOCATED) { UnallocatedListed(entries, total.provider); }
      TotalUnsplit(total, entries, q, period, customers);
    }
  }

  // ----- All totals -----

  lemma {:induction false} SpendsLand(
    totals: seq<CostTotal>, entries: seq<Record>, q: Query, period: Window, customers: set<Id>)
    requires q.groupBy == Some(ByCustomer) && AllBuilt(entries)
      && customers == ValueSet(GroupValues(entries, Some(ByCustomer)))
    ensures SumOver(customers, SpendByCustomer(totals, entries, q, period)) == LandedTotal(totals, entries, period)
  {
    hide SpendOf, CustomerProviders, Lands, GroupValues, SumOver;
    if totals == [] {
      SumZero(customers, SpendByCustomer(totals, entries, q, period));
    } else {
      var rest, total := totals[..|totals| - 1], totals[|totals| - 1];
      SpendsLand(rest, entries, q, period, customers);
      TotalLands(total, entries, q, period, customers);
      forall c ensures SpendByCustomer(totals, entries, q, period)(c)
                    == SpendByCustomer(rest, entries, q, period)(c) + PartByCustomer(total, entries, q, period)(c) {
        SpendStep(totals, entries, q, period, c);
      }
      SumAdd(customers, SpendByCustomer(rest, entries, q, period), PartByCustomer(total, entries, q, period),
             SpendByCustomer(totals, entries, q, period));
    }
  }

  lemma SpendStep(totals: seq<CostTotal>, entries: seq<Record>, q: Query, period: Window, c: Id)
    requires totals != []
    ensures var rest, total := totals[..|totals| - 1], totals[|totals| - 1];
      SpendByCustomer(totals, entries, q, period)(c)
      == SpendByCustomer(rest, entries, q, period)(c) + PartByCustomer(total, entries, q, period)(c)
  {
    hide SpendOf, CustomerProviders;
    var rest, total := totals[..|totals| - 1], totals[|totals| - 1];
    var before := MatchingTotals(rest, CustomerProviders(entries, c), period);
    if total.provider in CustomerProviders(entries, c) && total.period == period {
      assert (before + [total])[..|before|] == before;
    }
  }

  // ----- The rollups -----

  /** The customer has as many totals in the period as it has providers, so its rollup is
      reconciled. */
  ghost predicate HasAllTotals(totals: seq<CostTotal>, entries: seq<Record>, customer: Id, period: Window) {
    var providers := CustomerProviders(entries, customer);
    |providers| > 0 && |MatchingTotals(totals, providers, period)| == |providers|
  }

  ghost function SpentByRollup(totals: seq<CostTotal>, entries: seq<Record>, q: Query, period: Window): Id -> real {
    c => RollupFor(entries, q, totals, period, c).providerSpendUsd
  }

  lemma SpentByOne(totals: seq<CostTotal>, entries: seq<Record>, q: Query, period: Window, c: Id)
    requires q.groupBy == Some(ByCustomer)
    ensures SpentByRollup(totals, entries, q, period)(c)
         == if HasAllTotals(totals, entries, c, period) then SpendByCustomer(totals, entries, q, period)(c) else 0.0
  {
    hide Spend, MatchingTotals, ProvidersOf, OfCustomer, Estimate;
  }

  /** The customers of a period whose rollups are not reconciled. */
  ghost function Unreconciled(totals: seq<CostTotal>, entries: seq<Record>, period: Window): set<Id> {
    set c | c in ValueSet(GroupValues(entries, Some(ByCustomer))) && !HasAllTotals(totals, entries, c, period)
  }

  /** What the customers' rollups spend is the totals that land, less the parts of the
      customers whose rollups are not reconciled. */
  lemma SpendConserved(totals: seq<CostTotal>, entries: seq<Record>, q: Query, period: Window)
    requires q.groupBy == Some(ByCustomer) && AllBuilt(entries)
    ensures SumOver(ValueSet(GroupValues(entries, q.groupBy)), SpentByRollup(totals, entries, q, period))
         == LandedTotal(totals, entries, period)
            - SumOver(Unreconciled(totals, entries, period), SpendByCustomer(totals, entries, q, period))
  {
    hide GroupValues, SumOver, SpentByRollup, SpendByCustomer, HasAllTotals;
    var customers := ValueSet(GroupValues(entries, q.groupBy));
    var missed := Unreconciled(totals, entries, period);
    var spent, spend := SpentByRollup(totals, entries, q, period), SpendByCustomer(totals, entries, q, period);
    forall c ensures spent(c) == if HasAllTotals(totals, entries, c, period) then spend(c) else 0.0 {
      SpentByOne(totals, entries, q, period, c);
    }
    assert customers == (customers - missed) + missed;
    SumDisjoint(customers - missed, missed, spent);
    SumDisjoint(customers - missed, missed, spend);
    SumEqual(customers - missed, spent, spend);
    SumZero(missed, spent);
    SpendsLand(totals, entries, q, period, customers);
  }

  // ----- When nothing is lost -----

  ghost predicate AmountsNonNegative(totals: seq<CostTotal>) { forall t :: t in totals ==> 0.0 <= t.amountUsd }

  lemma PartNonNegative(total: CostTotal, entries: seq<Record>, q: Query, period: Window, c: Id)
    requires q.groupBy == Some(ByCustomer) && 0.0 <= total.amountUsd && PricesNonNegative(entries)
    ensures 0.0 <= PartByCustomer(total, entries, q, period)(c)
  {
    hide WithValue, EstimateOf, CustomerProviders, Times;
    var own := WithValue(entries, ByProvider, total.provider);
    var part, whole := Estimate(own, period, Some(c)), Estimate(own, period, None);
    EstimateNonNegative(own, own, period, Some(c));
    EstimateNonNegative(own, own, period, None);
    if whole > 0.0 {
      QuotientNonNegative(part, whole);
      ProductNonNegative(total.amountUsd, part / whole);
    }
  }

  /** The customer has a part of one of the totals. */
  ghost predicate HasPart(totals: seq<CostTotal>, entries: seq<Record>, q: Query, period: Window, c: Id) {
    exists t :: t in totals && PartByCustomer(t, entries, q, period)(c) != 0.0
  }

  lemma {:induction false} SpendNonNegative(
    totals: seq<CostTotal>, entries: seq<Record>, q: Query, period: Window, c: Id)
    requires q.groupBy == Some(ByCustomer) && AmountsNonNegative(totals) && PricesNonNegative(entries)
    ensures 0.0 <= SpendByCustomer(totals, entries, q, period)(c)
    ensures SpendByCustomer(totals, entries, q, period)(c) != 0.0 <==> HasPart(totals, entries, q, period, c)
  {
    hide PartByCustomer, CustomerProviders, SpendOf;
    if totals != [] {
      var last := |totals| - 1;
      var rest, total := totals[..last], totals[last];
      assert totals == rest + [total] && total in totals;
      hide SpendByCustomer;
      SpendNonNegative(rest, entries, q, period, c);
      SpendStep(totals, entries, q, period, c);
      PartNonNegative(total, entries, q, period, c);
    }
  }

  /** Every total of the period that is not zero lands. */
  ghost predicate AllLand(totals: seq<CostTotal>, entries: seq<Record>, period: Window) {
    forall t :: t in totals && t.period == period && t.amountUsd != 0.0 ==> Lands(t, entries, period)
  }

  lemma {:induction false} LandedAtMostReported(totals: seq<CostTotal>, entries: seq<Record>, period: Window)
    requires AmountsNonNegative(totals)
    ensures LandedTotal(totals, entries, period) <= ReconciledTotals.Reported(totals, period)
    ensures LandedTotal(totals, entries, period) == ReconciledTotals.Reported(totals, period)
       <==> AllLand(totals, entries, period)
  {
    assert forall t :: Lands(t, entries, period) ==> t.period == period;
    hide Lands;
    if totals != [] {
      var last := |totals| - 1;
      var rest, total := totals[..last], totals[last];
      assert totals == rest + [total] && total in totals;
      LandedAtMostReported(rest, entries, period);
    }
  }

  /** Every customer with a part of a total has as many totals as providers. */
  ghost predicate PartsReconciled(totals: seq<CostTotal>, entries: seq<Record>, q: Query, period: Window) {
    forall c :: c in GroupValues(entries, Some(ByCustomer)) && HasPart(totals, entries, q, period, c) ==>
      HasAllTotals(totals, entries, c, period)
  }

  /** The exact condition, with amounts and prices that are not negative: the customers'
      provider spend adds up to the reported totals of the period if and only if every
      total lands and every customer with a part of one has as many totals in the period
      as it has providers. */
  lemma SpendConservedIff(totals: seq<CostTotal>, entries: seq<Record>, q: Query, period: Window)
    requires q.groupBy == Some(ByCustomer) && AllBuilt(entries)
    requires AmountsNonNegative(totals) && PricesNonNegative(entries)
    ensures SumOver(ValueSet(GroupValues(entries, q.groupBy)), SpentByRollup(totals, entries, q, period))
         == ReconciledTotals.Reported(totals, period)
       <==> AllLand(totals, entries, period) && PartsReconciled(totals, entries, q, period)
  {
    hide GroupValues, SumOver, SpentByRollup, SpendByCustomer, HasAllTotals, HasPart, AllLand, LandedTotal;
    hide ReconciledTotals.Reported;
    var missed, spend := Unreconciled(totals, entries, period), SpendByCustomer(totals, entries, q, period);
    SpendConserved(totals, entries, q, period);
    LandedAtMostReported(totals, entries, period);
    forall c ensures 0.0 <= spend(c) && (spend(c) != 0.0 <==> HasPart(totals, entries, q, period, c)) {
      SpendNonNegative(totals, entries, q, period, c);
    }
    SumNonNegative(missed, spend);
  }

  function UnpricedAttempt(): Record { GibAttempt("c", "p", None) }

  /** A total that is lost: the customer's rollup is the only one, is reconciled, and
      spends nothing of the one total for its provider. */
  lemma TotalCanBeLost()
    ensures var entries, period := [UnpricedAttempt()], Window(0, 3_600_000);
            var totals := [CostTotal("p", period, 1.0, "v")];
            var q := PlainQuery(0, 3_600_000, Hour, Some(ByCustomer));
            && GroupValues(entries, q.groupBy) == ["c"]
            && RollupFor(entries, q, totals, period, "c").reconciled
            && RollupFor(entries, q, totals, period, "c").providerSpendUsd == 0.0
            && !Lands(totals[0], entries, period)
  {
    var attempt, period := UnpricedAttempt(), Window(0, 3_600_000);
    var total := CostTotal("p", period, 1.0, "v");
    OneAttempt(attempt, period);
    OneTotal(total, period);
    LostSpend(total, attempt, PlainQuery(0, 3_600_000, Hour, Some(ByCustomer)), period);
    hide GroupValues, OfCustomer, ProvidersOf, WithValue, Estimate, MatchingTotals, Spend, UnpricedAttempt;
    assert UnpricedAttempt() == attempt;
  }

  lemma OneTotal(total: CostTotal, period: Window)
    requires total.provider == "p" && total.period == period
    ensures MatchingTotals([total], {"p"}, period) == [total]
  {
    assert [total][..0] == [];
  }

  lemma LostSpend(total: CostTotal, attempt: Record, q: Query, period: Window)
    requires q.groupBy == Some(ByCustomer) && total.provider == "p"
    requires WithValue([attempt], ByProvider, "p") == [attempt] && Estimate([attempt], period, None) == 0.0
    ensures Spend([total], [attempt], q, period, "c") == 0.0
  {
    hide WithValue, Estimate;
    assert [total][..0] == [];
  }

  lemma OneAttempt(attempt: Record, period: Window)
    requires attempt.kind == Attempt && attempt.customerId == "c" && attempt.provider == "p"
    requires attempt.pricingModel.None?
    ensures GroupValues([attempt], Some(ByCustomer)) == ["c"]
    ensures OfCustomer([attempt], "c") == [attempt] && OfCustomer([attempt], UNALLOCATED) == []
    ensures ProvidersOf([attempt]) == {"p"}
    ensures WithValue([attempt], ByProvider, "p") == [attempt] && Estimate([attempt], period, None) == 0.0
  {
    assert [attempt][..0] == [] && attempt in [attempt];
    OneCustomer(attempt);
    EstimateAppend([], attempt, period);
    assert [] + [attempt] == [attempt];
    NothingCharged(attempt, period);
    hide Estimate, GroupValues;
    NoRecordsNoEstimate(period);
  }

  lemma OneCustomer(attempt: Record)
    requires attempt.kind == Attempt && attempt.customerId == "c"
    ensures GroupValues([attempt], Some(ByCustomer)) == ["c"]
  {
    assert [attempt][..0] == [] && attempt in [attempt];
    assert AttemptCustomers([attempt]) == ["c"];
    assert ["c"][..0] == [] && ["c"] + [] == ["c"];
    assert Distinct([]) == [] && Distinct(["c"]) == ["c"];
  }

  function PricedAttempt(customer: Id, provider: Id): Record { GibAttempt(customer, provider, Some(1.0)) }

  /** Half of a total that lands is lost: customer "b" also used provider "q", which has no
      total, so its rollup is not reconciled and spends nothing of its half. */
  lemma PartCanBeLost()
    ensures var entries := [PricedAttempt("a", "p"), PricedAttempt("b", "p"), PricedAttempt("b", "q")];
            var period := Window(0, 3_600_000);
            var totals := [CostTotal("p", period, 2.0, "v")];
            var q := PlainQuery(0, 3_600_000, Hour, Some(ByCustomer));
            && GroupValues(entries, q.groupBy) == ["a", "b"] && Lands(totals[0], entries, period)
            && SpentByRollup(totals, entries, q, period)("a") == 1.0
            && SpentByRollup(totals, entries, q, period)("b") == 0.0
            && !HasAllTotals(totals, entries, "b", period)
  {
    hide GroupValues, CustomerProviders, WithValue, Estimate, MatchingTotals, Spend, ProvidersOf, SpentByRollup;
    hide Lands, HasAllTotals;
    var x, y, z := PricedAttempt("a", "p"), PricedAttempt("b", "p"), PricedAttempt("b", "q");
    var period := Window(0, 3_600_000);
    var total := CostTotal("p", period, 2.0, "v");
    var q := PlainQuery(0, 3_600_000, Hour, Some(ByCustomer));
    ThreeAttempts(x, y, z);
    assert [x] + [y] + [z] == [x, y, z] && [x] + [y] == [x, y];
    TwoCharges(x, y, period);
    OneTotal(total, period);
    OneMatch(total, period);
    HalfSpent(total, [x, y, z], [x, y], q, period);
    HalfLost(total, [x, y, z], q, period);
  }

  lemma HalfLost(total: CostTotal, entries: seq<Record>, q: Query, period: Window)
    requires q.groupBy == Some(ByCustomer) && total.provider == "p" && total.period == period
    requires CustomerProviders(entries, "a") == {"p"} && CustomerProviders(entries, "b") == {"p", "q"}
    requires MatchingTotals([total], {"p"}, period) == MatchingTotals([total], {"p", "q"}, period) == [total]
    requires Spend([total], entries, q, period, "a") == 1.0
    requires "p" in ProvidersOf(entries) && Estimate(WithValue(entries, ByProvider, "p"), period, None) == 2.0
    ensures Lands(total, entries, period) && !HasAllTotals([total], entries, "b", period)
    ensures SpentByRollup([total], entries, q, period)("a") == 1.0
    ensures SpentByRollup([total], entries, q, period)("b") == 0.0
  {
    hide CustomerProviders, MatchingTotals, Spend, ProvidersOf, Estimate, WithValue, SpentByRollup;
    SpentByOne([total], entries, q, period, "a");
    SpentByOne([total], entries, q, period, "b");
  }

  lemma OfCustomerMore(rest: seq<Record>, r: Record, c: Id)
    requires r.kind == Attempt
    ensures OfCustomer(rest + [r], c) == if r.customerId == c then OfCustomer(rest, c) + [r] else OfCustomer(rest, c)
  {
    assert (rest + [r])[..|rest|] == rest;
  }

  lemma AttemptCustomersMore(rest: seq<Record>, r: Record)
    requires r.kind == Attempt
    ensures AttemptCustomers(rest + [r]) == AttemptCustomers(rest) + [r.customerId]
  {
    assert (rest + [r])[..|rest|] == rest;
  }

  lemma WithValueMore(rest: seq<Record>, r: Record, p: Id)
    ensures WithValue(rest + [r], ByProvider, p)
         == if r.provider == p then WithValue(rest, ByProvider, p) + [r] else WithValue(rest, ByProvider, p)
  {
    assert (rest + [r])[..|rest|] == rest;
  }

  lemma DistinctMore(values: seq<Id>, v: Id)
    ensures Distinct(values + [v]) == if v in Distinct(values) then Distinct(values) else Distinct(values) + [v]
  {
    assert (values + [v])[..|values|] == values;
  }

  lemma ThreeAttempts(x: Record, y: Record, z: Record)
    requires x.kind == y.kind == z.kind == Attempt && x.customerId == "a" && y.customerId == z.customerId == "b"
    requires x.provider == y.provider == "p" && z.provider == "q"
    ensures GroupValues([x] + [y] + [z], Some(ByCustomer)) == ["a", "b"]
    ensures CustomerProviders([x] + [y] + [z], "a") == {"p"} && CustomerProviders([x] + [y] + [z], "b") == {"p", "q"}
    ensures "p" in ProvidersOf([x] + [y] + [z]) && WithValue([x] + [y] + [z], ByProvider, "p") == [x] + [y]
  {
    hide OfCustomer, AttemptCustomers, WithValue, GroupValues;
    ThreeOfCustomer(x, y, z);
    ThreeCustomers(x, y, z);
    TwoOfProvider(x, y, z);
    ThreeGroups([x] + [y] + [z]);
    assert x in [x] + [y] + [z] && x in [x] && y in [y] + [z] && z in [y] + [z];
    assert ProvidersOf([x]) == {"p"} && ProvidersOf([y] + [z]) == {"p", "q"};
  }

  lemma ThreeOfCustomer(x: Record, y: Record, z: Record)
    requires x.kind == y.kind == z.kind == Attempt && x.customerId == "a" && y.customerId == z.customerId == "b"
    ensures OfCustomer([x] + [y] + [z], "a") == [x] && OfCustomer([x] + [y] + [z], "b") == [y] + [z]
  {
    assert OfCustomer([], "a") == [] && OfCustomer([], "b") == [];
    hide OfCustomer;
    OfCustomerMore([], x, "a");
    OfCustomerMore([x], y, "a");
    OfCustomerMore([x] + [y], z, "a");
    OfCustomerMore([], x, "b");
    OfCustomerMore([x], y, "b");
    OfCustomerMore([x] + [y], z, "b");
    assert [] + [x] == [x];
  }

  lemma ThreeCustomers(x: Record, y: Record, z: Record)
    requires x.kind == y.kind == z.kind == Attempt && x.customerId == "a" && y.customerId == z.customerId == "b"
    ensures AttemptCustomers([x] + [y] + [z]) == ["a"] + ["b"] + ["b"]
  {
    assert AttemptCustomers([]) == [];
    hide AttemptCustomers;
    AttemptCustomersMore([], x);
    AttemptCustomersMore([x], y);
    AttemptCustomersMore([x] + [y], z);
    assert [] + [x] == [x];
  }

  lemma TwoOfProvider(x: Record, y: Record, z: Record)
    requires x.provider == y.provider == "p" && z.provider == "q"
    ensures WithValue([x] + [y] + [z], ByProvider, "p") == [x] + [y]
  {
    assert WithValue([], ByProvider, "p") == [];
    hide WithValue;
    WithValueMore([], x, "p");
    WithValueMore([x], y, "p");
    WithValueMore([x] + [y], z, "p");
    assert [] + [x] == [x];
  }

  lemma ThreeGroups(entries: seq<Record>)
    requires AttemptCustomers(entries) == ["a"] + ["b"] + ["b"] && forall r :: r in entries ==> r.kind == Attempt
    ensures GroupValues(entries, Some(ByCustomer)) == ["a", "b"]
  {
    hide AttemptCustomers;
    var names := ["a"] + ["b"] + ["b"];
    assert names + [] == names;
    ThreeNames();
    hide Distinct;
  }

  lemma ThreeNames()
    ensures Distinct(["a"] + ["b"] + ["b"]) == ["a", "b"]
  {
    assert Distinct([]) == [];
    hide Distinct;
    assert [] + ["a"] == ["a"] && ["a"] + ["b"] == ["a", "b"];
    DistinctMore([], "a");
    DistinctMore(["a"], "b");
    DistinctMore(["a"] + ["b"], "b");
  }

  lemma TwoCharges(x: Record, y: Record, period: Window)
    requires x == PricedAttempt("a", "p") && y == PricedAttempt("b", "p") && period == Window(0, 3_600_000)
    ensures Estimate([x, y], period, None) == 2.0 && Estimate([x, y], period, Some("a")) == 1.0
  {
    forall customer: Option<Id>
      ensures EstimateOf([x, y], [x, y], period, customer)
           == TrafficCharge(x, period, customer) + TrafficCharge(y, period, customer)
    {
      assert [x, y][..1] == [x] && [x][..0] == [];
      assert EstimateOf([], [x, y], period, customer) == 0.0;
      hide TrafficCharge;
    }
  }

  lemma OneMatch(total: CostTotal, period: Window)
    requires total.provider == "p" && total.period == period
    ensures MatchingTotals([total], {"p", "q"}, period) == [total]
  {
    assert [total][..0] == [];
  }

  lemma HalfSpent(total: CostTotal, entries: seq<Record>, own: seq<Record>, q: Query, period: Window)
    requires q.groupBy == Some(ByCustomer) && total.provider == "p" && total.amountUsd == 2.0
    requires WithValue(entries, ByProvider, "p") == own
    requires Estimate(own, period, None) == 2.0 && Estimate(own, period, Some("a")) == 1.0
    ensures Spend([total], entries, q, period, "a") == 1.0
  {
    hide WithValue, Estimate;
    assert [total][..0] == [];
  }
}
