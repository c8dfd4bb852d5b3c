/** rankProviders: the provider order it stitches together, against one sort per
    branch. What the source awaits (inventory, circuits, loads) is passed in. */
module Ranking {
  import opened Options
  import opened Sorting

  datatype ProviderClass = Residential | DeviceBacked

  /** Ids stand for their position in the order of `localeCompare`. */
  datatype Candidate = Candidate(id: int, healthy: bool, excluded: bool, matches: bool, circuitAllows: bool, load: nat,
    saturated: bool)

  /** A provider either lists candidates or is itself the one candidate. */
  datatype Provider = Provider(
    id: int, providerClass: ProviderClass, verifiableCity: bool, candidates: Option<seq<Candidate>>,
    circuitAllows: bool, load: nat, saturated: bool)

  datatype Scored = Scored(provider: Provider, load: nat, saturated: bool)

  // ----- Scoring -----

  predicate CandidateNoLater(a: Candidate, b: Candidate) { a.load < b.load || (a.load == b.load && a.id <= b.id) }

  predicate Compatible(c: Candidate) { c.healthy && !c.excluded && c.matches }

  predicate Eligible(c: Candidate) { Compatible(c) && c.circuitAllows }

  predicate Unsaturated(c: Candidate) { !c.saturated }

  /** A provider with candidates is eligible when one of them is; it is saturated when
      all of those are, and as loaded as the least loaded one it would pick. */
  function Score(p: Provider): Option<Scored> {
    match p.candidates
    case None => if p.circuitAllows then Some(Scored(p, p.load, p.saturated)) else None
    case Some(all) =>
      var withCapacity := Filter(all, Eligible);
      if withCapacity == [] then None
      else
        var unsaturated := Filter(withCapacity, Unsaturated);
        var pool := if unsaturated != [] then unsaturated else withCapacity;
        Some(Scored(p, SortBy(pool, CandidateNoLater)[0].load, unsaturated == []))
  }

  function ScoreAll(providers: seq<Provider>): seq<Scored> {
    if providers == [] then []
    else
      var last := |providers| - 1;
      var rest := ScoreAll(providers[..last]);
      if Score(providers[last]).Some? then rest + [Score(providers[last]).value] else rest
  }

  ghost predicate DistinctIds(providers: seq<Provider>) {
    forall i, j :: 0 <= i < j < |providers| ==> providers[i].id != providers[j].id
  }

  ghost predicate Distinct(scored: seq<Scored>) {
    forall i, j :: 0 <= i < j < |scored| ==> scored[i].provider.id != scored[j].provider.id
  }

  lemma {:induction false} ScoreAllDistinct(providers: seq<Provider>)
    requires DistinctIds(providers)
    ensures Distinct(ScoreAll(providers))
    ensures forall s :: s in ScoreAll(providers) <==> s.provider in providers && Score(s.provider) == Some(s)
  {
    if providers != [] {
      var last := |providers| - 1;
      ScoreAllDistinct(providers[..last]);
      assert providers == providers[..last] + [providers[last]];
      assert forall s :: s in ScoreAll(providers[..last]) ==> s.provider in providers[..last];
    }
  }

  /** The candidate whose load a provider is scored with is the least loaded of its
      eligible candidates, unsaturated ones first. */
  lemma ScoreIsLeastLoad(p: Provider)
    requires p.candidates.Some? && Score(p).Some?
    ensures var s := Score(p).value;
            && (s.saturated <==> forall c :: c in p.candidates.value && Eligible(c) ==> c.saturated)
            && (exists c :: c in p.candidates.value && Eligible(c) && c.saturated == s.saturated && c.load == s.load)
            && (forall c :: c in p.candidates.value && Eligible(c) && c.saturated == s.saturated ==> s.load <= c.load)
  {
    hide Eligible, SortBy, Filter;
    var withCapacity := Filter(p.candidates.value, Eligible);
    var unsaturated := Filter(withCapacity, Unsaturated);
    var pool := if unsaturated != [] then unsaturated else withCapacity;
    var sorted := SortBy(pool, CandidateNoLater);
    SortBySorted(pool, CandidateNoLater);
    SamePermutationElements(sorted, pool);
    assert sorted[0] in sorted;
    if unsaturated != [] { assert unsaturated[0] in unsaturated; }
    forall c | c in pool ensures sorted[0].load <= c.load {
      var k :| 0 <= k < |sorted| && sorted[k] == c;
      if k > 0 { assert CandidateNoLater(sorted[0], sorted[k]); }
    }
  }

  // ----- The orders -----

  predicate ByLoad(a: Scored, b: Scored) { a.load < b.load || (a.load == b.load && a.provider.id <= b.provider.id) }

  predicate BySaturation(a: Scored, b: Scored) {
    (!a.saturated && b.saturated) || (a.saturated == b.saturated && ByLoad(a, b))
  }

  /** (not of the preferred class, saturated, load, id). */
  predicate FinalOrder(preferred: ProviderClass, a: Scored, b: Scored) {
    var x, y := a.provider.providerClass != preferred, b.provider.providerClass != preferred;
    (!x && y) || (x == y && BySaturation(a, b))
  }

  function FallbackRank(preferred: ProviderClass, s: Scored): int {
    if s.provider.providerClass == preferred then 1 else if s.saturated then 2 else 0
  }

  /** (unsaturated fallback, preferred, saturated fallback), then load and id. */
  predicate FallbackOrder(preferred: ProviderClass, a: Scored, b: Scored) {
    var x, y := FallbackRank(preferred, a), FallbackRank(preferred, b);
    x < y || (x == y && ByLoad(a, b))
  }

  /** (not the previous provider), then load and id. */
  predicate RetryOrder(previous: int, a: Scored, b: Scored) {
    var x, y := a.provider.id != previous, b.provider.id != previous;
    (!x && y) || (x == y && ByLoad(a, b))
  }

  function RetryOrderOf(previous: int): (Scored, Scored) -> bool { (a, b) => RetryOrder(previous, a, b) }

  function FinalOrderOf(preferred: ProviderClass): (Scored, Scored) -> bool { (a, b) => FinalOrder(preferred, a, b) }

  function FallbackOrderOf(
    preferred: ProviderClass): (Scored, Scored) -> bool { (a, b) => FallbackOrder(preferred, a, b) }

  // ----- The request and the reference ranking -----

  const MAX_PEERS_PER_PROVIDER := 2
  const MAX_VERIFICATION_CANDIDATES_PER_PROVIDER := 2

  datatype Request = Request(stateless: bool, wantsCity: bool, previousProvider: Option<int>, attempts: map<int, nat>)

  function Preferred(r: Request): ProviderClass { if r.stateless then Residential else DeviceBacked }

  function Find(scored: seq<Scored>, id: Option<int>): (r: Option<Scored>)
    ensures r.Some? ==> r.value in scored && Some(r.value.provider.id) == id
    ensures r.None? ==> forall s :: s in scored ==> Some(s.provider.id) != id
  {
    if scored == [] then None
    else
      assert scored == [scored[0]] + scored[1..];
      if Some(scored[0].provider.id) == id then Some(scored[0]) else Find(scored[1..], id)
  }

  /** The previous provider is tried again while its attempts are not used up. */
  predicate Retries(scored: seq<Scored>, r: Request) {
    var previous := Find(scored, r.previousProvider);
    && previous.Some?
    && var id := previous.value.provider.id;
       var limit := if r.wantsCity && previous.value.provider.verifiableCity
         then MAX_VERIFICATION_CANDIDATES_PER_PROVIDER else MAX_PEERS_PER_PROVIDER;
       (if id in r.attempts then r.attempts[id] else 0) < limit
  }

  function InClass(c: ProviderClass): Scored -> bool { (s: Scored) => s.provider.providerClass == c }

  function NotInClass(c: ProviderClass): Scored -> bool { (s: Scored) => s.provider.providerClass != c }

  predicate IsSaturated(s: Scored) { s.saturated }

  predicate NotSaturated(s: Scored) { !s.saturated }

  function Except(x: Scored): Scored -> bool { s => s != x }

  function Only(x: Scored): Scored -> bool { s => s == x }

  /** Soft capacity of the preferred class is used up while some fallback has room. */
  predicate FallsBack(scored: seq<Scored>, r: Request) {
    var preferred := Filter(scored, InClass(Preferred(r)));
    && r.stateless && preferred != [] && Filter(preferred, NotSaturated) == []
    && Filter(Filter(scored, NotInClass(Preferred(r))), NotSaturated) != []
  }

  /** What the ranking means: one sort per branch. */
  function Reference(scored: seq<Scored>, r: Request): seq<Scored> {
    if Retries(scored, r) then SortBy(scored, RetryOrderOf(r.previousProvider.value))
    else if FallsBack(scored, r) then SortBy(scored, FallbackOrderOf(Preferred(r)))
    else SortBy(scored, FinalOrderOf(Preferred(r)))
  }

  // ----- Sorting facts -----

  lemma OrdersArePreorders(c: ProviderClass)
    ensures TotalPreorder(ByLoad) && TotalPreorder(BySaturation)
    ensures TotalPreorder(FinalOrderOf(c)) && TotalPreorder(FallbackOrderOf(c))
  {
  }

  lemma NoTies(scored: seq<Scored>, le: (Scored, Scored) -> bool)
    requires Distinct(scored)
    requires forall a, b :: le(a, b) && le(b, a) ==> a.provider.id == b.provider.id
    ensures TieFree(scored, le)
  {
  }

  /** An ordered arrangement of the scored providers is the one the sort gives. */
  lemma IsTheSort(scored: seq<Scored>, result: seq<Scored>, le: (Scored, Scored) -> bool)
    requires Distinct(scored) && TotalPreorder(le)
    requires forall a, b :: le(a, b) && le(b, a) ==> a.provider.id == b.provider.id
    requires multiset(result) == multiset(scored) && Sorted(result, le)
    ensures result == SortBy(scored, le)
  {
    SortBySorted(scored, le);
    NoTies(scored, le);
    var sorted := SortBy(scored, le);
    TieFreePermutation(scored, result, le);
    SortedUnique(result, sorted, le);
  }

  lemma TieFreePermutation(a: seq<Scored>, b: seq<Scored>, le: (Scored, Scored) -> bool)
    requires multiset(a) == multiset(b) && TieFree(a, le)
    ensures TieFree(b, le)
  {
    SamePermutationElements(a, b);
    forall i, j | 0 <= i < |b| && 0 <= j < |b| && le(b[i], b[j]) && le(b[j], b[i]) ensures b[i] == b[j] {
      assert b[i] in b && b[j] in b;
      var k :| 0 <= k < |a| && a[k] == b[i];
      var l :| 0 <= l < |a| && a[l] == b[j];
    }
  }

  lemma SortedPart(part: seq<Scored>, le: (Scored, Scored) -> bool)
    requires TotalPreorder(le)
    ensures Sorted(SortBy(part, le), le)
    ensures forall s :: s in SortBy(part, le) <==> s in part
  {
    SortBySorted(part, le);
    SamePermutationElements(SortBy(part, le), part);
  }

  /** Taking one element out and putting it in front keeps the elements. */
  lemma {:induction false} TakeOut(s: seq<Scored>, x: Scored)
    requires Distinct(s) && x in s
    ensures multiset([x]) + multiset(Filter(s, Except(x))) == multiset(s)
  {
    FilterSplits(s, Only(x), Except(x));
    OnlyOne(s, x);
  }

  lemma {:induction false} OnlyOne(s: seq<Scored>, x: Scored)
    requires Distinct(s)
    ensures Filter(s, Only(x)) == if x in s then [x] else []
  {
    if s != [] {
      assert s == [s[0]] + s[1..];
      OnlyOne(s[1..], x);
      if s[0] == x { assert x !in s[1..]; }
    }
  }

  lemma {:induction false} FilterDistinct(s: seq<Scored>, p: Scored -> bool)
    requires Distinct(s)
    ensures Distinct(Filter(s, p))
  {
    if s != [] {
      FilterDistinct(s[1..], p);
      var rest := Filter(s[1..], p);
      forall k | 0 <= k < |rest| ensures rest[k].provider.id != s[0].provider.id {
        assert rest[k] in s[1..];
      }
    }
  }

  lemma LeastFirst(pool: seq<Scored>, le: (Scored, Scored) -> bool)
    requires pool != [] && TotalPreorder(le)
    ensures SortBy(pool, le)[0] in pool
    ensures forall s :: s in pool ==> le(SortBy(pool, le)[0], s)
  {
    SortedPart(pool, le);
    var sorted := SortBy(pool, le);
    assert sorted[0] in sorted;
    forall s | s in pool ensures le(sorted[0], s) {
      var k :| 0 <= k < |sorted| && sorted[k] == s;
      assert le(sorted[0], sorted[0]);
    }
  }

  // ----- The retry branch -----

  lemma RetryIsPreorder(previous: int)
    ensures TotalPreorder(RetryOrderOf(previous)) && TotalPreorder(ByLoad)
  {
  }

  /** The previous provider put in front of the others in order of load is one sort. */
  lemma RetryBranch(scored: seq<Scored>, previous: Scored)
    requires Distinct(scored) && previous in scored
    ensures var others := SortBy(Filter(scored, Except(previous)), ByLoad);
            && [previous] + others == SortBy(scored, RetryOrderOf(previous.provider.id))
            && Sorted(others, ByLoad)
  {
    RetryIsPreorder(previous.provider.id);
    var le := RetryOrderOf(previous.provider.id);
    var rest := Filter(scored, Except(previous));
    forall s | s in rest ensures s.provider.id != previous.provider.id { OthersDiffer(scored, previous, s); }
    hide SortBy, Filter, Distinct;
    var others := SortBy(rest, ByLoad);
    SortedPart(rest, ByLoad);
    SortedUnder(others, ByLoad, le);
    StitchSorted([previous], others, le);
    TakeOut(scored, previous);
    IsTheSort(scored, [previous] + others, le);
  }

  lemma OthersDiffer(scored: seq<Scored>, a: Scored, b: Scored)
    requires Distinct(scored) && a in scored && b in scored && a != b
    ensures a.provider.id != b.provider.id
  {
    var i :| 0 <= i < |scored| && scored[i] == a;
    var j :| 0 <= j < |scored| && scored[j] == b;
  }

  // ----- The final branch -----

  /** The chosen provider heads its tier under (saturated, load, id). */
  lemma SelectedIsFirst(tier: seq<Scored>, selected: Scored)
    requires tier != []
    requires var unsaturated := Filter(tier, NotSaturated);
             selected == SortBy(if unsaturated != [] then unsaturated else tier, ByLoad)[0]
    ensures selected in tier && forall s :: s in tier ==> BySaturation(selected, s)
  {
    OrdersArePreorders(Residential);
    var unsaturated := Filter(tier, NotSaturated);
    LeastFirst(if unsaturated != [] then unsaturated else tier, ByLoad);
    if unsaturated == [] {
      assert forall s :: s in tier && !s.saturated ==> s in unsaturated;
    }
  }

  /** One tier: the chosen provider, then the rest by (saturated, load, id). */
  lemma TierSorted(tier: seq<Scored>, selected: Scored)
    requires Distinct(tier) && selected in tier && forall s :: s in tier ==> BySaturation(selected, s)
    ensures var ordered := [selected] + SortBy(Filter(tier, Except(selected)), BySaturation);
            Sorted(ordered, BySaturation) && multiset(ordered) == multiset(tier)
  {
    OrdersArePreorders(Residential);
    SortedPart(Filter(tier, Except(selected)), BySaturation);
    StitchSorted([selected], SortBy(Filter(tier, Except(selected)), BySaturation), BySaturation);
    TakeOut(tier, selected);
  }

  lemma FinalBranch(scored: seq<Scored>, c: ProviderClass, primary: seq<Scored>, rest: seq<Scored>, selected: Scored)
    requires Distinct(scored) && Tiers(scored, c, primary, rest)
    requires selected in primary && forall s :: s in primary ==> BySaturation(selected, s)
    ensures [selected] + SortBy(Filter(primary, Except(selected)), BySaturation) + SortBy(rest, BySaturation)
      == SortBy(scored, FinalOrderOf(c))
  {
    hide SortBy, Filter, Distinct;
    OrdersArePreorders(c);
    var le := FinalOrderOf(c);
    var head := [selected] + SortBy(Filter(primary, Except(selected)), BySaturation);
    var tail := SortBy(rest, BySaturation);
    TierSorted(primary, selected);
    SamePermutationElements(head, primary);
    SortedPart(rest, BySaturation);
    SortedUnder(head, BySaturation, le);
    SortedUnder(tail, BySaturation, le);
    StitchSorted(head, tail, le);
    IsTheSort(scored, head + tail, le);
  }

  // ----- The capacity-fallback branch -----

  lemma FallbackBranch(
    scored: seq<Scored>, c: ProviderClass, open: seq<Scored>, preferred: seq<Scored>, full: seq<Scored>)
    requires Distinct(scored)
    requires multiset(open) + multiset(preferred) + multiset(full) == multiset(scored)
    requires forall s :: s in open ==> FallbackRank(c, s) == 0
    requires forall s :: s in preferred ==> FallbackRank(c, s) == 1
    requires forall s :: s in full ==> FallbackRank(c, s) == 2
    ensures SortBy(open, ByLoad) + SortBy(preferred, ByLoad) + SortBy(full, ByLoad)
      == SortBy(scored, FallbackOrderOf(c))
  {
    hide SortBy;
    OrdersArePreorders(c);
    var le := FallbackOrderOf(c);
    SortedPart(open, ByLoad);
    SortedPart(preferred, ByLoad);
    SortedPart(full, ByLoad);
    var x, y, z := SortBy(open, ByLoad), SortBy(preferred, ByLoad), SortBy(full, ByLoad);
    SortedUnder(x, ByLoad, le);
    SortedUnder(y, ByLoad, le);
    SortedUnder(z, ByLoad, le);
    StitchSorted(x, y, le);
    StitchSorted(x + y, z, le);
    IsTheSort(scored, x + y + z, le);
  }

  /** Removing the head of a sorted list by value leaves its tail. */
  lemma {:induction false} DropHead(s: seq<Scored>)
    requires s != [] && Distinct(s)
    ensures [s[0]] + Filter(s, Except(s[0])) == s
  {
    assert s == [s[0]] + s[1..];
    assert s[0] !in s[1..];
    AllPass(s[1..], Except(s[0]));
  }

  lemma {:induction false} AllPass(s: seq<Scored>, p: Scored -> bool)
    requires forall x :: x in s ==> p(x)
    ensures Filter(s, p) == s
  {
    if s != [] {
      assert s[0] in s;
      AllPass(s[1..], p);
    }
  }

  lemma PermutationDistinct(a: seq<Scored>, b: seq<Scored>)
    requires Distinct(a) && multiset(a) == multiset(b)
    ensures Distinct(b)
  {
    forall i, j | 0 <= i < j < |b| ensures b[i].provider.id != b[j].provider.id {
      if b[i].provider.id == b[j].provider.id {
        SamePermutationElements(a, b);
        assert b[i] in b && b[j] in b;
        var k :| 0 <= k < |a| && a[k] == b[i];
        var l :| 0 <= l < |a| && a[l] == b[j];
        OnceIn(a, b[i]);
        TwiceIn(b, i, j);
      }
    }
  }

  lemma OnceIn(a: seq<Scored>, x: Scored)
    requires Distinct(a)
    ensures multiset(a)[x] <= 1
  {
    OnlyOne(a, x);
    FilterSplits(a, Only(x), Except(x));
    assert x !in Filter(a, Except(x));
  }

  lemma TwiceIn(b: seq<Scored>, i: nat, j: nat)
    requires i < j < |b| && b[i] == b[j]
    ensures multiset(b)[b[i]] >= 2
  {
    assert b == b[..i] + [b[i]] + b[i + 1..j] + [b[j]] + b[j + 1..];
  }

  // ----- What a ranking means, in terms of providers and requests -----

  /** Some candidate, or the provider itself, is fit and its circuit allows it. */
  ghost predicate CanServe(p: Provider) {
    match p.candidates
    case None => p.circuitAllows
    case Some(all) => exists c :: c in all && Fit(c)
  }

  predicate Fit(c: Candidate) { c.healthy && !c.excluded && c.matches && c.circuitAllows }

  /** The load and saturation a provider is ranked with: its own, or those of its least
      loaded fit candidate, unsaturated ones first. */
  ghost predicate IsScore(s: Scored) {
    match s.provider.candidates
    case None => s.load == s.provider.load && s.saturated == s.provider.saturated
    case Some(all) =>
      && (s.saturated <==> forall c :: c in all && Fit(c) ==> c.saturated)
      && (exists c :: c in all && Fit(c) && c.saturated == s.saturated && c.load == s.load)
      && (forall c :: c in all && Fit(c) && c.saturated == s.saturated ==> s.load <= c.load)
  }

  /** The previous provider can still serve and has been tried less than twice. */
  ghost predicate TriedAgain(providers: seq<Provider>, r: Request) {
    exists p :: p in providers && r.previousProvider == Some(p.id) && CanServe(p)
                && (if p.id in r.attempts then r.attempts[p.id] else 0) < 2
  }

  predicate Lighter(a: Scored, b: Scored) { a.load < b.load || (a.load == b.load && a.provider.id <= b.provider.id) }

  ghost predicate ResidentialFull(ranked: seq<Scored>) {
    forall s :: s in ranked && s.provider.providerClass == Residential ==> s.saturated
  }

  /** Whether one ranked provider may stand before another. */
  ghost predicate MayPrecede(ranked: seq<Scored>, r: Request, a: Scored, b: Scored) {
    match (a.provider.providerClass, b.provider.providerClass)
    case (Residential, DeviceBacked) => r.stateless && (b.saturated || !ResidentialFull(ranked))
    case (DeviceBacked, Residential) => !r.stateless || (!a.saturated && ResidentialFull(ranked))
    case _ => (!a.saturated && b.saturated) || (a.saturated == b.saturated && Lighter(a, b))
  }

  /** Managed requests want device-backed providers first; stateless ones residential ones,
      but for unsaturated device-backed ones when every residential one is saturated. */
  ghost predicate InOrder(ranked: seq<Scored>, r: Request) {
    forall i, j :: 0 <= i < j < |ranked| ==> MayPrecede(ranked, r, ranked[i], ranked[j])
  }

  /** A circuit refuses the provider, or a candidate of it that is otherwise fit. */
  ghost predicate HeldBack(p: Provider) {
    match p.candidates
    case None => !p.circuitAllows
    case Some(all) => exists c :: c in all && c.healthy && !c.excluded && c.matches && !c.circuitAllows
  }

  lemma RefusalsHoldBack()
    ensures forall p :: CircuitRefuses(p) <==> HeldBack(p)
  {
  }

  /** A stateless request is moved to a device-backed provider with room. */
  ghost predicate Promotes(providers: seq<Provider>, ranked: seq<Scored>, r: Request) {
    && !TriedAgain(providers, r) && r.stateless && ResidentialFull(ranked)
    && (exists s :: s in ranked && s.provider.providerClass == Residential)
    && (exists s :: s in ranked && s.provider.providerClass == DeviceBacked && !s.saturated)
  }

  lemma ScoredMeans(providers: seq<Provider>, s: Scored)
    requires DistinctIds(providers)
    ensures s in ScoreAll(providers) ==> s.provider in providers && CanServe(s.provider) && IsScore(s)
  {
    ScoreAllDistinct(providers);
    if s in ScoreAll(providers) {
      hide SortBy, Filter;
      forall c ensures Fit(c) <==> Eligible(c) { }
      if s.provider.candidates.Some? { ScoreIsLeastLoad(s.provider); }
    }
  }

  lemma ServersScored(providers: seq<Provider>, p: Provider)
    requires DistinctIds(providers) && p in providers && CanServe(p)
    ensures exists s :: s in ScoreAll(providers) && s.provider == p
  {
    ScoreAllDistinct(providers);
    if p.candidates.Some? {
      var c :| c in p.candidates.value && Fit(c);
      assert Eligible(c) && c in Filter(p.candidates.value, Eligible);
    }
    hide SortBy, Filter;
    assert Score(p).Some? && Score(p).value.provider == p;
  }

  lemma RetriesMeans(providers: seq<Provider>, r: Request)
    requires DistinctIds(providers)
    ensures Retries(ScoreAll(providers), r) <==> TriedAgain(providers, r)
  {
    var scored := ScoreAll(providers);
    hide ScoreAll, Score, CanServe, IsScore;
    if Retries(scored, r) {
      var previous := Find(scored, r.previousProvider).value;
      ScoredMeans(providers, previous);
      assert previous.provider in providers;
    }
    if TriedAgain(providers, r) {
      var p :| p in providers && r.previousProvider == Some(p.id) && CanServe(p)
        && (if p.id in r.attempts then r.attempts[p.id] else 0) < 2;
      ServersScored(providers, p);
      var s :| s in scored && s.provider == p;
      ScoredMeans(providers, Find(scored, r.previousProvider).value);
    }
  }

  /** The fallback is taken exactly when a stateless request finds residential providers,
      all saturated, and a device-backed one with room. */
  lemma FallsBackMeans(scored: seq<Scored>, r: Request)
    ensures FallsBack(scored, r)
       <==> && r.stateless && ResidentialFull(scored)
            && (exists s :: s in scored && s.provider.providerClass == Residential)
            && (exists s :: s in scored && s.provider.providerClass == DeviceBacked && !s.saturated)
  {
    var preferred := Filter(scored, InClass(Residential));
    var fallback := Filter(scored, NotInClass(Residential));
    hide Filter;
    NothingPasses(scored, InClass(Residential));
    NothingPasses(preferred, NotSaturated);
    NothingPasses(fallback, NotSaturated);
  }

  lemma NothingPasses(s: seq<Scored>, p: Scored -> bool)
    ensures Filter(s, p) == [] <==> forall x :: x in s ==> !p(x)
  {
    if Filter(s, p) != [] { assert Filter(s, p)[0] in Filter(s, p); }
  }

  lemma ReferenceInOrder(scored: seq<Scored>, r: Request)
    requires !Retries(scored, r)
    ensures InOrder(Reference(scored, r), r)
  {
    var ranked := Reference(scored, r);
    hide SortBy, FallsBack, Retries;
    OrdersArePreorders(Preferred(r));
    FallsBackMeans(scored, r);
    SamePermutationElements(ranked, scored);
    assert ResidentialFull(ranked) <==> ResidentialFull(scored);
    if FallsBack(scored, r) {
      SortBySorted(scored, FallbackOrderOf(Preferred(r)));
    } else {
      SortBySorted(scored, FinalOrderOf(Preferred(r)));
    }
    hide Reference, FallbackOrderOf, FinalOrderOf;
    forall i, j | 0 <= i < j < |ranked| ensures MayPrecede(ranked, r, ranked[i], ranked[j]) {
      assert ranked[i] in scored && ranked[j] in scored;
      OrderMeans(scored, ranked, r, ranked[i], ranked[j]);
    }
  }

  lemma OrderMeans(scored: seq<Scored>, ranked: seq<Scored>, r: Request, a: Scored, b: Scored)
    requires a in scored && b in scored && ResidentialFull(ranked) == ResidentialFull(scored)
    requires if FallsBack(scored, r) then FallbackOrder(Preferred(r), a, b) else FinalOrder(Preferred(r), a, b)
    ensures MayPrecede(ranked, r, a, b)
  {
    FallsBackMeans(scored, r);
    hide FallsBack;
  }

  /** A first choice of provider: the previous one if it can serve, else the lightest of
      the wanted class, else the lightest of all. */
  ghost predicate IsPrimary(ranked: seq<Scored>, r: Request, primary: Option<int>) {
    if ranked == [] then primary == None
    else
      exists s :: s in ranked && primary == Some(s.provider.id)
        && if exists x :: x in ranked && r.previousProvider == Some(x.provider.id)
           then r.previousProvider == Some(s.provider.id)
           else LightestWanted(ranked, r, s)
  }

  ghost predicate LightestWanted(ranked: seq<Scored>, r: Request, s: Scored) {
    var wanted := if r.stateless then Residential else DeviceBacked;
    if exists x :: x in ranked && x.provider.providerClass == wanted
    then
      && s.provider.providerClass == wanted
      && forall x :: x in ranked && x.provider.providerClass == wanted ==> Lighter(s, x)
    else forall x :: x in ranked ==> Lighter(s, x)
  }

  lemma PrimaryMeans(scored: seq<Scored>, ranked: seq<Scored>, r: Request)
    requires multiset(ranked) == multiset(scored)
    ensures IsPrimary(ranked, r, BaselineId(scored, r, None))
  {
    SamePermutationElements(ranked, scored);
    MultisetSize(ranked, scored);
    var previous := Find(scored, r.previousProvider);
    hide SortBy, Filter, Find, LightestWanted;
    if scored != [] {
      if previous.Some? {
        assert previous.value in ranked;
      } else {
        var s := LightestMeans(scored, ranked, r);
      }
    }
  }

  lemma LightestMeans(scored: seq<Scored>, ranked: seq<Scored>, r: Request) returns (s: Scored)
    requires scored != [] && forall x :: x in ranked <==> x in scored
    ensures s in scored && LightestWanted(ranked, r, s)
    ensures Find(scored, r.previousProvider).None? ==> BaselineId(scored, r, None) == Some(s.provider.id)
  {
    hide LightestWanted, BaselineId, FirstOf, Find, Filter, ByLoad;
    var preferred := Filter(scored, InClass(Preferred(r)));
    s := FirstOf(if preferred != [] then preferred else scored);
    BaselineIsFirst(scored, r);
    FirstIsLeast(if preferred != [] then preferred else scored);
    LightestOf(scored, ranked, r, preferred, s);
  }

  function FirstOf(pool: seq<Scored>): Scored
    requires pool != []
  {
    SortBy(pool, ByLoad)[0]
  }

  lemma BaselineIsFirst(scored: seq<Scored>, r: Request)
    requires scored != []
    ensures var preferred := Filter(scored, InClass(Preferred(r)));
            Find(scored, r.previousProvider).None? ==>
              BaselineId(scored, r, None) == Some(FirstOf(if preferred != [] then preferred else scored).provider.id)
  {
    hide Filter, Find, SortBy;
  }

  lemma FirstIsLeast(pool: seq<Scored>)
    requires pool != []
    ensures FirstOf(pool) in pool && forall x :: x in pool ==> ByLoad(FirstOf(pool), x)
  {
    OrdersArePreorders(Residential);
    hide SortBy, ByLoad;
    LeastFirst(pool, ByLoad);
  }

  lemma LightestOf(scored: seq<Scored>, ranked: seq<Scored>, r: Request, preferred: seq<Scored>, s: Scored)
    requires forall x :: x in ranked <==> x in scored
    requires forall x :: x in preferred <==> x in scored && x.provider.providerClass == Preferred(r)
    requires var pool := if preferred != [] then preferred else scored;
             s in pool && forall x :: x in pool ==> ByLoad(s, x)
    ensures LightestWanted(ranked, r, s)
  {
    if preferred != [] { assert preferred[0] in preferred; }
    var pool := if preferred != [] then preferred else scored;
    forall x | x in pool ensures Lighter(s, x) { assert ByLoad(s, x); }
    hide ByLoad, Lighter;
    assert forall x :: x in ranked && preferred == [] ==> x in pool;
    assert forall x :: x in ranked && x.provider.providerClass == Preferred(r) && preferred != [] ==> x in pool;
  }

  lemma PrimaryKept(scored: seq<Scored>, r: Request, primary: Option<int>)
    ensures primary.Some? ==> BaselineId(scored, r, primary) == primary
  {
  }

  /** The provider whose pressure caused a fallback: the lightest residential one. */
  ghost predicate IsPressed(ranked: seq<Scored>, pressed: Option<int>) {
    exists s :: s in ranked && s.provider.providerClass == Residential && pressed == Some(s.provider.id)
      && forall x :: x in ranked && x.provider.providerClass == Residential ==> Lighter(s, x)
  }

  lemma PressureMeans(scored: seq<Scored>, ranked: seq<Scored>, r: Request)
    requires multiset(ranked) == multiset(scored) && FallsBack(scored, r)
    ensures IsPressed(ranked, PressureSource(scored, r))
  {
    SamePermutationElements(ranked, scored);
    FallsBackMeans(scored, r);
    var preferred := Filter(scored, InClass(Residential));
    hide SortBy, Filter, FallsBack;
    OrdersArePreorders(Residential);
    var s :| s in scored && s.provider.providerClass == Residential;
    assert s in preferred;
    LeastFirst(preferred, ByLoad);
  }

  // ----- rankProviders -----

  class ResolutionState {
    var primaryProvider: Option<int>
    var capacityConstraint: bool
    var capacityDrivenFallback: bool
    var capacityPressureProvider: Option<int>

    constructor ()
      ensures primaryProvider == None && capacityPressureProvider == None && !capacityConstraint
        && !capacityDrivenFallback
    {
      primaryProvider, capacityConstraint, capacityDrivenFallback, capacityPressureProvider := None, false, false, None;
    }

    /** A candidate whose circuit is not eligible leaves a mark in the state. */
    method MarkRefusals(compatible: seq<Candidate>)
      modifies this`capacityConstraint
      ensures capacityConstraint <==> old(capacityConstraint) || exists c :: c in compatible && !c.circuitAllows
    {
      for k := 0 to |compatible|
        invariant capacityConstraint
          <==> old(capacityConstraint) || exists c :: c in compatible[..k] && !c.circuitAllows
      {
        assert compatible[..k + 1] == compatible[..k] + [compatible[k]];
        if !compatible[k].circuitAllows { capacityConstraint := true; }
      }
      assert compatible[..|compatible|] == compatible;
    }

    method MarkProvider(provider: Provider)
      modifies this`capacityConstraint
      ensures capacityConstraint <==> old(capacityConstraint) || CircuitRefuses(provider)
    {
      if provider.candidates.Some? {
        MarkRefusals(Filter(provider.candidates.value, Compatible));
      } else if !provider.circuitAllows {
        capacityConstraint := true;
      }
    }

    /** The scoring loop. */
    method ScoreProviders(providers: seq<Provider>) returns (scored: seq<Scored>)
      modifies this`capacityConstraint
      ensures scored == ScoreAll(providers)
      ensures capacityConstraint <==> old(capacityConstraint) || exists p :: p in providers && CircuitRefuses(p)
    {
      hide CircuitRefuses, Score;
      scored := [];
      for i := 0 to |providers|
        invariant scored == ScoreAll(providers[..i])
        invariant capacityConstraint
          <==> old(capacityConstraint) || exists p :: p in providers[..i] && CircuitRefuses(p)
      {
        assert providers[..i + 1] == providers[..i] + [providers[i]];
        assert providers[..i + 1][..i] == providers[..i];
        MarkProvider(providers[i]);
        if Score(providers[i]).Some? { scored := scored + [Score(providers[i]).value]; }
      }
      assert providers[..|providers|] == providers;
    }

    /** Every branch returns what one sort gives, and always all eligible providers. */
    method RankProviders(providers: seq<Provider>, r: Request) returns (ranked: seq<Scored>)
      requires DistinctIds(providers)
      modifies this
      ensures ranked == Reference(ScoreAll(providers), r)
      ensures multiset(ranked) == multiset(ScoreAll(providers))
      ensures forall s :: s in ranked ==> s.provider in providers && CanServe(s.provider) && IsScore(s)
      ensures forall p :: p in providers && CanServe(p) ==> exists s :: s in ranked && s.provider == p
      ensures if TriedAgain(providers, r)
              then ranked != [] && Some(ranked[0].provider.id) == r.previousProvider && Sorted(ranked[1..], Lighter)
              else InOrder(ranked, r)
      ensures if old(primaryProvider).Some? then primaryProvider == old(primaryProvider)
              else IsPrimary(ranked, r, primaryProvider)
      ensures capacityDrivenFallback <==> old(capacityDrivenFallback) || Promotes(providers, ranked, r)
      ensures if Promotes(providers, ranked, r) then IsPressed(ranked, capacityPressureProvider)
              else capacityPressureProvider == old(capacityPressureProvider)
      ensures capacityConstraint <==> old(capacityConstraint) || exists p :: p in providers && HeldBack(p)
      ensures primaryProvider == BaselineId(ScoreAll(providers), r, old(primaryProvider))
      ensures var fallsBack := !Retries(ScoreAll(providers), r) && FallsBack(ScoreAll(providers), r);
              && capacityDrivenFallback == (fallsBack || old(capacityDrivenFallback))
              && capacityPressureProvider
                == (if fallsBack then PressureSource(ScoreAll(providers), r) else old(capacityPressureProvider))
    {
      hide Reference, Retries, FallsBack, Distinct, DistinctIds, BaselineId, PressureSource, ScoreAll, Score,
        CircuitRefuses, HeldBack, CanServe, IsScore, TriedAgain, InOrder, Promotes, IsPrimary, IsPressed;
      var scored := ScoreProviders(providers);
      assert Distinct(scored) by { ScoreAllDistinct(providers); }
      primaryProvider := BaselineId(scored, r, primaryProvider);
      ReferencePermutes(scored, r);
      if Retries(scored, r) {
        ranked := RankRetry(scored, r);
      } else if FallsBack(scored, r) {
        capacityDrivenFallback := true;
        capacityPressureProvider := PressureSource(scored, r);
        ranked := RankFallback(scored, r);
      } else {
        ranked := RankFinal(scored, r);
      }
      RankedMeans(providers, scored, ranked, r);
      RefusalsHoldBack();
      PrimaryKept(scored, r, old(primaryProvider));
      if old(primaryProvider).None? { PrimaryMeans(scored, ranked, r); }
      if !Retries(scored, r) && FallsBack(scored, r) { PressureMeans(scored, ranked, r); }
    }
  }

  lemma RankedMeans(providers: seq<Provider>, scored: seq<Scored>, ranked: seq<Scored>, r: Request)
    requires DistinctIds(providers) && scored == ScoreAll(providers)
    requires ranked == Reference(scored, r) && multiset(ranked) == multiset(scored)
    ensures forall s :: s in ranked ==> s.provider in providers && CanServe(s.provider) && IsScore(s)
    ensures forall p :: p in providers && CanServe(p) ==> exists s :: s in ranked && s.provider == p
    ensures Retries(scored, r) <==> TriedAgain(providers, r)
    ensures !TriedAgain(providers, r) ==> InOrder(ranked, r)
    ensures Promotes(providers, ranked, r) <==> !Retries(scored, r) && FallsBack(scored, r)
  {
    hide ScoreAll, Reference, CanServe, IsScore, Retries, FallsBack, TriedAgain, InOrder, DistinctIds;
    SamePermutationElements(ranked, scored);
    forall s | s in ranked ensures s.provider in providers && CanServe(s.provider) && IsScore(s) {
      ScoredMeans(providers, s);
    }
    forall p | p in providers && CanServe(p) ensures exists s :: s in ranked && s.provider == p {
      ServersScored(providers, p);
    }
    RetriesMeans(providers, r);
    if !Retries(scored, r) { ReferenceInOrder(scored, r); }
    FallsBackMeans(scored, r);
    assert ResidentialFull(ranked) <==> ResidentialFull(scored);
  }

  /** The previous provider, else the least loaded preferred one, else the least loaded. */
  function BaselineId(scored: seq<Scored>, r: Request, primary: Option<int>): Option<int> {
    var previous := Find(scored, r.previousProvider);
    var preferred := Filter(scored, InClass(Preferred(r)));
    if primary.Some? || scored == [] then primary
    else if previous.Some? then Some(previous.value.provider.id)
    else if preferred != [] then Some(SortBy(preferred, ByLoad)[0].provider.id)
    else Some(SortBy(scored, ByLoad)[0].provider.id)
  }

  /** The least loaded preferred provider, whose soft capacity ran out. */
  function PressureSource(scored: seq<Scored>, r: Request): Option<int> {
    var preferred := Filter(scored, InClass(Preferred(r)));
    if preferred == [] then None else Some(SortBy(preferred, ByLoad)[0].provider.id)
  }

  /** The previous provider first, all others by load and id: one sort by (not previous,
      load, id). */
  method RankRetry(scored: seq<Scored>, r: Request) returns (ranked: seq<Scored>)
    requires Distinct(scored) && Retries(scored, r)
    ensures ranked == Reference(scored, r)
    ensures ranked != [] && Some(ranked[0].provider.id) == r.previousProvider
    ensures Sorted(ranked[1..], ByLoad) && multiset(ranked) == multiset(scored)
  {
    hide SortBy, Filter, Distinct;
    var previous := Find(scored, r.previousProvider).value;
    var others := SortBy(Filter(scored, Except(previous)), ByLoad);
    RetryBranch(scored, previous);
    TakeOut(scored, previous);
    ranked := [previous] + others;
    assert ranked[1..] == others;
  }

  lemma ReferencePermutes(scored: seq<Scored>, r: Request)
    ensures multiset(Reference(scored, r)) == multiset(scored)
  {
    hide SortBy, Filter;
  }

  predicate CircuitRefuses(p: Provider) {
    match p.candidates
    case None => !p.circuitAllows
    case Some(all) => exists c :: c in all && Compatible(c) && !c.circuitAllows
  }

  lemma FallbackTiers(scored: seq<Scored>, c: ProviderClass)
    requires Distinct(scored)
    ensures var fallback := Filter(scored, NotInClass(c));
            && multiset(Filter(fallback, NotSaturated)) + multiset(Filter(scored, InClass(c)))
              + multiset(Filter(fallback, IsSaturated)) == multiset(scored)
            && Distinct(Filter(fallback, NotSaturated))
  {
    hide Filter, Distinct;
    var fallback := Filter(scored, NotInClass(c));
    FilterSplits(scored, InClass(c), NotInClass(c));
    FilterSplits(fallback, NotSaturated, IsSaturated);
    FilterDistinct(scored, NotInClass(c));
    FilterDistinct(fallback, NotSaturated);
  }

  /** The capacity-fallback branch: unsaturated fallbacks, then the preferred tier, then
      saturated fallbacks. */
  method RankFallback(scored: seq<Scored>, r: Request) returns (ranked: seq<Scored>)
    requires Distinct(scored) && !Retries(scored, r) && FallsBack(scored, r)
    ensures ranked == Reference(scored, r)
  {
    hide SortBy, Filter, Distinct, Retries;
    var c := Preferred(r);
    var preferredTier := Filter(scored, InClass(c));
    var fallbackTier := Filter(scored, NotInClass(c));
    var eligibleFallback := Filter(fallbackTier, NotSaturated);
    var orderedFallback := SortBy(eligibleFallback, ByLoad);
    var selected := orderedFallback[0];
    var saturatedFallback := Filter(fallbackTier, IsSaturated);
    ranked := [selected] + Filter(orderedFallback, Except(selected)) + SortBy(preferredTier, ByLoad)
      + SortBy(saturatedFallback, ByLoad);
    FallbackTiers(scored, c);
    PermutationDistinct(eligibleFallback, orderedFallback);
    DropHead(orderedFallback);
    FallbackBranch(scored, c, eligibleFallback, preferredTier, saturatedFallback);
  }

  /** The tiers of the final branch: the preferred class if it has anyone, else all. */
  ghost predicate Tiers(scored: seq<Scored>, c: ProviderClass, primary: seq<Scored>, rest: seq<Scored>) {
    && Distinct(primary) && multiset(primary) + multiset(rest) == multiset(scored)
    && (|| ((forall s :: s in primary ==> s.provider.providerClass == c)
         && (forall s :: s in rest ==> s.provider.providerClass != c))
        || (rest == [] && forall s :: s in primary ==> s.provider.providerClass != c))
  }

  lemma TiersHold(scored: seq<Scored>, c: ProviderClass)
    requires Distinct(scored)
    ensures var preferred := Filter(scored, InClass(c));
            if preferred != [] then Tiers(scored, c, preferred, Filter(scored, NotInClass(c)))
              else Tiers(scored, c, scored, [])
  {
    hide Filter, Distinct;
    var preferred := Filter(scored, InClass(c));
    FilterDistinct(scored, InClass(c));
    FilterSplits(scored, InClass(c), NotInClass(c));
    if preferred == [] {
      assert forall s :: s in scored && InClass(c)(s) ==> s in preferred;
    }
  }

  /** The last branch: the chosen provider, the rest of its tier, the other tier. */
  method RankFinal(scored: seq<Scored>, r: Request) returns (ranked: seq<Scored>)
    requires Distinct(scored) && !Retries(scored, r) && !FallsBack(scored, r)
    ensures ranked == Reference(scored, r)
  {
    if scored == [] { return []; }
    hide SortBy, Filter, Distinct, Retries, FallsBack, Tiers;
    var c := Preferred(r);
    var preferredTier := Filter(scored, InClass(c));
    var primaryTier := if preferredTier != [] then preferredTier else scored;
    var unsaturatedPrimary := Filter(primaryTier, NotSaturated);
    var selectionTier := if unsaturatedPrimary != [] then unsaturatedPrimary else primaryTier;
    var selected := SortBy(selectionTier, ByLoad)[0];
    var others := if preferredTier != [] then Filter(scored, NotInClass(c)) else [];
    ranked := [selected] + SortBy(Filter(primaryTier, Except(selected)), BySaturation) + SortBy(others, BySaturation);
    SelectedIsFirst(primaryTier, selected);
    TiersHold(scored, c);
    FinalBranch(scored, c, primaryTier, others, selected);
  }
}
