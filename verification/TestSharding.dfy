/**
 Splitting a test collection over shards: the round-robin partition, the independent multiset
 checker, and the equivalence checks `main` makes on what the shards collect again.
 */
module TestSharding {
  import opened Wrappers
  import opened Seqs
  import opened Sorting
  import Text

  const MAXIMUM_SHARDS := 16

  datatype PartitionFailure = ShardsOutOfRange | EmptyCollection

  // ---------------------------------------------------------------- the partition

  function Min(a: int, b: int): int {
    if a <= b then a else b
  }

  lemma {:induction false} FlattenAppendAt<T>(shards: seq<seq<T>>, k: nat, x: T)
    requires k < |shards|
    ensures multiset(Flatten(shards[k := shards[k] + [x]])) == multiset(Flatten(shards)) + multiset{x}
  {
    var n := |shards| - 1;
    var after := shards[k := shards[k] + [x]];
    if k < n {
      FlattenAppendAt(shards[..n], k, x);
      assert after[..n] == shards[..n][k := shards[k] + [x]];
    } else {
      assert after[..n] == shards[..n];
      assert Flatten(after) == Flatten(shards) + [x];
    }
  }

  lemma {:induction false} FlattenEmpty<T>(shards: seq<seq<T>>)
    requires forall k :: 0 <= k < |shards| ==> shards[k] == []
    ensures Flatten(shards) == []
  {
    if shards != [] {
      FlattenEmpty(shards[..|shards| - 1]);
    }
  }

  /** Where row `j` starts when `n` are dealt per row: `j * n`. */
  function RowStart(j: nat, n: nat): nat {
    if j == 0 then 0 else RowStart(j - 1, n) + n
  }

  lemma {:induction false} RowsIncrease(i: nat, j: nat, n: nat)
    requires i < j
    ensures RowStart(i, n) + n <= RowStart(j, n)
  {
    if i < j - 1 {
      RowsIncrease(i, j - 1, n);
    }
  }

  lemma {:induction false} RowStartIsProduct(j: nat, n: nat)
    ensures RowStart(j, n) == j * n
  {
    if j > 0 {
      RowStartIsProduct(j - 1, n);
    }
  }

  lemma DivisionUnique(n: nat, q1: int, r1: nat, q2: int, r2: nat)
    requires r1 < n && r2 < n && n * q1 + r1 == n * q2 + r2
    ensures q1 == q2 && r1 == r2
  {
    MultipleAtLeast(n, q2 - q1);
    MultipleAtLeast(n, q1 - q2);
  }

  lemma MultipleAtLeast(n: nat, t: int)
    ensures t >= 1 ==> n * t >= n
  {
  }

  /** The index modulo `n` is the place within the row. */
  lemma PlaceInRow(q: nat, r: nat, n: nat)
    requires r < n
    ensures (RowStart(q, n) + r) % n == r
  {
    RowStartIsProduct(q, n);
    var x := n * q + r;
    DivisionUnique(n, q, r, x / n, x % n);
  }

  /** Shard `k` after dealing `q` full rows and `r` more cards: it holds positions k, k + n, k + 2n, ... */
  ghost predicate Dealt(shard: seq<string>, ordered: seq<string>, n: nat, k: nat, q: nat, r: nat) {
    && |shard| == (if k < r then q + 1 else q)
    && forall j: nat :: j < |shard| ==> RowStart(j, n) + k < |ordered| && shard[j] == ordered[RowStart(j, n) + k]
  }

  ghost predicate AllDealt(shards: seq<seq<string>>, ordered: seq<string>, n: nat, q: nat, r: nat) {
    |shards| == n && forall k: nat :: k < n ==> Dealt(shards[k], ordered, n, k, q, r)
  }

  lemma DealOne(shards: seq<seq<string>>, ordered: seq<string>, n: nat, q: nat, r: nat)
    requires AllDealt(shards, ordered, n, q, r) && r < n && RowStart(q, n) + r < |ordered|
    ensures AllDealt(shards[r := shards[r] + [ordered[RowStart(q, n) + r]]], ordered, n, q, r + 1)
  {
    var after := shards[r := shards[r] + [ordered[RowStart(q, n) + r]]];
    forall k: nat | k < n
      ensures Dealt(after[k], ordered, n, k, q, r + 1)
    {
      assert Dealt(shards[k], ordered, n, k, q, r);
    }
  }

  lemma NextRow(shards: seq<seq<string>>, ordered: seq<string>, n: nat, q: nat)
    requires AllDealt(shards, ordered, n, q, n)
    ensures AllDealt(shards, ordered, n, q + 1, 0)
  {
    forall k: nat | k < n
      ensures Dealt(shards[k], ordered, n, k, q + 1, 0)
    {
      assert Dealt(shards[k], ordered, n, k, q, n);
    }
  }

  lemma DealtIsSorted(shard: seq<string>, ordered: seq<string>, n: nat, k: nat, q: nat, r: nat)
    requires n > 0 && SortedBy(ordered, STRING_LEQ) && Dealt(shard, ordered, n, k, q, r)
    ensures SortedBy(shard, STRING_LEQ)
  {
    forall i, j | 0 <= i < j < |shard|
      ensures STRING_LEQ(shard[i], shard[j])
    {
      RowsIncrease(i, j, n);
    }
  }

  /** What `_partition_nodeids` promises: the shards deal the sorted collection out in turn, so each is
      sorted and non-empty, their sizes differ by at most one, and together they hold every node id
      as often as the collection does. */
  ghost predicate FairPartition(nodeids: seq<string>, shards: seq<seq<string>>) {
    && (forall k :: 0 <= k < |shards| ==> shards[k] != [] && SortedBy(shards[k], STRING_LEQ))
    && (forall j, k :: 0 <= j < |shards| && 0 <= k < |shards| ==> |shards[j]| <= |shards[k]| + 1)
    && multiset(Flatten(shards)) == multiset(nodeids)
  }

  /** Position `j` of shard `k` is position `j * n + k` of the sorted collection. */
  ghost predicate RoundRobin(shards: seq<seq<string>>, ordered: seq<string>) {
    forall k, j: nat :: 0 <= k < |shards| && j < |shards[k]| ==>
      RowStart(j, |shards|) + k < |ordered| && shards[k][j] == ordered[RowStart(j, |shards|) + k]
  }

  /** Together the shards hold what `part` holds. */
  ghost predicate Holds(shards: seq<seq<string>>, part: seq<string>) {
    multiset(Flatten(shards)) == multiset(part)
  }

  lemma HoldsOneMore(shards: seq<seq<string>>, k: nat, ordered: seq<string>, i: nat)
    requires k < |shards| && i < |ordered| && Holds(shards, ordered[..i])
    ensures Holds(shards[k := shards[k] + [ordered[i]]], ordered[..i + 1])
  {
    FlattenAppendAt(shards, k, ordered[i]);
    assert ordered[..i + 1] == ordered[..i] + [ordered[i]];
  }

  method ShardOf(index: nat, n: nat, ghost q: nat, ghost r: nat) returns (k: nat)
    requires r < n && index == RowStart(q, n) + r
    ensures k == r
  {
    PlaceInRow(q, r, n);
    k := index % n;
  }

  function EmptyShards(n: nat): (shards: seq<seq<string>>)
    ensures |shards| == n && forall k :: 0 <= k < n ==> shards[k] == []
  {
    seq(n, _ => [])
  }

  lemma NothingDealt(ordered: seq<string>, n: nat)
    ensures AllDealt(EmptyShards(n), ordered, n, 0, 0) && Holds(EmptyShards(n), ordered[..0])
  {
    FlattenEmpty(EmptyShards(n));
  }

  lemma DealStep(shards: seq<seq<string>>, ordered: seq<string>, n: nat, i: nat, q: nat, r: nat)
    requires AllDealt(shards, ordered, n, q, r) && r < n && i == RowStart(q, n) + r < |ordered|
    requires Holds(shards, ordered[..i])
    ensures var after := shards[r := shards[r] + [ordered[i]]];
            var q', r' := if r + 1 == n then q + 1 else q, if r + 1 == n then 0 else r + 1;
            && AllDealt(after, ordered, n, q', r') && i + 1 == RowStart(q', n) + r'
            && Holds(after, ordered[..i + 1])
  {
    DealOne(shards, ordered, n, q, r);
    HoldsOneMore(shards, r, ordered, i);
    if r + 1 == n {
      NextRow(shards[r := shards[r] + [ordered[i]]], ordered, n, q);
    }
  }

  /** The dealing loop; `q` full rows and `r` more cards were dealt. */
  method Deal(ordered: seq<string>, n: nat) returns (shards: seq<seq<string>>, ghost q: nat, ghost r: nat)
    requires 0 < n
    ensures |ordered| == RowStart(q, n) + r && r < n
    ensures AllDealt(shards, ordered, n, q, r) && Holds(shards, ordered[..|ordered|])
  {
    shards := EmptyShards(n);
    NothingDealt(ordered, n);
    q, r := 0, 0;
    for index := 0 to |ordered|
      invariant index == RowStart(q, n) + r && r < n
      invariant AllDealt(shards, ordered, n, q, r)
      invariant Holds(shards, ordered[..index])
    {
      var k := ShardOf(index, n, q, r);
      DealStep(shards, ordered, n, index, q, r);
      shards := shards[k := shards[k] + [ordered[index]]];
      q, r := if r + 1 == n then q + 1 else q, if r + 1 == n then 0 else r + 1;
    }
  }

  lemma DealtIsFair(shards: seq<seq<string>>, ordered: seq<string>, n: nat, q: nat, r: nat)
    requires SortedBy(ordered, STRING_LEQ) && 0 < n <= |ordered|
    requires |ordered| == RowStart(q, n) + r && r < n
    requires AllDealt(shards, ordered, n, q, r)
    requires Holds(shards, ordered)
    ensures FairPartition(ordered, shards)
  {
    assert q > 0;
    forall k | 0 <= k < n
      ensures q <= |shards[k]| <= q + 1 && SortedBy(shards[k], STRING_LEQ)
    {
      assert Dealt(shards[k], ordered, n, k, q, r);
      DealtIsSorted(shards[k], ordered, n, k, q, r);
    }
  }

  lemma DealtIsRoundRobin(shards: seq<seq<string>>, ordered: seq<string>, n: nat, q: nat, r: nat)
    requires AllDealt(shards, ordered, n, q, r)
    ensures RoundRobin(shards, ordered)
  {
    forall k, j: nat | 0 <= k < n && j < |shards[k]|
      ensures RowStart(j, n) + k < |ordered| && shards[k][j] == ordered[RowStart(j, n) + k]
    {
      assert Dealt(shards[k], ordered, n, k, q, r);
    }
  }

  method PartitionNodeids(nodeids: seq<string>, shardCount: int)
    returns (result: Result<seq<seq<string>>, PartitionFailure>)
    ensures result.Ok? <==> 1 <= shardCount <= 16 && nodeids != []
    ensures result.Err? ==> result.error ==
                              if 1 <= shardCount <= 16 then EmptyCollection else ShardsOutOfRange
    ensures result.Ok? ==>
              && |result.value| == Min(shardCount, |nodeids|)
              && FairPartition(nodeids, result.value)
              && RoundRobin(result.value, SortStrings(nodeids))
  {
    if !(1 <= shardCount <= MAXIMUM_SHARDS) {
      return Err(ShardsOutOfRange);
    }
    var ordered := SortStrings(nodeids);
    SortStringsIsSort(nodeids);
    if ordered == [] {
      return Err(EmptyCollection);
    }
    var n := Min(shardCount, |ordered|);
    ghost var q, r;
    var shards;
    shards, q, r := Deal(ordered, n);
    assert ordered[..|ordered|] == ordered;
    DealtIsFair(shards, ordered, n, q, r);
    DealtIsRoundRobin(shards, ordered, n, q, r);
    result := Ok(shards);
  }

  // ---------------------------------------------------------------- the checker

  /** The elements of `a` beyond their count in `b`: Python's `(Counter(a) - Counter(b)).elements()`. */
  function Surplus(a: seq<string>, b: seq<string>): seq<string> {
    if a == [] then []
    else
      var n := |a| - 1;
      Surplus(a[..n], b) + if multiset(a[..n])[a[n]] >= multiset(b)[a[n]] then [a[n]] else []
  }

  lemma LastCounts(a: seq<string>, x: string)
    requires a != []
    ensures multiset(a)[x] == multiset(a[..|a| - 1])[x] + if a[|a| - 1] == x then 1 else 0
  {
    assert a == a[..|a| - 1] + [a[|a| - 1]];
  }

  lemma {:induction false} SurplusCounts(a: seq<string>, b: seq<string>, x: string)
    ensures multiset(Surplus(a, b))[x] == (multiset(a) - multiset(b))[x]
  {
    if a != [] {
      var n := |a| - 1;
      SurplusCounts(a[..n], b, x);
      LastCounts(a, x);
    }
  }

  /** The elements that occur more than once, once each. */
  function Repeated(a: seq<string>): seq<string> {
    if a == [] then []
    else
      var n := |a| - 1;
      Repeated(a[..n]) + if multiset(a[..n])[a[n]] == 1 then [a[n]] else []
  }

  lemma {:induction false} RepeatedCounts(a: seq<string>, x: string)
    ensures x in Repeated(a) <==> multiset(a)[x] > 1
  {
    if a != [] {
      var n := |a| - 1;
      RepeatedCounts(a[..n], x);
      assert a == a[..n] + [a[n]];
    }
  }

  datatype PartitionError =
    | MissingIds(sample: seq<string>)
    | UnexpectedIds(sample: seq<string>)
    | DuplicateIds(sample: seq<string>)

  /** At most five of the ids, in order. */
  function Sample(ids: seq<string>): seq<string> {
    var ordered := SortStrings(ids);
    if |ordered| <= 5 then ordered else ordered[..5]
  }

  /** A sample is the first five in order, or all there are. */
  lemma SampleMeans(ids: seq<string>)
    ensures Sample(ids) <= SortStrings(ids) && |Sample(ids)| == if |ids| < 5 then |ids| else 5
  {
    SortStringsIsSort(ids);
  }

  /** Every id of `a` occurs in `b` at least as often. */
  ghost predicate Covered(a: seq<string>, b: seq<string>) {
    forall x :: multiset(a)[x] <= multiset(b)[x]
  }

  lemma CoveredBothWays(a: seq<string>, b: seq<string>)
    ensures Covered(a, b) && Covered(b, a) <==> multiset(a) == multiset(b)
  {
  }

  lemma SurplusEmpty(a: seq<string>, b: seq<string>)
    ensures Surplus(a, b) == [] <==> Covered(a, b)
  {
    forall x
      ensures multiset(a)[x] <= multiset(b)[x] <==> x !in Surplus(a, b)
    {
      SurplusCounts(a, b, x);
    }
    if Surplus(a, b) != [] {
      assert Surplus(a, b)[0] in Surplus(a, b);
    }
  }

  /** The checker names the missing, the unexpected and the repeated ids, so it finds nothing exactly
      when the shards hold the canonical ids, each exactly once. */
  method PartitionErrors(canonical: seq<string>, shards: seq<seq<string>>) returns (errors: seq<PartitionError>)
    ensures var observed := Flatten(shards);
            errors
            == (if Covered(canonical, observed) then [] else [MissingIds(Sample(Surplus(canonical, observed)))])
             + (if Covered(observed, canonical) then [] else [UnexpectedIds(Sample(Surplus(observed, canonical)))])
             + (if NoDup(observed) then [] else [DuplicateIds(Sample(Repeated(observed)))])
    ensures errors == [] <==> multiset(Flatten(shards)) == multiset(canonical) && NoDup(Flatten(shards))
  {
    var observed := Flatten(shards);
    SurplusEmpty(canonical, observed);
    SurplusEmpty(observed, canonical);
    RepeatedEmpty(observed);
    CoveredBothWays(observed, canonical);
    errors := ListErrors(Surplus(canonical, observed), Surplus(observed, canonical), Repeated(observed),
                         ids => Sample(ids));
  }

  /** The append list of `_partition_errors`; `sample` picks the ids a message shows. */
  method ListErrors(missing: seq<string>, extra: seq<string>, duplicated: seq<string>,
                    sample: seq<string> -> seq<string>)
    returns (errors: seq<PartitionError>)
    ensures errors
            == (if missing == [] then [] else [MissingIds(sample(missing))])
             + (if extra == [] then [] else [UnexpectedIds(sample(extra))])
             + (if duplicated == [] then [] else [DuplicateIds(sample(duplicated))])
  {
    errors := [];
    if missing != [] {
      errors := errors + [MissingIds(sample(missing))];
    }
    if extra != [] {
      errors := errors + [UnexpectedIds(sample(extra))];
    }
    if duplicated != [] {
      errors := errors + [DuplicateIds(sample(duplicated))];
    }
  }

  lemma RepeatedEmpty(a: seq<string>)
    ensures Repeated(a) == [] <==> NoDup(a)
  {
    NoDupIsSingleCount(a);
    forall x
      ensures x in Repeated(a) <==> multiset(a)[x] > 1
    {
      RepeatedCounts(a, x);
    }
    if Repeated(a) != [] {
      assert Repeated(a)[0] in Repeated(a);
    }
  }

  // ---------------------------------------------------------------- collection

  /** The length of what precedes the first "::", or None. */
  function BeforeSeparator(s: string): (n: Option<nat>)
    ensures n.Some? ==> n.value <= |s|
  {
    if |s| < 2 then None
    else if s[0] == ':' && s[1] == ':' then Some(0)
    else
      match BeforeSeparator(s[1..])
      case None => None
      case Some(n) => Some(n + 1)
  }

  /** Two colons stand here. */
  predicate SeparatesAt(s: string, k: nat) {
    k + 2 <= |s| && s[k] == ':' && s[k + 1] == ':'
  }

  lemma {:induction false} BeforeSeparatorMeans(s: string)
    ensures match BeforeSeparator(s)
            case None => forall k: nat :: !SeparatesAt(s, k)
            case Some(n) => SeparatesAt(s, n) && forall k: nat :: k < n ==> !SeparatesAt(s, k)
  {
    if |s| >= 2 && !SeparatesAt(s, 0) {
      BeforeSeparatorMeans(s[1..]);
      forall k: nat | k > 0
        ensures SeparatesAt(s, k) <==> SeparatesAt(s[1..], k - 1)
      {
      }
    }
  }

  /** `_normalize_nodeid`: slashes in the file part only. */
  function NormalizeNodeid(value: string): string {
    match BeforeSeparator(value)
    case None => value
    case Some(n) => Text.Replace(value[..n], '\\', "/") + value[n..]
  }

  /** Before the first two colons a backslash becomes a slash; nothing else changes. */
  lemma NormalizeMeans(value: string, k: nat)
    ensures |NormalizeNodeid(value)| == |value|
    ensures k < |value| ==>
              NormalizeNodeid(value)[k] ==
              if value[k] == '\\' && (exists n: nat :: k < n && SeparatesAt(value, n))
                 && (forall n: nat :: n <= k ==> !SeparatesAt(value, n))
              then '/' else value[k]
  {
    BeforeSeparatorMeans(value);
    match BeforeSeparator(value) {
      case None =>
      case Some(n) => SlashesAt(value[..n], if k < n then k else 0);
    }
  }

  lemma {:induction false} SlashesAt(s: string, k: nat)
    ensures |Text.Replace(s, '\\', "/")| == |s|
    ensures k < |s| ==> Text.Replace(s, '\\', "/")[k] == if s[k] == '\\' then '/' else s[k]
  {
    if s != "" {
      SlashesAt(s[1..], if k > 0 then k - 1 else 0);
    }
  }

  predicate IsNodeid(line: string) {
    Text.StartsWith(line, "tests/") && BeforeSeparator(line).Some?
  }

  /** A node id names a test under `tests/`. */
  lemma NodeidMeans(line: string)
    ensures IsNodeid(line) <==> "tests/" <= line && exists k: nat :: SeparatesAt(line, k)
  {
    BeforeSeparatorMeans(line);
  }

  /** The node ids among the lines of a collection's output. */
  function NodeidsIn(lines: seq<string>): seq<string> {
    if lines == [] then []
    else
      var n := |lines| - 1;
      var line := NormalizeNodeid(Text.Strip(lines[n]));
      NodeidsIn(lines[..n]) + if IsNodeid(line) then [line] else []
  }

  datatype CollectionError = NoNodeids | DuplicateNodeids(sample: seq<string>)

  /** `_parse_nodeids`: succeeds exactly on a non-empty collection without duplicates. */
  method ParseNodeids(lines: seq<string>) returns (result: Result<seq<string>, CollectionError>)
    ensures result.Ok? <==> NodeidsIn(lines) != [] && NoDup(NodeidsIn(lines))
    ensures result.Ok? ==> result.value == NodeidsIn(lines)
    ensures result.Err? ==> result.error == if NodeidsIn(lines) == [] then NoNodeids
                                            else DuplicateNodeids(Sample(Repeated(NodeidsIn(lines))))
  {
    var nodeids: seq<string> := [];
    for i := 0 to |lines|
      invariant nodeids == NodeidsIn(lines[..i])
    {
      assert lines[..i + 1][..i] == lines[..i];
      var line := NormalizeNodeid(Text.Strip(lines[i]));
      if IsNodeid(line) {
        nodeids := nodeids + [line];
      }
    }
    assert lines[..|lines|] == lines;
    if nodeids == [] {
      return Err(NoNodeids);
    }
    RepeatedEmpty(nodeids);
    if Repeated(nodeids) != [] {
      return Err(DuplicateNodeids(Sample(Repeated(nodeids))));
    }
    result := Ok(nodeids);
  }

  // ---------------------------------------------------------------- recollection

  /** The check `main` makes on each shard by itself. */
  predicate LocallyEquivalent(given: seq<string>, actual: seq<string>) {
    Elements(given) == Elements(actual) && |given| == |actual|
  }

  /** For a shard without duplicates, comparing sets and lengths is comparing multisets. */
  lemma LocalCheckIsExact(given: seq<string>, actual: seq<string>)
    requires NoDup(given)
    ensures LocallyEquivalent(given, actual) <==> multiset(given) == multiset(actual)
  {
    if LocallyEquivalent(given, actual) {
      NoDupCardinality(given);
      NoDupCardinality(actual);
      NoDupIsSingleCount(given);
      NoDupIsSingleCount(actual);
      forall x
        ensures multiset(given)[x] == multiset(actual)[x]
      {
        assert x in given <==> x in Elements(given);
        assert x in actual <==> x in Elements(actual);
        assert x in multiset(given) <==> x in given;
        assert x in multiset(actual) <==> x in actual;
      }
    }
    if multiset(given) == multiset(actual) {
      SameMultisetSameMembers(given, actual);
      assert Elements(given) == Elements(actual);
    }
  }

  lemma {:induction false} NoDupParts(shards: seq<seq<string>>, k: nat)
    requires k < |shards| && NoDup(Flatten(shards))
    ensures NoDup(shards[k])
  {
    var n := |shards| - 1;
    var front := Flatten(shards[..n]);
    assert Flatten(shards) == front + shards[n];
    if k < n {
      assert NoDup(front) by {
        forall i, j | 0 <= i < j < |front|
          ensures front[i] != front[j]
        {
          assert Flatten(shards)[i] != Flatten(shards)[j];
        }
      }
      NoDupParts(shards[..n], k);
    } else {
      forall i, j | 0 <= i < j < |shards[k]|
        ensures shards[k][i] != shards[k][j]
      {
        assert Flatten(shards)[|front| + i] != Flatten(shards)[|front| + j];
      }
    }
  }

  lemma {:induction false} FlattenSameMultisets(a: seq<seq<string>>, b: seq<seq<string>>)
    requires |a| == |b| && forall k :: 0 <= k < |a| ==> multiset(a[k]) == multiset(b[k])
    ensures multiset(Flatten(a)) == multiset(Flatten(b))
  {
    if a != [] {
      FlattenSameMultisets(a[..|a| - 1], b[..|b| - 1]);
    }
  }

  /** Shards that pass the local check one by one pass the global one. */
  lemma LocalChecksSuffice(canonical: seq<string>, shards: seq<seq<string>>, actual: seq<seq<string>>)
    requires NoDup(canonical) && multiset(Flatten(shards)) == multiset(canonical)
    requires |actual| == |shards| && forall k :: 0 <= k < |shards| ==> LocallyEquivalent(shards[k], actual[k])
    ensures multiset(Flatten(actual)) == multiset(canonical) && NoDup(Flatten(actual))
  {
    NoDupIsSingleCount(canonical);
    NoDupIsSingleCount(Flatten(shards));
    forall k | 0 <= k < |shards|
      ensures multiset(shards[k]) == multiset(actual[k])
    {
      NoDupParts(shards, k);
      LocalCheckIsExact(shards[k], actual[k]);
    }
    FlattenSameMultisets(shards, actual);
    NoDupIsSingleCount(Flatten(actual));
  }

  datatype Equivalence =
    | BadConfiguration(failure: PartitionFailure)
    | PartitionFailed(errors: seq<PartitionError>)
    | CollectionFailed(indices: seq<nat>)
    | ShardDiffers(index: nat, errors: seq<PartitionError>)
    | GlobalDiffers(errors: seq<PartitionError>)
    | Equivalent

  /** Collecting shard k again yields the ids it was given. */
  ghost predicate CollectsAgain(shard: seq<string>, again: Option<seq<string>>) {
    again.Some? && multiset(again.value) == multiset(shard)
  }

  /** `main` up to the start of execution. `recollected(k)` is what collecting shard k again yields:
      None for a failed command. The in-memory check and the global check never fail; the run gets
      through exactly when every shard collects again what it was given, and otherwise names every
      shard that failed to collect, or else the first that collects something different. */
  method CheckEquivalence(canonical: seq<string>, shardCount: int, recollected: nat -> Option<seq<string>>)
    returns (shards: seq<seq<string>>, outcome: Equivalence)
    requires NoDup(canonical)
    ensures !outcome.PartitionFailed? && !outcome.GlobalDiffers?
    ensures outcome.BadConfiguration? <==> !(1 <= shardCount <= 16) || canonical == []
    ensures !outcome.BadConfiguration? ==>
              && |shards| == Min(shardCount, |canonical|)
              && FairPartition(canonical, shards) && RoundRobin(shards, SortStrings(canonical))
    ensures outcome.Equivalent? <==>
              && !outcome.BadConfiguration?
              && forall k :: 0 <= k < |shards| ==> CollectsAgain(shards[k], recollected(k))
    ensures outcome.CollectionFailed? <==>
              !outcome.BadConfiguration? && exists k: nat :: k < |shards| && recollected(k) == None
    ensures outcome.CollectionFailed? ==>
              forall k: nat :: k in outcome.indices <==> k < |shards| && recollected(k) == None
    ensures outcome.ShardDiffers? ==>
              && outcome.index < |shards| && outcome.errors != []
              && !CollectsAgain(shards[outcome.index], recollected(outcome.index))
              && forall k :: 0 <= k < outcome.index ==> CollectsAgain(shards[k], recollected(k))
  {
    shards := [];
    var partition := PartitionNodeids(canonical, shardCount);
    if partition.Err? {
      return shards, BadConfiguration(partition.error);
    }
    shards := partition.value;
    NoDupIsSingleCount(canonical);
    NoDupIsSingleCount(Flatten(shards));
    var errors := PartitionErrors(canonical, shards);
    if errors != [] {
      return shards, PartitionFailed(errors);
    }
    outcome := CompareCollections(canonical, shards, recollected);
  }

  /** The part of `main` after the shards are dealt: collect each again and compare. */
  method CompareCollections(canonical: seq<string>, shards: seq<seq<string>>, recollected: nat -> Option<seq<string>>)
    returns (outcome: Equivalence)
    requires NoDup(canonical) && NoDup(Flatten(shards)) && multiset(Flatten(shards)) == multiset(canonical)
    ensures outcome.CollectionFailed? || outcome.ShardDiffers? || outcome.Equivalent?
    ensures outcome.Equivalent? <==> forall k :: 0 <= k < |shards| ==> CollectsAgain(shards[k], recollected(k))
    ensures outcome.CollectionFailed? <==> exists k: nat :: k < |shards| && recollected(k) == None
    ensures outcome.CollectionFailed? ==>
              forall k: nat :: k in outcome.indices <==> k < |shards| && recollected(k) == None
    ensures outcome.ShardDiffers? ==>
              && outcome.index < |shards| && outcome.errors != []
              && !CollectsAgain(shards[outcome.index], recollected(outcome.index))
              && forall k :: 0 <= k < outcome.index ==> CollectsAgain(shards[k], recollected(k))
  {
    var failures, actual := Recollect(|shards|, recollected);
    if failures != [] {
      assert failures[0] in failures;
      return CollectionFailed(failures);
    }
    var differs := FirstDifference(shards, actual);
    if differs < |shards| {
      var errors := ShardErrors(shards[differs], actual[differs]);
      return ShardDiffers(differs, errors);
    }
    var errors := GlobalErrors(canonical, shards, actual);
    if errors != [] {
      return GlobalDiffers(errors);
    }
    outcome := Equivalent;
  }

  method ShardErrors(given: seq<string>, again: seq<string>) returns (errors: seq<PartitionError>)
    requires NoDup(given)
    ensures errors == [] <==> multiset(again) == multiset(given)
  {
    FlattenOne(again);
    NoDupIsSingleCount(given);
    NoDupIsSingleCount(again);
    errors := PartitionErrors(given, [again]);
  }

  /** After the shards have been compared one by one, comparing all of them finds nothing more. */
  method GlobalErrors(canonical: seq<string>, shards: seq<seq<string>>, actual: seq<seq<string>>)
    returns (errors: seq<PartitionError>)
    requires NoDup(canonical) && multiset(Flatten(shards)) == multiset(canonical) && |actual| == |shards|
    requires forall k :: 0 <= k < |shards| ==> LocallyEquivalent(shards[k], actual[k])
    ensures errors == []
  {
    LocalChecksSuffice(canonical, shards, actual);
    errors := PartitionErrors(canonical, actual);
  }

  method Recollect(count: nat, recollected: nat -> Option<seq<string>>)
    returns (failures: seq<nat>, actual: seq<seq<string>>)
    ensures |actual| == count
    ensures forall k :: k in failures <==> 0 <= k < count && recollected(k) == None
    ensures forall k :: 0 <= k < count && recollected(k).Some? ==> recollected(k).value == actual[k]
  {
    failures, actual := [], [];
    for k := 0 to count
      invariant |actual| == k
      invariant forall j :: j in failures <==> 0 <= j < k && recollected(j) == None
      invariant forall j :: 0 <= j < k && recollected(j).Some? ==> recollected(j).value == actual[j]
    {
      match recollected(k) {
        case None => failures, actual := failures + [k], actual + [[]];
        case Some(nodeids) => actual := actual + [nodeids];
      }
    }
  }

  /** The first shard that fails its local check, or the number of shards. */
  method FirstDifference(shards: seq<seq<string>>, actual: seq<seq<string>>) returns (k: nat)
    requires |actual| == |shards| && NoDup(Flatten(shards))
    ensures k <= |shards|
    ensures forall j :: 0 <= j < k ==>
              LocallyEquivalent(shards[j], actual[j]) && multiset(actual[j]) == multiset(shards[j])
    ensures k < |shards| ==> multiset(actual[k]) != multiset(shards[k]) && NoDup(shards[k])
  {
    k := 0;
    EveryLocalIsExact(shards, actual);
    while k < |shards|
      invariant k <= |shards|
      invariant forall j :: 0 <= j < k ==> LocallyEquivalent(shards[j], actual[j])
    {
      if Elements(shards[k]) != Elements(actual[k]) || |shards[k]| != |actual[k]| {
        NoDupParts(shards, k);
        return;
      }
      k := k + 1;
    }
  }

  lemma FlattenOne<T>(s: seq<T>)
    ensures Flatten([s]) == s
  {
    assert [s][..0] == [];
    assert Flatten([s]) == [] + s;
  }

  lemma EveryLocalIsExact(shards: seq<seq<string>>, actual: seq<seq<string>>)
    requires NoDup(Flatten(shards)) && |actual| == |shards|
    ensures forall k :: 0 <= k < |shards| ==>
              (LocallyEquivalent(shards[k], actual[k]) <==> multiset(shards[k]) == multiset(actual[k]))
  {
    forall k | 0 <= k < |shards|
      ensures LocallyEquivalent(shards[k], actual[k]) <==> multiset(shards[k]) == multiset(actual[k])
    {
      NoDupParts(shards, k);
      LocalCheckIsExact(shards[k], actual[k]);
    }
  }

  // ---------------------------------------------------------------- execution

  function Total(tests: seq<nat>): nat {
    if tests == [] then 0 else Total(tests[..|tests| - 1]) + tests[|tests| - 1]
  }

  lemma {:induction false} TotalIsFlattened(shards: seq<seq<string>>, tests: seq<nat>)
    requires |tests| == |shards| && forall k :: 0 <= k < |shards| ==> tests[k] == |shards[k]|
    ensures Total(tests) == |Flatten(shards)|
  {
    if shards != [] {
      TotalIsFlattened(shards[..|shards| - 1], tests[..|tests| - 1]);
    }
  }

  /** When every shard ran as many tests as it was given, the suite ran all of them: the final
      execution check cannot fail after the per-shard ones passed. */
  lemma ExecutionTotalFollows(canonical: seq<string>, shards: seq<seq<string>>, tests: seq<nat>)
    requires FairPartition(canonical, shards)
    requires |tests| == |shards| && forall k :: 0 <= k < |shards| ==> tests[k] == |shards[k]|
    ensures Total(tests) == |canonical|
  {
    TotalIsFlattened(shards, tests);
    SameMultisetSameMembers(Flatten(shards), canonical);
  }
}
