/**
 Dependency graphs of compiled contracts: the check that accepts a batch, the order in which it is enqueued, and the
 enqueue loop itself.
 */
module Graph {
  import opened Common

  type ContractId = string
  type JobId = string

  datatype Contract = Contract(id: ContractId, dependsOn: seq<ContractId>)

  type Index = map<ContractId, Contract>

  /** Every entry is filed under its own id and its dependencies are filed too. */
  predicate Complete(byId: Index) {
    forall id :: id in byId ==>
      byId[id].id == id && forall k :: 0 <= k < |byId[id].dependsOn| ==> byId[id].dependsOn[k] in byId
  }

  function Depends(byId: Index, id: ContractId): seq<ContractId> {
    if id in byId then byId[id].dependsOn else []
  }

  /** Each contract on the walk depends on the next. */
  predicate IsWalk(byId: Index, walk: seq<ContractId>) {
    forall i :: 0 <= i < |walk| - 1 ==> walk[i + 1] in Depends(byId, walk[i])
  }

  predicate IsCycle(byId: Index, walk: seq<ContractId>) {
    |walk| >= 2 && walk[0] == walk[|walk| - 1] && IsWalk(byId, walk)
  }

  ghost predicate HasCycle(byId: Index) {
    exists walk :: IsCycle(byId, walk)
  }

  predicate UniqueIds(contracts: seq<Contract>) {
    forall i, j :: 0 <= i < j < |contracts| ==> contracts[i].id != contracts[j].id
  }

  predicate HasId(contracts: seq<Contract>, id: ContractId) {
    exists i :: 0 <= i < |contracts| && contracts[i].id == id
  }

  predicate NoneMissing(contracts: seq<Contract>) {
    forall i, k :: 0 <= i < |contracts| && 0 <= k < |contracts[i].dependsOn| ==>
        HasId(contracts, contracts[i].dependsOn[k])
  }

  /** The contracts of a batch by id; a later one replaces an earlier one. */
  function ById(contracts: seq<Contract>): Index {
    if contracts == [] then map[]
    else ById(contracts[..|contracts| - 1])[contracts[|contracts| - 1].id := contracts[|contracts| - 1]]
  }

  /** Unique ids, no missing dependency, no cycle. */
  ghost predicate WellFormed(contracts: seq<Contract>) {
    UniqueIds(contracts) && NoneMissing(contracts) && !HasCycle(ById(contracts))
  }

  lemma {:induction false} ByIdKeys(contracts: seq<Contract>, id: ContractId)
    ensures id in ById(contracts) <==> HasId(contracts, id)
    ensures id in ById(contracts) ==> ById(contracts)[id].id == id && ById(contracts)[id] in contracts
  {
    if contracts != [] {
      var before, last := contracts[..|contracts| - 1], contracts[|contracts| - 1];
      ByIdKeys(before, id);
      if id == last.id {
        assert contracts[|contracts| - 1].id == id;
      } else {
        assert HasId(before, id) ==> HasId(contracts, id) by {
          if HasId(before, id) {
            var i :| 0 <= i < |before| && before[i].id == id;
            assert contracts[i].id == id;
          }
        }
        if HasId(contracts, id) {
          var i :| 0 <= i < |contracts| && contracts[i].id == id;
          assert before[i].id == id;
        }
      }
    }
  }

  lemma {:induction false} ByIdUnique(contracts: seq<Contract>, i: nat)
    requires UniqueIds(contracts) && i < |contracts|
    ensures contracts[i].id in ById(contracts) && ById(contracts)[contracts[i].id] == contracts[i]
  {
    if i < |contracts| - 1 { ByIdUnique(contracts[..|contracts| - 1], i); }
  }

  lemma ByIdIs(contracts: seq<Contract>)
    ensures forall id :: id in ById(contracts) <==> HasId(contracts, id)
    ensures forall id :: id in ById(contracts) ==> ById(contracts)[id].id == id && ById(contracts)[id] in contracts
    ensures UniqueIds(contracts) ==>
              forall i :: 0 <= i < |contracts| ==>
                contracts[i].id in ById(contracts) && ById(contracts)[contracts[i].id] == contracts[i]
  {
    forall id ensures id in ById(contracts) <==> HasId(contracts, id)
              ensures id in ById(contracts) ==> ById(contracts)[id].id == id && ById(contracts)[id] in contracts {
      ByIdKeys(contracts, id);
    }
    if UniqueIds(contracts) {
      forall i | 0 <= i < |contracts|
        ensures contracts[i].id in ById(contracts) && ById(contracts)[contracts[i].id] == contracts[i]
      {
        ByIdUnique(contracts, i);
      }
    }
  }

  lemma CompleteBatch(contracts: seq<Contract>)
    requires UniqueIds(contracts) && NoneMissing(contracts)
    ensures Complete(ById(contracts))
  {
    ByIdIs(contracts);
    var byId := ById(contracts);
    forall id | id in byId ensures forall k :: 0 <= k < |byId[id].dependsOn| ==> byId[id].dependsOn[k] in byId {
      var i :| 0 <= i < |contracts| && contracts[i] == byId[id];
      forall k | 0 <= k < |byId[id].dependsOn| ensures byId[id].dependsOn[k] in byId {
        assert HasId(contracts, contracts[i].dependsOn[k]);
      }
    }
  }

  // ----- orders that put dependencies first -----

  /** No repetition, and every dependency of an entry is an earlier entry. */
  predicate DependenciesFirst(byId: Index, order: seq<ContractId>) {
    && (forall i, j :: 0 <= i < j < |order| ==> order[i] != order[j])
    && (forall i :: 0 <= i < |order| ==>
          order[i] in byId && forall d :: d in byId[order[i]].dependsOn ==> d in order[..i])
  }

  lemma DependenciesFirstSnoc(byId: Index, order: seq<ContractId>, id: ContractId)
    requires DependenciesFirst(byId, order) && id in byId && id !in order
    requires forall d :: d in byId[id].dependsOn ==> d in order
    ensures DependenciesFirst(byId, order + [id])
  {
    var longer := order + [id];
    forall i | 0 <= i < |longer|
      ensures longer[i] in byId && forall d :: d in byId[longer[i]].dependsOn ==> d in longer[..i]
    {
      assert i < |order| ==> longer[..i] == order[..i];
      assert i == |order| ==> longer[..i] == order;
    }
  }

  /** A walk that starts in such an order goes strictly backwards in it. */
  lemma {:induction false} WalkGoesBack(byId: Index, order: seq<ContractId>, walk: seq<ContractId>, i: nat)
    requires DependenciesFirst(byId, order) && i < |order| && |walk| >= 2 && IsWalk(byId, walk) && walk[0] == order[i]
    ensures walk[|walk| - 1] in order[..i]
  {
    assert walk[1] in Depends(byId, walk[0]);
    assert walk[1] in order[..i];
    var j :| 0 <= j < i && order[j] == walk[1];
    if |walk| > 2 {
      var rest := walk[1..];
      forall k | 0 <= k < |rest| - 1 ensures rest[k + 1] in Depends(byId, rest[k]) {
        assert rest[k] == walk[k + 1] && rest[k + 1] == walk[k + 1 + 1];
      }
      WalkGoesBack(byId, order, rest, j);
      var k :| 0 <= k < j && order[..j][k] == walk[|walk| - 1];
      assert order[..i][k] == walk[|walk| - 1];
    }
  }

  /** If all contracts can be put in such an order, there is no cycle. */
  lemma OrderedIsAcyclic(byId: Index, order: seq<ContractId>)
    requires DependenciesFirst(byId, order) && forall id :: id in byId ==> id in order
    ensures !HasCycle(byId)
  {
    forall walk | IsCycle(byId, walk) ensures false {
      assert walk[1] in Depends(byId, walk[0]);
      var i :| 0 <= i < |order| && order[i] == walk[0];
      assert walk[0] !in order[..i];
      WalkGoesBack(byId, order, walk, i);
    }
  }

  /** A walk that comes back to one of its contracts contains a cycle. */
  lemma ClosedWalkIsCycle(byId: Index, walk: seq<ContractId>, id: ContractId)
    requires IsWalk(byId, walk + [id]) && id in walk
    ensures HasCycle(byId)
  {
    var i :| 0 <= i < |walk| && walk[i] == id;
    var cycle := (walk + [id])[i..];
    forall k | 0 <= k < |cycle| - 1 ensures cycle[k + 1] in Depends(byId, cycle[k]) {
      assert cycle[k] == (walk + [id])[i + k] && cycle[k + 1] == (walk + [id])[i + k + 1];
    }
    assert IsCycle(byId, cycle);
  }

  lemma WalkSnoc(byId: Index, walk: seq<ContractId>, id: ContractId)
    requires IsWalk(byId, walk) && (walk == [] || id in Depends(byId, walk[|walk| - 1]))
    ensures IsWalk(byId, walk + [id])
  {
    var longer := walk + [id];
    forall i | 0 <= i < |longer| - 1 ensures longer[i + 1] in Depends(byId, longer[i]) {
      if i < |walk| - 1 { assert walk[i + 1] in Depends(byId, walk[i]); }
    }
  }

  // ----- validateGraph -----

  class Checker {
    const byId: Index
    var visiting: set<ContractId>
    var visited: set<ContractId>
    /** The visited contracts in the order in which their visits ended. */
    ghost var order: seq<ContractId>

    constructor (byId: Index)
      ensures this.byId == byId && visiting == {} && visited == {} && order == []
    {
      this.byId := byId;
      visiting, visited, order := {}, {}, [];
    }

    ghost predicate Valid() reads this {
      && DependenciesFirst(byId, order)
      && (forall id :: id in visited <==> id in order)
      && visiting !! visited && visiting <= byId.Keys
    }

    /** `walk` is the chain of visits that led here. */
    method Visit(id: ContractId, ghost walk: seq<ContractId>) returns (ok: bool)
      requires Valid() && Complete(byId) && id in byId
      requires IsWalk(byId, walk + [id]) && forall v :: v in visiting <==> v in walk
      modifies this
      ensures Valid() && (ok ==> id in visited && visiting == old(visiting)) && old(visited) <= visited
      ensures !ok ==> HasCycle(byId)
      decreases byId.Keys - visiting, 1, 0
    {
      if id in visited { return true; }
      if id in visiting {
        ClosedWalkIsCycle(byId, walk, id);
        return false;
      }
      ghost var before := visiting;
      visiting := visiting + {id};
      ok := VisitAll(id, walk + [id]);
      if !ok { return; }
      assert visiting == before + {id};
      visiting := visiting - {id};
      assert visiting == before;
      DependenciesFirstSnoc(byId, order, id);
      order := order + [id];
      visited := visited + {id};
    }

    /** The loop over the dependencies of a contract that is being visited. */
    method VisitAll(id: ContractId, ghost walk: seq<ContractId>) returns (ok: bool)
      requires Valid() && Complete(byId) && id in byId && id in visiting
      requires walk != [] && walk[|walk| - 1] == id && IsWalk(byId, walk) && forall v :: v in visiting <==> v in walk
      modifies this
      ensures Valid() && old(visited) <= visited
      ensures ok ==> visiting == old(visiting) && forall d :: d in byId[id].dependsOn ==> d in visited
      ensures !ok ==> HasCycle(byId)
      decreases byId.Keys - visiting, 2, 0
    {
      var dependencies := byId[id].dependsOn;
      var i := 0;
      while i < |dependencies|
        invariant 0 <= i <= |dependencies|
        invariant Valid() && visiting == old(visiting) && old(visited) <= visited
        invariant forall k :: 0 <= k < i ==> dependencies[k] in visited
      {
        WalkSnoc(byId, walk, dependencies[i]);
        ok := Visit(dependencies[i], walk);
        if !ok { return; }
        i := i + 1;
      }
      return true;
    }
  }

  /** Builds the index; false if an id occurs twice. */
  method BuildIndex(contracts: seq<Contract>) returns (byId: Index, unique: bool)
    ensures unique <==> UniqueIds(contracts)
    ensures unique ==> byId == ById(contracts)
  {
    byId, unique := map[], true;
    var i := 0;
    while i < |contracts|
      invariant 0 <= i <= |contracts|
      invariant UniqueIds(contracts[..i]) && byId == ById(contracts[..i])
    {
      assert contracts[..i + 1][..i] == contracts[..i];
      ByIdIs(contracts[..i]);
      if contracts[i].id in byId {
        var k :| 0 <= k < i && contracts[..i][k].id == contracts[i].id;
        assert contracts[k].id == contracts[i].id;
        return byId, false;
      }
      forall k | 0 <= k < i ensures contracts[k].id != contracts[i].id {
        assert contracts[..i][k] == contracts[k];
      }
      byId := byId[contracts[i].id := contracts[i]];
      i := i + 1;
    }
    assert contracts[..i] == contracts;
  }

  method CheckDependencies(contracts: seq<Contract>, byId: Index) returns (ok: bool)
    requires byId == ById(contracts)
    ensures ok <==> NoneMissing(contracts)
  {
    ByIdIs(contracts);
    var i := 0;
    while i < |contracts|
      invariant 0 <= i <= |contracts|
      invariant forall j, k :: 0 <= j < i && 0 <= k < |contracts[j].dependsOn| ==>
                  HasId(contracts, contracts[j].dependsOn[k])
    {
      var dependencies := contracts[i].dependsOn;
      var k := 0;
      while k < |dependencies|
        invariant 0 <= k <= |dependencies|
        invariant forall m :: 0 <= m < k ==> HasId(contracts, dependencies[m])
      {
        if dependencies[k] !in byId { return false; }
        k := k + 1;
      }
      i := i + 1;
    }
    return true;
  }

  /** validateGraph accepts exactly the batches with unique ids, no missing dependency and no cycle. */
  method ValidateGraph(contracts: seq<Contract>) returns (ok: bool)
    ensures ok <==> WellFormed(contracts)
  {
    var byId, unique := BuildIndex(contracts);
    if !unique { return false; }
    ok := CheckDependencies(contracts, byId);
    if !ok { return; }
    CompleteBatch(contracts);
    ByIdIs(contracts);
    var checker := new Checker(byId);
    var i := 0;
    while i < |contracts|
      invariant 0 <= i <= |contracts| && fresh(checker) && checker.byId == byId
      invariant checker.Valid() && checker.visiting == {}
      invariant forall k :: 0 <= k < i ==> contracts[k].id in checker.visited
    {
      ok := checker.Visit(contracts[i].id, []);
      if !ok { return; }
      i := i + 1;
    }
    forall id | id in byId ensures id in checker.order {
      var k :| 0 <= k < |contracts| && contracts[k].id == id;
    }
    OrderedIsAcyclic(byId, checker.order);
    return true;
  }

  // ----- topologicalOrder -----

  function Ids(contracts: seq<Contract>): seq<ContractId> {
    seq(|contracts|, i requires 0 <= i < |contracts| => contracts[i].id)
  }

  class Sorter {
    const byId: Index
    var visited: set<ContractId>
    var ordered: seq<Contract>

    constructor (byId: Index)
      ensures this.byId == byId && visited == {} && ordered == []
    {
      this.byId := byId;
      visited, ordered := {}, [];
    }

    ghost predicate Valid() reads this {
      && DependenciesFirst(byId, Ids(ordered))
      && (forall id :: id in visited <==> id in Ids(ordered))
      && (forall i :: 0 <= i < |ordered| ==> ordered[i].id in byId && ordered[i] == byId[ordered[i].id])
    }

    /** The recursion ends because a chain of visits in a graph without cycles never repeats a contract. */
    method Visit(contract: Contract, ghost walk: seq<ContractId>)
      requires Valid() && Complete(byId) && !HasCycle(byId)
      requires contract.id in byId && byId[contract.id] == contract
      requires IsWalk(byId, walk + [contract.id]) && forall v :: v in walk ==> v in byId
      requires forall v :: v in walk ==> v !in visited
      modifies this
      ensures Valid() && contract.id in visited && old(visited) <= visited
      ensures forall v :: v in walk ==> v !in visited
      decreases byId.Keys - (set v | v in walk), |contract.dependsOn| + 1
    {
      if contract.id in visited { return; }
      if contract.id in walk { ClosedWalkIsCycle(byId, walk, contract.id); }
      ghost var longer := walk + [contract.id];
      ghost var here := set v | v in walk;
      assert (set v | v in longer) == here + {contract.id};
      var i := 0;
      while i < |contract.dependsOn|
        invariant 0 <= i <= |contract.dependsOn|
        invariant Valid() && old(visited) <= visited
        invariant forall v :: v in longer ==> v !in visited
        invariant forall k :: 0 <= k < i ==> contract.dependsOn[k] in visited
      {
        var dependency := contract.dependsOn[i];
        WalkSnoc(byId, longer, dependency);
        assert contract.id in byId.Keys - here && contract.id !in byId.Keys - (set v | v in longer);
        Visit(byId[dependency], longer);
        i := i + 1;
      }
      assert contract.id in longer && contract.id !in Ids(ordered);
      DependenciesFirstSnoc(byId, Ids(ordered), contract.id);
      assert Ids(ordered + [contract]) == Ids(ordered) + [contract.id];
      visited := visited + {contract.id};
      ordered := ordered + [contract];
    }
  }

  /** topologicalOrder terminates on every accepted batch, with a permutation that puts dependencies first. */
  method TopologicalOrder(contracts: seq<Contract>) returns (ordered: seq<Contract>)
    requires WellFormed(contracts)
    ensures DependenciesFirst(ById(contracts), Ids(ordered))
    ensures multiset(ordered) == multiset(contracts)
  {
    ByIdIs(contracts);
    CompleteBatch(contracts);
    var byId, _ := BuildIndex(contracts);
    var sorter := new Sorter(byId);
    var i := 0;
    while i < |contracts|
      invariant 0 <= i <= |contracts| && fresh(sorter) && sorter.byId == byId && sorter.Valid()
      invariant forall k :: 0 <= k < i ==> contracts[k].id in sorter.visited
    {
      sorter.Visit(contracts[i], []);
      i := i + 1;
    }
    ordered := sorter.ordered;
    AllOrdered(contracts, ordered);
  }

  /** An order of the indexed contracts that misses none is a permutation of the batch. */
  lemma AllOrdered(contracts: seq<Contract>, ordered: seq<Contract>)
    requires UniqueIds(contracts) && DependenciesFirst(ById(contracts), Ids(ordered))
    requires forall i :: 0 <= i < |ordered| ==>
               ordered[i].id in ById(contracts) && ordered[i] == ById(contracts)[ordered[i].id]
    requires forall k :: 0 <= k < |contracts| ==> contracts[k].id in Ids(ordered)
    ensures multiset(ordered) == multiset(contracts)
  {
    ByIdIs(contracts);
    forall i, j | 0 <= i < j < |ordered| ensures ordered[i].id != ordered[j].id {
      assert Ids(ordered)[i] != Ids(ordered)[j];
    }
    forall x | x in contracts ensures x in ordered {
      var k :| 0 <= k < |contracts| && contracts[k] == x;
      var i :| 0 <= i < |Ids(ordered)| && Ids(ordered)[i] == x.id;
      assert ordered[i] == x;
    }
    SameMembers(ordered, contracts);
  }

  lemma {:induction false} CountOnce(s: seq<Contract>)
    requires UniqueIds(s)
    ensures forall x :: multiset(s)[x] == if x in s then 1 else 0
  {
    if s != [] {
      var before, last := s[..|s| - 1], s[|s| - 1];
      CountOnce(before);
      assert s == before + [last];
      assert last !in before;
    }
  }

  lemma SameMembers(left: seq<Contract>, right: seq<Contract>)
    requires UniqueIds(left) && UniqueIds(right) && forall x :: x in left <==> x in right
    ensures multiset(left) == multiset(right)
  {
    CountOnce(left);
    CountOnce(right);
  }

  lemma CountTwice(s: seq<Contract>, i: nat, j: nat)
    requires i < j < |s| && s[i] == s[j]
    ensures multiset(s)[s[i]] >= 2
  {
    var first, second := s[..j], s[j..];
    assert s == first + second;
    assert s[i] in first && second[0] in second;
    assert first[i] == s[i] && second[0] == s[i];
    assert multiset(first)[s[i]] >= 1 && multiset(second)[s[i]] >= 1;
  }

  lemma PermutedUnique(contracts: seq<Contract>, sorted: seq<Contract>)
    requires UniqueIds(contracts) && multiset(contracts) == multiset(sorted)
    ensures UniqueIds(sorted)
  {
    CountOnce(contracts);
    forall i, j | 0 <= i < j < |sorted| ensures sorted[i].id != sorted[j].id {
      if sorted[i] == sorted[j] { CountTwice(sorted, i, j); }
      assert sorted[i] in multiset(sorted) && sorted[j] in multiset(sorted);
      var a :| 0 <= a < |contracts| && contracts[a] == sorted[i];
      var b :| 0 <= b < |contracts| && contracts[b] == sorted[j];
      assert a != b;
    }
  }

  lemma IndexedIn(contracts: seq<Contract>, sorted: seq<Contract>, id: ContractId)
    requires UniqueIds(sorted) && (forall x :: x in contracts ==> x in sorted) && id in ById(contracts)
    ensures id in ById(sorted) && ById(sorted)[id] == ById(contracts)[id]
  {
    ByIdKeys(contracts, id);
    var i :| 0 <= i < |sorted| && sorted[i] == ById(contracts)[id];
    ByIdUnique(sorted, i);
  }

  lemma PermutedIndex(contracts: seq<Contract>, sorted: seq<Contract>)
    requires UniqueIds(contracts) && UniqueIds(sorted) && multiset(contracts) == multiset(sorted)
    ensures ById(sorted) == ById(contracts)
  {
    assert forall x :: x in contracts <==> x in multiset(contracts);
    assert forall x :: x in sorted <==> x in multiset(sorted);
    forall id ensures id in ById(contracts) <==> id in ById(sorted)
              ensures id in ById(contracts) ==> ById(sorted)[id] == ById(contracts)[id] {
      if id in ById(contracts) { IndexedIn(contracts, sorted, id); }
      if id in ById(sorted) { IndexedIn(sorted, contracts, id); }
    }
  }

  /** Sorting an accepted batch leaves it accepted. */
  lemma SortedStaysWellFormed(contracts: seq<Contract>, sorted: seq<Contract>)
    requires WellFormed(contracts) && multiset(contracts) == multiset(sorted)
    ensures WellFormed(sorted) && ById(sorted) == ById(contracts)
  {
    PermutedUnique(contracts, sorted);
    PermutedIndex(contracts, sorted);
    CompleteBatch(contracts);
    forall i, k | 0 <= i < |sorted| && 0 <= k < |sorted[i].dependsOn| ensures HasId(sorted, sorted[i].dependsOn[k]) {
      ByIdUnique(sorted, i);
      ByIdKeys(sorted, sorted[i].dependsOn[k]);
    }
  }

  // ----- the enqueue loop -----

  datatype Enqueued = Enqueued(contract: ContractId, job: JobId, dependsOn: seq<JobId>)

  /**
   compileAndEnqueue on an accepted batch: every contract is enqueued once, after its dependencies and with the job
   ids those got, in order; the error for a dependency that was not compiled first cannot occur.
   */
  method EnqueueAll(contracts: seq<Contract>, enqueue: Contract -> JobId)
    returns (records: seq<Enqueued>, failed: bool, ordered: seq<Contract>)
    requires WellFormed(contracts)
    ensures !failed && |records| == |ordered| && multiset(ordered) == multiset(contracts)
    ensures forall i :: 0 <= i < |records| ==> RecordOf(records[i], ordered[i], enqueue)
    ensures forall i, k :: 0 <= i < |records| && 0 <= k < |ordered[i].dependsOn| && k < |records[i].dependsOn| ==>
              Resolved(records, i, ordered[i].dependsOn[k], records[i].dependsOn[k])
  {
    ordered := TopologicalOrder(contracts);
    var jobs: map<ContractId, JobId> := map[];
    records, failed := [], false;
    var i := 0;
    while i < |ordered|
      invariant 0 <= i <= |ordered| && |records| == i && !failed
      invariant forall k :: 0 <= k < i ==> RecordOf(records[k], ordered[k], enqueue)
      invariant JobsOf(jobs, records)
      invariant forall j, k :: 0 <= j < i && 0 <= k < |records[j].dependsOn| ==>
                  Resolved(records, j, ordered[j].dependsOn[k], records[j].dependsOn[k])
    {
      var compiled := ordered[i];
      DependenciesEnqueued(contracts, ordered, records, jobs, enqueue);
      var dependsOn, missing := ResolveDependencies(compiled.dependsOn, jobs);
      if missing { return records, true, ordered; }
      forall k | 0 <= k < |dependsOn| ensures Resolved(records, i, compiled.dependsOn[k], dependsOn[k]) {
        assert compiled.dependsOn[k] in jobs;
      }
      ResolvedSnoc(records, Enqueued(compiled.id, enqueue(compiled), dependsOn));
      records := records + [Enqueued(compiled.id, enqueue(compiled), dependsOn)];
      jobs := jobs[compiled.id := enqueue(compiled)];
      i := i + 1;
    }
  }

  predicate RecordOf(record: Enqueued, compiled: Contract, enqueue: Contract -> JobId) {
    record.contract == compiled.id && record.job == enqueue(compiled) && |record.dependsOn| == |compiled.dependsOn|
  }

  /** The table holds the jobs of the contracts enqueued so far. */
  predicate JobsOf(jobs: map<ContractId, JobId>, records: seq<Enqueued>) {
    && (forall k :: 0 <= k < |records| ==> records[k].contract in jobs)
    && (forall id :: id in jobs ==> Resolved(records, |records|, id, jobs[id]))
  }

  lemma ResolvedSnoc(records: seq<Enqueued>, last: Enqueued)
    ensures forall i, id, job :: i <= |records| && Resolved(records, i, id, job) ==>
              Resolved(records + [last], i, id, job)
    ensures forall id, job :: Resolved(records, |records|, id, job) ==>
              Resolved(records + [last], |records| + 1, id, job)
    ensures Resolved(records + [last], |records| + 1, last.contract, last.job)
  {
    forall i, id, job | i <= |records| && Resolved(records, i, id, job)
      ensures Resolved(records + [last], i, id, job) && Resolved(records + [last], |records| + 1, id, job)
    {
      var j :| 0 <= j < i && j < |records| && records[j].contract == id && records[j].job == job;
      assert (records + [last])[j] == records[j];
    }
    assert (records + [last])[|records|] == last;
  }

  /** When a contract's turn comes, all its dependencies have been enqueued. */
  lemma DependenciesEnqueued(contracts: seq<Contract>, ordered: seq<Contract>, records: seq<Enqueued>,
                             jobs: map<ContractId, JobId>,
                             enqueue: Contract -> JobId)
    requires WellFormed(contracts) && multiset(ordered) == multiset(contracts)
             && DependenciesFirst(ById(contracts), Ids(ordered))
    requires |records| < |ordered| && JobsOf(jobs, records)
    requires forall k :: 0 <= k < |records| ==> RecordOf(records[k], ordered[k], enqueue)
    ensures forall d :: d in ordered[|records|].dependsOn ==> d in jobs
  {
    var i := |records|;
    var compiled := ordered[i];
    ByIdIs(contracts);
    assert compiled in multiset(ordered);
    var m :| 0 <= m < |contracts| && contracts[m] == compiled;
    assert ById(contracts)[compiled.id] == compiled;
    assert Ids(ordered)[i] == compiled.id;
    forall d | d in compiled.dependsOn ensures d in jobs {
      assert d in Ids(ordered)[..i];
      var j :| 0 <= j < i && Ids(ordered)[..i][j] == d;
      assert ordered[j].id == d;
    }
  }

  /** An earlier record enqueued this contract as this job. */
  predicate Resolved(records: seq<Enqueued>, i: int, id: ContractId, job: JobId) {
    exists j :: 0 <= j < i && j < |records| && records[j].contract == id && records[j].job == job
  }

  /** The job ids of the dependencies, in order; an unknown one is an error. */
  method ResolveDependencies(dependencies: seq<ContractId>, jobs: map<ContractId, JobId>)
    returns (ids: seq<JobId>, missing: bool)
    ensures missing <==> exists k :: 0 <= k < |dependencies| && dependencies[k] !in jobs
    ensures !missing ==>
              |ids| == |dependencies|
              && forall k :: 0 <= k < |ids| ==> dependencies[k] in jobs && ids[k] == jobs[dependencies[k]]
  {
    ids, missing := [], false;
    for k := 0 to |dependencies|
      invariant |ids| == k && forall m :: 0 <= m < k ==> dependencies[m] in jobs && ids[m] == jobs[dependencies[m]]
    {
      if dependencies[k] !in jobs { return ids, true; }
      ids := ids + [jobs[dependencies[k]]];
    }
  }
}
