/**
 Proposal lineage: the contributions an attempt builds on, collected from its direct parents and from what those were
 themselves composed of.
 */
module Lineage {
  import opened Common

  type AttemptId = nat

  /** A bound proposal; `binding` stands for the fingerprinted fields besides the size. */
  datatype Contribution = Contribution(attempt: AttemptId, binding: string, bytes: nat)

  datatype Lineage = Lineage(parents: seq<AttemptId>, contributions: seq<Contribution>, composed: bool)

  /** Attempts in the store, with their lineage if they have parents. */
  type Store = map<AttemptId, Option<Lineage>>

  /** What binding an attempt's proposal gives; `None` is an error. */
  type Binder = AttemptId -> Option<Contribution>

  datatype Budget = Budget(maxContributions: nat, maxBytes: nat)

  // ----- collecting -----

  predicate Has(list: seq<Contribution>, a: AttemptId) {
    exists i :: 0 <= i < |list| && list[i].attempt == a
  }

  /** `add`: a known attempt must come with the same binding; a new one goes last. */
  function Add(list: seq<Contribution>, c: Contribution): Option<seq<Contribution>> {
    if Has(list, c.attempt) then (if c in list then Some(list) else None) else Some(list + [c])
  }

  function AddAll(list: seq<Contribution>, more: seq<Contribution>): Option<seq<Contribution>> {
    if more == [] then Some(list)
    else match AddAll(list, more[..|more| - 1]) case None => None case Some(l) => Add(l, more[|more| - 1])
  }

  /** The contributions of a parent, then the parent itself. */
  function AddParent(store: Store, list: seq<Contribution>, a: AttemptId, bind: Binder): Option<seq<Contribution>> {
    if a !in store then None
    else
      var inherited := match store[a]
        case None => Some(list)
        case Some(lineage) => if lineage.composed then AddAll(list, lineage.contributions) else None;
      match inherited
      case None => None
      case Some(l) =>
        match bind(a)
        case None => None
        case Some(c) => if c.attempt == a then Add(l, c) else None
  }

  function Collect(store: Store, parents: seq<AttemptId>, bind: Binder): Option<seq<Contribution>> {
    if parents == [] then Some([])
    else match Collect(store, parents[..|parents| - 1], bind)
      case None => None
      case Some(l) => AddParent(store, l, parents[|parents| - 1], bind)
  }

  function Bytes(list: seq<Contribution>): nat {
    if list == [] then 0 else Bytes(list[..|list| - 1]) + list[|list| - 1].bytes
  }

  /** The parents without repetition, in order of first occurrence. */
  function Unique(ids: seq<AttemptId>): seq<AttemptId> {
    if ids == [] then []
    else
      var before, last := Unique(ids[..|ids| - 1]), ids[|ids| - 1];
      if last in before then before else before + [last]
  }

  /** Every contribution still binds to the same proposal. */
  predicate Revalidates(list: seq<Contribution>, rebind: Binder) {
    forall i :: 0 <= i < |list| ==> rebind(list[i].attempt) == Some(list[i])
  }

  function Build(store: Store, parents: seq<AttemptId>, bind: Binder, rebind: Binder, budget: Budget): Option<Lineage> {
    match Collect(store, Unique(parents), bind)
    case None => None
    case Some(list) =>
      if |list| > budget.maxContributions || Bytes(list) > budget.maxBytes || !Revalidates(list, rebind) then None
      else Some(Lineage(Unique(parents), list, false))
  }

  /** buildProposalLineage. */
  method BuildProposalLineage(store: Store, parents: seq<AttemptId>, bind: Binder, rebind: Binder, budget: Budget)
    returns (lineage: Option<Lineage>)
    ensures lineage == Build(store, parents, bind, rebind, budget)
  {
    var direct := Deduplicate(parents);
    var contributions := CollectContributions(store, direct, bind);
    if contributions.None? { return None; }
    if |contributions.value| > budget.maxContributions { return None; }
    var bytes := SumBytes(contributions.value);
    if bytes > budget.maxBytes { return None; }
    var valid := Revalidate(contributions.value, rebind);
    return if valid then Some(Lineage(direct, contributions.value, false)) else None;
  }

  /** The loop over the direct parents. */
  method CollectContributions(store: Store, direct: seq<AttemptId>, bind: Binder)
    returns (list: Option<seq<Contribution>>)
    ensures list == Collect(store, direct, bind)
  {
    var contributions: seq<Contribution> := [];
    var i := 0;
    while i < |direct|
      invariant 0 <= i <= |direct|
      invariant Collect(store, direct[..i], bind) == Some(contributions)
    {
      var a := direct[i];
      assert direct[..i + 1][..i] == direct[..i];
      var next := IncludeParent(store, contributions, a, bind);
      if next.None? {
        CollectFails(store, direct, i + 1, bind);
        return None;
      }
      contributions := next.value;
      i := i + 1;
    }
    assert direct[..i] == direct;
    return Some(contributions);
  }

  method SumBytes(list: seq<Contribution>) returns (bytes: nat)
    ensures bytes == Bytes(list)
  {
    bytes := 0;
    var i := 0;
    while i < |list|
      invariant 0 <= i <= |list| && bytes == Bytes(list[..i])
    {
      assert list[..i + 1][..i] == list[..i];
      bytes := bytes + list[i].bytes;
      i := i + 1;
    }
    assert list[..i] == list;
  }

  /** validateProposalLineage: every contribution is bound again and compared. */
  method Revalidate(list: seq<Contribution>, rebind: Binder) returns (valid: bool)
    ensures valid <==> Revalidates(list, rebind)
  {
    var i := 0;
    while i < |list|
      invariant 0 <= i <= |list|
      invariant forall k :: 0 <= k < i ==> rebind(list[k].attempt) == Some(list[k])
    {
      if rebind(list[i].attempt) != Some(list[i]) { return false; }
      i := i + 1;
    }
    return true;
  }

  /** The loop body for one direct parent. */
  method IncludeParent(store: Store, list: seq<Contribution>, a: AttemptId, bind: Binder)
    returns (next: Option<seq<Contribution>>)
    ensures next == AddParent(store, list, a, bind)
  {
    if a !in store { return None; }
    var current := list;
    if store[a].Some? {
      if !store[a].value.composed { return None; }
      var inherited := store[a].value.contributions;
      var i := 0;
      while i < |inherited|
        invariant 0 <= i <= |inherited|
        invariant AddAll(list, inherited[..i]) == Some(current)
      {
        assert inherited[..i + 1][..i] == inherited[..i];
        var added := Add(current, inherited[i]);
        if added.None? {
          AddAllFails(list, inherited, i + 1);
          return None;
        }
        current := added.value;
        i := i + 1;
      }
      assert inherited[..i] == inherited;
    }
    var bound := bind(a);
    if bound.None? || bound.value.attempt != a { return None; }
    next := Add(current, bound.value);
  }

  method Deduplicate(ids: seq<AttemptId>) returns (unique: seq<AttemptId>)
    ensures unique == Unique(ids)
  {
    unique := [];
    var i := 0;
    while i < |ids|
      invariant 0 <= i <= |ids| && unique == Unique(ids[..i])
    {
      assert ids[..i + 1][..i] == ids[..i];
      if ids[i] !in unique { unique := unique + [ids[i]]; }
      i := i + 1;
    }
    assert ids[..i] == ids;
  }

  lemma {:induction false} AddAllFails(list: seq<Contribution>, more: seq<Contribution>, k: nat)
    requires k <= |more| && AddAll(list, more[..k]).None?
    ensures AddAll(list, more).None?
  {
    if k < |more| {
      assert more[..|more| - 1][..k] == more[..k];
      AddAllFails(list, more[..|more| - 1], k);
    } else {
      assert more[..k] == more;
    }
  }

  lemma {:induction false} CollectFails(store: Store, parents: seq<AttemptId>, k: nat, bind: Binder)
    requires k <= |parents| && Collect(store, parents[..k], bind).None?
    ensures Collect(store, parents, bind).None?
  {
    if k < |parents| {
      assert parents[..|parents| - 1][..k] == parents[..k];
      CollectFails(store, parents[..|parents| - 1], k, bind);
    } else {
      assert parents[..k] == parents;
    }
  }

  // ----- closed lists -----

  function Parents(store: Store, a: AttemptId): seq<AttemptId> {
    if a in store && store[a].Some? then store[a].value.parents else []
  }

  predicate DistinctAttempts(list: seq<Contribution>) {
    forall i, j :: 0 <= i < j < |list| ==> list[i].attempt != list[j].attempt
  }

  /** Every parent of a contribution is an earlier contribution. */
  predicate Closed(store: Store, list: seq<Contribution>) {
    forall i :: 0 <= i < |list| ==>
      list[i].attempt in store && forall p :: p in Parents(store, list[i].attempt) ==> Has(list[..i], p)
  }

  predicate Good(store: Store, list: seq<Contribution>) {
    DistinctAttempts(list) && Closed(store, list)
  }

  lemma HasPrefix(list: seq<Contribution>, longer: seq<Contribution>, a: AttemptId)
    requires |list| <= |longer| && longer[..|list|] == list && Has(list, a)
    ensures Has(longer, a)
  {
    var i :| 0 <= i < |list| && list[i].attempt == a;
    assert longer[i] == list[i];
  }

  /** Adding an attempt whose parents are all there keeps a list good. */
  lemma AddGood(store: Store, list: seq<Contribution>, c: Contribution)
    requires Good(store, list) && c.attempt in store
    requires forall p :: p in Parents(store, c.attempt) ==> Has(list, p)
    requires Add(list, c).Some?
    ensures var l := Add(list, c).value;
            Good(store, l) && Has(l, c.attempt) && |list| <= |l| && l[..|list|] == list
  {
    var l := Add(list, c).value;
    if !Has(list, c.attempt) {
      assert l == list + [c];
      forall i | 0 <= i < |l|
        ensures l[i].attempt in store && forall p :: p in Parents(store, l[i].attempt) ==> Has(l[..i], p)
      {
        assert i < |list| ==> l[..i] == list[..i];
        assert i == |list| ==> l[..i] == list;
      }
      assert l[|list|].attempt == c.attempt;
    }
  }

  /** Inheriting a good list keeps a list good and brings in all of it. */
  lemma {:induction false} AddAllGood(store: Store, list: seq<Contribution>, more: seq<Contribution>)
    requires Good(store, list) && Closed(store, more) && AddAll(list, more).Some?
    ensures var l := AddAll(list, more).value;
            && Good(store, l) && |list| <= |l| && l[..|list|] == list
            && (forall i :: 0 <= i < |more| ==> Has(l, more[i].attempt))
            && (forall a :: Has(l, a) ==> Has(list, a) || Has(more, a))
  {
    if more != [] {
      var before, c := more[..|more| - 1], more[|more| - 1];
      forall i | 0 <= i < |before|
        ensures before[i].attempt in store && forall p :: p in Parents(store, before[i].attempt) ==> Has(before[..i], p)
      {
        assert before[..i] == more[..i];
      }
      AddAllGood(store, list, before);
      var l1 := AddAll(list, before).value;
      var l := AddAll(list, more).value;
      forall p | p in Parents(store, c.attempt) ensures Has(l1, p) {
        assert Has(before, p);
        var i :| 0 <= i < |before| && before[i].attempt == p;
        assert Has(l1, more[i].attempt);
      }
      AddGood(store, l1, c);
      forall i | 0 <= i < |more| ensures Has(l, more[i].attempt) {
        if i < |before| { assert before[i] == more[i]; HasPrefix(l1, l, more[i].attempt); }
      }
      forall a | Has(l, a) ensures Has(list, a) || Has(more, a) {
        AddOrigin(l1, c, l, a);
        if a == c.attempt { assert more[|more| - 1].attempt == a; }
        else if Has(before, a) { HasPrefix(before, more, a); }
      }
    }
  }

  lemma AddOrigin(list: seq<Contribution>, c: Contribution, l: seq<Contribution>, a: AttemptId)
    requires Add(list, c) == Some(l) && Has(l, a)
    ensures Has(list, a) || a == c.attempt
  {
    var i :| 0 <= i < |l| && l[i].attempt == a;
    if i < |list| { assert list[i].attempt == a; }
  }

  // ----- ancestry -----

  /** Each attempt on the path is a direct parent of the next. */
  predicate IsPath(store: Store, path: seq<AttemptId>) {
    forall i :: 0 <= i < |path| - 1 ==> path[i] in Parents(store, path[i + 1])
  }

  predicate Leads(store: Store, path: seq<AttemptId>, x: AttemptId, y: AttemptId) {
    |path| >= 2 && path[0] == x && path[|path| - 1] == y && IsPath(store, path)
  }

  ghost predicate Ancestor(store: Store, x: AttemptId, y: AttemptId) {
    exists path :: Leads(store, path, x, y)
  }

  lemma ParentIsAncestor(store: Store, p: AttemptId, a: AttemptId)
    requires p in Parents(store, a)
    ensures Ancestor(store, p, a)
  {
    assert Leads(store, [p, a], p, a);
  }

  lemma AncestorOfParent(store: Store, x: AttemptId, p: AttemptId, a: AttemptId)
    requires Ancestor(store, x, p) && p in Parents(store, a)
    ensures Ancestor(store, x, a)
  {
    var path :| Leads(store, path, x, p);
    assert Leads(store, path + [a], x, a);
  }

  /** In a good list every ancestor of a contribution comes before it. */
  lemma {:induction false} AncestorsBefore(store: Store, list: seq<Contribution>, i: nat, path: seq<AttemptId>)
    requires Good(store, list) && i < |list| && |path| >= 2 && IsPath(store, path)
             && path[|path| - 1] == list[i].attempt
    ensures Has(list[..i], path[0])
  {
    var n := |path| - 2;
    assert path[n] in Parents(store, list[i].attempt);
    assert Has(list[..i], path[n]);
    var j :| 0 <= j < i && list[..i][j].attempt == path[n];
    if n > 0 {
      AncestorsBefore(store, list, j, path[..n + 1]);
      assert list[..j] == list[..i][..j];
      HasPrefix(list[..j], list[..i], path[0]);
    }
  }

  // ----- every history -----

  /** What holds of a stored lineage: it is good, covers the direct parents, and holds only ancestors. */
  ghost predicate LineageOk(store: Store, a: AttemptId, lineage: Lineage) {
    && Good(store, lineage.contributions)
    && (forall p :: p in lineage.parents ==> Has(lineage.contributions, p))
    && (forall i :: 0 <= i < |lineage.contributions| ==> Ancestor(store, lineage.contributions[i].attempt, a))
  }

  ghost predicate Inv(store: Store) {
    forall a :: a in store && store[a].Some? ==> LineageOk(store, a, store[a].value)
  }

  lemma InheritGood(store: Store, list: seq<Contribution>, a: AttemptId, bind: Binder)
    requires Inv(store) && Good(store, list) && AddParent(store, list, a, bind).Some?
    ensures var l := AddParent(store, list, a, bind).value;
            && Good(store, l) && Has(l, a) && |list| <= |l| && l[..|list|] == list
            && (forall x :: Has(l, x) ==> Has(list, x) || x == a || Ancestor(store, x, a))
  {
    var c := bind(a).value;
    var l := AddParent(store, list, a, bind).value;
    if store[a].None? {
      AddGood(store, list, c);
      forall x | Has(l, x) ensures Has(list, x) || x == a {
        AddOrigin(list, c, l, x);
      }
    } else {
      var inherited := store[a].value.contributions;
      assert LineageOk(store, a, store[a].value);
      AddAllGood(store, list, inherited);
      var l1 := AddAll(list, inherited).value;
      forall p | p in Parents(store, a) ensures Has(l1, p) {
        var i :| 0 <= i < |inherited| && inherited[i].attempt == p;
        assert Has(l1, inherited[i].attempt);
      }
      AddGood(store, l1, c);
      forall x | Has(l, x) ensures Has(list, x) || x == a || Ancestor(store, x, a) {
        AddOrigin(l1, c, l, x);
        if x != a && !Has(list, x) {
          assert Has(inherited, x);
        }
      }
    }
  }

  lemma {:induction false} AddAllMembers(list: seq<Contribution>, more: seq<Contribution>)
    requires AddAll(list, more).Some?
    ensures forall c :: c in list || c in more ==> c in AddAll(list, more).value
  {
    if more != [] {
      AddAllMembers(list, more[..|more| - 1]);
      assert more == more[..|more| - 1] + [more[|more| - 1]];
    }
  }

  /** The same binding everywhere: what a parent was composed of, and the parent itself as it binds now. */
  predicate Agrees(store: Store, a: AttemptId, bind: Binder, list: seq<Contribution>) {
    && a in store
    && (store[a].Some? ==> forall c :: c in store[a].value.contributions ==> c in list)
    && bind(a).Some? && bind(a).value in list
  }

  /** Collecting succeeds only if all bindings of one attempt agree. */
  lemma {:induction false} CollectAgrees(store: Store, parents: seq<AttemptId>, bind: Binder)
    requires Collect(store, parents, bind).Some?
    ensures forall a :: a in parents ==> Agrees(store, a, bind, Collect(store, parents, bind).value)
  {
    if parents != [] {
      var before, last := parents[..|parents| - 1], parents[|parents| - 1];
      CollectAgrees(store, before, bind);
      assert parents == before + [last];
      var list := Collect(store, before, bind).value;
      if store[last].Some? { AddAllMembers(list, store[last].value.contributions); }
    }
  }

  lemma {:induction false} CollectGood(store: Store, parents: seq<AttemptId>, bind: Binder)
    requires Inv(store) && Collect(store, parents, bind).Some?
    ensures var l := Collect(store, parents, bind).value;
            && Good(store, l)
            && (forall p :: p in parents ==> Has(l, p))
            && (forall x :: Has(l, x) ==> x in parents || exists p :: p in parents && Ancestor(store, x, p))
  {
    if parents != [] {
      var before, a := parents[..|parents| - 1], parents[|parents| - 1];
      CollectGood(store, before, bind);
      var l1 := Collect(store, before, bind).value;
      var l := Collect(store, parents, bind).value;
      InheritGood(store, l1, a, bind);
      forall p | p in parents ensures Has(l, p) {
        if p != a { assert p in before; HasPrefix(l1, l, p); }
      }
      forall x | Has(l, x) ensures x in parents || exists p :: p in parents && Ancestor(store, x, p) {
        if Has(l1, x) && x !in before {
          var p :| p in before && Ancestor(store, x, p);
          assert p in parents;
        }
      }
    }
  }

  /** A new attempt changes nobody's parents. */
  ghost predicate Extends(store: Store, store': Store) {
    forall a :: a in store ==> a in store' && Parents(store', a) == Parents(store, a)
  }

  lemma ExtendsAncestor(store: Store, store': Store, x: AttemptId, y: AttemptId)
    requires Extends(store, store') && Ancestor(store, x, y)
    ensures Ancestor(store', x, y)
  {
    var path :| Leads(store, path, x, y);
    forall i | 0 <= i < |path| - 1 ensures path[i] in Parents(store', path[i + 1]) {
      assert path[i] in Parents(store, path[i + 1]);
    }
    assert Leads(store', path, x, y);
  }

  lemma ExtendsOk(store: Store, store': Store, a: AttemptId, lineage: Lineage)
    requires Extends(store, store') && LineageOk(store, a, lineage)
    ensures LineageOk(store', a, lineage)
  {
    forall i | 0 <= i < |lineage.contributions| ensures Ancestor(store', lineage.contributions[i].attempt, a) {
      ExtendsAncestor(store, store', lineage.contributions[i].attempt, a);
    }
  }

  lemma {:induction false} UniqueMembers(ids: seq<AttemptId>)
    ensures forall x :: x in Unique(ids) <==> x in ids
  {
    if ids != [] { UniqueMembers(ids[..|ids| - 1]); }
  }

  /** A lineage that was built covers every given parent, binds to proposals that still exist, and is within budget. */
  lemma BuildCovers(store: Store, parents: seq<AttemptId>, bind: Binder, rebind: Binder, budget: Budget,
                    lineage: Lineage)
    requires Inv(store) && Build(store, parents, bind, rebind, budget) == Some(lineage)
    ensures |lineage.contributions| <= budget.maxContributions && Bytes(lineage.contributions) <= budget.maxBytes
    ensures forall p :: p in parents ==> Has(lineage.contributions, p) && Agrees(store, p, bind, lineage.contributions)
    ensures Good(store, lineage.contributions) && Revalidates(lineage.contributions, rebind)
  {
    UniqueMembers(parents);
    CollectGood(store, Unique(parents), bind);
    CollectAgrees(store, Unique(parents), bind);
  }

  datatype Event =
    | Reserve(attempt: AttemptId, parents: seq<AttemptId>, bind: Binder, rebind: Binder, budget: Budget)
    | Compose(attempt: AttemptId)

  function Apply(store: Store, e: Event): Store {
    match e
    case Reserve(a, parents, bind, rebind, budget) =>
      if a in store then store
      else if parents == [] then store[a := None]
      else
        var lineage := Build(store, parents, bind, rebind, budget);
        if lineage.None? then store else store[a := lineage]
    case Compose(a) =>
      if a in store && store[a].Some? then store[a := Some(store[a].value.(composed := true))] else store
  }

  function Run(store: Store, events: seq<Event>): Store {
    if events == [] then store else Apply(Run(store, events[..|events| - 1]), events[|events| - 1])
  }

  lemma ReserveKeeps(store: Store, a: AttemptId, parents: seq<AttemptId>, bind: Binder, rebind: Binder, budget: Budget)
    requires Inv(store) && a !in store && Build(store, parents, bind, rebind, budget).Some?
    ensures Inv(store[a := Build(store, parents, bind, rebind, budget)])
  {
    var lineage := Build(store, parents, bind, rebind, budget).value;
    var store' := store[a := Some(lineage)];
    assert Extends(store, store');
    CollectGood(store, lineage.parents, bind);
    var list := lineage.contributions;
    forall i | 0 <= i < |list| ensures Ancestor(store', list[i].attempt, a) {
      var x := list[i].attempt;
      assert Has(list, x);
      if x in lineage.parents {
        ParentIsAncestor(store', x, a);
      } else {
        var p :| p in lineage.parents && Ancestor(store, x, p);
        ExtendsAncestor(store, store', x, p);
        AncestorOfParent(store', x, p, a);
      }
    }
    forall b | b in store' && store'[b].Some? ensures LineageOk(store', b, store'[b].value) {
      if b != a { ExtendsOk(store, store', b, store[b].value); }
    }
  }

  lemma ApplyKeeps(store: Store, e: Event)
    requires Inv(store)
    ensures Inv(Apply(store, e))
  {
    var store' := Apply(store, e);
    match e
    case Reserve(a, parents, bind, rebind, budget) =>
      if a !in store && parents != [] && Build(store, parents, bind, rebind, budget).Some? {
        ReserveKeeps(store, a, parents, bind, rebind, budget);
      } else {
        assert Extends(store, store');
        forall b | b in store' && store'[b].Some? ensures LineageOk(store', b, store'[b].value) {
          ExtendsOk(store, store', b, store[b].value);
        }
      }
    case Compose(a) =>
      assert Extends(store, store');
      forall b | b in store' && store'[b].Some? ensures LineageOk(store', b, store'[b].value) {
        assert LineageOk(store, b, store[b].value);
        assert LineageOk(store, b, store'[b].value);
        ExtendsOk(store, store', b, store'[b].value);
      }
  }

  lemma {:induction false} RunKeeps(events: seq<Event>)
    ensures Inv(Run(map[], events))
  {
    if events != [] {
      RunKeeps(events[..|events| - 1]);
      ApplyKeeps(Run(map[], events[..|events| - 1]), events[|events| - 1]);
    }
  }

  /**
   In every history, the contributions of an attempt are exactly its ancestors, each once, and every ancestor of a
   contribution comes before it.
   */
  lemma ContributionsAreAncestors(events: seq<Event>, store: Store, a: AttemptId)
    requires store == Run(map[], events) && a in store && store[a].Some?
    ensures DistinctAttempts(store[a].value.contributions)
    ensures forall x :: Has(store[a].value.contributions, x) <==> Ancestor(store, x, a)
    ensures forall i, x ::
              0 <= i < |store[a].value.contributions| && Ancestor(store, x, store[a].value.contributions[i].attempt) ==>
              Has(store[a].value.contributions[..i], x)
  {
    RunKeeps(events);
    var list := store[a].value.contributions;
    assert LineageOk(store, a, store[a].value);
    forall i, x | 0 <= i < |list| && Ancestor(store, x, list[i].attempt) ensures Has(list[..i], x) {
      var path :| Leads(store, path, x, list[i].attempt);
      AncestorsBefore(store, list, i, path);
    }
    forall x ensures Has(list, x) <==> Ancestor(store, x, a) {
      if Ancestor(store, x, a) { AncestorIsListed(store, a, x); }
    }
  }

  lemma AncestorIsListed(store: Store, a: AttemptId, x: AttemptId)
    requires Inv(store) && a in store && store[a].Some? && Ancestor(store, x, a)
    ensures Has(store[a].value.contributions, x)
  {
    var list := store[a].value.contributions;
    assert LineageOk(store, a, store[a].value);
    var path :| Leads(store, path, x, a);
    var n := |path| - 2;
    assert path[n] in Parents(store, a);
    var i :| 0 <= i < |list| && list[i].attempt == path[n];
    if n > 0 {
      AncestorsBefore(store, list, i, path[..n + 1]);
      HasPrefix(list[..i], list, x);
    }
  }

  // ----- when a lineage can be built -----

  function Members(list: seq<Contribution>): set<Contribution> {
    set c | c in list
  }

  /** No attempt comes with two different bindings. */
  predicate Consistent(s: set<Contribution>) {
    forall c, d :: c in s && d in s && c.attempt == d.attempt ==> c == d
  }

  /** A parent that exists, whose own lineage is composed if it has one, and whose proposal binds. */
  predicate Usable(store: Store, a: AttemptId, bind: Binder) {
    && a in store && (store[a].Some? ==> store[a].value.composed)
    && bind(a).Some? && bind(a).value.attempt == a
  }

  /** What a parent brings in. */
  function Brought(store: Store, a: AttemptId, bind: Binder): set<Contribution> {
    (if a in store && store[a].Some? then Members(store[a].value.contributions) else {})
    + (if bind(a).Some? then {bind(a).value} else {})
  }

  function AllBrought(store: Store, parents: seq<AttemptId>, bind: Binder): set<Contribution> {
    set a, c | a in parents && c in Brought(store, a, bind) :: c
  }

  lemma AddIff(list: seq<Contribution>, c: Contribution)
    requires DistinctAttempts(list)
    ensures Add(list, c).Some? <==> Consistent(Members(list) + {c})
    ensures Add(list, c).Some? ==>
              DistinctAttempts(Add(list, c).value) && Members(Add(list, c).value) == Members(list) + {c}
  {
    if Has(list, c.attempt) {
      var i :| 0 <= i < |list| && list[i].attempt == c.attempt;
      assert list[i] in Members(list);
      assert c in list <==> list[i] == c;
    }
    if c in list { assert Members(list) + {c} == Members(list); }
    assert Members(list + [c]) == Members(list) + {c};
  }

  lemma {:induction false} AddAllIff(list: seq<Contribution>, more: seq<Contribution>)
    requires DistinctAttempts(list)
    ensures AddAll(list, more).Some? <==> Consistent(Members(list) + Members(more))
    ensures AddAll(list, more).Some? ==>
              && DistinctAttempts(AddAll(list, more).value)
              && Members(AddAll(list, more).value) == Members(list) + Members(more)
  {
    if more == [] {
      assert Members(list) + Members(more) == Members(list);
    } else {
      var rest, last := more[..|more| - 1], more[|more| - 1];
      AddAllIff(list, rest);
      assert more == rest + [last];
      assert Members(list) + Members(more) == (Members(list) + Members(rest)) + {last};
      if AddAll(list, rest).Some? { AddIff(AddAll(list, rest).value, last); }
    }
  }

  lemma AddParentIff(store: Store, list: seq<Contribution>, a: AttemptId, bind: Binder)
    requires DistinctAttempts(list)
    ensures AddParent(store, list, a, bind).Some? <==>
              Usable(store, a, bind) && Consistent(Members(list) + Brought(store, a, bind))
    ensures AddParent(store, list, a, bind).Some? ==>
              && DistinctAttempts(AddParent(store, list, a, bind).value)
              && Members(AddParent(store, list, a, bind).value) == Members(list) + Brought(store, a, bind)
  {
    if Usable(store, a, bind) {
      var inherited := if store[a].Some? then store[a].value.contributions else [];
      AddAllIff(list, inherited);
      var all := Members(list) + Members(inherited);
      assert Members(list) + Brought(store, a, bind) == all + {bind(a).value};
      if store[a].None? { assert AddAll(list, inherited) == Some(list); }
      if AddAll(list, inherited).Some? { AddIff(AddAll(list, inherited).value, bind(a).value); }
    }
  }

  /** Collecting succeeds exactly if every parent is usable and no two of them disagree on a binding. */
  lemma {:induction false} CollectIff(store: Store, parents: seq<AttemptId>, bind: Binder)
    ensures Collect(store, parents, bind).Some? <==>
              (forall a :: a in parents ==> Usable(store, a, bind)) && Consistent(AllBrought(store, parents, bind))
    ensures Collect(store, parents, bind).Some? ==>
              && DistinctAttempts(Collect(store, parents, bind).value)
              && Members(Collect(store, parents, bind).value) == AllBrought(store, parents, bind)
  {
    if parents == [] {
      assert AllBrought(store, parents, bind) == {};
    } else {
      var rest, last := parents[..|parents| - 1], parents[|parents| - 1];
      CollectIff(store, rest, bind);
      assert parents == rest + [last];
      assert AllBrought(store, parents, bind) == AllBrought(store, rest, bind) + Brought(store, last, bind);
      if Collect(store, rest, bind).Some? { AddParentIff(store, Collect(store, rest, bind).value, last, bind); }
    }
  }

  ghost function TotalBytes(s: set<Contribution>): nat {
    if s == {} then 0
    else
      var c :| c in s;
      c.bytes + TotalBytes(s - {c})
  }

  lemma {:induction false} TotalWithout(s: set<Contribution>, c: Contribution)
    requires c in s
    ensures TotalBytes(s) == c.bytes + TotalBytes(s - {c})
    decreases |s|
  {
    var d :| d in s && TotalBytes(s) == d.bytes + TotalBytes(s - {d});
    if d != c {
      TotalWithout(s - {d}, c);
      TotalWithout(s - {c}, d);
      assert s - {d} - {c} == s - {c} - {d};
    }
  }

  lemma LastMember(list: seq<Contribution>, rest: seq<Contribution>, last: Contribution)
    requires DistinctAttempts(list) && list == rest + [last]
    ensures last !in Members(rest) && Members(list) == Members(rest) + {last} && Members(list) - {last} == Members(rest)
  {
    forall i | 0 <= i < |rest| ensures rest[i] != last {
      assert list[i] == rest[i] && list[|rest|] == last;
    }
  }

  /** A list without repetition is as long, and holds as many bytes, as its set. */
  lemma {:induction false} ListTotals(list: seq<Contribution>)
    requires DistinctAttempts(list)
    ensures |Members(list)| == |list| && TotalBytes(Members(list)) == Bytes(list)
  {
    if list == [] {
      assert Members(list) == {};
    } else {
      var rest, last := list[..|list| - 1], list[|list| - 1];
      ListTotals(rest);
      LastMember(list, rest, last);
      TotalWithout(Members(list), last);
    }
  }

  /**
   A lineage is built exactly if every parent is usable, no two of them disagree on a binding, what they bring in is
   within the budget, and all of it still binds; it then holds exactly that.
   */
  lemma BuildsIff(store: Store, parents: seq<AttemptId>, bind: Binder, rebind: Binder, budget: Budget)
    ensures var brought := AllBrought(store, parents, bind);
            Build(store, parents, bind, rebind, budget).Some? <==>
              && (forall a :: a in parents ==> Usable(store, a, bind)) && Consistent(brought)
              && |brought| <= budget.maxContributions && TotalBytes(brought) <= budget.maxBytes
              && (forall c :: c in brought ==> rebind(c.attempt) == Some(c))
    ensures Build(store, parents, bind, rebind, budget).Some? ==>
              var lineage := Build(store, parents, bind, rebind, budget).value;
              && Members(lineage.contributions) == AllBrought(store, parents, bind)
              && DistinctAttempts(lineage.contributions) && !lineage.composed
              && (forall a :: a in lineage.parents <==> a in parents)
  {
    UniqueMembers(parents);
    CollectIff(store, Unique(parents), bind);
    assert AllBrought(store, Unique(parents), bind) == AllBrought(store, parents, bind);
    if Collect(store, Unique(parents), bind).Some? {
      var list := Collect(store, Unique(parents), bind).value;
      ListTotals(list);
      assert Revalidates(list, rebind) <==> forall c :: c in Members(list) ==> rebind(c.attempt) == Some(c);
    }
  }
}
