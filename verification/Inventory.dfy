/**
 The inventory of an attempt directory that a review packet seals, and what agreeing inventories say about two
 directory trees.
 */
module Inventory {
  import opened Common
  import opened Canonical
  import opened RevisionNames

  /** A directory tree; `Special` is a symbolic link or any other unsupported entry. */
  datatype Node = File(content: string) | Dir(children: seq<Child>) | Special

  datatype Child = Child(name: string, node: Node)

  datatype Info = Directory | Regular(content: string) | Unsupported

  /** An entry found by the walk, with its path from the root. */
  datatype Found = Found(path: seq<string>, info: Info)

  const PACKET := "review-packet.json"

  /** sha256, taken as injective. */
  type Hash = string -> string

  ghost predicate Injective(hash: Hash) {
    forall a, b :: hash(a) == hash(b) ==> a == b
  }

  function InfoOf(node: Node): Info {
    match node case File(content) => Regular(content) case Dir(_) => Directory case Special => Unsupported
  }

  // ----- what is at a path -----

  function IndexOf(children: seq<Child>, name: string): Option<nat> {
    if children == [] then None
    else if children[|children| - 1].name == name then Some(|children| - 1)
    else IndexOf(children[..|children| - 1], name)
  }

  lemma {:induction false} IndexOfIs(children: seq<Child>, name: string)
    ensures match IndexOf(children, name)
            case None => forall i :: 0 <= i < |children| ==> children[i].name != name
            case Some(i) => i < |children| && children[i].name == name
  {
    if children != [] { IndexOfIs(children[..|children| - 1], name); }
  }

  /** The entry at a path, walking down from a node. */
  function Lookup(node: Node, path: seq<string>): Option<Info>
    decreases |path|
  {
    if path == [] then Some(InfoOf(node))
    else
      match node
      case Dir(children) =>
        IndexOfIs(children, path[0]);
        (match IndexOf(children, path[0])
         case None => None
         case Some(i) => Lookup(children[i].node, path[1..]))
      case _ => None
  }

  // ----- the walk -----

  function Flatten(lists: seq<seq<Found>>): seq<Found> {
    if lists == [] then [] else Flatten(lists[..|lists| - 1]) + lists[|lists| - 1]
  }

  /** The recursive `visit`; `review-packet.json` is passed over at the root. */
  function Walk(node: Node, prefix: seq<string>): seq<Found> {
    match node
    case Dir(children) =>
      Flatten(seq(|children|, i requires 0 <= i < |children| =>
                    if prefix == [] && children[i].name == PACKET then []
                    else [Found(prefix + [children[i].name], InfoOf(children[i].node))]
                         + Walk(children[i].node, prefix + [children[i].name])))
    case _ => []
  }

  /** The part of a walk below one child. */
  function Below(c: Child, prefix: seq<string>): seq<Found> {
    if prefix == [] && c.name == PACKET then []
    else [Found(prefix + [c.name], InfoOf(c.node))] + Walk(c.node, prefix + [c.name])
  }

  lemma {:induction false} FlattenMember(lists: seq<seq<Found>>, f: Found)
    ensures f in Flatten(lists) <==> exists i :: 0 <= i < |lists| && f in lists[i]
  {
    if lists != [] {
      FlattenMember(lists[..|lists| - 1], f);
      if f in Flatten(lists[..|lists| - 1]) {
        var i :| 0 <= i < |lists[..|lists| - 1]| && f in lists[..|lists| - 1][i];
        assert f in lists[i];
      }
      if exists i :: 0 <= i < |lists| && f in lists[i] {
        var i :| 0 <= i < |lists| && f in lists[i];
        if i < |lists| - 1 { assert f in lists[..|lists| - 1][i]; }
      }
    }
  }

  lemma WalkMember(children: seq<Child>, prefix: seq<string>, f: Found)
    ensures f in Walk(Dir(children), prefix) <==> exists i :: 0 <= i < |children| && f in Below(children[i], prefix)
  {
    var lists := seq(|children|, i requires 0 <= i < |children| => Below(children[i], prefix));
    assert lists == seq(|children|, i requires 0 <= i < |children| =>
                          if prefix == [] && children[i].name == PACKET then []
                          else [Found(prefix + [children[i].name], InfoOf(children[i].node))]
                               + Walk(children[i].node, prefix + [children[i].name]));
    FlattenMember(lists, f);
    if exists i :: 0 <= i < |children| && f in Below(children[i], prefix) {
      var i :| 0 <= i < |children| && f in Below(children[i], prefix);
      assert f in lists[i];
    }
  }

  /** Names within a directory are distinct, as in any file system. */
  predicate Proper(node: Node) {
    match node
    case Dir(children) =>
      && (forall i, j :: 0 <= i < j < |children| ==> children[i].name != children[j].name)
      && (forall i :: 0 <= i < |children| ==> Proper(children[i].node))
    case _ => true
  }

  predicate Hidden(prefix: seq<string>, path: seq<string>)
    requires path != []
  {
    prefix == [] && path[0] == PACKET
  }

  lemma LookupStep(children: seq<Child>, i: nat, rest: seq<string>)
    requires Proper(Dir(children)) && i < |children|
    ensures Lookup(Dir(children), [children[i].name] + rest) == Lookup(children[i].node, rest)
  {
    var path := [children[i].name] + rest;
    IndexOfIs(children, children[i].name);
    assert IndexOf(children, path[0]) == Some(i);
    assert path[1..] == rest;
  }

  lemma BelowCases(c: Child, prefix: seq<string>, f: Found)
    requires f in Below(c, prefix)
    ensures !(prefix == [] && c.name == PACKET)
    ensures (f.path == prefix + [c.name] && f.info == InfoOf(c.node)) || f in Walk(c.node, prefix + [c.name])
  {
  }

  lemma ParentOf(children: seq<Child>, prefix: seq<string>, f: Found) returns (i: nat)
    requires f in Walk(Dir(children), prefix)
    ensures i < |children| && f in Below(children[i], prefix)
  {
    WalkMember(children, prefix, f);
    i :| 0 <= i < |children| && f in Below(children[i], prefix);
  }

  /** The walk finds only what is there. */
  lemma {:induction false} WalkSound(node: Node, prefix: seq<string>, f: Found) returns (path: seq<string>)
    requires Proper(node) && f in Walk(node, prefix)
    ensures path != [] && f.path == prefix + path && !Hidden(prefix, path) && Lookup(node, path) == Some(f.info)
    decreases node
  {
    var i := ParentOf(node.children, prefix, f);
    var c := node.children[i];
    BelowCases(c, prefix, f);
    var rest := [];
    if f in Walk(c.node, prefix + [c.name]) {
      rest := WalkSound(c.node, prefix + [c.name], f);
    }
    LookupStep(node.children, i, rest);
    path := [c.name] + rest;
    assert prefix + path == prefix + [c.name] + rest;
  }

  /** The walk finds everything that is there, except `review-packet.json`. */
  lemma {:induction false} WalkComplete(node: Node, prefix: seq<string>, path: seq<string>)
    requires path != [] && !Hidden(prefix, path) && Lookup(node, path).Some?
    ensures Found(prefix + path, Lookup(node, path).value) in Walk(node, prefix)
    decreases |path|
  {
    var children := node.children;
    IndexOfIs(children, path[0]);
    var i := IndexOf(children, path[0]).value;
    var c := children[i];
    var f := Found(prefix + path, Lookup(node, path).value);
    assert path == [path[0]] + path[1..];
    if |path| == 1 {
      assert f == Found(prefix + [c.name], InfoOf(c.node));
    } else {
      WalkComplete(c.node, prefix + [c.name], path[1..]);
      assert prefix + [c.name] + path[1..] == prefix + path;
    }
    assert f in Below(c, prefix);
    WalkMember(children, prefix, f);
  }

  // ----- path texts -----

  /** The text of a path: names joined by slashes, with backslashes turned into slashes. */
  function Portable(text: string): string {
    seq(|text|, i requires 0 <= i < |text| => if text[i] == '\\' then '/' else text[i])
  }

  function Slashed(path: seq<string>): string {
    if path == [] then "" else if |path| == 1 then path[0] else path[0] + "/" + Slashed(path[1..])
  }

  function Relative(path: seq<string>): string {
    Portable(Slashed(path))
  }

  predicate PlainName(name: string) {
    name != "" && forall i :: 0 <= i < |name| ==> name[i] != '/' && name[i] != '\\'
  }

  predicate PlainPath(path: seq<string>) {
    forall i :: 0 <= i < |path| ==> PlainName(path[i])
  }

  lemma {:induction false} PortableId(path: seq<string>)
    requires PlainPath(path)
    ensures forall i :: 0 <= i < |Slashed(path)| ==> Slashed(path)[i] != '\\'
  {
    if |path| > 1 { PortableId(path[1..]); }
  }

  lemma RelativePlain(path: seq<string>)
    requires PlainPath(path)
    ensures Relative(path) == Slashed(path)
  {
    PortableId(path);
  }

  /** Where the first slash is, or the length. */
  function FirstSlash(text: string): nat {
    if text == "" || text[0] == '/' then 0 else 1 + FirstSlash(text[1..])
  }

  lemma {:induction false} FirstSlashAfter(name: string, rest: string)
    requires PlainName(name) || name == ""
    requires rest == "" || rest[0] == '/'
    ensures FirstSlash(name + rest) == |name|
  {
    if name != "" {
      assert (name + rest)[1..] == name[1..] + rest;
      FirstSlashAfter(name[1..], rest);
    } else {
      assert name + rest == rest;
    }
  }

  function AfterName(path: seq<string>): string
    requires path != []
  {
    if |path| == 1 then "" else "/" + Slashed(path[1..])
  }

  lemma SlashedHead(path: seq<string>)
    requires PlainPath(path) && path != []
    ensures Slashed(path) == path[0] + AfterName(path) && FirstSlash(Slashed(path)) == |path[0]| && Slashed(path) != ""
  {
    FirstSlashAfter(path[0], AfterName(path));
  }

  lemma {:induction false} SlashedInjective(p: seq<string>, q: seq<string>)
    requires PlainPath(p) && PlainPath(q) && p != [] && q != [] && Slashed(p) == Slashed(q)
    ensures p == q
  {
    SlashedHead(p);
    SlashedHead(q);
    var n := |p[0]|;
    assert p[0] == Slashed(p)[..n] && q[0] == Slashed(q)[..n];
    assert AfterName(p) == Slashed(p)[n..] && AfterName(q) == Slashed(q)[n..];
    assert |p| == 1 <==> |q| == 1;
    if |p| > 1 {
      assert Slashed(p[1..]) == AfterName(p)[1..] && Slashed(q[1..]) == AfterName(q)[1..];
      SlashedInjective(p[1..], q[1..]);
    }
    assert p == [p[0]] + p[1..] && q == [q[0]] + q[1..];
  }

  /** No name in the tree contains a slash or a backslash, and none is empty. */
  predicate PlainNames(node: Node) {
    match node
    case Dir(children) => forall i :: 0 <= i < |children| ==>
        PlainName(children[i].name) && PlainNames(children[i].node)
    case _ => true
  }

  lemma {:induction false} LookupPlain(node: Node, path: seq<string>)
    requires PlainNames(node) && Lookup(node, path).Some?
    ensures PlainPath(path)
    decreases |path|
  {
    if path != [] {
      IndexOfIs(node.children, path[0]);
      var i := IndexOf(node.children, path[0]).value;
      LookupPlain(node.children[i].node, path[1..]);
      assert path == [path[0]] + path[1..];
    }
  }

  // ----- the walk visits no path twice -----

  predicate DistinctPaths(found: seq<Found>) {
    forall i, j :: 0 <= i < j < |found| ==> found[i].path != found[j].path
  }

  predicate Disjoint(a: seq<Found>, b: seq<Found>) {
    forall i, j :: 0 <= i < |a| && 0 <= j < |b| ==> a[i].path != b[j].path
  }

  lemma DistinctConcat(a: seq<Found>, b: seq<Found>)
    requires DistinctPaths(a) && DistinctPaths(b) && Disjoint(a, b)
    ensures DistinctPaths(a + b)
  {
  }

  lemma {:induction false} FlattenDistinct(lists: seq<seq<Found>>)
    requires forall i :: 0 <= i < |lists| ==> DistinctPaths(lists[i])
    requires forall i, j :: 0 <= i < j < |lists| ==> Disjoint(lists[i], lists[j])
    ensures DistinctPaths(Flatten(lists))
  {
    if lists != [] {
      var before, last := lists[..|lists| - 1], lists[|lists| - 1];
      FlattenDistinct(before);
      forall i, j | 0 <= i < |Flatten(before)| && 0 <= j < |last| ensures Flatten(before)[i].path != last[j].path {
        var f := Flatten(before)[i];
        FlattenMember(before, f);
        var k :| 0 <= k < |before| && f in before[k];
        assert Disjoint(lists[k], lists[|lists| - 1]);
      }
      DistinctConcat(Flatten(before), last);
    }
  }

  /** Everything below a child has the child's name at that place of its path. */
  lemma BelowName(c: Child, prefix: seq<string>, f: Found)
    requires Proper(c.node) && f in Below(c, prefix)
    ensures |f.path| > |prefix| && f.path[|prefix|] == c.name
    ensures f in Walk(c.node, prefix + [c.name]) ==> |f.path| > |prefix| + 1
  {
    BelowCases(c, prefix, f);
    if f in Walk(c.node, prefix + [c.name]) {
      var rest := WalkSound(c.node, prefix + [c.name], f);
    }
  }

  lemma {:induction false} WalkDistinct(node: Node, prefix: seq<string>)
    requires Proper(node)
    ensures DistinctPaths(Walk(node, prefix))
    decreases node
  {
    if node.Dir? {
      var children := node.children;
      var lists := seq(|children|, i requires 0 <= i < |children| => Below(children[i], prefix));
      forall i | 0 <= i < |lists| ensures DistinctPaths(lists[i]) {
        WalkDistinct(children[i].node, prefix + [children[i].name]);
        BelowDistinct(children[i], prefix);
      }
      forall i, j | 0 <= i < j < |lists| ensures Disjoint(lists[i], lists[j]) {
        BelowDisjoint(children[i], children[j], prefix);
      }
      FlattenDistinct(lists);
      assert lists == seq(|children|, i requires 0 <= i < |children| =>
                            if prefix == [] && children[i].name == PACKET then []
                            else [Found(prefix + [children[i].name], InfoOf(children[i].node))]
                                 + Walk(children[i].node, prefix + [children[i].name]));
    }
  }

  lemma BelowDistinct(c: Child, prefix: seq<string>)
    requires Proper(c.node) && DistinctPaths(Walk(c.node, prefix + [c.name]))
    ensures DistinctPaths(Below(c, prefix))
  {
    if !(prefix == [] && c.name == PACKET) {
      var head, rest := [Found(prefix + [c.name], InfoOf(c.node))], Walk(c.node, prefix + [c.name]);
      forall j | 0 <= j < |rest| ensures head[0].path != rest[j].path {
        assert rest[j] in Below(c, prefix);
        BelowName(c, prefix, rest[j]);
      }
      DistinctConcat(head, rest);
    }
  }

  lemma BelowDisjoint(c: Child, d: Child, prefix: seq<string>)
    requires Proper(c.node) && Proper(d.node) && c.name != d.name
    ensures Disjoint(Below(c, prefix), Below(d, prefix))
  {
    var a, b := Below(c, prefix), Below(d, prefix);
    forall i, j | 0 <= i < |a| && 0 <= j < |b| ensures a[i].path != b[j].path {
      assert a[i] in a && b[j] in b;
      BelowName(c, prefix, a[i]);
      BelowName(d, prefix, b[j]);
    }
  }

  // ----- the inventory -----

  /** One inventory entry as JSON. */
  function EntryJson(f: Found, hash: Hash): Json {
    var rel := Entry("path", Str(Relative(f.path)));
    match f.info
    case Regular(content) =>
      Obj([rel, Entry("kind", Str("file")), Entry("size", Num(Decimal(|content|))),
           Entry("sha256", Str(hash(content)))])
    case _ => Obj([rel, Entry("kind", Str("directory"))])
  }

  function EntryPairs(found: seq<Found>, hash: Hash): seq<Pair<Json>> {
    seq(|found|, i requires 0 <= i < |found| => Pair(Relative(found[i].path), EntryJson(found[i], hash)))
  }

  predicate Supported(found: seq<Found>) {
    forall i :: 0 <= i < |found| ==> !found[i].info.Unsupported?
  }

  function Values(pairs: seq<Pair<Json>>): seq<Json> {
    seq(|pairs|, i requires 0 <= i < |pairs| => pairs[i].value)
  }

  /** collectAttemptInventory: the entries in path order; `None` if an unsupported entry was met. */
  function CollectInventory(root: Node, hash: Hash, less: Less): Option<Json> {
    var found := Walk(root, []);
    if !Supported(found) then None else Some(Arr(Values(Sort(EntryPairs(found, hash), less))))
  }

  lemma DecimalIsNumber(n: nat)
    ensures NumberText(Decimal(n))
  {
    DecimalIsFixed(n);
    FixedDigits(n, |Decimal(n)|);
  }

  lemma EntryValid(f: Found, hash: Hash)
    ensures Valid(EntryJson(f, hash))
  {
    if f.info.Regular? { DecimalIsNumber(|f.info.content|); }
  }

  /** Equivalent objects have equivalent values under equal keys. */
  lemma SameKeyValues(a: seq<Entry>, b: seq<Entry>, i: nat)
    requires Equivalent(Obj(a), Obj(b)) && DistinctKeys(b) && i < |a| && i < |b| && a[i].key == b[i].key
    ensures Equivalent(a[i].value, b[i].value)
  {
    var j :| 0 <= j < |b| && a[i].key == b[j].key && Equivalent(a[i].value, b[j].value);
    assert !(i < j) && !(j < i);
  }

  /** An inventory entry determines what it describes. */
  lemma EntryDetermines(f: Found, g: Found, hash: Hash)
    requires Injective(hash) && !f.info.Unsupported? && !g.info.Unsupported?
    requires Equivalent(EntryJson(f, hash), EntryJson(g, hash))
    ensures Relative(f.path) == Relative(g.path) && f.info == g.info
  {
    var a, b := EntryJson(f, hash).entries, EntryJson(g, hash).entries;
    assert |a| == |b|;
    EntryValid(g, hash);
    SameKeyValues(a, b, 0);
    if f.info.Regular? {
      SameKeyValues(a, b, 3);
      assert a[3].value == Str(hash(f.info.content)) && b[3].value == Str(hash(g.info.content));
    }
  }

  // ----- what agreeing inventories say -----

  /** The trees agree on every path outside `review-packet.json`. */
  ghost predicate SameTree(t: Node, t': Node) {
    forall path :: path != [] && path[0] != PACKET ==> Lookup(t, path) == Lookup(t', path)
  }

  lemma PairsDistinct(root: Node, hash: Hash)
    requires Proper(root) && PlainNames(root)
    ensures DistinctPairs(EntryPairs(Walk(root, []), hash))
  {
    var found := Walk(root, []);
    WalkDistinct(root, []);
    forall i, j | 0 <= i < j < |found| ensures Relative(found[i].path) != Relative(found[j].path) {
      FoundPlain(root, found[i]);
      FoundPlain(root, found[j]);
      if Relative(found[i].path) == Relative(found[j].path) { SlashedInjective(found[i].path, found[j].path); }
    }
  }

  lemma FoundPlain(root: Node, f: Found)
    requires Proper(root) && PlainNames(root) && f in Walk(root, [])
    ensures f.path != [] && f.path[0] != PACKET && PlainPath(f.path) && Relative(f.path) == Slashed(f.path)
    ensures Lookup(root, f.path) == Some(f.info)
  {
    var path := WalkSound(root, [], f);
    assert [] + path == path;
    LookupPlain(root, path);
    RelativePlain(path);
  }

  lemma SameFoundIsSameTree(t: Node, t': Node)
    requires Proper(t) && Proper(t') && PlainNames(t) && PlainNames(t')
    requires forall f :: f in Walk(t, []) <==> f in Walk(t', [])
    ensures SameTree(t, t')
  {
    forall path | path != [] && path[0] != PACKET ensures Lookup(t, path) == Lookup(t', path) {
      assert [] + path == path;
      if Lookup(t, path).Some? {
        WalkComplete(t, [], path);
        FoundPlain(t', Found(path, Lookup(t, path).value));
      }
      if Lookup(t', path).Some? {
        WalkComplete(t', [], path);
        FoundPlain(t, Found(path, Lookup(t', path).value));
      }
    }
  }

  lemma SameTreeIsFound(t: Node, t': Node, f: Found)
    requires Proper(t) && PlainNames(t) && SameTree(t, t') && f in Walk(t, [])
    ensures f in Walk(t', [])
  {
    FoundPlain(t, f);
    WalkComplete(t', [], f.path);
    assert [] + f.path == f.path;
  }

  lemma SameTreeSupported(t: Node, t': Node)
    requires Proper(t) && PlainNames(t) && SameTree(t, t') && Supported(Walk(t', []))
    ensures Supported(Walk(t, []))
  {
    var found := Walk(t, []);
    forall i | 0 <= i < |found| ensures !found[i].info.Unsupported? {
      SameTreeIsFound(t, t', found[i]);
    }
  }

  /** There is an inventory exactly if nothing unsupported is found anywhere outside `review-packet.json`. */
  lemma InventoryExistsIff(t: Node, hash: Hash, less: Less)
    requires Proper(t) && PlainNames(t)
    ensures CollectInventory(t, hash, less).Some? <==>
              forall path :: path != [] && path[0] != PACKET ==> Lookup(t, path) != Some(Unsupported)
  {
    var found := Walk(t, []);
    if Supported(found) {
      forall path | path != [] && path[0] != PACKET ensures Lookup(t, path) != Some(Unsupported) {
        assert [] + path == path;
        if Lookup(t, path) == Some(Unsupported) { WalkComplete(t, [], path); }
      }
    } else {
      var i :| 0 <= i < |found| && found[i].info.Unsupported?;
      FoundPlain(t, found[i]);
    }
  }

  lemma EntryPairsMember(found: seq<Found>, f: Found, hash: Hash)
    requires f in found
    ensures Pair(Relative(f.path), EntryJson(f, hash)) in EntryPairs(found, hash)
  {
    var i :| 0 <= i < |found| && found[i] == f;
    assert EntryPairs(found, hash)[i] == Pair(Relative(f.path), EntryJson(f, hash));
  }

  /** Every entry of the one inventory is found, with the same path and contents, by the other walk. */
  lemma EquivalentIsFound(t: Node, t': Node, hash: Hash, less: Less, f: Found)
    requires Injective(hash) && Proper(t) && Proper(t') && PlainNames(t) && PlainNames(t')
    requires Supported(Walk(t, [])) && Supported(Walk(t', [])) && f in Walk(t, [])
    requires Equivalent(Arr(Values(Sort(EntryPairs(Walk(t, []), hash), less))),
                        Arr(Values(Sort(EntryPairs(Walk(t', []), hash), less))))
    ensures f in Walk(t', [])
  {
    var pairs, pairs' := EntryPairs(Walk(t, []), hash), EntryPairs(Walk(t', []), hash);
    var sorted, sorted' := Sort(pairs, less), Sort(pairs', less);
    SortMembers(pairs, less);
    SortMembers(pairs', less);
    EntryPairsMember(Walk(t, []), f, hash);
    assert Pair(Relative(f.path), EntryJson(f, hash)) in sorted;
    var i :| 0 <= i < |sorted| && sorted[i] == Pair(Relative(f.path), EntryJson(f, hash));
    assert Equivalent(Values(sorted)[i], Values(sorted')[i]);
    assert sorted'[i] in pairs';
    var k :| 0 <= k < |pairs'| && pairs'[k] == sorted'[i];
    var g := Walk(t', [])[k];
    EntryDetermines(f, g, hash);
    FoundPlain(t, f);
    FoundPlain(t', g);
    SlashedInjective(f.path, g.path);
    assert f == g;
  }

  lemma SameTreeSameInventory(t: Node, t': Node, hash: Hash, less: Less)
    requires StrictTotal(less) && Proper(t) && Proper(t') && PlainNames(t) && PlainNames(t') && SameTree(t, t')
    ensures Sort(EntryPairs(Walk(t, []), hash), less) == Sort(EntryPairs(Walk(t', []), hash), less)
  {
    var pairs, pairs' := EntryPairs(Walk(t, []), hash), EntryPairs(Walk(t', []), hash);
    PairsDistinct(t, hash);
    PairsDistinct(t', hash);
    forall q ensures q in pairs <==> q in pairs' {
      if q in pairs { PairMoves(t, t', hash, q); }
      if q in pairs' { PairMoves(t', t, hash, q); }
    }
    SameMembersSameLength(pairs, pairs');
    SortMembers(pairs, less);
    SortMembers(pairs', less);
    SortIncreasing(pairs, less);
    SortIncreasing(pairs', less);
    IncreasingUnique(Sort(pairs, less), Sort(pairs', less), less);
  }

  lemma PairMoves(t: Node, t': Node, hash: Hash, q: Pair<Json>)
    requires Proper(t) && PlainNames(t) && SameTree(t, t') && q in EntryPairs(Walk(t, []), hash)
    ensures q in EntryPairs(Walk(t', []), hash)
  {
    var pairs := EntryPairs(Walk(t, []), hash);
    var i :| 0 <= i < |pairs| && pairs[i] == q;
    var f := Walk(t, [])[i];
    SameTreeIsFound(t, t', f);
    EntryPairsMember(Walk(t', []), f, hash);
  }

  lemma SameMembersSameLength(a: seq<Pair<Json>>, b: seq<Pair<Json>>)
    requires DistinctPairs(a) && DistinctPairs(b) && forall q :: q in a <==> q in b
    ensures |a| == |b|
  {
    PairSet(a);
    PairSet(b);
    assert (set q | q in a) == (set q | q in b);
  }

  lemma {:induction false} ValuesValid(root: Node, hash: Hash, less: Less)
    ensures Valid(Arr(Values(Sort(EntryPairs(Walk(root, []), hash), less))))
  {
    var pairs := EntryPairs(Walk(root, []), hash);
    SortMembers(pairs, less);
    var sorted := Sort(pairs, less);
    forall i | 0 <= i < |sorted| ensures Valid(Values(sorted)[i]) {
      assert sorted[i] in pairs;
      var k :| 0 <= k < |pairs| && pairs[k] == sorted[i];
      EntryValid(Walk(root, [])[k], hash);
    }
  }

  /**
   For trees without slashes or backslashes in names: two inventories have the same canonical text exactly if the
   trees agree on every path, in kind and in contents, except for `review-packet.json`.
   */
  lemma InventoryIffSameTree(t: Node, t': Node, hash: Hash, less: Less)
    requires Injective(hash) && StrictTotal(less)
    requires Proper(t) && Proper(t') && PlainNames(t) && PlainNames(t')
    requires CollectInventory(t, hash, less).Some? && CollectInventory(t', hash, less).Some?
    ensures CanonicalJson(CollectInventory(t, hash, less).value, less) ==
            CanonicalJson(CollectInventory(t', hash, less).value, less)
            <==> SameTree(t, t')
  {
    var v, w := CollectInventory(t, hash, less).value, CollectInventory(t', hash, less).value;
    ValuesValid(t, hash, less);
    ValuesValid(t', hash, less);
    CanonicalIffEquivalent(v, w, less);
    if SameTree(t, t') { SameTreeSameInventory(t, t', hash, less); }
    if Equivalent(v, w) {
      CanonicalIffEquivalent(w, v, less);
      forall f ensures f in Walk(t, []) <==> f in Walk(t', []) {
        if f in Walk(t, []) { EquivalentIsFound(t, t', hash, less, f); }
        if f in Walk(t', []) { EquivalentIsFound(t', t, hash, less, f); }
      }
      SameFoundIsSameTree(t, t');
    }
  }

  // ----- backslashes in names -----

  /** An empty directory beside a file whose name contains a backslash. */
  function Beside(content: string): Node {
    Dir([Child("a", Dir([])), Child("a\\b", File(content))])
  }

  /** The same file inside the directory. */
  function Inside(content: string): Node {
    Dir([Child("a", Dir([Child("b", File(content))]))])
  }

  lemma WalkTwo(c: Child, d: Child, prefix: seq<string>)
    ensures Walk(Dir([c, d]), prefix) == Below(c, prefix) + Below(d, prefix)
  {
    var lists := seq(2, i requires 0 <= i < 2 => Below([c, d][i], prefix));
    assert lists[..1][..0] == [] && lists[..1] == [Below(c, prefix)] && lists[1] == Below(d, prefix);
    assert Flatten(lists[..1]) == Below(c, prefix);
    assert lists == seq(|[c, d]|, i requires 0 <= i < |[c, d]| =>
                          if prefix == [] && [c, d][i].name == PACKET then []
                          else [Found(prefix + [[c, d][i].name], InfoOf([c, d][i].node))]
                               + Walk([c, d][i].node, prefix + [[c, d][i].name]));
  }

  lemma WalkOne(c: Child, prefix: seq<string>)
    ensures Walk(Dir([c]), prefix) == Below(c, prefix)
  {
    var lists := seq(1, i requires 0 <= i < 1 => Below([c][i], prefix));
    assert lists[..0] == [] && lists[0] == Below(c, prefix);
    assert Flatten(lists) == Flatten(lists[..0]) + lists[0];
    assert Flatten(lists) == Below(c, prefix);
    assert lists == seq(|[c]|, i requires 0 <= i < |[c]| =>
                          if prefix == [] && [c][i].name == PACKET then []
                          else [Found(prefix + [[c][i].name], InfoOf([c][i].node))]
                               + Walk([c][i].node, prefix + [[c][i].name]));
  }

  lemma WalkBeside(content: string)
    ensures Walk(Beside(content), []) == [Found(["a"], Directory), Found(["a\\b"], Regular(content))]
  {
    WalkTwo(Child("a", Dir([])), Child("a\\b", File(content)), []);
    assert Walk(Dir([]), ["a"]) == [];
    assert [] + ["a"] == ["a"] && [] + ["a\\b"] == ["a\\b"];
  }

  lemma WalkInside(content: string)
    ensures Walk(Inside(content), []) == [Found(["a"], Directory), Found(["a", "b"], Regular(content))]
  {
    WalkOne(Child("a", Dir([Child("b", File(content))])), []);
    WalkOne(Child("b", File(content)), ["a"]);
    assert [] + ["a"] == ["a"] && ["a"] + ["b"] == ["a", "b"];
  }

  /** With a backslash in a name, two different trees have the same inventory. */
  lemma BackslashConfuses(content: string, hash: Hash, less: Less)
    ensures CollectInventory(Beside(content), hash, less).Some?
    ensures CollectInventory(Beside(content), hash, less) == CollectInventory(Inside(content), hash, less)
    ensures !SameTree(Beside(content), Inside(content))
  {
    WalkBeside(content);
    WalkInside(content);
    var one, two := Found(["a\\b"], Regular(content)), Found(["a", "b"], Regular(content));
    assert Slashed(["a", "b"]) == "a" + "/" + Slashed(["a", "b"][1..]);
    assert Slashed(["a", "b"]) == "a/b";
    assert Relative(one.path) == "a/b" && Relative(two.path) == "a/b";
    assert EntryJson(one, hash) == EntryJson(two, hash);
    assert EntryPairs(Walk(Beside(content), []), hash) == EntryPairs(Walk(Inside(content), []), hash);
    NoSuchPath(content);
  }

  lemma NoSuchPath(content: string)
    ensures Lookup(Beside(content), ["a", "b"]).None? && Lookup(Inside(content), ["a", "b"]) == Some(Regular(content))
  {
    var beside, inside := Beside(content).children, Inside(content).children;
    IndexOfIs(beside, "a");
    assert beside[..1] == [Child("a", Dir([]))];
    assert IndexOf(beside, "a") == Some(0);
    assert ["a", "b"][1..] == ["b"] && ["b"][1..] == [];
    assert IndexOf(inside, "a") == Some(0);
    assert Lookup(Dir([Child("b", File(content))]), ["b"]) == Some(Regular(content));
  }
}
