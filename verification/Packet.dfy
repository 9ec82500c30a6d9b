/** Review packets: what is sealed, what validation compares, and what a valid packet says about the current state. */
module Packet {
  import opened Common
  import opened Canonical
  import opened RevisionNames
  import opened Inventory

  /** The records that a packet seals. */
  datatype Records = Records(contract: Json, manifest: Json, cleanup: Json, verification: Json, changedPaths: Json)

  /** Where the projections of those records are kept. */
  datatype Locations = Locations(contract: string, manifest: string, cleanup: string, verification: string,
                                 changedPaths: string)

  /** The evidence behind a packet: records, their places, the regular files that exist, and the attempt directory. */
  datatype State = State(
    jobId: string, attemptId: string, records: Records, locations: Locations, files: map<string, string>, tree: Node)

  /** A file that the launch-time worker profile describes. */
  datatype ProfileFile = ProfileFile(path: string, size: nat, sha256: string)

  /** A file to be bound, and what it is evidence of. */
  datatype Request = Request(path: string, purposes: seq<string>)

  /**
   What is read from the records alone: `sound` for their eligibility, identities, fingerprints and artifact paths,
   `profile` for the worker profile's files, `requested` for the files to be bound; and the reading of JSON text.
   */
  datatype Reading = Reading(
    sound: (Records, Locations) -> bool,
    profile: Records -> seq<ProfileFile>,
    requested: (Records, Locations) -> seq<Request>,
    parse: string -> Option<Json>)

  datatype Binding = Binding(path: string, purposes: seq<string>, size: nat, sha256: string)

  datatype Packet = Packet(
    schema: string, sealedAt: string, jobId: string, attemptId: string, authority: string, records: Records,
    bindings: seq<Binding>, inventory: Json, rubric: Json, seal: string)

  const SCHEMA := "conductor.review-packet/v2"
  const AUTHORITY := "advisory-review-only"

  predicate ValidRecords(r: Records) {
    Valid(r.contract) && Valid(r.manifest) && Valid(r.cleanup) && Valid(r.verification) && Valid(r.changedPaths)
  }

  predicate ValidState(s: State) {
    ValidRecords(s.records) && Proper(s.tree) && PlainNames(s.tree)
  }

  ghost predicate SameRecords(r: Records, q: Records) {
    && Equivalent(r.contract, q.contract) && Equivalent(r.manifest, q.manifest) && Equivalent(r.cleanup, q.cleanup)
    && Equivalent(r.verification, q.verification) && Equivalent(r.changedPaths, q.changedPaths)
  }

  predicate Requests(requested: seq<Request>, path: string) {
    exists i :: 0 <= i < |requested| && requested[i].path == path
  }

  /** Every projection and every profile file is among the files to be bound. */
  predicate BindsAll(reading: Reading, r: Records, l: Locations) {
    var requested := reading.requested(r, l);
    && Requests(requested, l.contract) && Requests(requested, l.manifest) && Requests(requested, l.cleanup)
    && Requests(requested, l.verification) && Requests(requested, l.changedPaths)
    && (forall i :: 0 <= i < |reading.profile(r)| ==> Requests(requested, reading.profile(r)[i].path))
  }

  /**
   Reading goes by field names, so key order plays no part; the artifact paths in the records fix where the projections
   are; and projections and profile files are bound.
   */
  ghost predicate Faithful(reading: Reading) {
    && (forall r, q :: SameRecords(r, q) ==> reading.profile(r) == reading.profile(q))
    && (forall r, q, l :: SameRecords(r, q) ==> reading.sound(r, l) == reading.sound(q, l))
    && (forall r, l, k :: reading.sound(r, l) && reading.sound(r, k) ==> l == k)
    && (forall r, l :: BindsAll(reading, r, l))
  }

  function PurposesJson(purposes: seq<string>): Json {
    Arr(seq(|purposes|, i requires 0 <= i < |purposes| => Str(purposes[i])))
  }

  function BindingJson(b: Binding): Json {
    Obj([Entry("path", Str(b.path)), Entry("purposes", PurposesJson(b.purposes)), Entry("size", Num(Decimal(b.size))),
         Entry("sha256", Str(b.sha256))])
  }

  /** What the seal covers. */
  function Unsigned(p: Packet): Json {
    Obj([Entry("schema", Str(p.schema)), Entry("sealedAt", Str(p.sealedAt)), Entry("jobId", Str(p.jobId)),
         Entry("attemptId", Str(p.attemptId)), Entry("authority", Str(p.authority)),
         Entry("contract", p.records.contract),
         Entry("attempt", p.records.manifest), Entry("cleanup", p.records.cleanup),
         Entry("verification", p.records.verification), Entry("changedPaths", p.records.changedPaths),
         Entry("bindings", Arr(seq(|p.bindings|, i requires 0 <= i < |p.bindings| => BindingJson(p.bindings[i])))),
         Entry("attemptInventory", p.inventory), Entry("reviewerContract", p.rubric)])
  }

  function Seal(p: Packet, hash: Hash, less: Less): string {
    hash(CanonicalJson(Unsigned(p), less))
  }

  function Bind(request: Request, content: string, hash: Hash): Binding {
    Binding(request.path, request.purposes, |content|, hash(content))
  }

  predicate AllPresent(requested: seq<Request>, files: map<string, string>) {
    forall i :: 0 <= i < |requested| ==> requested[i].path in files
  }

  // ----- reviewable states -----

  /** validateProjection: the file holds the record, up to key order. */
  predicate Projects(path: string, record: Json, files: map<string, string>, reading: Reading, less: Less) {
    path in files && reading.parse(files[path]).Some? && SameText(reading.parse(files[path]).value, record, less)
  }

  predicate AllProject(s: State, reading: Reading, less: Less) {
    && Projects(s.locations.contract, s.records.contract, s.files, reading, less)
    && Projects(s.locations.manifest, s.records.manifest, s.files, reading, less)
    && Projects(s.locations.cleanup, s.records.cleanup, s.files, reading, less)
    && Projects(s.locations.verification, s.records.verification, s.files, reading, less)
    && Projects(s.locations.changedPaths, s.records.changedPaths, s.files, reading, less)
  }

  /** validateWorkerExecutionProfile, as far as it looks at files. */
  predicate ProfileHolds(profile: seq<ProfileFile>, files: map<string, string>, hash: Hash) {
    forall i :: 0 <= i < |profile| ==>
      && profile[i].path in files && |files[profile[i].path]| == profile[i].size
      && hash(files[profile[i].path]) == profile[i].sha256
  }

  /** assertReviewEvidenceState. */
  predicate Reviewable(s: State, reading: Reading, hash: Hash, less: Less) {
    && reading.sound(s.records, s.locations) && ProfileHolds(reading.profile(s.records), s.files, hash)
    && AllProject(s, reading, less)
  }

  // ----- building and validating -----

  /** buildReviewPacket; `None` is an error. */
  function Build(s: State, sealedAt: string, rubric: Json, reading: Reading, hash: Hash, less: Less): Option<Packet> {
    var inventory := CollectInventory(s.tree, hash, less);
    var requested := reading.requested(s.records, s.locations);
    if !Reviewable(s, reading, hash, less) || !AllPresent(requested, s.files) || requested == []
       || inventory.None? then None
    else
      var bindings := seq(|requested|, i requires 0 <= i < |requested| =>
                          Bind(requested[i], s.files[requested[i].path], hash));
      var unsigned := Packet(SCHEMA, sealedAt, s.jobId, s.attemptId, AUTHORITY, s.records, bindings, inventory.value,
                             rubric, "");
      Some(unsigned.(seal := Seal(unsigned, hash, less)))
  }

  predicate Matches(b: Binding, files: map<string, string>, hash: Hash) {
    b.path in files && |files[b.path]| == b.size && hash(files[b.path]) == b.sha256
  }

  /** The sealed records and the current ones, in the order in which they are compared. */
  function Comparisons(p: Packet, s: State, rubric: Json): seq<(Json, Json)> {
    [(p.records.contract, s.records.contract), (p.records.manifest, s.records.manifest),
     (p.records.cleanup, s.records.cleanup), (p.records.verification, s.records.verification),
     (p.records.changedPaths, s.records.changedPaths), (p.rubric, rubric)]
  }

  predicate SameText(v: Json, w: Json, less: Less) {
    CanonicalJson(v, less) == CanonicalJson(w, less)
  }

  predicate AllSame(comparisons: seq<(Json, Json)>, less: Less) {
    forall k :: 0 <= k < |comparisons| ==> SameText(comparisons[k].0, comparisons[k].1, less)
  }

  predicate AllMatch(bindings: seq<Binding>, files: map<string, string>, hash: Hash) {
    forall k :: 0 <= k < |bindings| ==> Matches(bindings[k], files, hash)
  }

  method CompareRecords(comparisons: seq<(Json, Json)>, less: Less) returns (ok: bool)
    ensures ok <==> AllSame(comparisons, less)
  {
    var i := 0;
    while i < |comparisons|
      invariant 0 <= i <= |comparisons|
      invariant forall k :: 0 <= k < i ==> SameText(comparisons[k].0, comparisons[k].1, less)
    {
      if CanonicalJson(comparisons[i].0, less) != CanonicalJson(comparisons[i].1, less) { return false; }
      i := i + 1;
    }
    return true;
  }

  method ValidateBindings(bindings: seq<Binding>, files: map<string, string>, hash: Hash) returns (ok: bool)
    ensures ok <==> AllMatch(bindings, files, hash)
  {
    var i := 0;
    while i < |bindings|
      invariant 0 <= i <= |bindings| && forall k :: 0 <= k < i ==> Matches(bindings[k], files, hash)
    {
      var b := bindings[i];
      if b.path !in files || |files[b.path]| != b.size || hash(files[b.path]) != b.sha256 { return false; }
      i := i + 1;
    }
    return true;
  }

  /** validateReviewPacket. */
  method Validate(p: Packet, s: State, rubric: Json, reading: Reading, hash: Hash, less: Less) returns (ok: bool)
    ensures ok <==> Accepted(p, s, rubric, reading, hash, less)
  {
    if p.schema != SCHEMA || p.authority != AUTHORITY || p.bindings == [] { return false; }
    if Seal(p, hash, less) != p.seal || !Reviewable(s, reading, hash, less) { return false; }
    ok := CompareRecords(Comparisons(p, s, rubric), less);
    if !ok || p.jobId != s.jobId || p.attemptId != s.attemptId { return false; }
    ok := ValidateBindings(p.bindings, s.files, hash);
    var inventory := CollectInventory(s.tree, hash, less);
    if !ok || inventory.None? { return false; }
    return CanonicalJson(inventory.value, less) == CanonicalJson(p.inventory, less);
  }

  /** What the checks of validation amount to. */
  predicate Accepted(p: Packet, s: State, rubric: Json, reading: Reading, hash: Hash, less: Less) {
    && p.schema == SCHEMA && p.authority == AUTHORITY && p.bindings != []
    && Seal(p, hash, less) == p.seal && Reviewable(s, reading, hash, less)
    && AllSame(Comparisons(p, s, rubric), less)
    && p.jobId == s.jobId && p.attemptId == s.attemptId
    && AllMatch(p.bindings, s.files, hash)
    && CollectInventory(s.tree, hash, less).Some?
    && SameText(CollectInventory(s.tree, hash, less).value, p.inventory, less)
  }

  /** Every file that the sealed state has bound is there with the same contents. */
  predicate SameFiles(requested: seq<Request>, sealed: map<string, string>, files: map<string, string>) {
    forall i :: 0 <= i < |requested| ==>
      && requested[i].path in sealed && requested[i].path in files
      && files[requested[i].path] == sealed[requested[i].path]
  }

  /**
   The states agree on the identity, on all records up to key order, on where these are kept, on every bound file, and
   on the attempt tree.
   */
  ghost predicate Agree(sealed: State, s: State, reading: Reading) {
    && s.jobId == sealed.jobId && s.attemptId == sealed.attemptId
    && SameRecords(sealed.records, s.records) && s.locations == sealed.locations
    && SameFiles(reading.requested(sealed.records, sealed.locations), sealed.files, s.files)
    && SameTree(s.tree, sealed.tree)
  }

  lemma SixComparisons(a: (Json, Json), b: (Json, Json), c: (Json, Json), d: (Json, Json), e: (Json, Json),
                       f: (Json, Json), less: Less)
    ensures AllSame([a, b, c, d, e, f], less) <==>
              && SameText(a.0, a.1, less) && SameText(b.0, b.1, less) && SameText(c.0, c.1, less)
              && SameText(d.0, d.1, less) && SameText(e.0, e.1, less) && SameText(f.0, f.1, less)
  {
    var all := [a, b, c, d, e, f];
    assert all[0] == a && all[1] == b && all[2] == c && all[3] == d && all[4] == e && all[5] == f;
  }

  /** Equal up to key order is equal in text. */
  predicate SameTexts(r: Records, q: Records, less: Less) {
    && SameText(r.contract, q.contract, less) && SameText(r.manifest, q.manifest, less)
    && SameText(r.cleanup, q.cleanup, less) && SameText(r.verification, q.verification, less)
    && SameText(r.changedPaths, q.changedPaths, less)
  }

  lemma RecordsAgree(r: Records, q: Records, less: Less)
    requires ValidRecords(r) && ValidRecords(q) && StrictTotal(less)
    ensures SameTexts(r, q, less) <==> SameRecords(r, q)
  {
    CanonicalIffEquivalent(r.contract, q.contract, less);
    CanonicalIffEquivalent(r.manifest, q.manifest, less);
    CanonicalIffEquivalent(r.cleanup, q.cleanup, less);
    CanonicalIffEquivalent(r.verification, q.verification, less);
    CanonicalIffEquivalent(r.changedPaths, q.changedPaths, less);
  }

  lemma ComparisonsAgree(p: Packet, s: State, rubric: Json, less: Less)
    requires p.rubric == rubric
    ensures AllSame(Comparisons(p, s, rubric), less) <==> SameTexts(p.records, s.records, less)
  {
    SixComparisons((p.records.contract, s.records.contract), (p.records.manifest, s.records.manifest),
                   (p.records.cleanup, s.records.cleanup), (p.records.verification, s.records.verification),
                   (p.records.changedPaths, s.records.changedPaths), (p.rubric, rubric), less);
  }

  lemma BindingsAgree(p: Packet, sealed: State, requested: seq<Request>, files: map<string, string>, hash: Hash)
    requires Injective(hash) && AllPresent(requested, sealed.files) && |p.bindings| == |requested|
    requires forall i :: 0 <= i < |requested| ==>
               p.bindings[i] == Bind(requested[i], sealed.files[requested[i].path], hash)
    ensures AllMatch(p.bindings, files, hash) <==> SameFiles(requested, sealed.files, files)
  {
    forall i | 0 <= i < |requested|
      ensures Matches(p.bindings[i], files, hash) <==>
              requested[i].path in files && files[requested[i].path] == sealed.files[requested[i].path]
    {
      assert p.bindings[i] == Bind(requested[i], sealed.files[requested[i].path], hash);
    }
  }

  lemma SameFile(requested: seq<Request>, sealed: map<string, string>, files: map<string, string>, path: string)
    requires SameFiles(requested, sealed, files) && Requests(requested, path)
    ensures path in sealed && path in files && files[path] == sealed[path]
  {
  }

  /** Agreement carries reviewability over: everything the checks look at is a record or a bound file. */
  lemma ReviewableStays(sealed: State, s: State, reading: Reading, hash: Hash, less: Less)
    requires Faithful(reading) && Agree(sealed, s, reading) && SameTexts(sealed.records, s.records, less)
    requires Reviewable(sealed, reading, hash, less)
    ensures Reviewable(s, reading, hash, less)
  {
    var l := sealed.locations;
    var requested := reading.requested(sealed.records, l);
    assert BindsAll(reading, sealed.records, l);
    SameFile(requested, sealed.files, s.files, l.contract);
    SameFile(requested, sealed.files, s.files, l.manifest);
    SameFile(requested, sealed.files, s.files, l.cleanup);
    SameFile(requested, sealed.files, s.files, l.verification);
    SameFile(requested, sealed.files, s.files, l.changedPaths);
    var profile := reading.profile(sealed.records);
    forall i | 0 <= i < |profile|
      ensures profile[i].path in s.files && profile[i].path in sealed.files
              && s.files[profile[i].path] == sealed.files[profile[i].path]
    {
      SameFile(requested, sealed.files, s.files, profile[i].path);
    }
  }

  /**
   A packet sealed from one state is accepted against another exactly if that one agrees with the sealed one on all
   records, bound files and the attempt tree; that it is then reviewable itself follows.
   */
  lemma AcceptedIffAgree(p: Packet, sealed: State, s: State, sealedAt: string, rubric: Json, reading: Reading,
                         hash: Hash, less: Less)
    requires Injective(hash) && StrictTotal(less) && Faithful(reading) && ValidState(sealed) && ValidState(s)
    requires Build(sealed, sealedAt, rubric, reading, hash, less) == Some(p)
    ensures Accepted(p, s, rubric, reading, hash, less) <==> Agree(sealed, s, reading)
  {
    assert Unsigned(p) == Unsigned(p.(seal := ""));
    ComparisonsAgree(p, s, rubric, less);
    RecordsAgree(sealed.records, s.records, less);
    BindingsAgree(p, sealed, reading.requested(sealed.records, sealed.locations), s.files, hash);
    if SameTree(s.tree, sealed.tree) { SameTreeSupported(s.tree, sealed.tree); }
    if CollectInventory(s.tree, hash, less).Some? { InventoryIffSameTree(s.tree, sealed.tree, hash, less); }
    if Agree(sealed, s, reading) { ReviewableStays(sealed, s, reading, hash, less); }
    if SameRecords(sealed.records, s.records) {
      assert reading.sound(s.records, sealed.locations) == reading.sound(sealed.records, sealed.locations);
    }
  }

  /** Two packets with correct and equal seals have the same sealed contents, up to key order. */
  lemma SealDetermines(p: Packet, q: Packet, hash: Hash, less: Less)
    requires Injective(hash) && StrictTotal(less) && Valid(Unsigned(p)) && Valid(Unsigned(q))
    requires Seal(p, hash, less) == p.seal && Seal(q, hash, less) == q.seal
    ensures p.seal == q.seal <==> Equivalent(Unsigned(p), Unsigned(q))
  {
    CanonicalIffEquivalent(Unsigned(p), Unsigned(q), less);
  }
}
