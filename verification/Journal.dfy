/**
 Revision directory names: a zero-padded decimal of twelve digits, compared as text by the reader.
 */
module RevisionNames {

  const LIMIT: nat := 1_000_000_000_000

  function Digit(d: nat): char
    requires d < 10
  {
    '0' + d as char
  }

  /** Number.prototype.toString for natural numbers. */
  function Decimal(n: nat): string {
    if n < 10 then [Digit(n)] else Decimal(n / 10) + [Digit(n % 10)]
  }

  /** String.prototype.padStart with zeros. */
  function PadStart(text: string, width: nat): string
    decreases width - |text|
  {
    if |text| >= width then text else PadStart("0" + text, width)
  }

  function Name(revision: nat): string {
    PadStart(Decimal(revision), 12)
  }

  /** The twelve-digit filter of the reader. */
  predicate Matches(name: string) {
    |name| == 12 && forall i :: 0 <= i < |name| ==> '0' <= name[i] <= '9'
  }

  /** Number() on a string of digits. */
  function Value(text: string): nat
    requires forall i :: 0 <= i < |text| ==> '0' <= text[i] <= '9'
  {
    if text == "" then 0 else 10 * Value(text[..|text| - 1]) + (text[|text| - 1] - '0') as nat
  }

  /** Text order, as used by Array.prototype.sort without a comparator. */
  predicate Less(a: string, b: string) {
    if a == "" then b != ""
    else if b == "" then false
    else if a[0] == b[0] then Less(a[1..], b[1..])
    else a[0] < b[0]
  }

  /** `entries.filter(...).sort().at(-1)`: the greatest matching entry. */
  function Latest(entries: seq<string>): (latest: string)
    ensures latest == "" || (latest in entries && Matches(latest))
    ensures latest == "" ==> forall e :: e in entries ==> !Matches(e)
  {
    if entries == [] then ""
    else
      var rest := Latest(entries[1..]);
      if Matches(entries[0]) && (rest == "" || Less(rest, entries[0])) then entries[0] else rest
  }

  // ----- fixed-width digits -----

  function Pow10(k: nat): nat {
    if k == 0 then 1 else 10 * Pow10(k - 1)
  }

  function Fixed(n: nat, width: nat): string {
    if width == 0 then "" else Fixed(n / 10, width - 1) + [Digit(n % 10)]
  }

  lemma {:induction false} FixedDigits(n: nat, width: nat)
    ensures |Fixed(n, width)| == width
    ensures forall i :: 0 <= i < width ==> '0' <= Fixed(n, width)[i] <= '9'
  {
    if width > 0 { FixedDigits(n / 10, width - 1); }
  }

  lemma {:induction false} FixedLeadingZero(n: nat, width: nat)
    requires n < Pow10(width)
    ensures Fixed(n, width + 1) == "0" + Fixed(n, width)
  {
    if width > 0 {
      FixedLeadingZero(n / 10, width - 1);
      assert Fixed(n, width + 1) == Fixed(n / 10, width) + [Digit(n % 10)];
    }
  }

  /** The decimal form has exactly the digits of the number. */
  lemma {:induction false} DecimalIsFixed(n: nat)
    ensures 1 <= |Decimal(n)| && n < Pow10(|Decimal(n)|)
    ensures Decimal(n) == Fixed(n, |Decimal(n)|)
    ensures |Decimal(n)| > 1 ==> n >= Pow10(|Decimal(n)| - 1)
  {
    if n >= 10 {
      DecimalIsFixed(n / 10);
      assert Decimal(n)[..|Decimal(n)| - 1] == Decimal(n / 10);
    } else {
      assert Fixed(n, 1) == Fixed(n / 10, 0) + [Digit(n % 10)];
      assert Pow10(1) == 10;
    }
  }

  lemma {:induction false} Pow10Monotone(a: nat, b: nat)
    requires a <= b
    ensures Pow10(a) <= Pow10(b)
  {
    if a < b { Pow10Monotone(a, b - 1); }
  }

  lemma {:induction false} PadIsFixed(n: nat, width: nat, k: nat)
    requires k <= width && n < Pow10(k)
    ensures PadStart(Fixed(n, k), width) == Fixed(n, width)
    decreases width - k
  {
    FixedDigits(n, k);
    if k < width {
      FixedLeadingZero(n, k);
      Pow10Monotone(k, k + 1);
      PadIsFixed(n, width, k + 1);
    }
  }

  lemma LimitIsPower()
    ensures Pow10(12) == LIMIT
  {
    assert Pow10(3) == 1000;
    assert Pow10(6) == 1_000_000;
    assert Pow10(9) == 1_000_000_000;
  }

  /** Padding never shortens. */
  lemma {:induction false} PadLength(text: string, width: nat)
    ensures |PadStart(text, width)| == if |text| >= width then |text| else width
    decreases width - |text|
  {
    if |text| < width { PadLength("0" + text, width); }
  }

  /** A revision's directory is visible to readers exactly below the limit, and is then its fixed-width form. */
  lemma VisibleBelowLimit(revision: nat)
    ensures Matches(Name(revision)) <==> revision < LIMIT
    ensures revision < LIMIT ==> Name(revision) == Fixed(revision, 12)
  {
    LimitIsPower();
    DecimalIsFixed(revision);
    var k := |Decimal(revision)|;
    if k <= 12 {
      Pow10Monotone(k, 12);
      PadIsFixed(revision, 12, k);
      FixedDigits(revision, 12);
    } else {
      Pow10Monotone(12, k - 1);
      PadLength(Decimal(revision), 12);
    }
  }

  lemma {:induction false} ValueOfFixed(n: nat, width: nat)
    requires n < Pow10(width)
    ensures (forall i :: 0 <= i < |Fixed(n, width)| ==> '0' <= Fixed(n, width)[i] <= '9')
         && Value(Fixed(n, width)) == n
  {
    FixedDigits(n, width);
    if width > 0 {
      ValueOfFixed(n / 10, width - 1);
      FixedDigits(n / 10, width - 1);
      assert Fixed(n, width)[..width - 1] == Fixed(n / 10, width - 1);
    }
  }

  lemma {:induction false} LessSnoc(a: string, b: string, x: char, y: char)
    requires |a| == |b|
    ensures Less(a + [x], b + [y]) <==> Less(a, b) || (a == b && x < y)
  {
    if a != "" {
      assert (a + [x])[1..] == a[1..] + [x];
      assert (b + [y])[1..] == b[1..] + [y];
      LessSnoc(a[1..], b[1..], x, y);
      assert a == b <==> a[0] == b[0] && a[1..] == b[1..];
    }
  }

  lemma {:induction false} FixedOrder(a: nat, b: nat, width: nat)
    requires a < Pow10(width) && b < Pow10(width)
    ensures Less(Fixed(a, width), Fixed(b, width)) <==> a < b
    ensures Fixed(a, width) == Fixed(b, width) ==> a == b
  {
    if width > 0 {
      FixedOrder(a / 10, b / 10, width - 1);
      FixedDigits(a / 10, width - 1);
      FixedDigits(b / 10, width - 1);
      LessSnoc(Fixed(a / 10, width - 1), Fixed(b / 10, width - 1), Digit(a % 10), Digit(b % 10));
      if Fixed(a, width) == Fixed(b, width) {
        assert Fixed(a, width)[..width - 1] == Fixed(a / 10, width - 1);
        assert Fixed(b, width)[..width - 1] == Fixed(b / 10, width - 1);
        assert Fixed(a, width)[width - 1] == Digit(a % 10) && Fixed(b, width)[width - 1] == Digit(b % 10);
      }
    }
  }

  /** Below the limit, name order is numeric order, names are distinct, and parsing undoes naming. */
  lemma NameOrder(a: nat, b: nat)
    requires a < LIMIT && b < LIMIT
    ensures Less(Name(a), Name(b)) <==> a < b
    ensures Name(a) == Name(b) ==> a == b
    ensures Matches(Name(a)) && Value(Name(a)) == a
  {
    LimitIsPower();
    VisibleBelowLimit(a);
    VisibleBelowLimit(b);
    FixedOrder(a, b, 12);
    ValueOfFixed(a, 12);
  }

  /** In a listing whose matching names are exactly revisions 1..n, the greatest name is revision n's. */
  lemma {:induction false} LatestIsNewest(entries: seq<string>, n: nat)
    requires 0 < n < LIMIT
    requires forall e :: e in entries && Matches(e) ==> exists r :: 1 <= r <= n && e == Name(r)
    requires Name(n) in entries
    ensures Latest(entries) == Name(n)
  {
    NameOrder(n, n);
    if entries[0] == Name(n) {
      var rest := Latest(entries[1..]);
      if rest != "" {
        var r :| 1 <= r <= n && rest == Name(r);
        NameOrder(r, n);
      }
    } else {
      LatestIsNewest(entries[1..], n);
      if Matches(entries[0]) {
        var r :| 1 <= r <= n && entries[0] == Name(r);
        NameOrder(n, r);
      }
    }
  }
}

/**
 One journaled record on shared storage: readers, writers and crashes interleaving at single file-system steps.
 Readers read the projection, list the journal, then read the newest snapshot.  A writer reads, compares with
 what it expects, renames a staged directory into place, and rewrites the projection.
 */
module Journal {
  import opened Common
  import opened RevisionNames

  type Task = nat

  /** A stored record: its revision and the rest of its JSON text. */
  datatype Record = Record(revision: nat, body: string)

  /** A commit: who made it, what it was based on and what it stored. */
  datatype Commit = Commit(task: Task, expected: Record, stored: Record)

  datatype Goal = Read | Replace(expected: Record, body: string)

  datatype PC =
    | Idle
    | Start(goal: Goal)
    | GotProjection(goal: Goal, projection: Record)
    // `current` is a history variable: the record's value when the journal was listed
    | GotListing(goal: Goal, projection: Record, latest: string, current: Record)
    | Returned(value: Record, current: Record)
    | Renaming(expected: Record, value: Record)
    | Projecting(value: Record)
    | ProjectionAhead
    | SnapshotCorrupt

  /** `journal` maps the revision of each committed directory to its snapshot.  `values` (every value
      the record has had, revision by revision) and `commits` (who stored each revision after the first) are history. */
  datatype State = State(
    projection: Record,
    journal: map<nat, Record>,
    pcs: map<Task, PC>,
    values: seq<Record>,
    commits: seq<Commit>)

  datatype Action =
    | StartRead(task: Task)
    | StartReplace(task: Task, expected: Record, body: string)
    | List(task: Task, entries: seq<string>)
    | Advance(task: Task)
    | Crash(task: Task)

  predicate Initial(s: State) {
    && s.projection.revision == 0
    && s.journal == map[]
    && s.values == [s.projection]
    && s.commits == []
    && (forall t :: t in s.pcs ==> s.pcs[t] == Idle)
  }

  /** The value of the record: its newest committed revision, or the initial one. */
  function Current(s: State): Record
    requires s.values != []
  {
    s.values[|s.values| - 1]
  }

  /** What readdir may return: every journal directory, plus staging names that do not match the filter. */
  ghost predicate Listing(s: State, entries: seq<string>) {
    && (forall r :: r in s.journal ==> Name(r) in entries)
    && (forall name :: name in entries && Matches(name) ==> exists r :: r in s.journal && name == Name(r))
  }

  function Finish(goal: Goal, value: Record, current: Record): PC {
    match goal
    case Read => Returned(value, current)
    case Replace(expected, body) =>
      if value == expected then Renaming(expected, Record(expected.revision + 1, body)) else Idle
  }

  function Step(s: State, t: Task): State
    requires t in s.pcs
  {
    match s.pcs[t]
    case Start(goal) => s.(pcs := s.pcs[t := GotProjection(goal, s.projection)])
    case GotListing(goal, projection, latest, current) =>
      var pc := if latest == "" then Finish(goal, projection, current)
                else if !Matches(latest) || Value(latest) !in s.journal then SnapshotCorrupt
                else
                  var value := s.journal[Value(latest)];
                  if value.revision != Value(latest) then SnapshotCorrupt
                  else if value.revision < projection.revision then ProjectionAhead
                  else Finish(goal, value, current);
      s.(pcs := s.pcs[t := pc])
    case Renaming(expected, value) =>
      if value.revision in s.journal then s.(pcs := s.pcs[t := Idle])
      else s.(journal := s.journal[value.revision := value], pcs := s.pcs[t := Projecting(value)],
              values := s.values + [value], commits := s.commits + [Commit(t, expected, value)])
    case Projecting(value) => s.(projection := value, pcs := s.pcs[t := Idle])
    case _ => s
  }

  ghost function Apply(s: State, a: Action): State {
    if a.task !in s.pcs then s
    else
      match a
      case StartRead(t) =>
        if s.pcs[t].Idle? || s.pcs[t].Returned? then s.(pcs := s.pcs[t := Start(Read)]) else s
      case StartReplace(t, expected, body) =>
        if s.pcs[t].Idle? || s.pcs[t].Returned? then s.(pcs := s.pcs[t := Start(Replace(expected, body))]) else s
      case List(t, entries) =>
        if s.pcs[t].GotProjection? && Listing(s, entries) && s.values != []
        then s.(pcs := s.pcs[t := GotListing(s.pcs[t].goal, s.pcs[t].projection, Latest(entries), Current(s))]) else s
      case Advance(t) => Step(s, t)
      case Crash(t) => s.(pcs := s.pcs[t := Idle])
  }

  ghost function Run(s: State, actions: seq<Action>): State {
    if actions == [] then s else Apply(Run(s, actions[..|actions| - 1]), actions[|actions| - 1])
  }

  // ----- invariant -----

  /** A value that the record has had. */
  predicate Known(s: State, value: Record) {
    value.revision < |s.values| && s.values[value.revision] == value
  }

  /** The commits form a chain: each stores the next revision over exactly the value before it. */
  predicate Chain(s: State) {
    && |s.values| == |s.commits| + 1
    && (forall i :: 0 <= i < |s.values| ==> s.values[i].revision == i)
    && (forall i :: 0 <= i < |s.commits| ==>
          s.commits[i].expected == s.values[i] && s.commits[i].stored == s.values[i + 1])
  }

  /** The journal holds exactly revisions 1..n. */
  ghost predicate JournalIs(s: State) {
    && (forall r :: r in s.journal <==> 1 <= r < |s.values|)
    && (forall r :: r in s.journal ==> s.journal[r] == s.values[r])
  }

  predicate TaskOk(s: State, pc: PC) {
    match pc
    case GotProjection(_, projection) => Known(s, projection)
    case GotListing(_, projection, latest, current) =>
      && Known(s, projection) && Known(s, current) && projection.revision <= current.revision
      && (latest == "" ==> current.revision == 0)
      && (latest != "" ==> current.revision > 0 && latest == Name(current.revision))
    case Returned(value, current) => value == current
    case Renaming(expected, value) => Known(s, expected) && value.revision == expected.revision + 1
    case Projecting(value) => Known(s, value)
    case ProjectionAhead => false
    case SnapshotCorrupt => false
    case _ => true
  }

  ghost predicate Inv(s: State) {
    && Chain(s)
    && JournalIs(s)
    && Known(s, s.projection)
    && (forall t :: t in s.pcs ==> TaskOk(s, s.pcs[t]))
  }

  lemma ListKeeps(s: State, t: Task, entries: seq<string>)
    requires Inv(s) && |s.commits| < LIMIT
    requires t in s.pcs && s.pcs[t].GotProjection? && Listing(s, entries)
    ensures TaskOk(s, GotListing(s.pcs[t].goal, s.pcs[t].projection, Latest(entries), Current(s)))
  {
    var n := |s.commits|;
    assert TaskOk(s, s.pcs[t]);
    if n > 0 {
      NameOrder(n, n);
      assert n in s.journal;
      LatestIsNewest(entries, n);
    }
  }

  lemma ReadKeeps(s: State, t: Task)
    requires Inv(s) && |s.commits| < LIMIT && t in s.pcs && s.pcs[t].GotListing?
    ensures TaskOk(s, Step(s, t).pcs[t])
  {
    var pc := s.pcs[t];
    assert TaskOk(s, pc);
    if pc.latest != "" {
      NameOrder(pc.current.revision, pc.current.revision);
      assert s.journal[pc.current.revision] == pc.current;
    }
  }

  /** Growing the history keeps every fact about it. */
  lemma CommitKeeps(s: State, t: Task)
    requires Inv(s) && t in s.pcs && s.pcs[t].Renaming?
    requires s.pcs[t].value.revision !in s.journal
    ensures Inv(Step(s, t))
  {
    var s' := Step(s, t);
    assert TaskOk(s, s.pcs[t]);
    forall u | u in s'.pcs ensures TaskOk(s', s'.pcs[u]) {
      assert TaskOk(s, s.pcs[u]);
    }
  }

  /** A step that changes no storage. */
  lemma Reposition(s: State, t: Task, pc: PC)
    requires Inv(s) && TaskOk(s, pc)
    ensures Inv(s.(pcs := s.pcs[t := pc]))
  {
  }

  lemma StepKeeps(s: State, t: Task)
    requires Inv(s) && |s.commits| < LIMIT && t in s.pcs
    ensures Inv(Step(s, t))
  {
    var pc := s.pcs[t];
    assert TaskOk(s, pc);
    match pc
    case Start(goal) => Reposition(s, t, GotProjection(goal, s.projection));
    case GotListing(_, _, _, _) =>
      ReadKeeps(s, t);
      Reposition(s, t, Step(s, t).pcs[t]);
    case Renaming(_, value) =>
      if value.revision !in s.journal { CommitKeeps(s, t); } else { Reposition(s, t, Idle); }
    case Projecting(value) => Reposition(s.(projection := value), t, Idle);
    case _ =>
  }

  lemma ApplyKeeps(s: State, a: Action)
    requires Inv(s) && |s.commits| < LIMIT
    ensures Inv(Apply(s, a))
    ensures |s.values| <= |Apply(s, a).values| && s.values[0] == Apply(s, a).values[0]
  {
    if a.task in s.pcs {
      var t := a.task;
      match a
      case StartRead(_) => Reposition(s, t, Start(Read));
      case StartReplace(_, expected, body) => Reposition(s, t, Start(Replace(expected, body)));
      case List(_, entries) =>
        if s.pcs[t].GotProjection? && Listing(s, entries) {
          ListKeeps(s, t, entries);
          Reposition(s, t, GotListing(s.pcs[t].goal, s.pcs[t].projection, Latest(entries), Current(s)));
        }
      case Advance(_) => StepKeeps(s, t);
      case Crash(_) => Reposition(s, t, Idle);
    }
  }

  lemma CommitsGrow(s: State, a: Action)
    ensures |s.commits| <= |Apply(s, a).commits|
  {
  }

  lemma {:induction false} RunKeeps(s: State, actions: seq<Action>)
    requires Initial(s) && |Run(s, actions).commits| < LIMIT
    ensures Inv(Run(s, actions)) && Run(s, actions).values[0] == s.projection
  {
    if actions != [] {
      var before := Run(s, actions[..|actions| - 1]);
      CommitsGrow(before, actions[|actions| - 1]);
      RunKeeps(s, actions[..|actions| - 1]);
      ApplyKeeps(before, actions[|actions| - 1]);
    }
  }

  // ----- main results -----

  /**
   Every interleaving of fewer than 10^12 commits behaves like one compare-and-swap register: the journal holds
   exactly revisions 1..n, each revision has one writer, each commit replaces exactly the value its writer
   expected, and the projection is some earlier value of the record.
   */
  lemma JournalIsCompareAndSwap(s: State, actions: seq<Action>, s': State)
    requires Initial(s) && s' == Run(s, actions) && |s'.commits| < LIMIT
    ensures |s'.values| == |s'.commits| + 1 && s'.values[0] == s.projection
    ensures forall r :: 0 <= r < |s'.values| ==> s'.values[r].revision == r
    ensures forall i :: 0 <= i < |s'.commits| ==>
              s'.commits[i].expected == s'.values[i] && s'.commits[i].stored == s'.values[i + 1]
    ensures forall r :: r in s'.journal <==> 1 <= r < |s'.values|
    ensures forall r :: r in s'.journal ==> s'.journal[r] == s'.values[r]
    ensures s'.projection in s'.values
  {
    RunKeeps(s, actions);
  }

  /** Every read returns the value current when it listed the journal; neither integrity error can occur. */
  lemma ReadsAreCurrent(s: State, actions: seq<Action>, s': State)
    requires Initial(s) && s' == Run(s, actions) && |s'.commits| < LIMIT
    ensures forall t :: t in s'.pcs ==>
              && !s'.pcs[t].ProjectionAhead? && !s'.pcs[t].SnapshotCorrupt?
              && (s'.pcs[t].Returned? ==> s'.pcs[t].value == s'.pcs[t].current)
  {
    RunKeeps(s, actions);
    forall t | t in s'.pcs
      ensures !s'.pcs[t].ProjectionAhead? && !s'.pcs[t].SnapshotCorrupt?
      ensures s'.pcs[t].Returned? ==> s'.pcs[t].value == s'.pcs[t].current
    {
      assert TaskOk(s', s'.pcs[t]);
    }
  }

  // ----- what a commit stores -----

  /** A task that may begin another request. */
  predicate Free(s: State, t: Task) {
    t in s.pcs && (s.pcs[t].Idle? || s.pcs[t].Returned?)
  }

  /** What each task was last asked to do. */
  ghost function Asked(s: State, actions: seq<Action>): map<Task, Goal> {
    if actions == [] then map[]
    else
      var asked, last := Asked(s, actions[..|actions| - 1]), actions[|actions| - 1];
      if !Free(Run(s, actions[..|actions| - 1]), last.task) then asked
      else
        match last
        case StartRead(t) => asked[t := Read]
        case StartReplace(t, expected, body) => asked[t := Replace(expected, body)]
        case _ => asked
  }

  /** A task works on what it was asked, and means to store exactly the text it was given. */
  predicate WorksOn(pc: PC, t: Task, asked: map<Task, Goal>) {
    match pc
    case Start(goal) => t in asked && asked[t] == goal
    case GotProjection(goal, _) => t in asked && asked[t] == goal
    case GotListing(goal, _, _, _) => t in asked && asked[t] == goal
    case Renaming(expected, value) =>
      t in asked && asked[t] == Replace(expected, value.body) && value.revision == expected.revision + 1
    case _ => true
  }

  ghost predicate AllWorkOn(s: State, asked: map<Task, Goal>) {
    forall t :: t in s.pcs ==> WorksOn(s.pcs[t], t, asked)
  }

  lemma {:induction false} RunWorksOn(s: State, actions: seq<Action>)
    requires Initial(s)
    ensures AllWorkOn(Run(s, actions), Asked(s, actions))
  {
    if actions != [] {
      var rest, last := actions[..|actions| - 1], actions[|actions| - 1];
      RunWorksOn(s, rest);
      forall t | t in Run(s, actions).pcs ensures WorksOn(Run(s, actions).pcs[t], t, Asked(s, actions)) {
        ApplyWorksOn(Run(s, rest), last, Asked(s, rest), Asked(s, actions), t);
      }
    }
  }

  lemma ApplyWorksOn(s: State, a: Action, asked: map<Task, Goal>, asked': map<Task, Goal>, t: Task)
    requires AllWorkOn(s, asked) && t in Apply(s, a).pcs
    requires asked' == if !Free(s, a.task) then asked
                       else match a
                            case StartRead(u) => asked[u := Read]
                            case StartReplace(u, expected, body) => asked[u := Replace(expected, body)]
                            case _ => asked
    ensures WorksOn(Apply(s, a).pcs[t], t, asked')
  {
    assert WorksOn(s.pcs[t], t, asked);
  }

  /**
   Every commit is the work of the request that its author is on: it replaces the value that the request expected and
   stores the text that the request gave, at the next revision.
   */
  lemma CommitsStoreWhatWasAsked(s: State, actions: seq<Action>, a: Action, before: State, after: State)
    requires Initial(s) && before == Run(s, actions) && after == Apply(before, a)
    ensures after.commits == before.commits
            || (&& after.commits == before.commits + [after.commits[|before.commits|]]
                && var commit := after.commits[|before.commits|];
                && a == Advance(commit.task) && commit.task in Asked(s, actions)
                && Asked(s, actions)[commit.task] == Replace(commit.expected, commit.stored.body)
                && commit.stored.revision == commit.expected.revision + 1
                && Current(after) == commit.stored)
  {
    RunWorksOn(s, actions);
    if a.task in before.pcs { assert WorksOn(before.pcs[a.task], a.task, Asked(s, actions)); }
  }

  // ----- one task alone -----

  /** The step after the listing has found the current value. */
  lemma ReadsCurrent(s: State, t: Task, goal: Goal, latest: string, current: Record)
    requires Inv(s) && |s.commits| < LIMIT && t in s.pcs
    requires s.pcs[t] == GotListing(goal, s.projection, latest, current)
    ensures Step(s, t) == s.(pcs := s.pcs[t := Finish(goal, current, current)])
  {
    assert TaskOk(s, s.pcs[t]);
    if latest == "" {
      assert s.projection == current;
    } else {
      NameOrder(current.revision, current.revision);
      assert s.journal[current.revision] == current;
    }
  }

  lemma ListedAlone(s: State, t: Task, goal: Goal, entries: seq<string>, listed: PC)
    requires Inv(s) && |s.commits| < LIMIT && t in s.pcs && Listing(s, entries)
    requires listed == GotListing(goal, s.projection, Latest(entries), Current(s))
    ensures Step(s.(pcs := s.pcs[t := listed]), t) == s.(pcs := s.pcs[t := Finish(goal, Current(s), Current(s))])
  {
    var s1, s2 := s.(pcs := s.pcs[t := GotProjection(goal, s.projection)]), s.(pcs := s.pcs[t := listed]);
    Reposition(s, t, GotProjection(goal, s.projection));
    ListKeeps(s1, t, entries);
    Reposition(s1, t, listed);
    assert s1.pcs[t := listed] == s2.pcs;
    ReadsCurrent(s2, t, goal, Latest(entries), Current(s));
    assert s2.pcs[t := Finish(goal, Current(s), Current(s))] == s.pcs[t := Finish(goal, Current(s), Current(s))];
  }

  /** A task that begins a request, lists the journal as `entries` and takes n more steps, with nobody in between. */
  ghost function Alone(s: State, start: Action, entries: seq<string>, n: nat): State {
    Steps(Apply(Apply(Apply(s, start), Advance(start.task)), List(start.task, entries)), start.task, n)
  }

  ghost function Steps(s: State, t: Task, n: nat): State
    decreases n
  {
    if n == 0 then s else Steps(Apply(s, Advance(t)), t, n - 1)
  }

  lemma ReachesFinish(s: State, start: Action, goal: Goal, entries: seq<string>)
    requires Inv(s) && |s.commits| < LIMIT && Free(s, start.task) && Listing(s, entries)
    requires start == match goal case Read => StartRead(start.task)
                                 case Replace(expected, body) => StartReplace(start.task, expected, body)
    ensures Alone(s, start, entries, 1) == s.(pcs := s.pcs[start.task := Finish(goal, Current(s), Current(s))])
  {
    var t := start.task;
    var s1 := s.(pcs := s.pcs[t := Start(goal)]);
    assert Apply(s, start) == s1;
    var s2 := s.(pcs := s.pcs[t := GotProjection(goal, s.projection)]);
    assert s1.pcs[t := GotProjection(goal, s.projection)] == s2.pcs;
    assert Apply(s1, Advance(t)) == s2;
    var listed := GotListing(goal, s.projection, Latest(entries), Current(s));
    var s3 := s.(pcs := s.pcs[t := listed]);
    assert Listing(s2, entries);
    assert s2.pcs[t := listed] == s3.pcs;
    assert Apply(s2, List(t, entries)) == s3;
    ListedAlone(s, t, goal, entries, listed);
    assert Steps(s3, t, 1) == Steps(Apply(s3, Advance(t)), t, 0);
  }

  /** From every reachable state a reader that is left alone returns the current value and changes nothing. */
  lemma ReadAlone(s: State, actions: seq<Action>, before: State, t: Task, entries: seq<string>)
    requires Initial(s) && before == Run(s, actions) && |before.commits| < LIMIT
    requires Free(before, t) && Listing(before, entries)
    ensures |before.values| > 0
    ensures Alone(before, StartRead(t), entries, 1) ==
            before.(pcs := before.pcs[t := Returned(Current(before), Current(before))])
  {
    RunKeeps(s, actions);
    ReachesFinish(before, StartRead(t), Read, entries);
  }

  /** The last two steps of a writer: the rename of its revision into place, and the projection. */
  lemma CommitsAlone(s: State, t: Task, expected: Record, stored: Record)
    requires t in s.pcs && s.pcs[t] == Renaming(expected, stored) && stored.revision !in s.journal
    ensures Steps(s, t, 2) == s.(journal := s.journal[stored.revision := stored], values := s.values + [stored],
                                 commits := s.commits + [Commit(t, expected, stored)], projection := stored,
                                 pcs := s.pcs[t := Idle])
  {
    var s1 := Apply(s, Advance(t));
    assert s1.pcs == s.pcs[t := Projecting(stored)];
    assert s1.pcs[t := Idle] == s.pcs[t := Idle];
    assert Steps(s, t, 2) == Steps(s1, t, 1);
    assert Steps(s1, t, 1) == Steps(Apply(s1, Advance(t)), t, 0);
  }

  lemma {:induction false} StepsAdd(s: State, t: Task, m: nat, n: nat)
    ensures Steps(s, t, m + n) == Steps(Steps(s, t, m), t, n)
    decreases m
  {
    if m > 0 { StepsAdd(Apply(s, Advance(t)), t, m - 1, n); }
  }

  lemma ReplaceSteps(s: State, t: Task, expected: Record, stored: Record, entries: seq<string>)
    requires Inv(s) && |s.commits| < LIMIT && Free(s, t) && Listing(s, entries)
    requires expected == Current(s) && stored.revision == expected.revision + 1 && stored.revision !in s.journal
    ensures Alone(s, StartReplace(t, expected, stored.body), entries, 3) ==
            s.(journal := s.journal[stored.revision := stored], values := s.values + [stored],
               commits := s.commits + [Commit(t, expected, stored)], projection := stored, pcs := s.pcs[t := Idle])
  {
    var start := StartReplace(t, expected, stored.body);
    var s1 := s.(pcs := s.pcs[t := Renaming(expected, stored)]);
    ReachesFinish(s, start, Replace(expected, stored.body), entries);
    StepsAdd(Apply(Apply(Apply(s, start), Advance(t)), List(t, entries)), t, 1, 2);
    CommitsAlone(s1, t, expected, stored);
    assert s1.pcs[t := Idle] == s.pcs[t := Idle];
  }

  /**
   From every reachable state a writer that is left alone and expects the current value commits the text it was given,
   at the next revision, and writes it to the projection; the value it replaces is kept in the history.
   */
  lemma ReplaceAlone(s: State, actions: seq<Action>, before: State, t: Task, expected: Record, body: string,
                     entries: seq<string>)
    requires Initial(s) && before == Run(s, actions) && |before.commits| < LIMIT
    requires Free(before, t) && Listing(before, entries) && before.values != [] && expected == Current(before)
    ensures var after := Alone(before, StartReplace(t, expected, body), entries, 3);
            var stored := Record(expected.revision + 1, body);
            && after.values == before.values + [stored] && after.projection == stored && Current(after) == stored
            && after.journal == before.journal[stored.revision := stored] && stored.revision !in before.journal
            && after.commits == before.commits + [Commit(t, expected, stored)]
            && after.pcs == before.pcs[t := Idle]
  {
    RunKeeps(s, actions);
    assert expected.revision + 1 !in before.journal;
    ReplaceSteps(before, t, expected, Record(expected.revision + 1, body), entries);
  }

  /** A writer that expects anything else is refused and changes nothing, whoever else is at work. */
  lemma ReplaceRefused(s: State, actions: seq<Action>, before: State, t: Task, expected: Record, body: string,
                       entries: seq<string>)
    requires Initial(s) && before == Run(s, actions) && |before.commits| < LIMIT
    requires Free(before, t) && Listing(before, entries) && before.values != [] && expected != Current(before)
    ensures Alone(before, StartReplace(t, expected, body), entries, 1) == before.(pcs := before.pcs[t := Idle])
  {
    RunKeeps(s, actions);
    ReachesFinish(before, StartReplace(t, expected, body), Replace(expected, body), entries);
  }
}
