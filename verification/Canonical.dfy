/**
 Canonical JSON: the text that fingerprints are taken of.  Object keys are compared by a strict total order given as
 a parameter.
 */
module Canonical {
  import opened Common

  /** A number is the text that JSON.stringify gives for it. */
  datatype Json =
    | Null
    | Bool(value: bool)
    | Num(text: string)
    | Str(chars: string)
    | Arr(items: seq<Json>)
    | Obj(entries: seq<Entry>)

  datatype Entry = Entry(key: string, value: Json)

  type Less = (string, string) -> bool

  ghost predicate StrictTotal(less: Less) {
    && (forall a :: !less(a, a))
    && (forall a, b :: a != b ==> less(a, b) || less(b, a))
    && (forall a, b, c :: less(a, b) && less(b, c) ==> less(a, c))
  }

  predicate NumberChar(c: char) {
    '0' <= c <= '9' || c in {'-', '+', '.', 'e', 'E'}
  }

  predicate NumberText(text: string) {
    text != "" && ('0' <= text[0] <= '9' || text[0] == '-') && forall i :: 0 <= i < |text| ==> NumberChar(text[i])
  }

  predicate DistinctKeys(entries: seq<Entry>) {
    forall i, j :: 0 <= i < j < |entries| ==> entries[i].key != entries[j].key
  }

  /** Number texts are numbers and no object has a key twice. */
  predicate Valid(v: Json) {
    match v
    case Num(text) => NumberText(text)
    case Arr(items) => forall i :: 0 <= i < |items| ==> Valid(items[i])
    case Obj(entries) => DistinctKeys(entries) && forall i :: 0 <= i < |entries| ==> Valid(entries[i].value)
    case _ => true
  }

  // ----- text of strings -----

  function Hex(d: nat): char
    requires d < 16
  {
    if d < 10 then '0' + d as char else 'a' + (d - 10) as char
  }

  function Escape(c: char): string {
    if c == '"' then "\\\""
    else if c == '\\' then "\\\\"
    else if c == '\U{8}' then "\\b"
    else if c == '\t' then "\\t"
    else if c == '\n' then "\\n"
    else if c == '\U{C}' then "\\f"
    else if c == '\r' then "\\r"
    else if c < ' ' then "\\u00" + [Hex(c as nat / 16), Hex(c as nat % 16)]
    else [c]
  }

  function Escaped(s: string): string {
    if s == "" then "" else Escape(s[0]) + Escaped(s[1..])
  }

  function Quoted(s: string): string {
    "\"" + Escaped(s) + "\""
  }

  function Join(texts: seq<string>): string {
    if texts == [] then "" else if |texts| == 1 then texts[0] else texts[0] + "," + Join(texts[1..])
  }

  // ----- sorting -----

  datatype Pair<V> = Pair(key: string, value: V)

  function Insert<V>(p: Pair<V>, sorted: seq<Pair<V>>, less: Less): seq<Pair<V>> {
    if sorted == [] then [p]
    else if less(sorted[0].key, p.key) then [sorted[0]] + Insert(p, sorted[1..], less)
    else [p] + sorted
  }

  function Sort<V>(pairs: seq<Pair<V>>, less: Less): seq<Pair<V>> {
    if pairs == [] then [] else Insert(pairs[0], Sort(pairs[1..], less), less)
  }

  /** canonicalJson. */
  function CanonicalJson(v: Json, less: Less): string {
    match v
    case Null => "null"
    case Bool(b) => if b then "true" else "false"
    case Num(text) => text
    case Str(s) => Quoted(s)
    case Arr(items) =>
      "[" + Join(seq(|items|, i requires 0 <= i < |items| => CanonicalJson(items[i], less))) + "]"
    case Obj(entries) =>
      var texts := seq(|entries|, i requires 0 <= i < |entries| =>
                       Pair(entries[i].key, CanonicalJson(entries[i].value, less)));
      "{" + Join(Fields(Sort(texts, less))) + "}"
  }

  function Fields(pairs: seq<Pair<string>>): seq<string> {
    seq(|pairs|, i requires 0 <= i < |pairs| => Quoted(pairs[i].key) + ":" + pairs[i].value)
  }

  /** Equality up to the order of object keys. */
  predicate Equivalent(v: Json, w: Json) {
    match v
    case Arr(items) =>
      w.Arr? && |items| == |w.items| && forall i :: 0 <= i < |items| ==> Equivalent(items[i], w.items[i])
    case Obj(entries) =>
      w.Obj? && |entries| == |w.entries|
      && forall i :: 0 <= i < |entries| ==>
           exists j :: 0 <= j < |w.entries| && entries[i].key == w.entries[j].key
                       && Equivalent(entries[i].value, w.entries[j].value)
    case _ => v == w
  }

  // ----- strings are self-delimiting -----

  lemma HexInjective(a: nat, b: nat)
    requires a < 16 && b < 16 && Hex(a) == Hex(b)
    ensures a == b
  {
  }

  /** The shape of an escape: its first characters say where it ends. */
  lemma EscapeShape(c: char)
    ensures |Escape(c)| >= 1 && Escape(c)[0] != '"'
    ensures Escape(c)[0] != '\\' ==> Escape(c) == [c]
    ensures Escape(c)[0] == '\\' ==> |Escape(c)| == 2 || |Escape(c)| == 6
    ensures |Escape(c)| == 6 <==> |Escape(c)| >= 2 && Escape(c)[1] == 'u'
  {
  }

  lemma EscapeInjective(c: char, d: char)
    requires Escape(c) == Escape(d)
    ensures c == d
  {
    EscapeShape(c);
    if |Escape(c)| == 6 {
      assert Escape(c)[4] == Hex(c as nat / 16) && Escape(d)[4] == Hex(d as nat / 16);
      assert Escape(c)[5] == Hex(c as nat % 16) && Escape(d)[5] == Hex(d as nat % 16);
      HexInjective(c as nat / 16, d as nat / 16);
      HexInjective(c as nat % 16, d as nat % 16);
    } else if |Escape(c)| == 2 {
      assert Escape(c)[1] == Escape(d)[1];
    }
  }

  lemma EscapePrefixFree(c: char, d: char, x: string, y: string)
    requires Escape(c) + x == Escape(d) + y
    ensures c == d && x == y
  {
    EscapeShape(c);
    EscapeShape(d);
    assert (Escape(c) + x)[0] == Escape(c)[0] && (Escape(d) + y)[0] == Escape(d)[0];
    if Escape(c)[0] == '\\' {
      assert (Escape(c) + x)[1] == Escape(c)[1] && (Escape(d) + y)[1] == Escape(d)[1];
    }
    assert |Escape(c)| == |Escape(d)|;
    assert Escape(c) == (Escape(c) + x)[..|Escape(c)|] && Escape(d) == (Escape(d) + y)[..|Escape(d)|];
    assert x == (Escape(c) + x)[|Escape(c)|..] && y == (Escape(d) + y)[|Escape(d)|..];
    EscapeInjective(c, d);
  }

  /** The rest of a string literal and what follows it. */
  function Tail(s: string, x: string): string {
    if s == "" then "\"" + x else Escape(s[0]) + Tail(s[1..], x)
  }

  lemma {:induction false} TailIs(s: string, x: string)
    ensures Tail(s, x) == Escaped(s) + "\"" + x
  {
    if s != "" { TailIs(s[1..], x); }
  }

  lemma {:induction false} TailUnique(s: string, t: string, x: string, y: string)
    requires Tail(s, x) == Tail(t, y)
    ensures s == t && x == y
  {
    if s != "" { EscapeShape(s[0]); }
    if t != "" { EscapeShape(t[0]); }
    if s == "" {
      assert Tail(s, x)[0] == '"';
      assert t == "";
      assert x == Tail(s, x)[1..] && y == Tail(t, y)[1..];
    } else {
      assert Tail(s, x)[0] == Escape(s[0])[0];
      assert t != "";
      EscapePrefixFree(s[0], t[0], Tail(s[1..], x), Tail(t[1..], y));
      TailUnique(s[1..], t[1..], x, y);
    }
  }

  lemma QuotedUnique(s: string, t: string, x: string, y: string)
    requires Quoted(s) + x == Quoted(t) + y
    ensures s == t && x == y
  {
    TailIs(s, x);
    TailIs(t, y);
    assert (Quoted(s) + x)[1..] == Tail(s, x);
    assert (Quoted(t) + y)[1..] == Tail(t, y);
    TailUnique(s, t, x, y);
  }

  // ----- numbers are delimited by what follows -----

  /** What may follow a value. */
  predicate Delimited(rest: string) {
    rest == "" || rest[0] in {',', ']', '}'}
  }

  function Span(text: string): nat {
    if text == "" || !NumberChar(text[0]) then 0 else 1 + Span(text[1..])
  }

  lemma {:induction false} SpanOfNumber(text: string, rest: string)
    requires Delimited(rest) && forall i :: 0 <= i < |text| ==> NumberChar(text[i])
    ensures Span(text + rest) == |text|
  {
    if text != "" {
      assert (text + rest)[1..] == text[1..] + rest;
      SpanOfNumber(text[1..], rest);
    } else {
      assert text + rest == rest;
    }
  }

  lemma NumberUnique(a: string, b: string, x: string, y: string)
    requires NumberText(a) && NumberText(b) && Delimited(x) && Delimited(y) && a + x == b + y
    ensures a == b && x == y
  {
    SpanOfNumber(a, x);
    SpanOfNumber(b, y);
    assert a == (a + x)[..|a|] && b == (b + y)[..|b|];
    assert x == (a + x)[|a|..] && y == (b + y)[|b|..];
  }

  // ----- plain printing is uniquely readable -----

  /** A value printed with its object entries in the order they are in. */
  function Print(v: Json): string {
    match v
    case Null => "null"
    case Bool(b) => if b then "true" else "false"
    case Num(text) => text
    case Str(s) => Quoted(s)
    case Arr(items) => "[" + Join(seq(|items|, i requires 0 <= i < |items| => Print(items[i]))) + "]"
    case Obj(entries) =>
      "{" + Join(seq(|entries|, i requires 0 <= i < |entries| => Field(entries[i].key, Print(entries[i].value)))) + "}"
  }

  function Field(key: string, text: string): string {
    Quoted(key) + ":" + text
  }

  /** The kind of value that a first character announces. */
  lemma PrintHead(v: Json)
    requires Valid(v)
    ensures Print(v) != ""
    ensures var c := Print(v)[0];
            match v
            case Null => c == 'n'
            case Bool(b) => c == if b then 't' else 'f'
            case Num(_) => '0' <= c <= '9' || c == '-'
            case Str(_) => c == '"'
            case Arr(_) => c == '['
            case Obj(_) => c == '{'
  {
  }

  /** The texts of array items from an index on, with the closing bracket and what follows. */
  function ItemsFrom(items: seq<Json>, x: string): string {
    if items == [] then "]" + x
    else if |items| == 1 then Print(items[0]) + ("]" + x)
    else Print(items[0]) + ("," + ItemsFrom(items[1..], x))
  }

  function Prints(items: seq<Json>): seq<string> {
    seq(|items|, i requires 0 <= i < |items| => Print(items[i]))
  }

  lemma {:induction false} ItemsFromIs(items: seq<Json>, x: string)
    ensures ItemsFrom(items, x) == Join(Prints(items)) + "]" + x
  {
    if |items| > 1 {
      ItemsFromIs(items[1..], x);
      assert Prints(items)[1..] == Prints(items[1..]);
    }
  }

  function EntriesFrom(entries: seq<Entry>, x: string): string {
    if entries == [] then "}" + x
    else if |entries| == 1 then Quoted(entries[0].key) + (":" + (Print(entries[0].value) + ("}" + x)))
    else Quoted(entries[0].key) + (":" + (Print(entries[0].value) + ("," + EntriesFrom(entries[1..], x))))
  }

  function PrintFields(entries: seq<Entry>): seq<string> {
    seq(|entries|, i requires 0 <= i < |entries| => Field(entries[i].key, Print(entries[i].value)))
  }

  lemma {:induction false} EntriesFromIs(entries: seq<Entry>, x: string)
    ensures EntriesFrom(entries, x) == Join(PrintFields(entries)) + "}" + x
  {
    if |entries| > 1 {
      EntriesFromIs(entries[1..], x);
      assert PrintFields(entries)[1..] == PrintFields(entries[1..]);
    }
  }

  lemma PrintArr(items: seq<Json>, x: string)
    ensures Print(Arr(items)) + x == "[" + ItemsFrom(items, x)
  {
    ItemsFromIs(items, x);
    assert Prints(items) == seq(|items|, i requires 0 <= i < |items| => Print(items[i]));
  }

  lemma PrintObj(entries: seq<Entry>, x: string)
    ensures Print(Obj(entries)) + x == "{" + EntriesFrom(entries, x)
  {
    EntriesFromIs(entries, x);
    assert PrintFields(entries) == seq(|entries|, i requires 0 <= i < |entries| =>
                                       Field(entries[i].key, Print(entries[i].value)));
  }

  function AfterFirst(items: seq<Json>, x: string): string
    requires items != []
  {
    if |items| == 1 then "]" + x else "," + ItemsFrom(items[1..], x)
  }

  lemma ItemsHead(items: seq<Json>, x: string)
    requires forall i :: 0 <= i < |items| ==> Valid(items[i])
    ensures ItemsFrom(items, x) != "" && (ItemsFrom(items, x)[0] == ']' <==> items == [])
    ensures items != [] ==>
              ItemsFrom(items, x) == Print(items[0]) + AfterFirst(items, x) && Delimited(AfterFirst(items, x))
  {
    if items != [] { PrintHead(items[0]); }
  }

  function AfterEntry(entries: seq<Entry>, x: string): string
    requires entries != []
  {
    if |entries| == 1 then "}" + x else "," + EntriesFrom(entries[1..], x)
  }

  lemma EntriesHead(entries: seq<Entry>, x: string)
    ensures EntriesFrom(entries, x) != "" && (EntriesFrom(entries, x)[0] == '}' <==> entries == [])
    ensures entries != [] ==>
              && EntriesFrom(entries, x) == Quoted(entries[0].key)
                 + (":" + (Print(entries[0].value) + AfterEntry(entries, x)))
              && Delimited(AfterEntry(entries, x))
  {
  }

  function Width(v: Json): nat {
    match v case Arr(items) => |items| + 1 case Obj(entries) => |entries| + 1 case _ => 0
  }

  lemma TailsEqual(prefix: string, x: string, y: string)
    requires prefix + x == prefix + y
    ensures x == y
  {
    assert x == (prefix + x)[|prefix|..] && y == (prefix + y)[|prefix|..];
  }

  lemma SameKind(v: Json, w: Json, x: string, y: string)
    requires Valid(v) && Valid(w) && Print(v) + x == Print(w) + y
    ensures v.Null? == w.Null? && v.Bool? == w.Bool? && v.Num? == w.Num? && v.Str? == w.Str?
    ensures v.Arr? == w.Arr? && v.Obj? == w.Obj?
    ensures v.Bool? ==> v == w
  {
    PrintHead(v);
    PrintHead(w);
    assert (Print(v) + x)[0] == Print(v)[0] && (Print(w) + y)[0] == Print(w)[0];
  }

  /** Two values that print to the start of the same text, each followed by a delimiter, are the same value. */
  lemma {:induction false} PrintUnique(v: Json, w: Json, x: string, y: string)
    requires Valid(v) && Valid(w) && Delimited(x) && Delimited(y) && Print(v) + x == Print(w) + y
    ensures v == w && x == y
    decreases v, Width(v)
  {
    SameKind(v, w, x, y);
    match v
    case Null => TailsEqual("null", x, y);
    case Bool(b) => TailsEqual(Print(v), x, y);
    case Num(text) => NumberUnique(text, w.text, x, y);
    case Str(s) => QuotedUnique(s, w.chars, x, y);
    case Arr(items) =>
      PrintArr(items, x);
      PrintArr(w.items, y);
      TailsEqual("[", ItemsFrom(items, x), ItemsFrom(w.items, y));
      assert items[0..] == items;
      ItemsUnique(v, 0, w.items, x, y);
    case Obj(entries) =>
      PrintObj(entries, x);
      PrintObj(w.entries, y);
      TailsEqual("{", EntriesFrom(entries, x), EntriesFrom(w.entries, y));
      assert entries[0..] == entries;
      EntriesUnique(v, 0, w.entries, x, y);
  }

  lemma {:induction false} ItemsUnique(v: Json, k: nat, others: seq<Json>, x: string, y: string)
    requires v.Arr? && k <= |v.items| && Valid(v) && forall i :: 0 <= i < |others| ==> Valid(others[i])
    requires ItemsFrom(v.items[k..], x) == ItemsFrom(others, y)
    ensures v.items[k..] == others && x == y
    decreases v, |v.items| - k
  {
    var items := v.items[k..];
    ItemsHead(items, x);
    ItemsHead(others, y);
    if items == [] {
      TailsEqual("]", x, y);
    } else {
      var restX, restY := AfterFirst(items, x), AfterFirst(others, y);
      PrintUnique(v.items[k], others[0], restX, restY);
      assert |items| == 1 <==> |others| == 1;
      if |items| == 1 {
        TailsEqual("]", x, y);
      } else {
        TailsEqual(",", ItemsFrom(items[1..], x), ItemsFrom(others[1..], y));
        assert items[1..] == v.items[k + 1..];
        ItemsUnique(v, k + 1, others[1..], x, y);
      }
      assert items == [items[0]] + items[1..] && others == [others[0]] + others[1..];
    }
  }

  lemma {:induction false} EntriesUnique(v: Json, k: nat, others: seq<Entry>, x: string, y: string)
    requires v.Obj? && k <= |v.entries| && Valid(v) && forall i :: 0 <= i < |others| ==> Valid(others[i].value)
    requires EntriesFrom(v.entries[k..], x) == EntriesFrom(others, y)
    ensures v.entries[k..] == others && x == y
    decreases v, |v.entries| - k
  {
    var entries := v.entries[k..];
    EntriesHead(entries, x);
    EntriesHead(others, y);
    if entries == [] {
      TailsEqual("}", x, y);
    } else {
      var restX, restY := AfterEntry(entries, x), AfterEntry(others, y);
      var e, f := v.entries[k], others[0];
      QuotedUnique(e.key, f.key, ":" + (Print(e.value) + restX), ":" + (Print(f.value) + restY));
      TailsEqual(":", Print(e.value) + restX, Print(f.value) + restY);
      PrintUnique(e.value, f.value, restX, restY);
      assert |entries| == 1 <==> |others| == 1;
      if |entries| == 1 {
        TailsEqual("}", x, y);
      } else {
        TailsEqual(",", EntriesFrom(entries[1..], x), EntriesFrom(others[1..], y));
        assert entries[1..] == v.entries[k + 1..];
        EntriesUnique(v, k + 1, others[1..], x, y);
      }
      assert entries == [entries[0]] + entries[1..] && others == [others[0]] + others[1..];
    }
  }

  // ----- sorting -----

  predicate Increasing(pairs: seq<Pair<Json>>, less: Less) {
    forall i, j :: 0 <= i < j < |pairs| ==> less(pairs[i].key, pairs[j].key)
  }

  predicate DistinctPairs(pairs: seq<Pair<Json>>) {
    forall i, j :: 0 <= i < j < |pairs| ==> pairs[i].key != pairs[j].key
  }

  lemma {:induction false} InsertMembers(p: Pair<Json>, sorted: seq<Pair<Json>>, less: Less)
    ensures |Insert(p, sorted, less)| == |sorted| + 1
    ensures forall q :: q in Insert(p, sorted, less) <==> q == p || q in sorted
  {
    if sorted != [] && less(sorted[0].key, p.key) {
      InsertMembers(p, sorted[1..], less);
      assert sorted == [sorted[0]] + sorted[1..];
    }
  }

  lemma {:induction false} InsertIncreasing(p: Pair<Json>, sorted: seq<Pair<Json>>, less: Less)
    requires StrictTotal(less) && Increasing(sorted, less) && forall q :: q in sorted ==> q.key != p.key
    ensures Increasing(Insert(p, sorted, less), less)
  {
    if sorted != [] {
      var head := sorted[0];
      if less(head.key, p.key) {
        InsertIncreasing(p, sorted[1..], less);
        InsertMembers(p, sorted[1..], less);
        var rest := Insert(p, sorted[1..], less);
        forall j | 0 <= j < |rest| ensures less(head.key, rest[j].key) {
          assert rest[j] in rest;
          if rest[j] != p {
            var k :| 0 <= k < |sorted[1..]| && sorted[1..][k] == rest[j];
            assert sorted[k + 1] == rest[j];
          }
        }
      } else {
        assert less(p.key, head.key);
        forall j | 0 <= j < |sorted| ensures less(p.key, sorted[j].key) {
        }
      }
    }
  }

  lemma {:induction false} SortMembers(pairs: seq<Pair<Json>>, less: Less)
    ensures |Sort(pairs, less)| == |pairs|
    ensures forall q :: q in Sort(pairs, less) <==> q in pairs
  {
    if pairs != [] {
      SortMembers(pairs[1..], less);
      InsertMembers(pairs[0], Sort(pairs[1..], less), less);
      assert pairs == [pairs[0]] + pairs[1..];
    }
  }

  lemma {:induction false} SortIncreasing(pairs: seq<Pair<Json>>, less: Less)
    requires StrictTotal(less) && DistinctPairs(pairs)
    ensures Increasing(Sort(pairs, less), less)
  {
    if pairs != [] {
      SortIncreasing(pairs[1..], less);
      SortMembers(pairs[1..], less);
      forall q | q in Sort(pairs[1..], less) ensures q.key != pairs[0].key {
        assert q in pairs[1..];
        var i :| 0 <= i < |pairs[1..]| && pairs[1..][i] == q;
        assert pairs[i + 1] == q;
      }
      InsertIncreasing(pairs[0], Sort(pairs[1..], less), less);
    }
  }

  /** There is one way to list pairs in increasing order. */
  lemma {:induction false} IncreasingUnique(a: seq<Pair<Json>>, b: seq<Pair<Json>>, less: Less)
    requires StrictTotal(less) && Increasing(a, less) && Increasing(b, less)
    requires |a| == |b| && forall q :: q in a <==> q in b
    ensures a == b
  {
    if a != [] {
      assert a[0] in a && b[0] in b;
      var j :| 0 <= j < |b| && b[j] == a[0];
      var i :| 0 <= i < |a| && a[i] == b[0];
      assert a[0] == b[0];
      forall q ensures q in a[1..] <==> q in b[1..] {
        RestMembers(a, q, less);
        RestMembers(b, q, less);
      }
      IncreasingUnique(a[1..], b[1..], less);
      assert a == [a[0]] + a[1..] && b == [b[0]] + b[1..];
    }
  }

  lemma RestMembers(a: seq<Pair<Json>>, q: Pair<Json>, less: Less)
    requires StrictTotal(less) && Increasing(a, less) && a != []
    ensures q in a[1..] <==> q in a && q != a[0]
  {
    assert a == [a[0]] + a[1..];
    if q in a[1..] {
      var i :| 0 <= i < |a[1..]| && a[1..][i] == q;
      assert a[i + 1] == q;
    }
  }

  // ----- the normal form -----

  function ToEntries(pairs: seq<Pair<Json>>): seq<Entry> {
    seq(|pairs|, i requires 0 <= i < |pairs| => Entry(pairs[i].key, pairs[i].value))
  }

  /** The value with the entries of every object in key order. */
  function Normalize(v: Json, less: Less): Json {
    match v
    case Arr(items) => Arr(seq(|items|, i requires 0 <= i < |items| => Normalize(items[i], less)))
    case Obj(entries) =>
      Obj(ToEntries(Sort(seq(|entries|, i requires 0 <= i < |entries| =>
                             Pair(entries[i].key, Normalize(entries[i].value, less))), less)))
    case _ => v
  }

  function NormalPairs(entries: seq<Entry>, less: Less): seq<Pair<Json>> {
    seq(|entries|, i requires 0 <= i < |entries| => Pair(entries[i].key, Normalize(entries[i].value, less)))
  }

  lemma NormalizeObj(entries: seq<Entry>, less: Less)
    ensures Normalize(Obj(entries), less) == Obj(ToEntries(Sort(NormalPairs(entries, less), less)))
  {
    assert NormalPairs(entries, less) ==
           seq(|entries|, i requires 0 <= i < |entries| => Pair(entries[i].key, Normalize(entries[i].value, less)));
  }

  function PrintPairs(pairs: seq<Pair<Json>>): seq<Pair<string>> {
    seq(|pairs|, i requires 0 <= i < |pairs| => Pair(pairs[i].key, Print(pairs[i].value)))
  }

  lemma {:induction false} InsertPrinted(p: Pair<Json>, sorted: seq<Pair<Json>>, less: Less)
    ensures PrintPairs(Insert(p, sorted, less)) == Insert(Pair(p.key, Print(p.value)), PrintPairs(sorted), less)
  {
    if sorted != [] && less(sorted[0].key, p.key) {
      InsertPrinted(p, sorted[1..], less);
      assert PrintPairs(sorted)[1..] == PrintPairs(sorted[1..]);
    }
  }

  lemma {:induction false} SortPrinted(pairs: seq<Pair<Json>>, less: Less)
    ensures PrintPairs(Sort(pairs, less)) == Sort(PrintPairs(pairs), less)
  {
    if pairs != [] {
      SortPrinted(pairs[1..], less);
      InsertPrinted(pairs[0], Sort(pairs[1..], less), less);
      assert PrintPairs(pairs)[1..] == PrintPairs(pairs[1..]);
    }
  }

  /** Canonical text is the plain print of the normal form. */
  lemma {:induction false} CanonicalIsPrint(v: Json, less: Less)
    ensures CanonicalJson(v, less) == Print(Normalize(v, less))
  {
    match v
    case Arr(items) =>
      forall i | 0 <= i < |items| ensures CanonicalJson(items[i], less) == Print(Normalize(items[i], less)) {
        CanonicalIsPrint(items[i], less);
      }
      var texts := seq(|items|, i requires 0 <= i < |items| => CanonicalJson(items[i], less));
      var normal := Normalize(v, less).items;
      assert texts == seq(|normal|, i requires 0 <= i < |normal| => Print(normal[i]));
    case Obj(entries) =>
      forall i | 0 <= i < |entries|
        ensures CanonicalJson(entries[i].value, less) == Print(Normalize(entries[i].value, less))
      {
        CanonicalIsPrint(entries[i].value, less);
      }
      CanonicalObjIsPrint(entries, less);
    case _ =>
  }

  lemma CanonicalObjIsPrint(entries: seq<Entry>, less: Less)
    requires forall i :: 0 <= i < |entries| ==>
               CanonicalJson(entries[i].value, less) == Print(Normalize(entries[i].value, less))
    ensures CanonicalJson(Obj(entries), less) == Print(Normalize(Obj(entries), less))
  {
    var pairs := NormalPairs(entries, less);
    var texts := seq(|entries|, i requires 0 <= i < |entries| =>
                     Pair(entries[i].key, CanonicalJson(entries[i].value, less)));
    assert texts == PrintPairs(pairs);
    SortPrinted(pairs, less);
    NormalizeObj(entries, less);
    var normal := ToEntries(Sort(pairs, less));
    assert Fields(PrintPairs(Sort(pairs, less))) == PrintFields(normal);
    assert PrintFields(normal) == seq(|normal|, i requires 0 <= i < |normal| =>
                                      Field(normal[i].key, Print(normal[i].value)));
  }

  lemma {:induction false} NormalIsValid(v: Json, less: Less)
    requires Valid(v) && StrictTotal(less)
    ensures Valid(Normalize(v, less))
  {
    match v
    case Arr(items) =>
      forall i | 0 <= i < |items| ensures Valid(Normalize(items[i], less)) {
        NormalIsValid(items[i], less);
      }
    case Obj(entries) =>
      forall i | 0 <= i < |entries| ensures Valid(Normalize(entries[i].value, less)) {
        NormalIsValid(entries[i].value, less);
      }
      NormalObjIsValid(entries, less);
    case _ =>
  }

  lemma NormalObjIsValid(entries: seq<Entry>, less: Less)
    requires StrictTotal(less) && DistinctKeys(entries)
    requires forall i :: 0 <= i < |entries| ==> Valid(Normalize(entries[i].value, less))
    ensures Valid(Normalize(Obj(entries), less))
  {
    var pairs := NormalPairs(entries, less);
    SortMembers(pairs, less);
    SortIncreasing(pairs, less);
    NormalizeObj(entries, less);
    var sorted := Sort(pairs, less);
    forall i | 0 <= i < |sorted| ensures Valid(sorted[i].value) {
      assert sorted[i] in pairs;
      var k :| 0 <= k < |pairs| && pairs[k] == sorted[i];
    }
    forall i, j | 0 <= i < j < |sorted| ensures sorted[i].key != sorted[j].key {
      assert less(sorted[i].key, sorted[j].key);
    }
  }

  // ----- equality up to key order -----

  lemma {:induction false} PairSet(pairs: seq<Pair<Json>>)
    requires DistinctPairs(pairs)
    ensures |set q | q in pairs| == |pairs|
  {
    if pairs != [] {
      var rest := pairs[..|pairs| - 1];
      PairSet(rest);
      var last := pairs[|pairs| - 1];
      assert last !in rest;
      assert (set q | q in pairs) == (set q | q in rest) + {last};
    }
  }

  lemma SubsetOfSameSize<T>(small: set<T>, large: set<T>)
    requires small <= large && |small| == |large|
    ensures small == large
  {
    assert large == small + (large - small);
  }

  /** Objects with the same number of entries, each of the one found in the other, have the same pairs. */
  lemma SamePairs(a: seq<Pair<Json>>, b: seq<Pair<Json>>)
    requires DistinctPairs(a) && DistinctPairs(b) && |a| == |b| && forall q :: q in a ==> q in b
    ensures forall q :: q in a <==> q in b
  {
    PairSet(a);
    PairSet(b);
    var left, right := set q | q in a, set q | q in b;
    SubsetOfSameSize(left, right);
    forall q | q in b ensures q in a {
      assert q in right;
    }
  }

  lemma NormalObjEqual(e: seq<Entry>, f: seq<Entry>, less: Less)
    requires StrictTotal(less) && DistinctKeys(e) && DistinctKeys(f) && |e| == |f|
    requires forall q :: q in NormalPairs(e, less) ==> q in NormalPairs(f, less)
    ensures Normalize(Obj(e), less) == Normalize(Obj(f), less)
  {
    var a, b := NormalPairs(e, less), NormalPairs(f, less);
    SamePairs(a, b);
    SortMembers(a, less);
    SortMembers(b, less);
    SortIncreasing(a, less);
    SortIncreasing(b, less);
    IncreasingUnique(Sort(a, less), Sort(b, less), less);
    NormalizeObj(e, less);
    NormalizeObj(f, less);
  }

  lemma {:induction false} EquivalentIsNormal(v: Json, w: Json, less: Less)
    requires Valid(v) && Valid(w) && StrictTotal(less) && Equivalent(v, w)
    ensures Normalize(v, less) == Normalize(w, less)
  {
    match v
    case Arr(items) =>
      forall i | 0 <= i < |items| ensures Normalize(items[i], less) == Normalize(w.items[i], less) {
        EquivalentIsNormal(items[i], w.items[i], less);
      }
    case Obj(entries) =>
      var a, b := NormalPairs(entries, less), NormalPairs(w.entries, less);
      forall q | q in a ensures q in b {
        var i :| 0 <= i < |a| && a[i] == q;
        var j :| 0 <= j < |w.entries| && entries[i].key == w.entries[j].key
                 && Equivalent(entries[i].value, w.entries[j].value);
        EquivalentIsNormal(entries[i].value, w.entries[j].value, less);
        assert b[j] == q;
      }
      NormalObjEqual(entries, w.entries, less);
    case _ =>
  }

  lemma NormalObjMembers(e: seq<Entry>, f: seq<Entry>, less: Less)
    requires Normalize(Obj(e), less) == Normalize(Obj(f), less)
    ensures |e| == |f| && forall q :: q in NormalPairs(e, less) ==> q in NormalPairs(f, less)
  {
    var a, b := NormalPairs(e, less), NormalPairs(f, less);
    NormalizeObj(e, less);
    NormalizeObj(f, less);
    SortMembers(a, less);
    SortMembers(b, less);
    var left, right := Sort(a, less), Sort(b, less);
    assert ToEntries(left) == ToEntries(right);
    forall i | 0 <= i < |left| ensures left[i] == right[i] {
      assert ToEntries(left)[i] == ToEntries(right)[i];
    }
    assert left == right;
  }

  lemma {:induction false} NormalIsEquivalent(v: Json, w: Json, less: Less)
    requires Normalize(v, less) == Normalize(w, less)
    ensures Equivalent(v, w)
  {
    match v
    case Arr(items) =>
      var left, right := Normalize(v, less).items, Normalize(w, less).items;
      assert |left| == |items| && |right| == |w.items|;
      forall i | 0 <= i < |items| ensures Equivalent(items[i], w.items[i]) {
        assert left[i] == right[i];
        NormalIsEquivalent(items[i], w.items[i], less);
      }
    case Obj(entries) =>
      NormalObjMembers(entries, w.entries, less);
      var a, b := NormalPairs(entries, less), NormalPairs(w.entries, less);
      forall i | 0 <= i < |entries|
        ensures exists j :: 0 <= j < |w.entries| && entries[i].key == w.entries[j].key
                            && Equivalent(entries[i].value, w.entries[j].value)
      {
        assert a[i] in a;
        var j :| 0 <= j < |b| && b[j] == a[i];
        NormalIsEquivalent(entries[i].value, w.entries[j].value, less);
      }
    case _ =>
  }

  /** Two values have the same canonical text exactly if they are equal up to the order of object keys. */
  lemma CanonicalIffEquivalent(v: Json, w: Json, less: Less)
    requires Valid(v) && Valid(w) && StrictTotal(less)
    ensures CanonicalJson(v, less) == CanonicalJson(w, less) <==> Equivalent(v, w)
  {
    CanonicalIsPrint(v, less);
    CanonicalIsPrint(w, less);
    if Equivalent(v, w) { EquivalentIsNormal(v, w, less); }
    if CanonicalJson(v, less) == CanonicalJson(w, less) {
      NormalIsValid(v, less);
      NormalIsValid(w, less);
      PrintUnique(Normalize(v, less), Normalize(w, less), "", "");
      NormalIsEquivalent(v, w, less);
    }
  }

  function TwoKeys(a: string, b: string): Json {
    Obj([Entry(a, Null), Entry(b, Null)])
  }

  lemma TwoKeysEquivalent(a: string, b: string)
    requires a != b
    ensures Valid(TwoKeys(a, b)) && Equivalent(TwoKeys(a, b), TwoKeys(b, a))
  {
    var v, w := TwoKeys(a, b), TwoKeys(b, a);
    assert v.entries[0].key == w.entries[1].key && Equivalent(v.entries[0].value, w.entries[1].value);
    assert v.entries[1].key == w.entries[0].key && Equivalent(v.entries[1].value, w.entries[0].value);
  }

  lemma TiedStay(a: string, b: string, less: Less)
    requires a != b && !less(b, a)
    ensures Normalize(TwoKeys(a, b), less) == TwoKeys(a, b)
  {
    var entries := [Entry(a, Null), Entry(b, Null)];
    var pairs := NormalPairs(entries, less);
    NormalizeObj(entries, less);
    assert pairs == [Pair(a, Null), Pair(b, Null)];
    assert pairs[1..] == [Pair(b, Null)] && pairs[1..][1..] == [];
    assert Sort(pairs[1..], less) == [Pair(b, Null)];
    assert Sort(pairs, less) == [Pair(a, Null)] + [Pair(b, Null)];
  }

  /** The order must separate different keys: two keys that compare as equal leave the text dependent on their order. */
  lemma TiedKeysDiffer(a: string, b: string, less: Less)
    requires a != b && !less(a, b) && !less(b, a)
    ensures Equivalent(TwoKeys(a, b), TwoKeys(b, a))
    ensures CanonicalJson(TwoKeys(a, b), less) != CanonicalJson(TwoKeys(b, a), less)
  {
    TwoKeysEquivalent(a, b);
    TwoKeysEquivalent(b, a);
    CanonicalIsPrint(TwoKeys(a, b), less);
    CanonicalIsPrint(TwoKeys(b, a), less);
    TiedStay(a, b, less);
    TiedStay(b, a, less);
    assert TwoKeys(a, b).entries[0] != TwoKeys(b, a).entries[0];
    if Print(TwoKeys(a, b)) + "" == Print(TwoKeys(b, a)) + "" { PrintUnique(TwoKeys(a, b), TwoKeys(b, a), "", ""); }
  }
}
