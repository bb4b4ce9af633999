/** Canonical tool definitions: sorted tools with key-sorted schemas. */
module Cachestab {
  import opened Wrappers

  // ----- strings in order -----

  /** Go compares strings byte by byte, which for UTF-8 is the order of the code points. */
  predicate LexLe(a: string, b: string) {
    if a == [] then true
    else if b == [] then false
    else a[0] < b[0] || (a[0] == b[0] && LexLe(a[1..], b[1..]))
  }

  lemma {:induction false} LexTotal(a: string, b: string)
    ensures LexLe(a, b) || LexLe(b, a)
    ensures LexLe(a, b) && LexLe(b, a) ==> a == b
    ensures LexLe(a, a)
  {
    if a != [] {
      LexTotal(a[1..], a[1..]);
      if b != [] {
        LexTotal(a[1..], b[1..]);
        assert a == [a[0]] + a[1..] && b == [b[0]] + b[1..];
      }
    }
  }

  lemma {:induction false} LexTransitive(a: string, b: string, c: string)
    requires LexLe(a, b) && LexLe(b, c)
    ensures LexLe(a, c)
  {
    if a != [] && a[0] == b[0] == c[0] {
      LexTransitive(a[1..], b[1..], c[1..]);
    }
  }

  predicate Ascending(s: seq<string>) {
    forall i, j :: 0 <= i < j < |s| ==> LexLe(s[i], s[j])
  }

  function Insert(x: string, s: seq<string>): seq<string> {
    if s == [] || LexLe(x, s[0]) then [x] + s else [s[0]] + Insert(x, s[1..])
  }

  /** `sort.Strings`. */
  function Sort(s: seq<string>): seq<string> {
    if s == [] then [] else Insert(s[0], Sort(s[1..]))
  }

  lemma {:induction false} InsertSorts(x: string, s: seq<string>)
    requires Ascending(s)
    ensures Ascending(Insert(x, s)) && multiset(Insert(x, s)) == multiset{x} + multiset(s)
  {
    if s == [] {
    } else if LexLe(x, s[0]) {
      forall i | 0 <= i < |s|
        ensures LexLe(x, s[i])
      {
        if i > 0 {
          LexTransitive(x, s[0], s[i]);
        }
      }
    } else {
      InsertSorts(x, s[1..]);
      LexTotal(x, s[0]);
      var t := Insert(x, s[1..]);
      assert s == [s[0]] + s[1..];
      forall i | 0 <= i < |t|
        ensures LexLe(s[0], t[i])
      {
        assert t[i] in multiset(t);
        if t[i] != x {
          assert t[i] in s[1..];
        }
      }
    }
  }

  lemma {:induction false} SortSorts(s: seq<string>)
    ensures Ascending(Sort(s)) && multiset(Sort(s)) == multiset(s)
  {
    if s != [] {
      SortSorts(s[1..]);
      InsertSorts(s[0], Sort(s[1..]));
      assert s == [s[0]] + s[1..];
    }
  }

  lemma HeadIsLeast(a: seq<string>, x: string)
    requires Ascending(a) && x in a
    ensures LexLe(a[0], x)
  {
    var i :| 0 <= i < |a| && a[i] == x;
    LexTotal(x, x);
  }

  lemma SameHead(a: seq<string>, b: seq<string>)
    requires Ascending(a) && Ascending(b) && multiset(a) == multiset(b) && a != [] && b != []
    ensures a[0] == b[0]
  {
    assert a[0] in multiset(b) && b[0] in multiset(a);
    HeadIsLeast(a, b[0]);
    HeadIsLeast(b, a[0]);
    LexTotal(a[0], b[0]);
  }

  lemma SameRest<T>(x: T, c: seq<T>, d: seq<T>)
    requires multiset([x] + c) == multiset([x] + d)
    ensures multiset(c) == multiset(d)
  {
    assert multiset(c) == multiset([x] + c) - multiset{x} && multiset(d) == multiset([x] + d) - multiset{x};
  }

  /** There is only one way to sort. */
  lemma {:induction false} SortedIsUnique(a: seq<string>, b: seq<string>)
    requires Ascending(a) && Ascending(b) && multiset(a) == multiset(b)
    ensures a == b
  {
    if a == [] || b == [] {
      assert |multiset(a)| == |a| && |multiset(b)| == |b|;
    } else {
      SameHead(a, b);
      var x, c, d := a[0], a[1..], b[1..];
      assert a == [x] + c && b == [x] + d;
      SameRest(x, c, d);
      SortedIsUnique(c, d);
    }
  }

  // ----- schemas -----

  /** Where a schema keeps its subschemas; the numbers are places in a list. */
  datatype Position =
    | Property(key: string) | Items | Contains | Not | AdditionalProperties
    | PrefixItem(i: nat) | AllOf(i: nat) | AnyOf(i: nat) | OneOf(i: nat)
    | PatternProperty(key: string) | Definition(key: string)

  /** A schema pointer. `order` are the keys of the ordered map of properties, as inserted; `rest` stands
      for the fields the normalization does not visit. */
  datatype Schema = Nil | Node(required: seq<string>, order: Option<seq<string>>, subs: map<Position, Schema>,
      rest: string)

  function SortKeys(order: Option<seq<string>>): Option<seq<string>> {
    match order
    case None => None
    case Some(keys) => Some(Sort(keys))
  }

  /** What `normalizeSchema` makes of a schema. */
  function Normalize(s: Schema): Schema {
    match s
    case Nil => Nil
    case Node(required, order, subs, rest) =>
        Node(Sort(required), SortKeys(order), map p | p in subs :: Normalize(subs[p]), rest)
  }

  predicate SameKeys(a: Option<seq<string>>, b: Option<seq<string>>) {
    if a.Some? && b.Some? then multiset(a.value) == multiset(b.value) else a == b
  }

  /** The same up to the order of properties and of required names, at every visited depth: the same
      required names, and the same map from properties and other positions to subschemas. */
  predicate Equiv(s: Schema, t: Schema)
    decreases s
  {
    match s
    case Nil => t == Nil
    case Node(required, order, subs, rest) =>
      && t.Node? && multiset(required) == multiset(t.required) && SameKeys(order, t.order) && rest == t.rest
      && subs.Keys == t.subs.Keys && forall p :: p in subs ==> Equiv(subs[p], t.subs[p])
  }

  lemma SortsAgree(a: seq<string>, b: seq<string>)
    ensures Sort(a) == Sort(b) <==> multiset(a) == multiset(b)
  {
    SortSorts(a);
    SortSorts(b);
    if multiset(a) == multiset(b) {
      SortedIsUnique(Sort(a), Sort(b));
    }
  }

  /** The normal form is canonical: two schemas have the same one exactly when they are equivalent. */
  lemma {:induction false} NormalizeIsCanonical(s: Schema, t: Schema)
    ensures Normalize(s) == Normalize(t) <==> Equiv(s, t)
    decreases s
  {
    if s.Node? && t.Node? {
      SortsAgree(s.required, t.required);
      if s.order.Some? && t.order.Some? {
        SortsAgree(s.order.value, t.order.value);
      }
      var a, b := Normalize(s).subs, Normalize(t).subs;
      assert a.Keys == s.subs.Keys && b.Keys == t.subs.Keys;
      if s.subs.Keys == t.subs.Keys {
        forall p | p in s.subs
          ensures a[p] == b[p] <==> Equiv(s.subs[p], t.subs[p])
        {
          NormalizeIsCanonical(s.subs[p], t.subs[p]);
        }
        assert a == b <==> forall p :: p in s.subs ==> Equiv(s.subs[p], t.subs[p]);
      }
    }
  }

  /** Nothing is lost at any visited depth: the normal form is equivalent to the schema. */
  lemma {:induction false} NormalizePreserves(s: Schema)
    ensures Equiv(s, Normalize(s))
    decreases s
  {
    if s.Node? {
      SortSorts(s.required);
      if s.order.Some? {
        SortSorts(s.order.value);
      }
      forall p | p in s.subs
        ensures Equiv(s.subs[p], Normalize(s.subs[p]))
      {
        NormalizePreserves(s.subs[p]);
      }
    }
  }

  /** Normalizing twice changes nothing. */
  lemma NormalizeIsIdempotent(s: Schema)
    ensures Normalize(Normalize(s)) == Normalize(s)
  {
    NormalizePreserves(s);
    NormalizeIsCanonical(s, Normalize(s));
  }

  /** Property keys and required names are in order at every visited depth. */
  predicate InOrder(s: Schema) {
    s.Node? ==> Ascending(s.required) && (s.order.Some? ==> Ascending(s.order.value)) && forall p :: p in s.subs ==>
        InOrder(s.subs[p])
  }

  lemma {:induction false} NormalizeSorts(s: Schema)
    ensures InOrder(Normalize(s))
    decreases s
  {
    if s.Node? {
      SortSorts(s.required);
      if s.order.Some? {
        SortSorts(s.order.value);
      }
      forall p | p in s.subs
        ensures InOrder(Normalize(s.subs[p]))
      {
        NormalizeSorts(s.subs[p]);
      }
    }
  }

  // ----- normalizing in place -----

  /** A schema node in memory. What hangs below it is fixed, its `required` list and property order are not.
      Nodes may be shared between positions, but none is below itself. */
  class SchemaNode {
    var required: seq<string>
    var order: Option<seq<string>>
    const subs: map<Position, SchemaNode?>
    const rest: string
    ghost const Repr: set<SchemaNode>

    constructor (required: seq<string>, order: Option<seq<string>>, subs: map<Position, SchemaNode?>, rest: string)
      requires forall p :: p in subs && subs[p] != null ==> subs[p].Acyclic()
      ensures Acyclic() && this.required == required && this.order == order && this.subs == subs && this.rest == rest
      ensures fresh(Repr - set p, o | p in subs && subs[p] != null && o in subs[p].Repr :: o)
    {
      this.required, this.order, this.subs, this.rest := required, order, subs, rest;
      Repr := {this} + set p, o | p in subs && subs[p] != null && o in subs[p].Repr :: o;
    }

    ghost predicate Acyclic()
      decreases Repr
    {
      && Repr == {this} + (set p, o | p in subs && subs[p] != null && o in subs[p].Repr :: o)
      && forall p :: p in subs && subs[p] != null ==> subs[p].Repr < Repr && this !in subs[p].Repr && subs[p].Acyclic()
    }
  }

  ghost function Nodes(s: SchemaNode?): set<SchemaNode> {
    if s == null then {} else s.Repr
  }

  ghost function Value(s: SchemaNode?): Schema
    requires s != null ==> s.Acyclic()
    reads Nodes(s)
    decreases Nodes(s)
  {
    if s == null then Nil else Node(s.required, s.order, map p | p in s.subs :: Value(s.subs[p]), s.rest)
  }

  /** The node has had nothing but its orders changed. */
  twostate predicate SameSorted(o: SchemaNode)
    reads o
  {
    Sort(o.required) == Sort(old(o.required)) && SortKeys(o.order) == SortKeys(old(o.order))
  }

  ghost predicate Settled(o: SchemaNode)
    reads o
  {
    o.required == Sort(o.required) && o.order == SortKeys(o.order)
  }

  /** Sorting every node makes the normal form of the whole. */
  twostate lemma SettledIsNormalized(s: SchemaNode?)
    requires s != null ==> s.Acyclic()
    requires forall o :: o in Nodes(s) ==> Settled(o) && SameSorted(o)
    ensures Value(s) == Normalize(old(Value(s)))
    decreases Nodes(s)
  {
    if s != null {
      var now, was := Value(s), old(Value(s));
      forall p | p in s.subs
        ensures p in was.subs && now.subs[p] == Normalize(was.subs[p])
      {
        SettledIsNormalized(s.subs[p]);
      }
      assert Settled(s) && SameSorted(s);
      assert now.subs == Normalize(was).subs;
    }
  }

  lemma SortTwice(s: seq<string>)
    ensures Sort(Sort(s)) == Sort(s)
  {
    SortSorts(s);
    SortsAgree(Sort(s), s);
  }

  /** `normalizeSchema`. */
  method NormalizeInPlace(s: SchemaNode?)
    requires s != null ==> s.Acyclic()
    modifies Nodes(s)
    ensures forall o :: o in Nodes(s) ==> Settled(o) && SameSorted(o)
    ensures Value(s) == Normalize(old(Value(s)))
    decreases Nodes(s), 2
  {
    if s == null {
      return;
    }
    SortNode(s);
    NormalizeSubs(s);
    SettledIsNormalized(s);
  }

  method SortNode(s: SchemaNode)
    modifies s
    ensures Settled(s) && SameSorted(s)
  {
    SortTwice(s.required);
    if |s.required| > 0 {
      s.required := Sort(s.required);
    }
    if s.order.Some? {
      SortTwice(s.order.value);
      s.order := Some(Sort(s.order.value));
    }
  }

  /** Normalizes every subschema, in any order; one that is shared is normalized more than once. */
  method NormalizeSubs(s: SchemaNode)
    requires s.Acyclic()
    modifies s.Repr - {s}
    ensures forall o :: o in s.Repr - {s} ==> Settled(o) && SameSorted(o)
    decreases s.Repr, 1
  {
    var todo := s.subs.Keys;
    ghost var done: set<SchemaNode> := {};
    while todo != {}
      invariant todo <= s.subs.Keys && done <= s.Repr - {s}
      invariant forall p :: p in s.subs && p !in todo ==> Nodes(s.subs[p]) <= done
      invariant forall o :: o in done ==> Settled(o)
      invariant forall o :: o in s.Repr - {s} ==> SameSorted(o)
      decreases |todo|
    {
      var p :| p in todo;
      NormalizeSub(s, p);
      todo, done := todo - {p}, done + Nodes(s.subs[p]);
    }
  }

  method NormalizeSub(s: SchemaNode, p: Position)
    requires s.Acyclic() && p in s.subs
    modifies Nodes(s.subs[p])
    ensures Nodes(s.subs[p]) <= s.Repr - {s}
    ensures forall o :: o in Nodes(s.subs[p]) ==> Settled(o) && SameSorted(o)
    decreases s.Repr, 0
  {
    NormalizeInPlace(s.subs[p]);
  }

  // ----- tools -----

  /** The parameters of a tool: none, a description that has no JSON schema, or a schema. */
  datatype Params = NoParams | Broken | Params(schema: Schema)

  datatype Tool = NilTool | Tool(name: string, params: Params, rest: string)

  function NormalizeTool(t: Tool): Tool {
    if t.Tool? && t.params.Params? then t.(params := Params(Normalize(t.params.schema))) else t
  }

  predicate IsBroken(t: Tool) {
    t.Tool? && t.params.Broken?
  }

  /** The comparison handed to the sort. */
  predicate Less(a: Tool, b: Tool) {
    if a.NilTool? || b.NilTool? then b.Tool? && a.NilTool? else LexLe(a.name, b.name) && a.name != b.name
  }

  predicate ToolLe(a: Tool, b: Tool) {
    !Less(b, a)
  }

  lemma ToolOrder(a: Tool, b: Tool, c: Tool)
    ensures ToolLe(a, a) && (ToolLe(a, b) || ToolLe(b, a)) && (ToolLe(a, b) && ToolLe(b, c) ==> ToolLe(a, c))
    ensures ToolLe(a, b) && ToolLe(b, a) ==> a == b || (a.Tool? && b.Tool? && a.name == b.name)
  {
    if a.Tool? && b.Tool? {
      LexTotal(a.name, b.name);
      if c.Tool? {
        LexTotal(b.name, c.name);
        LexTotal(a.name, c.name);
        if LexLe(a.name, b.name) && LexLe(b.name, c.name) {
          LexTransitive(a.name, b.name, c.name);
        }
      }
    }
  }

  predicate ToolsInOrder(s: seq<Tool>) {
    forall i, j :: 0 <= i < j < |s| ==> ToolLe(s[i], s[j])
  }

  /** Before the tools that are not less, so equal names stay in order. */
  function InsertTool(x: Tool, s: seq<Tool>): seq<Tool> {
    if s == [] || ToolLe(x, s[0]) then [x] + s else [s[0]] + InsertTool(x, s[1..])
  }

  /** `sort.SliceStable`. */
  function StableSort(s: seq<Tool>): seq<Tool> {
    if s == [] then [] else InsertTool(s[0], StableSort(s[1..]))
  }

  lemma {:induction false} InsertToolSorts(x: Tool, s: seq<Tool>)
    requires ToolsInOrder(s)
    ensures ToolsInOrder(InsertTool(x, s)) && multiset(InsertTool(x, s)) == multiset{x} + multiset(s)
  {
    if s == [] {
    } else if ToolLe(x, s[0]) {
      forall i | 0 <= i < |s|
        ensures ToolLe(x, s[i])
      {
        ToolOrder(x, s[0], s[i]);
      }
    } else {
      InsertToolSorts(x, s[1..]);
      ToolOrder(x, s[0], s[0]);
      var t := InsertTool(x, s[1..]);
      assert s == [s[0]] + s[1..];
      forall i | 0 <= i < |t|
        ensures ToolLe(s[0], t[i])
      {
        assert t[i] in multiset(t);
        if t[i] != x {
          assert t[i] in s[1..];
        }
      }
    }
  }

  lemma {:induction false} StableSortSorts(s: seq<Tool>)
    ensures ToolsInOrder(StableSort(s)) && multiset(StableSort(s)) == multiset(s)
  {
    if s != [] {
      StableSortSorts(s[1..]);
      InsertToolSorts(s[0], StableSort(s[1..]));
      assert s == [s[0]] + s[1..];
    }
  }

  /** Tools of the same name, in order. */
  function Named(s: seq<Tool>, name: string): seq<Tool> {
    if s == [] then [] else (if s[0].Tool? && s[0].name == name then [s[0]] else []) + Named(s[1..], name)
  }

  lemma {:induction false} InsertKeepsOrder(x: Tool, s: seq<Tool>, name: string)
    ensures Named(InsertTool(x, s), name) == Named([x] + s, name)
  {
    assert ([x] + s)[1..] == s;
    if s != [] && !ToolLe(x, s[0]) {
      InsertKeepsOrder(x, s[1..], name);
      var t := InsertTool(x, s[1..]);
      assert ([s[0]] + t)[1..] == t && ([x] + s[1..])[1..] == s[1..];
    }
  }

  /** The sort is stable: tools of one name keep their order. */
  lemma {:induction false} StableSortIsStable(s: seq<Tool>, name: string)
    ensures Named(StableSort(s), name) == Named(s, name)
  {
    if s != [] {
      StableSortIsStable(s[1..], name);
      InsertKeepsOrder(s[0], StableSort(s[1..]), name);
      assert ([s[0]] + StableSort(s[1..]))[1..] == StableSort(s[1..]);
    }
  }

  lemma {:induction false} SortedIsFixed(s: seq<Tool>)
    requires ToolsInOrder(s)
    ensures StableSort(s) == s
  {
    if s != [] {
      SortedIsFixed(s[1..]);
      assert |s| > 1 ==> ToolLe(s[0], s[1]);
    }
  }

  /** No two different tools share a name. */
  predicate NamesTell(s: seq<Tool>) {
    forall i, j :: 0 <= i < |s| && 0 <= j < |s| && s[i].Tool? && s[j].Tool? && s[i].name == s[j].name ==> s[i] == s[j]
  }

  lemma SameFirstTool(a: seq<Tool>, b: seq<Tool>)
    requires ToolsInOrder(a) && ToolsInOrder(b) && multiset(a) == multiset(b) && NamesTell(a) && a != [] && b != []
    ensures a[0] == b[0]
  {
    assert a[0] in multiset(b) && b[0] in multiset(a);
    ToolOrder(a[0], b[0], a[0]);
    var j :| 0 <= j < |a| && a[j] == b[0];
  }

  lemma {:induction false} SortedToolsAreUnique(a: seq<Tool>, b: seq<Tool>)
    requires ToolsInOrder(a) && ToolsInOrder(b) && multiset(a) == multiset(b) && NamesTell(a)
    ensures a == b
  {
    if a == [] || b == [] {
      assert |multiset(a)| == |a| && |multiset(b)| == |b|;
    } else {
      SameFirstTool(a, b);
      var x, c, d := a[0], a[1..], b[1..];
      assert a == [x] + c && b == [x] + d;
      SameRest(x, c, d);
      SortedToolsAreUnique(c, d);
    }
  }

  // ----- the whole normalization -----

  function NormalizeEach(tools: seq<Tool>): (r: seq<Tool>)
    ensures |r| == |tools| && forall i :: 0 <= i < |r| ==> r[i] == NormalizeTool(tools[i])
  {
    seq(|tools|, i requires 0 <= i < |tools| => NormalizeTool(tools[i]))
  }

  predicate AnyBroken(tools: seq<Tool>) {
    exists i :: 0 <= i < |tools| && IsBroken(tools[i])
  }

  /** `NormalizeTools`; the error names the first tool without a schema. */
  method NormalizeTools(tools: seq<Tool>) returns (r: Result<seq<Tool>, string>)
    ensures r.Ok? <==> !AnyBroken(tools)
    ensures r.Ok? ==> r.value == StableSort(NormalizeEach(tools))
    ensures r.Err? ==>
              exists i :: 0 <= i < |tools| && IsBroken(tools[i]) && tools[i].name == r.error && !AnyBroken(tools[..i])
  {
    var out: seq<Tool> := [];
    for i := 0 to |tools|
      invariant !AnyBroken(tools[..i]) && out == NormalizeEach(tools[..i])
    {
      var t := tools[i];
      if t.Tool? {
        var clone := t;
        match t.params {
          case NoParams =>
          case Broken =>
            return Err(t.name);
          case Params(schema) =>
            clone := clone.(params := Params(Normalize(schema)));
        }
        out := out + [clone];
      } else {
        out := out + [t];
      }
    }
    assert tools[..|tools|] == tools;
    r := Ok(StableSort(out));
  }

  predicate ToolEquiv(s: Tool, t: Tool) {
    if s.Tool? && s.params.Params? then
      t.Tool? && t.params.Params? && t.name == s.name && t.rest == s.rest && Equiv(s.params.schema, t.params.schema)
    else s == t
  }

  lemma ToolIsCanonical(s: Tool, t: Tool)
    ensures NormalizeTool(s) == NormalizeTool(t) <==> ToolEquiv(s, t)
    ensures ToolEquiv(s, NormalizeTool(s))
  {
    if s.Tool? && s.params.Params? {
      NormalizePreserves(s.params.schema);
      if t.Tool? && t.params.Params? {
        NormalizeIsCanonical(s.params.schema, t.params.schema);
      }
    }
  }

  /** The outcome has the tools that were given, each equivalent to its original, in order of their names. */
  lemma ToolsArePreserved(tools: seq<Tool>)
    ensures multiset(StableSort(NormalizeEach(tools))) == multiset(NormalizeEach(tools))
        && ToolsInOrder(StableSort(NormalizeEach(tools)))
    ensures forall i :: 0 <= i < |tools| ==> ToolEquiv(tools[i], NormalizeEach(tools)[i])
  {
    StableSortSorts(NormalizeEach(tools));
    forall i | 0 <= i < |tools|
      ensures ToolEquiv(tools[i], NormalizeEach(tools)[i])
    {
      ToolIsCanonical(tools[i], tools[i]);
    }
  }

  /** The normalization is idempotent. */
  lemma ToolsAreFixed(tools: seq<Tool>)
    ensures var out := StableSort(NormalizeEach(tools)); StableSort(NormalizeEach(out)) == out
  {
    var each := NormalizeEach(tools);
    var out := StableSort(each);
    StableSortSorts(each);
    forall i | 0 <= i < |out|
      ensures NormalizeTool(out[i]) == out[i]
    {
      assert out[i] in multiset(each);
      var j :| 0 <= j < |each| && each[j] == out[i];
      ToolIsCanonical(tools[j], each[j]);
    }
    assert NormalizeEach(out) == out;
    SortedIsFixed(out);
  }

  /** Cache stability: tools in any order, their schemas equal up to the order of properties and required
      names, come out the same, as long as tools that share a name are the same once normalized. `mid` is
      the second list in the order of the first. */
  lemma ToolsAreCanonical(tools: seq<Tool>, mid: seq<Tool>, others: seq<Tool>)
    requires |mid| == |tools| && (forall i :: 0 <= i < |tools| ==> ToolEquiv(tools[i], mid[i]))
        && multiset(mid) == multiset(others)
    requires NamesTell(NormalizeEach(tools))
    ensures StableSort(NormalizeEach(tools)) == StableSort(NormalizeEach(others))
  {
    forall i | 0 <= i < |tools|
      ensures NormalizeTool(tools[i]) == NormalizeTool(mid[i])
    {
      ToolIsCanonical(tools[i], mid[i]);
    }
    assert NormalizeEach(tools) == NormalizeEach(mid);
    EachOfSame(mid, others);
    StableSortSorts(NormalizeEach(mid));
    StableSortSorts(NormalizeEach(others));
    NamesStillTell(NormalizeEach(mid), StableSort(NormalizeEach(mid)));
    SortedToolsAreUnique(StableSort(NormalizeEach(mid)), StableSort(NormalizeEach(others)));
  }

  lemma NamesStillTell(a: seq<Tool>, b: seq<Tool>)
    requires NamesTell(a) && multiset(a) == multiset(b)
    ensures NamesTell(b)
  {
    forall i, j | 0 <= i < |b| && 0 <= j < |b| && b[i].Tool? && b[j].Tool? && b[i].name == b[j].name
      ensures b[i] == b[j]
    {
      assert b[i] in multiset(a) && b[j] in multiset(a);
      assert b[i] in a && b[j] in a;
    }
  }

  lemma {:induction false} EachOfSame(a: seq<Tool>, b: seq<Tool>)
    requires multiset(a) == multiset(b)
    ensures multiset(NormalizeEach(a)) == multiset(NormalizeEach(b))
  {
    if a == [] || b == [] {
      assert |multiset(a)| == |a| && |multiset(b)| == |b|;
    } else {
      assert a[0] in multiset(b);
      var j :| 0 <= j < |b| && b[j] == a[0];
      var c, d := a[1..], b[..j] + b[j + 1..];
      assert a[..0] + a[0 + 1..] == c;
      EachWithout(a, 0, c);
      EachWithout(b, j, d);
      EachOfSame(c, d);
    }
  }

  lemma EachConcat(a: seq<Tool>, b: seq<Tool>)
    ensures NormalizeEach(a + b) == NormalizeEach(a) + NormalizeEach(b)
  {
  }

  lemma EachWithout(s: seq<Tool>, j: nat, rest: seq<Tool>)
    requires j < |s| && rest == s[..j] + s[j + 1..]
    ensures multiset(rest) == multiset(s) - multiset{s[j]}
    ensures multiset(NormalizeEach(s)) == multiset{NormalizeTool(s[j])} + multiset(NormalizeEach(rest))
  {
    var a, x, b := s[..j], s[j], s[j + 1..];
    assert s == a + [x] + b;
    EachConcat(a + [x], b);
    EachConcat(a, [x]);
    EachConcat(a, b);
    assert NormalizeEach([x]) == [NormalizeTool(x)];
  }
}
