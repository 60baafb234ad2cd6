// The generator's emission order: a struct after every struct it embeds by value, or a refusal
// when two embed each other.
module ModelOrder {
  import opened Prelude
  import opened Sorting

  datatype FieldKind = ModelField | VectorField | OtherField

  datatype Field = Field(kind: FieldKind, ref: string)

  // A schema as rendered: its C++ name and its fields.
  datatype Model = Model(name: string, fields: seq<Field>)

  // The model types a struct needs complete.
  function ModelDeps(fields: seq<Field>): set<string>
  {
    set f | f in fields && (f.kind.ModelField? || (f.kind.VectorField? && f.ref != "" && f.ref != "std::string")) :: f.ref
  }

  // The by-value graph: for each rendered name, what the last item of that name embeds.
  type Graph = map<string, set<string>>

  function ByName(items: seq<Model>): (g: Graph)
    ensures forall n :: n in g <==> exists i :: 0 <= i < |items| && items[i].name == n
  {
    if items == [] then map[]
    else
      var last := items[|items| - 1];
      ByName(items[..|items| - 1])[last.name := ModelDeps(last.fields)]
  }

  predicate Edge(g: Graph, a: string, b: string) { a in g && b in g && b in g[a] }

  ghost predicate IsPath(g: Graph, p: seq<string>)
  {
    forall i :: 0 <= i < |p| - 1 ==> Edge(g, p[i], p[i + 1])
  }

  ghost predicate HasCycle(g: Graph)
  {
    exists p :: |p| >= 2 && p[0] == p[|p| - 1] && IsPath(g, p)
  }

  // Every model's by-value dependencies stand before it.
  ghost predicate DepsFirst(g: Graph, out: seq<string>)
  {
    forall i, d :: 0 <= i < |out| && Edge(g, out[i], d) ==> d in out[..i]
  }

  datatype Mark = Open | Done

  // The depth-first walk: the marks and the output list it fills.
  class Emitter {
    const graph: Graph
    var state: map<string, Mark>
    var out: seq<string>

    ghost function Opened(): set<string>
      reads this
    {
      set n | n in state && state[n].Open?
    }

    // `stack` is the chain of visits under way.
    ghost predicate Valid(stack: seq<string>)
      reads this
    {
      && (forall n :: n in state ==> n in graph)
      && (forall n :: n in out <==> n in state && state[n].Done?)
      && NoDuplicates(out) && DepsFirst(graph, out)
      && Opened() == Elements(stack) && IsPath(graph, stack)
    }

    constructor (g: Graph)
      ensures graph == g && Valid([]) && out == []
    {
      graph, state, out := g, map[], [];
    }

    method Visit(n: string, ghost stack: seq<string>) returns (ok: bool)
      requires Valid(stack)
      requires stack != [] && n in graph ==> Edge(graph, stack[|stack| - 1], n)
      modifies this
      ensures !ok ==> HasCycle(graph)
      ensures ok ==> Valid(stack) && (n in graph ==> n in out)
      ensures ok ==> forall x :: x in old(out) ==> x in out
      decreases |graph.Keys - Elements(stack)|, 1
    {
      if n in state && state[n].Done? { return true; }
      if n in state && state[n].Open? {
        CloseCycle(graph, stack, n);
        return false;
      }
      if n !in graph { return true; }
      ok := Enter(n, stack);
    }

    method Enter(n: string, ghost stack: seq<string>) returns (ok: bool)
      requires Valid(stack) && n in graph && n !in state
      requires stack != [] ==> Edge(graph, stack[|stack| - 1], n)
      modifies this
      ensures !ok ==> HasCycle(graph)
      ensures ok ==> Valid(stack) && n in out
      ensures ok ==> forall x :: x in old(out) ==> x in out
      decreases |graph.Keys - Elements(stack)|, 0
    {
      var deps := Sorted(graph[n]);
      MarkOpen(n, stack);
      SmallerBelow(graph, stack, n);
      ok := VisitAll(deps, n, stack + [n]);
      if !ok { return; }
      Emit(n, stack);
    }

    method VisitAll(deps: seq<string>, n: string, ghost stack: seq<string>) returns (ok: bool)
      requires Valid(stack) && n in graph && forall d :: d in deps <==> d in graph[n]
      requires stack != [] && stack[|stack| - 1] == n
      modifies this
      ensures !ok ==> HasCycle(graph)
      ensures ok ==> Valid(stack) && forall d :: Edge(graph, n, d) ==> d in out
      ensures ok ==> forall x :: x in old(out) ==> x in out
      decreases |graph.Keys - Elements(stack)|, 2
    {
      ok := true;
      for i := 0 to |deps|
        invariant Valid(stack) && ok
        invariant forall x :: x in old(out) ==> x in out
        invariant forall j :: 0 <= j < i && deps[j] in graph ==> deps[j] in out
      {
        ok := Visit(deps[i], stack);
        if !ok { return; }
      }
    }

    method MarkOpen(n: string, ghost stack: seq<string>)
      requires Valid(stack) && n in graph && n !in state
      requires stack != [] ==> Edge(graph, stack[|stack| - 1], n)
      modifies this`state
      ensures Valid(stack + [n]) && n !in stack
    {
      assert n !in Opened();
      state := state[n := Open];
      assert Opened() == old(Opened()) + {n};
      assert Elements(stack + [n]) == Elements(stack) + {n};
    }

    method Emit(n: string, ghost stack: seq<string>)
      requires Valid(stack + [n]) && n !in stack && n in graph
      requires forall d :: Edge(graph, n, d) ==> d in out
      modifies this
      ensures Valid(stack) && out == old(out) + [n]
    {
      assert Elements(stack + [n]) == Elements(stack) + {n};
      assert n in Opened() && n !in out;
      EmitKeepsOrder(graph, out, n);
      PathFront(graph, stack, n);
      state := state[n := Done];
      out := out + [n];
      assert Opened() == old(Opened()) - {n};
      assert old(Opened()) == Elements(stack) + {n} && n !in Elements(stack);
    }
  }

  // A deeper stack leaves fewer names to open.
  lemma SmallerBelow(g: Graph, stack: seq<string>, n: string)
    requires n in g && n !in stack
    ensures |g.Keys - Elements(stack + [n])| < |g.Keys - Elements(stack)|
  {
    assert Elements(stack + [n]) == Elements(stack) + {n};
    assert g.Keys - Elements(stack) == (g.Keys - Elements(stack + [n])) + {n};
  }

  lemma PathFront(g: Graph, stack: seq<string>, n: string)
    requires IsPath(g, stack + [n])
    ensures IsPath(g, stack)
  {
    forall i | 0 <= i < |stack| - 1 ensures Edge(g, stack[i], stack[i + 1]) {
      assert Edge(g, (stack + [n])[i], (stack + [n])[i + 1]);
    }
  }

  lemma EmitKeepsOrder(g: Graph, out: seq<string>, n: string)
    requires DepsFirst(g, out) && forall d :: Edge(g, n, d) ==> d in out
    ensures DepsFirst(g, out + [n])
  {
    forall i, d | 0 <= i < |out + [n]| && Edge(g, (out + [n])[i], d) ensures d in (out + [n])[..i] {
      if i < |out| {
        assert d in out[..i];
        assert (out + [n])[..i] == out[..i];
      } else {
        assert (out + [n])[..i] == out;
      }
    }
  }

  // A visit that comes back to an open name closes a cycle.
  lemma CloseCycle(g: Graph, stack: seq<string>, n: string)
    requires n in Elements(stack) && IsPath(g, stack) && n in g
    requires Edge(g, stack[|stack| - 1], n)
    ensures HasCycle(g)
  {
    var i :| 0 <= i < |stack| && stack[i] == n;
    var p := stack[i..] + [n];
    forall j | 0 <= j < |p| - 1 ensures Edge(g, p[j], p[j + 1]) {
      if j + 1 < |stack[i..]| { assert Edge(g, stack[i + j], stack[i + j + 1]); }
    }
    assert p[0] == p[|p| - 1] && IsPath(g, p);
  }

  // Along a path, positions in a complete deps-first order only go down.
  lemma {:induction false} PathDescends(g: Graph, out: seq<string>, p: seq<string>, i: nat) returns (j: nat)
    requires DepsFirst(g, out) && IsPath(g, p) && |p| >= 2
    requires i < |out| && out[i] == p[0]
    ensures j < i && out[j] == p[|p| - 1]
    decreases |p|
  {
    assert Edge(g, p[0], p[1]);
    j :| 0 <= j < i && out[..i][j] == p[1];
    if |p| > 2 {
      forall k | 0 <= k < |p[1..]| - 1 ensures Edge(g, p[1..][k], p[1..][k + 1]) {
        assert Edge(g, p[k + 1], p[k + 1 + 1]);
      }
      j := PathDescends(g, out, p[1..], j);
    }
  }

  lemma DepsFirstAcyclic(g: Graph, out: seq<string>)
    requires DepsFirst(g, out) && NoDuplicates(out) && forall n :: n in g ==> n in out
    ensures !HasCycle(g)
  {
    if p :| |p| >= 2 && p[0] == p[|p| - 1] && IsPath(g, p) {
      assert Edge(g, p[0], p[1]);
      var i :| 0 <= i < |out| && out[i] == p[0];
      var j := PathDescends(g, out, p, i);
    }
  }

  // The loop over the items, for the graph they make.
  method EmitAll(items: seq<Model>, g: Graph) returns (r: Option<seq<string>>)
    requires forall i :: 0 <= i < |items| ==> items[i].name in g
    ensures r.None? ==> HasCycle(g)
    ensures r.Some? ==> NoDuplicates(r.value) && DepsFirst(g, r.value) && forall n :: n in r.value ==> n in g
    ensures r.Some? ==> forall i :: 0 <= i < |items| ==> items[i].name in r.value
  {
    var emitter := new Emitter(g);
    for i := 0 to |items|
      invariant emitter.Valid([]) && emitter.graph == g
      invariant forall j :: 0 <= j < i ==> items[j].name in emitter.out
    {
      var ok := emitter.Visit(items[i].name, []);
      if !ok { return None; }
    }
    return Some(emitter.out);
  }

  // Emits every model once, dependencies first; or refuses, exactly when some models embed each
  // other in a circle.
  method ModelledOrdered(items: seq<Model>) returns (r: Option<seq<string>>)
    ensures r.None? <==> HasCycle(ByName(items))
    ensures r.Some? ==>
              && NoDuplicates(r.value) && DepsFirst(ByName(items), r.value)
              && (forall n :: n in r.value <==> n in ByName(items))
  {
    var g := ByName(items);
    r := EmitAll(items, g);
    if r.Some? {
      DepsFirstAcyclic(g, r.value);
    }
  }

  // When no two items share a rendered name, nothing is dropped: the output names every item.
  lemma OneEntryEach(items: seq<Model>, out: seq<string>)
    requires forall i, j :: 0 <= i < j < |items| ==> items[i].name != items[j].name
    requires NoDuplicates(out) && forall n :: n in out <==> n in ByName(items)
    ensures |out| == |items|
    ensures forall i :: 0 <= i < |items| ==> items[i].name in out && ByName(items)[items[i].name] == ModelDeps(items[i].fields)
  {
    DistinctEntries(items);
    Names(items, out);
  }

  lemma Names(items: seq<Model>, out: seq<string>)
    requires forall i, j :: 0 <= i < j < |items| ==> items[i].name != items[j].name
    requires NoDuplicates(out) && forall n :: n in out <==> n in ByName(items)
    ensures |out| == |items| && forall i :: 0 <= i < |items| ==> items[i].name in out
  {
    var names := NamesOf(items);
    forall n ensures n in out <==> n in names {
      assert n in out <==> n in ByName(items);
    }
    SameLength(names, out);
    forall i | 0 <= i < |items| ensures items[i].name in out {
      assert names[i] in names;
    }
  }

  function NamesOf(items: seq<Model>): (names: seq<string>)
    ensures |names| == |items| && forall i :: 0 <= i < |items| ==> names[i] == items[i].name
    ensures forall n :: n in names <==> n in ByName(items)
  {
    if items == [] then []
    else
      var front := NamesOf(items[..|items| - 1]);
      front + [items[|items| - 1].name]
  }

  lemma SameLength(s: seq<string>, t: seq<string>)
    requires NoDuplicates(s) && NoDuplicates(t) && forall x :: x in s <==> x in t
    ensures |s| == |t|
  {
    Pigeonhole(s, Elements(t));
    Pigeonhole(t, Elements(s));
    ElementsBound(s);
    ElementsBound(t);
  }

  lemma {:induction false} DistinctEntries(items: seq<Model>)
    requires forall i, j :: 0 <= i < j < |items| ==> items[i].name != items[j].name
    ensures forall i :: 0 <= i < |items| ==> ByName(items)[items[i].name] == ModelDeps(items[i].fields)
  {
    if items != [] {
      var front := items[..|items| - 1];
      DistinctEntries(front);
      forall i | 0 <= i < |items| ensures ByName(items)[items[i].name] == ModelDeps(items[i].fields) {
        if i < |items| - 1 { assert front[i] == items[i]; }
      }
    }
  }
}
