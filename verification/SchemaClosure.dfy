// The generator's worklist over schema references: which schemas an operation can reach.
module SchemaClosure {
  import opened Prelude
  import opened Json
  import opened Sorting

  // An operation's two schema references; an array is written with leading brackets.
  datatype Operation = Operation(request: Option<string>, response: Option<string>)

  type Schemas = map<string, Json>

  function StripBrackets(s: string): string
  {
    if s != "" && (s[0] == '[' || s[0] == ']') then StripBrackets(s[1..]) else s
  }

  // What follows the last slash.
  function LastSegment(s: string): string
  {
    if s == "" || s[|s| - 1] == '/' then "" else LastSegment(s[..|s| - 1]) + [s[|s| - 1]]
  }

  // The name a "$ref" member of this very node points to.
  function OwnRef(members: map<string, Json>): set<string>
  {
    if "$ref" in members && members["$ref"].JString? then {LastSegment(members["$ref"].text)} else {}
  }

  // Every target of a "$ref" anywhere under a node.
  function RefsIn(node: Json): set<string>
  {
    match node
    case JArray(items) => set i, r | 0 <= i < |items| && r in RefsIn(items[i]) :: r
    case JObject(members) => OwnRef(members) + set k, r | k in members && r in RefsIn(members[k]) :: r
    case _ => {}
  }

  function Seeds(ops: seq<Operation>): set<string>
  {
    if ops == [] then {}
    else
      (if ops[0].request.Some? && ops[0].request.value != "" then {StripBrackets(ops[0].request.value)} else {})
      + (if ops[0].response.Some? && ops[0].response.value != "" then {StripBrackets(ops[0].response.value)} else {})
      + Seeds(ops[1..])
  }

  // A chain of references from a seed, every name of it a schema.
  ghost predicate IsChain(schemas: Schemas, seeds: set<string>, p: seq<string>)
  {
    && p != [] && p[0] in seeds
    && (forall i :: 0 <= i < |p| ==> p[i] in schemas)
    && (forall i :: 0 <= i < |p| - 1 ==> p[i + 1] in RefsIn(schemas[p[i]]))
  }

  ghost predicate Reachable(schemas: Schemas, seeds: set<string>, n: string)
  {
    exists p :: IsChain(schemas, seeds, p) && p[|p| - 1] == n
  }

  // Worth visiting: a seed, or referred to by a schema already seen.
  predicate Candidate(schemas: Schemas, seeds: set<string>, seen: set<string>, n: string)
  {
    n in seeds || exists m :: m in seen && m in schemas && n in RefsIn(schemas[m])
  }

  lemma CandidateReachable(schemas: Schemas, seeds: set<string>, seen: set<string>, n: string)
    requires forall m :: m in seen ==> Reachable(schemas, seeds, m)
    requires Candidate(schemas, seeds, seen, n) && n in schemas
    ensures Reachable(schemas, seeds, n)
  {
    if n in seeds {
      assert IsChain(schemas, seeds, [n]);
    } else {
      var m :| m in seen && m in schemas && n in RefsIn(schemas[m]);
      var p :| IsChain(schemas, seeds, p) && p[|p| - 1] == m;
      assert IsChain(schemas, seeds, p + [n]);
    }
  }

  lemma {:induction false} ChainSeen(schemas: Schemas, seeds: set<string>, seen: set<string>, p: seq<string>)
    requires forall n :: Candidate(schemas, seeds, seen, n) && n in schemas ==> n in seen
    requires IsChain(schemas, seeds, p)
    ensures p[|p| - 1] in seen
    decreases |p|
  {
    var last := p[|p| - 1];
    if |p| > 1 {
      var front := p[..|p| - 1];
      assert IsChain(schemas, seeds, front);
      ChainSeen(schemas, seeds, seen, front);
      assert last in RefsIn(schemas[front[|front| - 1]]);
    }
    assert Candidate(schemas, seeds, seen, last);
  }

  method Listing(s: set<string>) returns (out: seq<string>)
    ensures forall x :: x in out <==> x in s
  {
    out := Sorted(s);
  }

  // What the worklist keeps: only reachable schemas are seen, and every candidate not yet seen is
  // still on the list.
  ghost predicate Working(schemas: Schemas, seeds: set<string>, seen: set<string>, frontier: seq<string>)
  {
    && (forall n :: n in seen ==> n in schemas && Reachable(schemas, seeds, n))
    && (forall n :: n in frontier ==> Candidate(schemas, seeds, seen, n))
    && (forall n :: n in schemas && Candidate(schemas, seeds, seen, n) ==> n in seen || n in frontier)
  }

  // The references of a schema that are not seen yet.
  function Fresh(schemas: Schemas, seen: set<string>, name: string): set<string>
    requires name in schemas
  {
    RefsIn(schemas[name]) - seen
  }

  lemma Dropped(schemas: Schemas, seeds: set<string>, seen: set<string>, frontier: seq<string>)
    requires Working(schemas, seeds, seen, frontier) && frontier != []
    requires frontier[|frontier| - 1] in seen || frontier[|frontier| - 1] !in schemas
    ensures Working(schemas, seeds, seen, frontier[..|frontier| - 1])
  {
    var last := frontier[|frontier| - 1];
    assert forall n :: n in frontier ==> n == last || n in frontier[..|frontier| - 1];
  }

  lemma Visited(schemas: Schemas, seeds: set<string>, seen: set<string>, rest: seq<string>, name: string, found: seq<string>)
    requires Working(schemas, seeds, seen, rest + [name]) && name in schemas
    requires forall f :: f in found <==> f in Fresh(schemas, seen + {name}, name)
    ensures Working(schemas, seeds, seen + {name}, rest + found)
  {
    var seen', frontier' := seen + {name}, rest + found;
    assert name in rest + [name];
    CandidateReachable(schemas, seeds, seen, name);
    forall n | n in frontier' ensures Candidate(schemas, seeds, seen', n) {
      if n in rest {
        assert n in rest + [name];
        if n !in seeds {
          var m :| m in seen && m in schemas && n in RefsIn(schemas[m]);
          assert m in seen';
        }
      } else {
        assert name in seen' && n in RefsIn(schemas[name]);
      }
    }
    forall n | n in schemas && Candidate(schemas, seeds, seen', n) ensures n in seen' || n in frontier' {
      if Candidate(schemas, seeds, seen, n) {
        assert n in seen || n in rest + [name];
      } else {
        assert n in RefsIn(schemas[name]);
      }
    }
  }

  lemma AllSeen(schemas: Schemas, seeds: set<string>, seen: set<string>)
    requires Working(schemas, seeds, seen, [])
    ensures forall n :: n in seen <==> Reachable(schemas, seeds, n)
  {
    forall n | Reachable(schemas, seeds, n) ensures n in seen {
      var p :| IsChain(schemas, seeds, p) && p[|p| - 1] == n;
      ChainSeen(schemas, seeds, seen, p);
    }
  }

  lemma FewerLeft(schemas: Schemas, seen: set<string>, name: string)
    requires name in schemas && name !in seen
    ensures |schemas.Keys - (seen + {name})| < |schemas.Keys - seen|
  {
    assert schemas.Keys - seen == (schemas.Keys - (seen + {name})) + {name};
  }

  lemma WorkStarts(schemas: Schemas, seeds: set<string>, frontier: seq<string>)
    requires forall n :: n in frontier <==> n in seeds
    ensures Working(schemas, seeds, {}, frontier)
  {
  }

  // One turn of the worklist.
  method VisitNext(schemas: Schemas, ghost seeds: set<string>, seen: set<string>, frontier: seq<string>)
    returns (seen': set<string>, frontier': seq<string>)
    requires Working(schemas, seeds, seen, frontier) && frontier != []
    ensures Working(schemas, seeds, seen', frontier')
    ensures || |schemas.Keys - seen'| < |schemas.Keys - seen|
            || (seen' == seen && |frontier'| < |frontier|)
  {
    var name := frontier[|frontier| - 1];
    var rest := frontier[..|frontier| - 1];
    if name in seen || name !in schemas {
      Dropped(schemas, seeds, seen, frontier);
      return seen, rest;
    }
    var found := Listing(Fresh(schemas, seen + {name}, name));
    assert rest + [name] == frontier;
    Visited(schemas, seeds, seen, rest, name, found);
    FewerLeft(schemas, seen, name);
    return seen + {name}, rest + found;
  }

  // Exactly the reachable schemas, sorted.
  method SchemaClosure(schemas: Schemas, ops: seq<Operation>) returns (out: seq<string>)
    ensures Ascending(out)
    ensures forall n :: n in out <==> Reachable(schemas, Seeds(ops), n)
  {
    var seeds := Seeds(ops);
    var seen: set<string> := {};
    var frontier := Listing(seeds);
    WorkStarts(schemas, seeds, frontier);
    while frontier != []
      invariant Working(schemas, seeds, seen, frontier)
      decreases |schemas.Keys - seen|, |frontier|
    {
      seen, frontier := VisitNext(schemas, seeds, seen, frontier);
    }
    AllSeen(schemas, seeds, seen);
    out := Sorted(seen);
  }
}
