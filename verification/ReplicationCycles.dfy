/** Cycle detection over replication rules (detect_replication_cycles in
    src/config_sections.rs): a depth-first search with an explicit stack from
    every source endpoint. `normalize` stands for the prefix normalisation. */
module ReplicationCycles {

  /** A `(bucket, prefix)` endpoint. */
  type Node = (string, string)

  datatype Rule = Rule(name: string, sourceBucket: string, sourcePrefix: string, destBucket: string, destPrefix: string)

  function Source(r: Rule, normalize: string -> string): Node {
    (r.sourceBucket, normalize(r.sourcePrefix))
  }

  function Dest(r: Rule, normalize: string -> string): Node {
    (r.destBucket, normalize(r.destPrefix))
  }

  // ---------------------------------------------------------------- the property

  /** `walk` leads from `a` to `b`, rule by rule. */
  ghost predicate IsWalk(rules: seq<Rule>, normalize: string -> string, a: Node, walk: seq<Rule>, b: Node) {
    if walk == [] then a == b
    else
      var last := walk[|walk| - 1];
      last in rules && Dest(last, normalize) == b && IsWalk(rules, normalize, a, walk[..|walk| - 1], Source(last, normalize))
  }

  ghost predicate IsClosedWalk(rules: seq<Rule>, normalize: string -> string, a: Node, walk: seq<Rule>) {
    walk != [] && IsWalk(rules, normalize, a, walk, a)
  }

  ghost predicate OnCycle(rules: seq<Rule>, normalize: string -> string, a: Node) {
    exists walk :: IsClosedWalk(rules, normalize, a, walk)
  }

  ghost predicate HasCycle(rules: seq<Rule>, normalize: string -> string) {
    exists a :: OnCycle(rules, normalize, a)
  }

  // -------------------------------------------------------------------- messages

  function Join(parts: seq<string>, sep: string): string {
    if parts == [] then "" else if |parts| == 1 then parts[0] else parts[0] + sep + Join(parts[1..], sep)
  }

  /** Strings in byte order. */
  predicate AtMost(a: string, b: string) {
    a == [] || (b != [] && (a[0] < b[0] || (a[0] == b[0] && AtMost(a[1..], b[1..]))))
  }

  function InsertSorted(x: string, s: seq<string>): seq<string> {
    if s == [] || AtMost(x, s[0]) then [x] + s else [s[0]] + InsertSorted(x, s[1..])
  }

  function Sort(s: seq<string>): seq<string> {
    if s == [] then [] else InsertSorted(s[0], Sort(s[1..]))
  }

  /** What reports are told apart by. */
  function Key(names: seq<string>): string {
    Join(Sort(names), "|")
  }

  function Message(names: seq<string>): string {
    "replication rules form a cycle: " + Join(names, " -> ")
  }

  function Names(walk: seq<Rule>): (names: seq<string>)
    ensures |names| == |walk|
  {
    seq(|walk|, i requires 0 <= i < |walk| => walk[i].name)
  }

  // ----------------------------------------------------------------- sorted names

  lemma {:induction false} AtMostTotal(a: string, b: string)
    ensures AtMost(a, b) || AtMost(b, a)
    ensures AtMost(a, b) && AtMost(b, a) ==> a == b
  {
    if a != [] && b != [] && a[0] == b[0] {
      AtMostTotal(a[1..], b[1..]);
      if AtMost(a, b) && AtMost(b, a) {
        assert a == [a[0]] + a[1..] && b == [b[0]] + b[1..];
      }
    }
  }

  lemma {:induction false} InsertTwice(x: string, y: string, s: seq<string>)
    ensures InsertSorted(x, InsertSorted(y, s)) == InsertSorted(y, InsertSorted(x, s))
  {
    AtMostTotal(x, y);
    if s != [] {
      InsertTwice(x, y, s[1..]);
      InsertAcross(x, y, s);
    }
  }

  /** The cases of InsertTwice around the first element. */
  lemma InsertAcross(x: string, y: string, s: seq<string>)
    requires s != [] && InsertSorted(x, InsertSorted(y, s[1..])) == InsertSorted(y, InsertSorted(x, s[1..]))
    ensures InsertSorted(x, InsertSorted(y, s)) == InsertSorted(y, InsertSorted(x, s))
  {
    AtMostTotal(x, y);
    AtMostTrans(x, y, s[0]);
    AtMostTrans(y, x, s[0]);
    AtMostTotal(x, s[0]);
    AtMostTotal(y, s[0]);
  }

  lemma {:induction false} AtMostTrans(a: string, b: string, c: string)
    ensures AtMost(a, b) && AtMost(b, c) ==> AtMost(a, c)
  {
    if a != [] && b != [] && c != [] {
      AtMostTrans(a[1..], b[1..], c[1..]);
    }
  }

  /** Taking an element out from the middle of a list does not matter to sorting. */
  lemma {:induction false} SortTakesAny(s: seq<string>, i: nat)
    requires i < |s|
    ensures Sort(s) == InsertSorted(s[i], Sort(s[..i] + s[i + 1..]))
  {
    if i == 0 {
      assert s[..0] + s[1..] == s[1..];
    } else {
      SortTakesAny(s[1..], i - 1);
      var rest := s[..i] + s[i + 1..];
      assert rest[0] == s[0] && rest[1..] == s[1..][..i - 1] + s[1..][i..];
      InsertTwice(s[0], s[i], Sort(rest[1..]));
    }
  }

  lemma WithoutOne(s: seq<string>, i: nat)
    requires i < |s|
    ensures multiset(s[..i] + s[i + 1..]) == multiset(s) - multiset{s[i]}
  {
    assert s == s[..i] + [s[i]] + s[i + 1..];
    assert multiset(s) == multiset(s[..i]) + multiset{s[i]} + multiset(s[i + 1..]);
  }

  lemma {:induction false} InsertKeepsNames(x: string, s: seq<string>)
    ensures multiset(InsertSorted(x, s)) == multiset(s) + multiset{x}
  {
    if s != [] && !AtMost(x, s[0]) {
      InsertKeepsNames(x, s[1..]);
      assert s == [s[0]] + s[1..];
    }
  }

  lemma {:induction false} SortKeepsNames(s: seq<string>)
    ensures multiset(Sort(s)) == multiset(s)
  {
    if s != [] {
      SortKeepsNames(s[1..]);
      InsertKeepsNames(s[0], Sort(s[1..]));
      assert s == [s[0]] + s[1..];
    }
  }

  /** A name to match the first one, and what is left without the two. */
  lemma MatchFirst(a: seq<string>, b: seq<string>) returns (i: nat)
    requires multiset(a) == multiset(b) && a != []
    ensures i < |b| && b[i] == a[0] && multiset(a[1..]) == multiset(b[..i] + b[i + 1..])
  {
    i := PlaceOf(b, a[0]);
    WithoutFirst(a);
    WithoutOne(b, i);
  }

  lemma PlaceOf(s: seq<string>, x: string) returns (i: nat)
    requires x in multiset(s)
    ensures i < |s| && s[i] == x
  {
    i :| 0 <= i < |s| && s[i] == x;
  }

  lemma WithoutFirst(s: seq<string>)
    requires s != []
    ensures multiset(s[1..]) == multiset(s) - multiset{s[0]}
  {
    assert s == [s[0]] + s[1..];
  }

  /** Lists with the same names, in any order, have the same key. */
  lemma {:induction false} SameNamesSameKey(a: seq<string>, b: seq<string>)
    requires multiset(a) == multiset(b)
    ensures Sort(a) == Sort(b)
    decreases |a|
  {
    if a == [] {
      assert |multiset(b)| == |b| == 0;
    } else {
      var i := MatchFirst(a, b);
      SameNamesSameKey(a[1..], b[..i] + b[i + 1..]);
      SortTakesAny(b, i);
    }
  }

  ghost predicate Plain(names: seq<string>) {
    forall i :: 0 <= i < |names| ==> '|' !in names[i]
  }

  lemma FirstBar(x: string, xs: string)
    requires '|' !in x
    ensures var s := x + "|" + xs;
            s[|x|] == '|' && (forall i :: 0 <= i < |x| ==> s[i] != '|') && s[..|x|] == x && s[|x| + 1..] == xs
  {
    var s := x + "|" + xs;
    forall i | 0 <= i < |x|
      ensures s[i] != '|'
    {
      assert s[i] == x[i];
    }
  }

  lemma {:induction false} JoinIsInjective(a: seq<string>, b: seq<string>)
    requires a != [] && b != [] && Plain(a) && Plain(b) && Join(a, "|") == Join(b, "|")
    ensures a == b
    decreases |a|
  {
    BarsShow(a);
    BarsShow(b);
    if |a| > 1 {
      FirstBar(a[0], Join(a[1..], "|"));
      FirstBar(b[0], Join(b[1..], "|"));
      JoinIsInjective(a[1..], b[1..]);
      assert a == [a[0]] + a[1..] && b == [b[0]] + b[1..];
    }
  }

  lemma BarsShow(a: seq<string>)
    requires a != [] && Plain(a)
    ensures '|' in Join(a, "|") <==> |a| > 1
  {
    if |a| > 1 {
      FirstBar(a[0], Join(a[1..], "|"));
    }
  }

  /** Where no name has a bar in it, the key tells names apart exactly. */
  lemma SameKeyExactlyForSameNames(a: seq<string>, b: seq<string>)
    requires a != [] && b != [] && Plain(a) && Plain(b)
    ensures Key(a) == Key(b) <==> multiset(a) == multiset(b)
  {
    SortKeepsNames(a);
    SortKeepsNames(b);
    if multiset(a) == multiset(b) {
      SameNamesSameKey(a, b);
    }
    if Key(a) == Key(b) {
      SortStaysPlain(a);
      SortStaysPlain(b);
      JoinIsInjective(Sort(a), Sort(b));
    }
  }

  lemma SortStaysPlain(a: seq<string>)
    requires a != [] && Plain(a)
    ensures Sort(a) != [] && Plain(Sort(a))
  {
    SortKeepsNames(a);
    forall i | 0 <= i < |Sort(a)|
      ensures '|' !in Sort(a)[i]
    {
      assert Sort(a)[i] in multiset(a);
    }
    assert |multiset(Sort(a))| == |multiset(a)|;
  }

  // ------------------------------------------------------------------- the graph

  type Target = (Node, string)

  /** The destinations of the rules that start at `n`, in rule order. */
  function Targets(rules: seq<Rule>, normalize: string -> string, n: Node): seq<Target> {
    if rules == [] then []
    else
      var last := rules[|rules| - 1];
      var before := Targets(rules[..|rules| - 1], normalize, n);
      if Source(last, normalize) == n then before + [(Dest(last, normalize), last.name)] else before
  }

  lemma {:induction false} TargetsAreRules(rules: seq<Rule>, normalize: string -> string, n: Node, t: Target)
    ensures t in Targets(rules, normalize, n) <==>
            exists r :: r in rules && Source(r, normalize) == n && Dest(r, normalize) == t.0 && r.name == t.1
  {
    if rules != [] {
      var last := rules[|rules| - 1];
      TargetsAreRules(rules[..|rules| - 1], normalize, n, t);
      assert forall r :: r in rules <==> r in rules[..|rules| - 1] || r == last;
    }
  }

  ghost predicate IsSource(rules: seq<Rule>, normalize: string -> string, n: Node) {
    exists r :: r in rules && Source(r, normalize) == n
  }

  /** One more rule: its source gains one target, the other nodes nothing. */
  lemma EdgeOneMore(rules: seq<Rule>, normalize: string -> string, k: nat, n: Node)
    requires k < |rules|
    ensures IsSource(rules[..k + 1], normalize, n) <==> IsSource(rules[..k], normalize, n) || Source(rules[k], normalize) == n
    ensures !IsSource(rules[..k], normalize, n) ==> Targets(rules[..k], normalize, n) == []
    ensures Targets(rules[..k + 1], normalize, n)
            == if Source(rules[k], normalize) == n
               then Targets(rules[..k], normalize, n) + [(Dest(rules[k], normalize), rules[k].name)]
               else Targets(rules[..k], normalize, n)
  {
    assert rules[..k + 1][..k] == rules[..k] && rules[..k + 1][k] == rules[k];
    assert forall r :: r in rules[..k + 1] <==> r in rules[..k] || r == rules[k];
    if !IsSource(rules[..k], normalize, n) {
      NoTargets(rules[..k], normalize, n);
    }
  }

  method BuildEdges(rules: seq<Rule>, normalize: string -> string) returns (edges: map<Node, seq<Target>>)
    ensures forall n :: n in edges <==> IsSource(rules, normalize, n)
    ensures forall n :: n in edges ==> edges[n] == Targets(rules, normalize, n)
  {
    edges := map[];
    for k := 0 to |rules|
      invariant forall n :: n in edges <==> IsSource(rules[..k], normalize, n)
      invariant forall n :: n in edges ==> edges[n] == Targets(rules[..k], normalize, n)
    {
      hide IsSource, Targets;
      var rule := rules[k];
      var src := Source(rule, normalize);
      var known := if src in edges then edges[src] else [];
      forall n
        ensures IsSource(rules[..k + 1], normalize, n) <==> n in edges || src == n
        ensures Targets(rules[..k + 1], normalize, n)
                == if src == n then Targets(rules[..k], normalize, n) + [(Dest(rule, normalize), rule.name)]
                   else Targets(rules[..k], normalize, n)
        ensures n !in edges ==> Targets(rules[..k], normalize, n) == []
      {
        EdgeOneMore(rules, normalize, k, n);
      }
      edges := edges[src := known + [(Dest(rule, normalize), rule.name)]];
    }
    assert rules[..|rules|] == rules;
  }

  lemma {:induction false} NoTargets(rules: seq<Rule>, normalize: string -> string, n: Node)
    requires forall r :: r in rules ==> Source(r, normalize) != n
    ensures Targets(rules, normalize, n) == []
  {
    if rules != [] {
      NoTargets(rules[..|rules| - 1], normalize, n);
    }
  }

  // ------------------------------------------------------------------ the reports

  /** The names of a walk from `a` to `b`. */
  ghost predicate IsPath(rules: seq<Rule>, normalize: string -> string, a: Node, path: seq<string>, b: Node) {
    exists walk :: IsWalk(rules, normalize, a, walk, b) && Names(walk) == path
  }

  /** The names, in order, of a closed walk. */
  ghost predicate IsClosedPath(rules: seq<Rule>, normalize: string -> string, path: seq<string>) {
    path != [] && exists a :: IsPath(rules, normalize, a, path, a)
  }

  /** One more rule at the end of a path. */
  lemma PathExtends(rules: seq<Rule>, normalize: string -> string, a: Node, path: seq<string>, b: Node, t: Target)
    requires IsPath(rules, normalize, a, path, b) && t in Targets(rules, normalize, b)
    ensures IsPath(rules, normalize, a, path + [t.1], t.0)
  {
    var walk :| IsWalk(rules, normalize, a, walk, b) && Names(walk) == path;
    var r := RuleBehind(rules, normalize, b, t);
    hide Source, Dest;
    var longer := walk + [r];
    assert longer[..|longer| - 1] == walk && longer[|longer| - 1] == r;
    assert Names(longer) == path + [t.1];
    assert IsWalk(rules, normalize, a, longer, t.0);
  }

  lemma RuleBehind(rules: seq<Rule>, normalize: string -> string, b: Node, t: Target) returns (r: Rule)
    requires t in Targets(rules, normalize, b)
    ensures r in rules && Source(r, normalize) == b && Dest(r, normalize) == t.0 && r.name == t.1
  {
    TargetsAreRules(rules, normalize, b, t);
    r :| r in rules && Source(r, normalize) == b && Dest(r, normalize) == t.0 && r.name == t.1;
  }

  /** What has been reported: messages of real closed walks, no two with the same
      rule names. */
  ghost predicate ReportsOk(rules: seq<Rule>, normalize: string -> string, warnings: seq<string>,
                            seen: set<string>, cycles: seq<seq<string>>)
  {
    && |cycles| == |warnings|
    && (forall i :: 0 <= i < |cycles| ==>
          IsClosedPath(rules, normalize, cycles[i]) && warnings[i] == Message(cycles[i]))
    && (forall k :: k in seen <==> exists i :: 0 <= i < |cycles| && Key(cycles[i]) == k)
    && (forall i, j :: 0 <= i < j < |cycles| ==> Key(cycles[i]) != Key(cycles[j]))
  }

  /** Some closed walk from `a` has been reported, under some order of its names. */
  ghost predicate Found(rules: seq<Rule>, normalize: string -> string, seen: set<string>, a: Node) {
    exists path: seq<string> :: path != [] && IsPath(rules, normalize, a, path, a) && Key(path) in seen
  }

  lemma ReportOneMore(rules: seq<Rule>, normalize: string -> string, warnings: seq<string>, seen: set<string>,
                      cycles: seq<seq<string>>, path: seq<string>)
    requires ReportsOk(rules, normalize, warnings, seen, cycles)
    requires IsClosedPath(rules, normalize, path) && Key(path) !in seen
    ensures ReportsOk(rules, normalize, warnings + [Message(path)], seen + {Key(path)}, cycles + [path])
  {
    hide IsClosedPath, Key;
    var seen', cycles' := seen + {Key(path)}, cycles + [path];
    forall k
      ensures k in seen' <==> exists i :: 0 <= i < |cycles'| && Key(cycles'[i]) == k
    {
      if k == Key(path) {
        assert Key(cycles'[|cycles|]) == k;
      } else if k in seen {
        var i :| 0 <= i < |cycles| && Key(cycles[i]) == k;
        assert Key(cycles'[i]) == k;
      }
    }
  }

  /** Report a closed path unless its rule names have been reported before. */
  method Report(rules: seq<Rule>, normalize: string -> string, a: Node, path: seq<string>,
                warnings: seq<string>, seen: set<string>, ghost cycles: seq<seq<string>>)
    returns (warnings': seq<string>, seen': set<string>, ghost cycles': seq<seq<string>>)
    requires ReportsOk(rules, normalize, warnings, seen, cycles)
    requires path != [] && IsPath(rules, normalize, a, path, a)
    ensures ReportsOk(rules, normalize, warnings', seen', cycles')
    ensures seen <= seen' && Key(path) in seen' && Found(rules, normalize, seen', a)
  {
    hide ReportsOk, IsPath, Key;
    warnings', seen', cycles' := warnings, seen, cycles;
    var key := Key(path);
    if key !in seen {
      ReportOneMore(rules, normalize, warnings, seen, cycles, path);
      seen' := seen + {key};
      warnings' := warnings + [Message(path)];
      cycles' := cycles + [path];
    }
  }

  // ------------------------------------------------------------------- the search

  datatype Entry = Entry(node: Node, path: seq<string>)

  ghost predicate OnStack(stack: seq<Entry>, n: Node) {
    exists i :: 0 <= i < |stack| && stack[i].node == n
  }

  /** Every node done has its targets done, waiting, or back at the start. */
  ghost predicate Closed(rules: seq<Rule>, normalize: string -> string, start: Node, done: set<Node>,
                         stack: seq<Entry>, found: bool)
  {
    forall n, t :: n in done && t in Targets(rules, normalize, n) ==>
      if t.0 == start then found else t.0 in done || OnStack(stack, t.0)
  }

  ghost predicate StackOk(rules: seq<Rule>, normalize: string -> string, start: Node, stack: seq<Entry>) {
    forall i :: 0 <= i < |stack| ==> IsPath(rules, normalize, start, stack[i].path, stack[i].node)
  }

  /** A search that ran to its end has come back to the start if any walk does. */
  lemma {:induction false} SearchIsComplete(rules: seq<Rule>, normalize: string -> string, start: Node,
                                            done: set<Node>, found: bool, walk: seq<Rule>, n: Node)
    requires start in done && Closed(rules, normalize, start, done, [], found)
    requires IsWalk(rules, normalize, start, walk, n)
    ensures n in done
    ensures walk != [] && n == start ==> found
    decreases |walk|
  {
    if walk != [] {
      var last := walk[|walk| - 1];
      SearchIsComplete(rules, normalize, start, done, found, walk[..|walk| - 1], Source(last, normalize));
      TargetsAreRules(rules, normalize, Source(last, normalize), (n, last.name));
    }
  }

  /** Every endpoint of a rule. */
  ghost function Endpoints(rules: seq<Rule>, normalize: string -> string): set<Node> {
    (set r | r in rules :: Source(r, normalize)) + (set r | r in rules :: Dest(r, normalize))
  }

  ghost predicate Within(stack: seq<Entry>, nodes: set<Node>) {
    forall i :: 0 <= i < |stack| ==> stack[i].node in nodes
  }

  /** Follow every rule out of `node`: report a return, push anything else. */
  method Expand(rules: seq<Rule>, normalize: string -> string, start: Node, node: Node, path: seq<string>,
                targets: seq<Target>, stack: seq<Entry>, warnings: seq<string>, seen: set<string>,
                ghost cycles: seq<seq<string>>)
    returns (stack': seq<Entry>, warnings': seq<string>, seen': set<string>, ghost cycles': seq<seq<string>>)
    requires ReportsOk(rules, normalize, warnings, seen, cycles)
    requires targets == Targets(rules, normalize, node) && IsPath(rules, normalize, start, path, node)
    requires StackOk(rules, normalize, start, stack) && Within(stack, Endpoints(rules, normalize))
    ensures ReportsOk(rules, normalize, warnings', seen', cycles') && seen <= seen'
    ensures StackOk(rules, normalize, start, stack') && Within(stack', Endpoints(rules, normalize))
    ensures stack <= stack'
    ensures forall t :: t in targets ==> if t.0 == start then Found(rules, normalize, seen', start) else OnStack(stack', t.0)
  {
    hide ReportsOk, IsPath, Found, Targets, Endpoints, OnStack, StackOk, Within;
    stack', warnings', seen', cycles' := stack, warnings, seen, cycles;
    for k := 0 to |targets|
      invariant ReportsOk(rules, normalize, warnings', seen', cycles') && seen <= seen'
      invariant StackOk(rules, normalize, start, stack') && Within(stack', Endpoints(rules, normalize))
      invariant stack <= stack'
      invariant forall i :: 0 <= i < k ==>
        if targets[i].0 == start then Found(rules, normalize, seen', start) else OnStack(stack', targets[i].0)
    {
      var t := targets[k];
      var nextPath := path + [t.1];
      PathExtends(rules, normalize, start, path, node, t);
      if t.0 == start {
        FoundGrows(rules, normalize, seen', start);
        warnings', seen', cycles' := Report(rules, normalize, start, nextPath, warnings', seen', cycles');
      } else {
        TargetIsEndpoint(rules, normalize, node, t);
        OnStackGrows(stack', Entry(t.0, nextPath));
        PushKeeps(rules, normalize, start, stack', Entry(t.0, nextPath));
        stack' := stack' + [Entry(t.0, nextPath)];
      }
    }
  }

  lemma PushKeeps(rules: seq<Rule>, normalize: string -> string, start: Node, stack: seq<Entry>, e: Entry)
    requires StackOk(rules, normalize, start, stack) && Within(stack, Endpoints(rules, normalize))
    requires IsPath(rules, normalize, start, e.path, e.node) && e.node in Endpoints(rules, normalize)
    ensures StackOk(rules, normalize, start, stack + [e]) && Within(stack + [e], Endpoints(rules, normalize))
  {
  }

  lemma FoundGrows(rules: seq<Rule>, normalize: string -> string, seen: set<string>, a: Node)
    ensures forall more: set<string> :: seen <= more && Found(rules, normalize, seen, a) ==> Found(rules, normalize, more, a)
  {
  }

  lemma OnStackGrows(stack: seq<Entry>, e: Entry)
    ensures OnStack(stack + [e], e.node)
    ensures forall n :: OnStack(stack, n) ==> OnStack(stack + [e], n)
  {
    var longer := stack + [e];
    assert longer[|stack|] == e;
    forall n | OnStack(stack, n)
      ensures OnStack(longer, n)
    {
      var i :| 0 <= i < |stack| && stack[i].node == n;
      assert longer[i] == stack[i];
    }
  }

  lemma TargetIsEndpoint(rules: seq<Rule>, normalize: string -> string, n: Node, t: Target)
    requires t in Targets(rules, normalize, n)
    ensures t.0 in Endpoints(rules, normalize)
  {
  }

  /** The search from one endpoint. */
  method SearchFrom(rules: seq<Rule>, normalize: string -> string, edges: map<Node, seq<Target>>, start: Node,
                    warnings: seq<string>, seen: set<string>, ghost cycles: seq<seq<string>>)
    returns (warnings': seq<string>, seen': set<string>, ghost cycles': seq<seq<string>>)
    requires forall n :: n in edges <==> IsSource(rules, normalize, n)
    requires forall n :: n in edges ==> edges[n] == Targets(rules, normalize, n)
    requires start in edges && ReportsOk(rules, normalize, warnings, seen, cycles)
    ensures ReportsOk(rules, normalize, warnings', seen', cycles') && seen <= seen'
    ensures OnCycle(rules, normalize, start) ==> Found(rules, normalize, seen', start)
  {
    hide ReportsOk, IsPath, Found, Targets, Endpoints, Closed, OnStack;
    warnings', seen', cycles' := warnings, seen, cycles;
    var stack := [Entry(start, [])];
    var visited: set<Node> := {};
    StartIsOk(rules, normalize, start, Found(rules, normalize, seen, start));
    while stack != []
      invariant ReportsOk(rules, normalize, warnings', seen', cycles') && seen <= seen'
      invariant StackOk(rules, normalize, start, stack) && Within(stack, Endpoints(rules, normalize))
      invariant visited <= Endpoints(rules, normalize)
      invariant start in visited || stack == [Entry(start, [])]
      invariant Closed(rules, normalize, start, visited, stack, Found(rules, normalize, seen', start))
      decreases Endpoints(rules, normalize) - visited, |stack|
    {
      var e := stack[|stack| - 1];
      ghost var before, seenBefore := stack, seen';
      stack := stack[..|stack| - 1];
      if e.node in visited {
        PopKeepsClosed(rules, normalize, start, visited, before, Found(rules, normalize, seen', start));
        continue;
      }
      if e.node in edges {
        stack, warnings', seen', cycles' :=
          Expand(rules, normalize, start, e.node, e.path, edges[e.node], stack, warnings', seen', cycles');
      } else {
        NoTargetsOut(rules, normalize, e.node);
      }
      FoundGrows(rules, normalize, seenBefore, start);
      VisitKeepsClosed(rules, normalize, start, visited, before, stack, Found(rules, normalize, seenBefore, start),
                       Found(rules, normalize, seen', start));
      visited := visited + {e.node};
    }
    forall walk | IsClosedWalk(rules, normalize, start, walk)
      ensures Found(rules, normalize, seen', start)
    {
      SearchIsComplete(rules, normalize, start, visited, Found(rules, normalize, seen', start), walk, start);
    }
  }

  lemma StartIsOk(rules: seq<Rule>, normalize: string -> string, start: Node, found: bool)
    requires IsSource(rules, normalize, start)
    ensures IsPath(rules, normalize, start, [], start) && start in Endpoints(rules, normalize)
    ensures Closed(rules, normalize, start, {}, [Entry(start, [])], found)
  {
    assert IsWalk(rules, normalize, start, [], start) && Names([]) == [];
  }

  lemma NoTargetsOut(rules: seq<Rule>, normalize: string -> string, n: Node)
    requires !IsSource(rules, normalize, n)
    ensures Targets(rules, normalize, n) == []
  {
  }

  /** A popped entry of a node already done was not waited for. */
  lemma PopKeepsClosed(rules: seq<Rule>, normalize: string -> string, start: Node, done: set<Node>,
                       stack: seq<Entry>, found: bool)
    requires stack != [] && stack[|stack| - 1].node in done && Closed(rules, normalize, start, done, stack, found)
    ensures Closed(rules, normalize, start, done, stack[..|stack| - 1], found)
  {
  }

  /** Finishing a node whose targets have all been looked at. */
  lemma VisitKeepsClosed(rules: seq<Rule>, normalize: string -> string, start: Node, done: set<Node>,
                         before: seq<Entry>, stack: seq<Entry>, found: bool, found': bool)
    requires before != [] && before[..|before| - 1] <= stack && (found ==> found')
    requires Closed(rules, normalize, start, done, before, found)
    requires forall t :: t in Targets(rules, normalize, before[|before| - 1].node) ==>
      if t.0 == start then found' else OnStack(stack, t.0)
    ensures Closed(rules, normalize, start, done + {before[|before| - 1].node}, stack, found')
  {
  }

  /** A closed walk from `a` is among the reports, under some order of its names. */
  ghost predicate Reported(rules: seq<Rule>, normalize: string -> string, cycles: seq<seq<string>>, a: Node) {
    exists i, path: seq<string> ::
      0 <= i < |cycles| && path != [] && IsPath(rules, normalize, a, path, a) && Key(path) == Key(cycles[i])
  }

  /** A closed walk from `a` consists of the rules of some report. */
  ghost predicate Covered(rules: seq<Rule>, normalize: string -> string, cycles: seq<seq<string>>, a: Node) {
    exists i, path: seq<string> ::
      0 <= i < |cycles| && path != [] && IsPath(rules, normalize, a, path, a) && multiset(path) == multiset(cycles[i])
  }

  /** Validation admits only letters, digits, `_`, `.` and `-`. */
  ghost predicate PlainRules(rules: seq<Rule>) {
    forall r :: r in rules ==> '|' !in r.name
  }

  lemma {:induction false} WalkIsPlain(rules: seq<Rule>, normalize: string -> string, a: Node, walk: seq<Rule>, b: Node)
    requires PlainRules(rules) && IsWalk(rules, normalize, a, walk, b)
    ensures Plain(Names(walk))
    decreases |walk|
  {
    if walk != [] {
      var n := |walk| - 1;
      WalkIsPlain(rules, normalize, a, walk[..n], Source(walk[n], normalize));
      forall i | 0 <= i < |walk|
        ensures '|' !in walk[i].name
      {
        if i < n {
          assert Names(walk[..n])[i] == walk[i].name;
        }
      }
    }
  }

  lemma PathIsPlain(rules: seq<Rule>, normalize: string -> string, a: Node, path: seq<string>)
    requires PlainRules(rules) && IsPath(rules, normalize, a, path, a)
    ensures Plain(path)
  {
    var walk :| IsWalk(rules, normalize, a, walk, a) && Names(walk) == path;
    WalkIsPlain(rules, normalize, a, walk, a);
  }

  lemma PlainIsCovered(rules: seq<Rule>, normalize: string -> string, cycles: seq<seq<string>>, a: Node)
    requires PlainRules(rules) && Reported(rules, normalize, cycles, a)
    requires forall i :: 0 <= i < |cycles| ==> IsClosedPath(rules, normalize, cycles[i])
    ensures Covered(rules, normalize, cycles, a)
  {
    hide IsPath, Key;
    var i, path: seq<string> :|
      0 <= i < |cycles| && path != [] && IsPath(rules, normalize, a, path, a) && Key(path) == Key(cycles[i]);
    PathIsPlain(rules, normalize, a, path);
    assert IsClosedPath(rules, normalize, cycles[i]);
    var b :| IsPath(rules, normalize, b, cycles[i], b);
    PathIsPlain(rules, normalize, b, cycles[i]);
    SameKeyExactlyForSameNames(path, cycles[i]);
  }

  /** detect_replication_cycles. `cycles` are the rule names behind the messages. */
  method DetectReplicationCycles(rules: seq<Rule>, normalize: string -> string)
    returns (warnings: seq<string>, ghost cycles: seq<seq<string>>)
    ensures warnings != [] <==> HasCycle(rules, normalize)
    ensures |cycles| == |warnings| && forall i :: 0 <= i < |warnings| ==> warnings[i] == Message(cycles[i])
    // Every report is a real closed walk.
    ensures forall i :: 0 <= i < |cycles| ==> IsClosedPath(rules, normalize, cycles[i])
    // No two reports consist of the same rules.
    ensures forall i, j :: 0 <= i < j < |cycles| ==> multiset(cycles[i]) != multiset(cycles[j])
    // Every endpoint on a cycle is covered by a report.
    ensures forall a :: OnCycle(rules, normalize, a) ==> Reported(rules, normalize, cycles, a)
    ensures PlainRules(rules) ==> forall a :: OnCycle(rules, normalize, a) ==> Covered(rules, normalize, cycles, a)
  {
    hide ReportsOk, OnCycle, Found, Targets, IsClosedPath, HasCycle, Reported, Covered, PlainRules;
    var edges := BuildEdges(rules, normalize);
    var seen: set<string>;
    warnings, seen, cycles := [], {}, [];
    NothingReported(rules, normalize);
    var todo := edges.Keys;
    while todo != {}
      invariant todo <= edges.Keys
      invariant ReportsOk(rules, normalize, warnings, seen, cycles)
      invariant forall a :: a in edges && a !in todo && OnCycle(rules, normalize, a) ==> Found(rules, normalize, seen, a)
      decreases todo
    {
      var start :| start in todo;
      ghost var seenBefore := seen;
      warnings, seen, cycles := SearchFrom(rules, normalize, edges, start, warnings, seen, cycles);
      forall a | a in edges && a !in todo && OnCycle(rules, normalize, a)
        ensures Found(rules, normalize, seen, a)
      {
        FoundGrows(rules, normalize, seenBefore, a);
      }
      todo := todo - {start};
    }
    ReportsAreSound(rules, normalize, warnings, seen, cycles);
    CoversAll(rules, normalize, warnings, seen, cycles, edges.Keys);
    if PlainRules(rules) {
      forall a | OnCycle(rules, normalize, a)
        ensures Covered(rules, normalize, cycles, a)
      {
        PlainIsCovered(rules, normalize, cycles, a);
      }
    }
  }

  lemma NothingReported(rules: seq<Rule>, normalize: string -> string)
    ensures ReportsOk(rules, normalize, [], {}, [])
  {
  }

  lemma {:induction false} WalkStartsAtSource(rules: seq<Rule>, normalize: string -> string, a: Node, walk: seq<Rule>, b: Node)
    requires IsWalk(rules, normalize, a, walk, b) && walk != []
    ensures walk[0] in rules && Source(walk[0], normalize) == a
    decreases |walk|
  {
    if |walk| > 1 {
      WalkStartsAtSource(rules, normalize, a, walk[..|walk| - 1], Source(walk[|walk| - 1], normalize));
    }
  }

  lemma ReportsAreSound(rules: seq<Rule>, normalize: string -> string, warnings: seq<string>, seen: set<string>,
                        cycles: seq<seq<string>>)
    requires ReportsOk(rules, normalize, warnings, seen, cycles)
    ensures |cycles| == |warnings| && forall i :: 0 <= i < |warnings| ==> warnings[i] == Message(cycles[i])
    ensures forall i :: 0 <= i < |cycles| ==> IsClosedPath(rules, normalize, cycles[i])
    ensures forall i, j :: 0 <= i < j < |cycles| ==> multiset(cycles[i]) != multiset(cycles[j])
  {
    hide IsClosedPath;
    forall i, j | 0 <= i < j < |cycles|
      ensures multiset(cycles[i]) != multiset(cycles[j])
    {
      if multiset(cycles[i]) == multiset(cycles[j]) {
        SameNamesSameKey(cycles[i], cycles[j]);
      }
    }
  }

  lemma ClosedPathIsCycle(rules: seq<Rule>, normalize: string -> string, path: seq<string>)
    requires IsClosedPath(rules, normalize, path)
    ensures HasCycle(rules, normalize)
  {
    var a :| IsPath(rules, normalize, a, path, a);
    var walk :| IsWalk(rules, normalize, a, walk, a) && Names(walk) == path;
    assert IsClosedWalk(rules, normalize, a, walk);
    assert OnCycle(rules, normalize, a);
  }

  lemma FoundIsReported(rules: seq<Rule>, normalize: string -> string, warnings: seq<string>, seen: set<string>,
                        cycles: seq<seq<string>>, a: Node)
    requires ReportsOk(rules, normalize, warnings, seen, cycles) && Found(rules, normalize, seen, a)
    ensures Reported(rules, normalize, cycles, a) && warnings != []
  {
    hide IsPath, IsClosedPath, Key;
    var path: seq<string> :| path != [] && IsPath(rules, normalize, a, path, a) && Key(path) in seen;
    var i :| 0 <= i < |cycles| && Key(cycles[i]) == Key(path);
  }

  lemma CoversAll(rules: seq<Rule>, normalize: string -> string, warnings: seq<string>, seen: set<string>,
                  cycles: seq<seq<string>>, sources: set<Node>)
    requires ReportsOk(rules, normalize, warnings, seen, cycles)
    requires forall n :: n in sources <==> IsSource(rules, normalize, n)
    requires forall a :: a in sources && OnCycle(rules, normalize, a) ==> Found(rules, normalize, seen, a)
    ensures warnings != [] <==> HasCycle(rules, normalize)
    ensures forall a :: OnCycle(rules, normalize, a) ==> Reported(rules, normalize, cycles, a)
  {
    hide ReportsOk, Found, Reported, IsClosedPath;
    forall a | OnCycle(rules, normalize, a)
      ensures Reported(rules, normalize, cycles, a) && warnings != []
    {
      var walk :| IsClosedWalk(rules, normalize, a, walk);
      WalkStartsAtSource(rules, normalize, a, walk, a);
      assert a in sources;
      FoundIsReported(rules, normalize, warnings, seen, cycles, a);
    }
    if warnings != [] {
      ReportsAreSound(rules, normalize, warnings, seen, cycles);
      ClosedPathIsCycle(rules, normalize, cycles[0]);
    }
  }

  // --------------------------------------------------------------- rule by rule

  /** Two rules that copy back and forth between two places are a cycle, and so is
      one that copies a place onto itself. */
  lemma MirroredRulesFormCycle(rules: seq<Rule>, normalize: string -> string, r: Rule, q: Rule)
    requires r in rules && q in rules
    requires r.destBucket == q.sourceBucket && normalize(r.destPrefix) == normalize(q.sourcePrefix)
    requires q.destBucket == r.sourceBucket && normalize(q.destPrefix) == normalize(r.sourcePrefix)
    ensures HasCycle(rules, normalize)
  {
    var a := (r.sourceBucket, normalize(r.sourcePrefix));
    var walk := [r, q];
    assert walk[..1] == [r] && [r][..0] == [];
    assert IsWalk(rules, normalize, a, [], a);
    assert IsWalk(rules, normalize, a, [r], (r.destBucket, normalize(r.destPrefix)));
    assert IsClosedWalk(rules, normalize, a, walk);
    assert OnCycle(rules, normalize, a);
  }

  /** On any cycle some rule copies into a place that a rule copies from. */
  lemma CyclesCopyBack(rules: seq<Rule>, normalize: string -> string)
    ensures HasCycle(rules, normalize) ==>
              exists r, q ::
                && r in rules && q in rules
                && r.destBucket == q.sourceBucket && normalize(r.destPrefix) == normalize(q.sourcePrefix)
  {
    if HasCycle(rules, normalize) {
      var a :| OnCycle(rules, normalize, a);
      var walk: seq<Rule> :| IsClosedWalk(rules, normalize, a, walk);
      WalkStartsAtSource(rules, normalize, a, walk, a);
      var r, q := walk[|walk| - 1], walk[0];
      assert r in rules && q in rules;
    }
  }
}
