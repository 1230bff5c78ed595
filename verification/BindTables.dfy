/** Keybind tables: reading one from a configuration, and overriding one with another. */
module BindTables {
  import opened Wrappers
  import opened Keys
  import opened KeyPresses

  datatype Action = NextWindow(sameApp: bool) | PreviousWindow(sameApp: bool) | OtherAction(id: nat)

  datatype Bind = Bind(key: Key, action: Action)

  ghost predicate ConflictFree(binds: seq<Bind>) {
    forall i, j :: 0 <= i < j < |binds| ==> !binds[i].key.ConflictsWith(binds[j].key)
  }

  predicate Clashes(binds: seq<Bind>, key: Key) {
    exists i :: 0 <= i < |binds| && binds[i].key.ConflictsWith(key)
  }

  // Reading a table.

  /** What reading reports: nodes that are no bind, and later nodes that repeat or overlap an earlier
      one. Nodes are named by their position. */
  datatype Diagnostic = Invalid(node: nat) | Duplicate(node: nat, first: nat) | Conflicting(node: nat, first: nat)

  /** The nodes that are kept among the first `n`: each bind that conflicts with none kept before. */
  ghost function Kept(nodes: seq<Option<Bind>>, n: nat): (kept: seq<nat>)
    requires n <= |nodes|
    ensures forall k :: 0 <= k < |kept| ==> kept[k] < n && nodes[kept[k]].Some?
  {
    if n == 0 then []
    else
      var before := Kept(nodes, n - 1);
      if nodes[n - 1].Some? && !Clashes(Table(nodes, before), nodes[n - 1].value.key) then
        before + [n - 1]
      else
        before
  }

  ghost function Table(nodes: seq<Option<Bind>>, kept: seq<nat>): (binds: seq<Bind>)
    requires forall k :: 0 <= k < |kept| ==> kept[k] < |nodes| && nodes[kept[k]].Some?
    ensures |binds| == |kept|
    ensures forall k :: 0 <= k < |kept| ==> binds[k] == nodes[kept[k]].value
  {
    seq(|kept|, k requires 0 <= k < |kept| => nodes[kept[k]].value)
  }

  ghost function Reported(nodes: seq<Option<Bind>>, n: nat): seq<Diagnostic>
    requires n <= |nodes|
  {
    if n == 0 then []
    else
      var before, kept := Reported(nodes, n - 1), Kept(nodes, n - 1);
      match nodes[n - 1]
      case None => before + [Invalid(n - 1)]
      case Some(bind) =>
        var table := Table(nodes, kept);
        if Clashes(table, bind.key) then
          var first := FirstClash(table, bind.key);
          before + [if table[first].key == bind.key then Duplicate(n - 1, kept[first]) else Conflicting(n - 1, kept[first])]
        else
          before
  }

  function FirstClash(binds: seq<Bind>, key: Key): (first: nat)
    requires Clashes(binds, key)
    ensures first < |binds| && binds[first].key.ConflictsWith(key)
    ensures forall i :: 0 <= i < first ==> !binds[i].key.ConflictsWith(key)
  {
    if binds[0].key.ConflictsWith(key) then 0
    else
      var i :| 0 <= i < |binds| && binds[i].key.ConflictsWith(key);
      assert binds[1..][i - 1] == binds[i];
      FirstClash(binds[1..], key) + 1
  }

  method Position(binds: seq<Bind>, key: Key) returns (index: Option<nat>)
    ensures index == if Clashes(binds, key) then Some(FirstClash(binds, key)) else None
  {
    for i := 0 to |binds|
      invariant forall j :: 0 <= j < i ==> !binds[j].key.ConflictsWith(key)
    {
      if binds[i].key.ConflictsWith(key) {
        return Some(i);
      }
    }
    return None;
  }

  lemma {:induction false} KeptConflictFree(nodes: seq<Option<Bind>>, n: nat)
    requires n <= |nodes|
    ensures ConflictFree(Table(nodes, Kept(nodes, n)))
  {
    if n == 0 {
    } else {
      KeptConflictFree(nodes, n - 1);
      var before := Table(nodes, Kept(nodes, n - 1));
      if nodes[n - 1].Some? && !Clashes(before, nodes[n - 1].value.key) {
        assert Table(nodes, Kept(nodes, n)) == before + [nodes[n - 1].value];
      }
    }
  }

  lemma NextInvalid(nodes: seq<Option<Bind>>, n: nat)
    requires n < |nodes| && nodes[n] == None
    ensures Kept(nodes, n + 1) == Kept(nodes, n)
    ensures Reported(nodes, n + 1) == Reported(nodes, n) + [Invalid(n)]
  {
  }

  lemma NextClashing(nodes: seq<Option<Bind>>, n: nat, first: nat)
    requires n < |nodes| && nodes[n].Some?
    requires Clashes(Table(nodes, Kept(nodes, n)), nodes[n].value.key)
    requires first == FirstClash(Table(nodes, Kept(nodes, n)), nodes[n].value.key)
    ensures Kept(nodes, n + 1) == Kept(nodes, n)
    ensures Reported(nodes, n + 1) ==
            Reported(nodes, n) +
            [if Table(nodes, Kept(nodes, n))[first].key == nodes[n].value.key then Duplicate(n, Kept(nodes, n)[first])
             else Conflicting(n, Kept(nodes, n)[first])]
  {
  }

  lemma NextKept(nodes: seq<Option<Bind>>, n: nat)
    requires n < |nodes| && nodes[n].Some? && !Clashes(Table(nodes, Kept(nodes, n)), nodes[n].value.key)
    ensures Kept(nodes, n + 1) == Kept(nodes, n) + [n]
    ensures Table(nodes, Kept(nodes, n + 1)) == Table(nodes, Kept(nodes, n)) + [nodes[n].value]
    ensures Reported(nodes, n + 1) == Reported(nodes, n)
  {
  }

  /** Reading a `binds` section. */
  method Decode(nodes: seq<Option<Bind>>) returns (binds: seq<Bind>, errors: seq<Diagnostic>)
    ensures binds == Table(nodes, Kept(nodes, |nodes|))
    ensures errors == Reported(nodes, |nodes|)
    ensures ConflictFree(binds)
  {
    var kept: seq<nat> := [];
    binds, errors := [], [];
    for n := 0 to |nodes|
      invariant kept == Kept(nodes, n)
      invariant binds == Table(nodes, Kept(nodes, n))
      invariant errors == Reported(nodes, n)
    {
      match nodes[n] {
        case None =>
          NextInvalid(nodes, n);
          errors := errors + [Invalid(n)];
        case Some(bind) =>
          var conflict := Position(binds, bind.key);
          match conflict {
            case Some(first) =>
              NextClashing(nodes, n, first);
              errors := errors + [if binds[first].key == bind.key then Duplicate(n, kept[first]) else Conflicting(n, kept[first])];
            case None =>
              NextKept(nodes, n);
              kept := kept + [n];
              binds := binds + [bind];
          }
      }
    }
    KeptConflictFree(nodes, |nodes|);
  }

  lemma {:induction false} KeptInOrder(nodes: seq<Option<Bind>>, n: nat)
    requires n <= |nodes|
    ensures forall i, j :: 0 <= i < j < |Kept(nodes, n)| ==> Kept(nodes, n)[i] < Kept(nodes, n)[j]
  {
    if n == 0 {
    } else {
      KeptInOrder(nodes, n - 1);
    }
  }

  /** Later nodes do not change what is kept before them. */
  lemma {:induction false} KeptBefore(nodes: seq<Option<Bind>>, m: nat, n: nat, j: nat)
    requires j < m <= n <= |nodes|
    ensures j in Kept(nodes, n) <==> j in Kept(nodes, m)
    decreases n
  {
    if m == n {
    } else {
      KeptBefore(nodes, m, n - 1, j);
    }
  }

  /** No kept node among the first `n` conflicts with the key. */
  ghost predicate Free(nodes: seq<Option<Bind>>, n: nat, key: Key)
    requires n <= |nodes|
  {
    forall j | j in Kept(nodes, n) :: !nodes[j].value.key.ConflictsWith(key)
  }

  lemma FreeMeansNoClash(nodes: seq<Option<Bind>>, n: nat, key: Key)
    requires n <= |nodes|
    ensures Free(nodes, n, key) <==> !Clashes(Table(nodes, Kept(nodes, n)), key)
  {
    var kept := Kept(nodes, n);
    if Clashes(Table(nodes, kept), key) {
      var k :| 0 <= k < |kept| && nodes[kept[k]].value.key.ConflictsWith(key);
      assert kept[k] in kept;
    } else {
      forall j | j in kept ensures !nodes[j].value.key.ConflictsWith(key) {
        var k :| 0 <= k < |kept| && kept[k] == j;
        assert Table(nodes, kept)[k] == nodes[j].value;
      }
    }
  }

  lemma LastKept(nodes: seq<Option<Bind>>, i: nat)
    requires i < |nodes|
    ensures i in Kept(nodes, i + 1) <==> nodes[i].Some? && Free(nodes, i, nodes[i].value.key)
  {
    if nodes[i].Some? {
      FreeMeansNoClash(nodes, i, nodes[i].value.key);
    }
  }

  /** No earlier node that stays conflicts with the key of node `i`. */
  ghost predicate FreeAmong(nodes: seq<Option<Bind>>, n: nat, i: nat)
    requires i < n <= |nodes| && nodes[i].Some?
  {
    forall j | 0 <= j < i && j in Kept(nodes, n) :: !nodes[j].value.key.ConflictsWith(nodes[i].value.key)
  }

  lemma FreeMeansAmong(nodes: seq<Option<Bind>>, n: nat, i: nat)
    requires i < n <= |nodes| && nodes[i].Some?
    ensures Free(nodes, i, nodes[i].value.key) <==> FreeAmong(nodes, n, i)
  {
    if Free(nodes, i, nodes[i].value.key) {
      forall j | 0 <= j < i && j in Kept(nodes, n) ensures !nodes[j].value.key.ConflictsWith(nodes[i].value.key) {
        KeptBefore(nodes, i, n, j);
      }
    } else {
      var j :| j in Kept(nodes, i) && nodes[j].value.key.ConflictsWith(nodes[i].value.key);
      KeptBefore(nodes, i, n, j);
    }
  }

  /** The kept nodes in order, and which they are: a node stays if and only if it is a bind that
      conflicts with no earlier node that stays. A node dropped for a conflict does not count. */
  lemma {:induction false} KeptMeans(nodes: seq<Option<Bind>>, n: nat, i: nat)
    requires i < n <= |nodes|
    ensures i in Kept(nodes, n) <==>
            nodes[i].Some? &&
            forall j | 0 <= j < i && j in Kept(nodes, n) :: !nodes[j].value.key.ConflictsWith(nodes[i].value.key)
  {
    KeptBefore(nodes, i + 1, n, i);
    LastKept(nodes, i);
    if nodes[i].Some? {
      FreeMeansAmong(nodes, n, i);
    }
  }

  ghost predicate Explains(nodes: seq<Option<Bind>>, n: nat, report: Diagnostic)
    requires n <= |nodes|
  {
    && report.node < n
    && match report
       case Invalid(node) => nodes[node] == None
       case Duplicate(node, first) =>
         && IsFirstClash(nodes, n, node, first)
         && nodes[first].value.key == nodes[node].value.key
       case Conflicting(node, first) =>
         && IsFirstClash(nodes, n, node, first)
         && nodes[first].value.key != nodes[node].value.key
  }

  /** `first` is the earliest kept node that conflicts with `node`, and comes before it. */
  ghost predicate IsFirstClash(nodes: seq<Option<Bind>>, n: nat, node: nat, first: nat)
    requires n <= |nodes|
  {
    && first < node < n && nodes[node].Some? && nodes[first].Some? && first in Kept(nodes, n)
    && nodes[first].value.key.ConflictsWith(nodes[node].value.key)
    && forall j | 0 <= j < first && j in Kept(nodes, n) :: !nodes[j].value.key.ConflictsWith(nodes[node].value.key)
  }

  lemma ExplainsLater(nodes: seq<Option<Bind>>, n: nat, report: Diagnostic)
    requires 0 < n <= |nodes| && Explains(nodes, n - 1, report)
    ensures Explains(nodes, n, report)
  {
    assert forall j | 0 <= j < n - 1 :: j in Kept(nodes, n) <==> j in Kept(nodes, n - 1);
  }

  lemma ClashIsExplained(nodes: seq<Option<Bind>>, n: nat)
    requires 0 < n <= |nodes| && nodes[n - 1].Some?
    requires Clashes(Table(nodes, Kept(nodes, n - 1)), nodes[n - 1].value.key)
    ensures var before := Kept(nodes, n - 1);
      IsFirstClash(nodes, n, n - 1, before[FirstClash(Table(nodes, before), nodes[n - 1].value.key)])
  {
    var before, key := Kept(nodes, n - 1), nodes[n - 1].value.key;
    var first := FirstClash(Table(nodes, before), key);
    KeptInOrder(nodes, n - 1);
    assert Kept(nodes, n) == before;
    forall j | 0 <= j < before[first] && j in before
      ensures !nodes[j].value.key.ConflictsWith(key)
    {
      var k :| 0 <= k < |before| && before[k] == j;
      assert k < first;
    }
  }

  lemma NewReportExplains(nodes: seq<Option<Bind>>, n: nat, report: Diagnostic)
    requires 0 < n <= |nodes| && report in Reported(nodes, n) && report !in Reported(nodes, n - 1)
    ensures Explains(nodes, n, report)
  {
    if nodes[n - 1].Some? {
      ClashIsExplained(nodes, n);
    }
  }

  /** Every report is right: a repeat or an overlap is traced to the earliest kept bind it conflicts
      with. */
  lemma {:induction false} ReportsExplain(nodes: seq<Option<Bind>>, n: nat, report: Diagnostic)
    requires n <= |nodes| && report in Reported(nodes, n)
    ensures Explains(nodes, n, report)
  {
    if report in Reported(nodes, n - 1) {
      ReportsExplain(nodes, n - 1, report);
      ExplainsLater(nodes, n, report);
    } else {
      NewReportExplains(nodes, n, report);
    }
  }

  /** And no node goes missing: each is either kept or reported. */
  lemma {:induction false} NodesAccountedFor(nodes: seq<Option<Bind>>, n: nat)
    requires n <= |nodes|
    ensures |Kept(nodes, n)| + |Reported(nodes, n)| == n
  {
    if n == 0 {
    } else {
      NodesAccountedFor(nodes, n - 1);
    }
  }

  // Overriding one table with another.

  /** The binds that no new bind conflicts with. */
  ghost function Retained(binds: seq<Bind>, added: seq<Bind>): seq<Bind> {
    if binds == [] then []
    else
      var last := binds[|binds| - 1];
      Retained(binds[..|binds| - 1], added) + if Clashes(added, last.key) then [] else [last]
  }

  lemma {:induction false} RetainedMeans(binds: seq<Bind>, added: seq<Bind>, bind: Bind)
    ensures bind in Retained(binds, added) <==> bind in binds && !Clashes(added, bind.key)
  {
    if binds == [] {
    } else {
      var init, last := binds[..|binds| - 1], binds[|binds| - 1];
      assert binds == init + [last];
      RetainedMeans(init, added, bind);
    }
  }

  /** A part may leave the binds out altogether. */
  ghost function Merged(binds: seq<Bind>, part: Option<seq<Bind>>): seq<Bind> {
    match part
    case None => binds
    case Some(added) => Retained(binds, added) + added
  }

  ghost function MergedAll(binds: seq<Bind>, parts: seq<Option<seq<Bind>>>): seq<Bind> {
    if parts == [] then binds
    else Merged(MergedAll(binds, parts[..|parts| - 1]), parts[|parts| - 1])
  }

  /** The binds of all the parts, one after another. */
  ghost function AllNew(parts: seq<Option<seq<Bind>>>): seq<Bind> {
    if parts == [] then []
    else AllNew(parts[..|parts| - 1]) + NewOf(parts[|parts| - 1])
  }

  ghost function NewOf(part: Option<seq<Bind>>): seq<Bind> {
    match part
    case None => []
    case Some(added) => added
  }

  ghost predicate PartsConflictFree(parts: seq<Option<seq<Bind>>>) {
    forall i :: 0 <= i < |parts| ==> ConflictFree(NewOf(parts[i]))
  }

  /** The binds of a layered table in order: those of the base and of each part that no later part
      conflicts with. */
  ghost function Layers(binds: seq<Bind>, parts: seq<Option<seq<Bind>>>): seq<Bind>
    decreases |parts|
  {
    if parts == [] then binds
    else Retained(binds, AllNew(parts)) + Layers(NewOf(parts[0]), parts[1..])
  }

  lemma {:induction false} RetainedSplits(one: seq<Bind>, other: seq<Bind>, added: seq<Bind>)
    ensures Retained(one + other, added) == Retained(one, added) + Retained(other, added)
  {
    if other == [] {
      assert one + other == one;
    } else {
      var init := other[..|other| - 1];
      RetainedSplits(one, init, added);
      assert (one + other)[..|one + other| - 1] == one + init;
    }
  }

  lemma ClashesEither(one: seq<Bind>, other: seq<Bind>, key: Key)
    ensures Clashes(one + other, key) <==> Clashes(one, key) || Clashes(other, key)
  {
    if i :| 0 <= i < |one| && one[i].key.ConflictsWith(key) {
      assert (one + other)[i] == one[i];
    }
    if i :| 0 <= i < |other| && other[i].key.ConflictsWith(key) {
      assert (one + other)[|one| + i] == other[i];
    }
  }

  lemma RetainedOne(bind: Bind, added: seq<Bind>)
    ensures Retained([bind], added) == if Clashes(added, bind.key) then [] else [bind]
  {
    assert [bind][..0] == [];
  }

  lemma {:induction false} RetainedTwice(binds: seq<Bind>, one: seq<Bind>, other: seq<Bind>)
    ensures Retained(Retained(binds, one), other) == Retained(binds, one + other)
  {
    if binds != [] {
      var init, last := binds[..|binds| - 1], binds[|binds| - 1];
      RetainedTwice(init, one, other);
      ClashesEither(one, other, last.key);
      if Clashes(one, last.key) {
        assert Retained(binds, one) == Retained(init, one);
      } else {
        RetainedSplits(Retained(init, one), [last], other);
        RetainedOne(last, other);
      }
    }
  }

  lemma {:induction false} RetainedFromNone(binds: seq<Bind>)
    ensures Retained(binds, []) == binds
  {
    if binds == [] {
    } else {
      RetainedFromNone(binds[..|binds| - 1]);
    }
  }

  lemma MergedIsRetained(binds: seq<Bind>, part: Option<seq<Bind>>)
    ensures Merged(binds, part) == Retained(binds, NewOf(part)) + NewOf(part)
  {
    RetainedFromNone(binds);
  }

  lemma {:induction false} AllNewSplits(parts: seq<Option<seq<Bind>>>)
    requires parts != []
    ensures AllNew(parts) == NewOf(parts[0]) + AllNew(parts[1..])
  {
    var init := parts[..|parts| - 1];
    if init == [] {
      assert parts[1..] == [];
      assert AllNew(init) == [];
    } else {
      AllNewSplits(init);
      assert parts[1..][..|parts| - 2] == init[1..];
    }
  }

  lemma AllNewEnd(parts: seq<Option<seq<Bind>>>, last: Option<seq<Bind>>)
    ensures AllNew(parts + [last]) == AllNew(parts) + NewOf(last)
  {
    assert (parts + [last])[..|parts|] == parts;
  }

  lemma RetainedTwiceThen(binds: seq<Bind>, one: seq<Bind>, rest: seq<Bind>, other: seq<Bind>)
    ensures Retained(Retained(binds, one) + rest, other) == Retained(binds, one + other) + Retained(rest, other)
  {
    RetainedSplits(Retained(binds, one), rest, other);
    RetainedTwice(binds, one, other);
  }

  lemma LayersUnfold(binds: seq<Bind>, parts: seq<Option<seq<Bind>>>)
    requires parts != []
    ensures Layers(binds, parts) == Retained(binds, AllNew(parts)) + Layers(NewOf(parts[0]), parts[1..])
  {
  }

  lemma LayersOfOne(binds: seq<Bind>, only: Option<seq<Bind>>)
    ensures Layers(binds, [only]) == Retained(binds, NewOf(only)) + NewOf(only)
  {
    AllNewEnd([], only);
    assert [] + [only] == [only];
    LayersUnfold(binds, [only]);
    assert [only][1..] == [];
    assert AllNew([only]) == [] + NewOf(only) == NewOf(only);
  }

  lemma Associate(one: seq<Bind>, middle: seq<Bind>, other: seq<Bind>)
    ensures one + (middle + other) == (one + middle) + other
  {
  }

  /** Adding a part below what is already known about the parts above it. */
  lemma LayersAbove(binds: seq<Bind>, one: seq<Bind>, rest: seq<Bind>, added: seq<Bind>, above: seq<Bind>)
    requires above == Retained(rest, added) + added
    ensures Retained(binds, one + added) + above == Retained(Retained(binds, one) + rest, added) + added
  {
    RetainedTwiceThen(binds, one, rest, added);
    Associate(Retained(binds, one + added), Retained(rest, added), added);
  }

  lemma {:induction false} LayersEnd(binds: seq<Bind>, parts: seq<Option<seq<Bind>>>, last: Option<seq<Bind>>)
    ensures Layers(binds, parts + [last]) == Retained(Layers(binds, parts), NewOf(last)) + NewOf(last)
    decreases |parts|
  {
    var all := parts + [last];
    if parts == [] {
      assert all == [last];
      LayersOfOne(binds, last);
    } else {
      var first, rest := NewOf(parts[0]), parts[1..];
      assert all[0] == parts[0] && all[1..] == rest + [last];
      LayersEnd(first, rest, last);
      LayersUnfold(binds, all);
      LayersUnfold(binds, parts);
      AllNewEnd(parts, last);
      LayersAbove(binds, AllNew(parts), Layers(first, rest), NewOf(last), Layers(first, rest + [last]));
    }
  }

  lemma LayersMerge(binds: seq<Bind>, parts: seq<Option<seq<Bind>>>, last: Option<seq<Bind>>)
    ensures Merged(Layers(binds, parts), last) == Layers(binds, parts + [last])
  {
    MergedIsRetained(Layers(binds, parts), last);
    LayersEnd(binds, parts, last);
  }

  lemma MergedAllEnd(binds: seq<Bind>, parts: seq<Option<seq<Bind>>>, last: Option<seq<Bind>>)
    ensures MergedAll(binds, parts + [last]) == Merged(MergedAll(binds, parts), last)
  {
    assert (parts + [last])[..|parts|] == parts;
  }

  /** Merging part after part comes to one pass: a bind stays, in its place, if and only if no later
      part has a bind that conflicts with it, whether or not that bind itself stays. */
  lemma {:induction false} MergeIsLayered(binds: seq<Bind>, parts: seq<Option<seq<Bind>>>)
    ensures MergedAll(binds, parts) == Layers(binds, parts)
    decreases |parts|
  {
    if parts == [] {
    } else {
      var init, last := parts[..|parts| - 1], parts[|parts| - 1];
      assert parts == init + [last];
      MergeIsLayered(binds, init);
      MergedAllEnd(binds, init, last);
      LayersMerge(binds, init, last);
    }
  }

  /** Which binds that leaves: those of the base or of some part that nothing later conflicts with. */
  lemma {:induction false} LayersMean(binds: seq<Bind>, parts: seq<Option<seq<Bind>>>, bind: Bind)
    ensures bind in Layers(binds, parts) <==>
            || (bind in binds && !Clashes(AllNew(parts), bind.key))
            || exists i :: 0 <= i < |parts| && bind in NewOf(parts[i]) && !Clashes(AllNew(parts[i + 1..]), bind.key)
    decreases |parts|
  {
    if parts == [] {
      assert AllNew(parts) == [];
    } else {
      var first, rest := NewOf(parts[0]), parts[1..];
      RetainedMeans(binds, AllNew(parts), bind);
      LayersMean(first, rest, bind);
      forall i | 0 <= i < |rest| ensures rest[i] == parts[i + 1] && rest[i + 1..] == parts[i + 2..] {
      }
      if i :| 0 <= i < |parts| && bind in NewOf(parts[i]) && !Clashes(AllNew(parts[i + 1..]), bind.key) {
        if i > 0 {
          assert rest[i - 1] == parts[i];
        }
      }
    }
  }
}
