/** Where outputs go in the global space. */
module Placement {
  import opened Wrappers
  import opened OutputNames
  import opened OutputSections

  /** An output with its logical size, rounded to whole pixels. */
  datatype Output = Output(name: OutputName, width: nat, height: nat)

  datatype Mapped = Mapped(output: Output, loc: Point)

  function ConfiguredPosition(sections: Outputs, o: Output): Option<Point> {
    var found := Find(sections, o.name);
    if found.Some? then found.value.position else None
  }

  predicate Overlap(a: Mapped, b: Mapped) {
    && a.loc.x < b.loc.x + b.output.width
    && b.loc.x < a.loc.x + a.output.width
    && a.loc.y < b.loc.y + b.output.height
    && b.loc.y < a.loc.y + a.output.height
  }

  /** Two outputs overlap if they share a pixel of the global space. */
  ghost predicate SharePixel(a: Mapped, b: Mapped) {
    exists p: Point :: Shows(a, p) && Shows(b, p)
  }

  predicate Shows(m: Mapped, p: Point) {
    m.loc.x <= p.x < m.loc.x + m.output.width && m.loc.y <= p.y < m.loc.y + m.output.height
  }

  lemma OverlapMeans(a: Mapped, b: Mapped)
    requires a.output.width > 0 && a.output.height > 0 && b.output.width > 0 && b.output.height > 0
    ensures Overlap(a, b) <==> SharePixel(a, b)
  {
    if Overlap(a, b) {
      var p := Point(if a.loc.x < b.loc.x then b.loc.x else a.loc.x, if a.loc.y < b.loc.y then b.loc.y else a.loc.y);
      assert Shows(a, p) && Shows(b, p);
    }
  }

  /** The position of an output is that of the first section that selects it, if that gives one. */
  lemma ConfiguredPositionMeans(sections: Outputs, o: Output, p: Point)
    ensures ConfiguredPosition(sections, o) == Some(p) <==>
            exists i :: 0 <= i < |sections| && Matches(o.name, sections[i].name) && sections[i].position == Some(p)
                        && forall j | 0 <= j < i :: !Matches(o.name, sections[j].name)
  {
    var found := FindName(Names(sections), o.name);
    if i :| 0 <= i < |sections| && Matches(o.name, sections[i].name) && forall j | 0 <= j < i :: !Matches(o.name, sections[j].name) {
      assert Matches(o.name, Names(sections)[i]);
      assert found == Some(i);
    }
    if found.Some? {
      assert Matches(o.name, sections[found.value].name);
      assert forall j | 0 <= j < found.value :: !Matches(o.name, Names(sections)[j]);
    }
  }

  // ---------- Order ----------

  predicate NotAfter(a: Output, b: Output) {
    Compare(a.name, b.name) != Greater
  }

  ghost predicate SortedByName(s: seq<Output>) {
    forall i, j | 0 <= i < j < |s| :: NotAfter(s[i], s[j])
  }

  function Insert(o: Output, s: seq<Output>): seq<Output> {
    if s == [] || NotAfter(o, s[0]) then [o] + s else [s[0]] + Insert(o, s[1..])
  }

  function SortByName(s: seq<Output>): seq<Output> {
    if s == [] then [] else Insert(s[0], SortByName(s[1..]))
  }

  function Select(s: seq<Output>, sections: Outputs, configured: bool): seq<Output> {
    if s == [] then []
    else (if ConfiguredPosition(sections, s[0]).Some? == configured then [s[0]] else []) + Select(s[1..], sections, configured)
  }

  /** Sorted by name, then stably by whether a position is configured. */
  function PlacementOrder(s: seq<Output>, sections: Outputs): seq<Output> {
    Select(SortByName(s), sections, true) + Select(SortByName(s), sections, false)
  }

  /** Names identify outputs; connectors, which are unique, are part of the name. */
  ghost predicate NamesIdentify(s: seq<Output>) {
    forall a, b | a in s && b in s && a.name == b.name :: a == b
  }

  lemma {:induction false} InsertCounts(o: Output, s: seq<Output>)
    ensures multiset(Insert(o, s)) == multiset{o} + multiset(s)
  {
    if s == [] || NotAfter(o, s[0]) {
    } else {
      InsertCounts(o, s[1..]);
      assert s == [s[0]] + s[1..];
    }
  }

  lemma HeadBeforeAll(s: seq<Output>, o: Output)
    requires SortedByName(s) && s != [] && NotAfter(o, s[0])
    ensures forall j | 0 <= j < |s| :: NotAfter(o, s[j])
  {
    forall j | 0 <= j < |s| ensures NotAfter(o, s[j]) {
      CompareIsTotalOrder(o.name, s[0].name, s[j].name);
      if j > 0 {
        assert NotAfter(s[0], s[j]);
      }
    }
  }

  lemma {:induction false} InsertSorts(o: Output, s: seq<Output>)
    requires SortedByName(s)
    ensures SortedByName(Insert(o, s))
  {
    if s == [] {
    } else if NotAfter(o, s[0]) {
      HeadBeforeAll(s, o);
    } else {
      var rest := Insert(o, s[1..]);
      InsertSorts(o, s[1..]);
      InsertCounts(o, s[1..]);
      CompareIsTotalOrder(o.name, s[0].name, o.name);
      forall j | 0 <= j < |rest| ensures NotAfter(s[0], rest[j]) {
        assert rest[j] in multiset(rest);
        if rest[j] != o {
          var i :| 0 <= i < |s[1..]| && s[1..][i] == rest[j];
          assert s[i + 1] == rest[j];
        }
      }
      PrependSorted(s[0], rest);
    }
  }

  lemma {:induction false} SortSorts(s: seq<Output>)
    ensures SortedByName(SortByName(s)) && multiset(SortByName(s)) == multiset(s)
  {
    if s == [] {
    } else {
      SortSorts(s[1..]);
      InsertSorts(s[0], SortByName(s[1..]));
      InsertCounts(s[0], SortByName(s[1..]));
      assert s == [s[0]] + s[1..];
    }
  }

  lemma SameTails(s: seq<Output>, t: seq<Output>)
    requires s != [] && t != [] && s[0] == t[0] && multiset(s) == multiset(t)
    ensures multiset(s[1..]) == multiset(t[1..])
    ensures s[1..] == t[1..] ==> s == t
  {
    assert s == [s[0]] + s[1..] && t == [t[0]] + t[1..];
    assert multiset(s[1..]) == multiset(s) - multiset{s[0]};
    assert multiset(t[1..]) == multiset(t) - multiset{t[0]};
  }

  /** Two sorted arrangements of the same outputs are the same arrangement, so an unstable sort has
      only one possible result. */
  lemma {:induction false} SortedArrangementIsUnique(s: seq<Output>, t: seq<Output>)
    requires SortedByName(s) && SortedByName(t) && multiset(s) == multiset(t) && NamesIdentify(s)
    ensures s == t
  {
    if s == [] {
      assert |multiset(t)| == 0;
    } else {
      assert s[0] in multiset(t);
      assert t != [] && t[0] in multiset(s);
      HeadIsFirst(s, t[0]);
      HeadIsFirst(t, s[0]);
      CompareIsTotalOrder(s[0].name, t[0].name, s[0].name);
      SameTails(s, t);
      SortedArrangementIsUnique(s[1..], t[1..]);
    }
  }

  lemma HeadIsFirst(s: seq<Output>, o: Output)
    requires SortedByName(s) && o in s
    ensures NotAfter(s[0], o)
  {
    CompareIsTotalOrder(o.name, o.name, o.name);
    var i :| 0 <= i < |s| && s[i] == o;
  }

  /** The order does not depend on how the outputs were enumerated. */
  lemma OrderIsCanonical(s: seq<Output>, t: seq<Output>)
    requires multiset(s) == multiset(t) && NamesIdentify(s)
    ensures SortByName(s) == SortByName(t)
  {
    SortSorts(s);
    SortSorts(t);
    forall a, b | a in SortByName(s) && b in SortByName(s) && a.name == b.name ensures a == b {
      assert a in multiset(s) && b in multiset(s);
    }
    SortedArrangementIsUnique(SortByName(s), SortByName(t));
  }

  lemma {:induction false} SelectMeans(s: seq<Output>, sections: Outputs, configured: bool, o: Output)
    requires o in Select(s, sections, configured)
    ensures o in s && ConfiguredPosition(sections, o).Some? == configured
  {
    if s == [] {
    } else if o in Select(s[1..], sections, configured) {
      SelectMeans(s[1..], sections, configured, o);
    }
  }

  lemma {:induction false} SelectIsSorted(s: seq<Output>, sections: Outputs, configured: bool)
    requires SortedByName(s)
    ensures SortedByName(Select(s, sections, configured))
  {
    if s == [] {
    } else {
      var rest := Select(s[1..], sections, configured);
      SelectIsSorted(s[1..], sections, configured);
      forall j | 0 <= j < |rest| ensures NotAfter(s[0], rest[j]) {
        SelectMeans(s[1..], sections, configured, rest[j]);
        var i :| 0 <= i < |s[1..]| && s[1..][i] == rest[j];
        assert s[i + 1] == rest[j];
      }
      PrependSorted(s[0], rest);
    }
  }

  lemma PrependSorted(o: Output, s: seq<Output>)
    requires SortedByName(s) && forall j | 0 <= j < |s| :: NotAfter(o, s[j])
    ensures SortedByName([o] + s)
  {
  }

  /** All outputs of a list are configured, or none is. */
  ghost predicate AllAre(s: seq<Output>, sections: Outputs, configured: bool) {
    forall k | 0 <= k < |s| :: ConfiguredPosition(sections, s[k]).Some? == configured
  }

  lemma SelectedAre(s: seq<Output>, sections: Outputs, configured: bool)
    ensures AllAre(Select(s, sections, configured), sections, configured)
  {
    var selected := Select(s, sections, configured);
    forall k | 0 <= k < |selected| ensures ConfiguredPosition(sections, selected[k]).Some? == configured {
      SelectMeans(s, sections, configured, selected[k]);
    }
  }

  ghost predicate InPlacementOrder(first: Output, second: Output, sections: Outputs) {
    if ConfiguredPosition(sections, first).Some? == ConfiguredPosition(sections, second).Some?
    then NotAfter(first, second)
    else ConfiguredPosition(sections, first).Some?
  }

  lemma ConcatenationOrder(yes: seq<Output>, no: seq<Output>, sections: Outputs, i: nat, j: nat)
    requires SortedByName(yes) && AllAre(yes, sections, true) && SortedByName(no) && AllAre(no, sections, false)
    requires i < j < |yes + no|
    ensures InPlacementOrder((yes + no)[i], (yes + no)[j], sections)
  {
    if j < |yes| {
      assert NotAfter(yes[i], yes[j]);
    } else if i >= |yes| {
      assert NotAfter(no[i - |yes|], no[j - |yes|]);
    }
  }

  /** Configured outputs are placed before the others, and each kind by name. */
  lemma ConfiguredComeFirst(s: seq<Output>, sections: Outputs, i: nat, j: nat)
    requires i < j < |PlacementOrder(s, sections)|
    ensures InPlacementOrder(PlacementOrder(s, sections)[i], PlacementOrder(s, sections)[j], sections)
  {
    var sorted := SortByName(s);
    SortSorts(s);
    SelectIsSorted(sorted, sections, true);
    SelectIsSorted(sorted, sections, false);
    SelectedAre(sorted, sections, true);
    SelectedAre(sorted, sections, false);
    ConcatenationOrder(Select(sorted, sections, true), Select(sorted, sections, false), sections, i, j);
  }

  // ---------- Positions ----------

  function OutputsOf(space: seq<Mapped>): seq<Output> {
    seq(|space|, i requires 0 <= i < |space| => space[i].output)
  }

  /** The right edge of everything mapped so far. */
  function RightEdge(space: seq<Mapped>): int {
    if space == [] then 0
    else
      var last := space[|space| - 1];
      var edge := last.loc.x + last.output.width;
      if |space| == 1 then edge
      else
        var before := RightEdge(space[..|space| - 1]);
        if before < edge then edge else before
  }

  predicate Fits(space: seq<Mapped>, m: Mapped) {
    forall i | 0 <= i < |space| :: !Overlap(space[i], m)
  }

  function PositionIn(space: seq<Mapped>, o: Output, configured: Option<Point>): Point {
    if configured.Some? && Fits(space, Mapped(o, configured.value)) then configured.value
    else Point(RightEdge(space), 0)
  }

  function PlaceAfter(space: seq<Mapped>, todo: seq<Output>, sections: Outputs): seq<Mapped>
    decreases |todo|
  {
    if todo == [] then space
    else PlaceAfter(space + [Mapped(todo[0], PositionIn(space, todo[0], ConfiguredPosition(sections, todo[0])))], todo[1..], sections)
  }

  /** The layout that the outputs end up in. */
  function Place(outputs: seq<Output>, sections: Outputs): seq<Mapped> {
    PlaceAfter([], PlacementOrder(outputs, sections), sections)
  }

  lemma {:induction false} RightEdgeBounds(space: seq<Mapped>)
    ensures forall i | 0 <= i < |space| :: space[i].loc.x + space[i].output.width <= RightEdge(space)
  {
    if |space| > 1 {
      RightEdgeBounds(space[..|space| - 1]);
      forall i | 0 <= i < |space| ensures space[i].loc.x + space[i].output.width <= RightEdge(space) {
        if i < |space| - 1 {
          assert space[..|space| - 1][i] == space[i];
        }
      }
    }
  }

  ghost predicate Disjoint(space: seq<Mapped>) {
    forall i, j | 0 <= i < j < |space| :: !Overlap(space[i], space[j])
  }

  lemma PositionFits(space: seq<Mapped>, o: Output, configured: Option<Point>)
    ensures Fits(space, Mapped(o, PositionIn(space, o, configured)))
  {
    RightEdgeBounds(space);
  }

  /** What each output in a layout owes to the ones placed before it. */
  ghost predicate WellPlaced(space: seq<Mapped>, sections: Outputs) {
    forall k | 0 <= k < |space| ::
      space[k].loc == PositionIn(space[..k], space[k].output, ConfiguredPosition(sections, space[k].output))
  }

  lemma PlacingOneKeepsWellPlaced(space: seq<Mapped>, o: Output, sections: Outputs)
    requires WellPlaced(space, sections) && Disjoint(space)
    ensures var next := space + [Mapped(o, PositionIn(space, o, ConfiguredPosition(sections, o)))];
      WellPlaced(next, sections) && Disjoint(next)
  {
    var configured := ConfiguredPosition(sections, o);
    var next := space + [Mapped(o, PositionIn(space, o, configured))];
    PositionFits(space, o, configured);
    forall k | 0 <= k < |next|
      ensures next[k].loc == PositionIn(next[..k], next[k].output, ConfiguredPosition(sections, next[k].output))
    {
      assert next[..k] == space[..k];
    }
  }

  lemma {:induction false} PlaceAfterIsWellPlaced(space: seq<Mapped>, todo: seq<Output>, sections: Outputs)
    requires WellPlaced(space, sections) && Disjoint(space)
    ensures var r := PlaceAfter(space, todo, sections);
      WellPlaced(r, sections) && Disjoint(r) && OutputsOf(r) == OutputsOf(space) + todo
    decreases |todo|
  {
    if todo == [] {
    } else {
      var o := todo[0];
      var next := space + [Mapped(o, PositionIn(space, o, ConfiguredPosition(sections, o)))];
      PlacingOneKeepsWellPlaced(space, o, sections);
      PlaceAfterIsWellPlaced(next, todo[1..], sections);
      assert OutputsOf(next) == OutputsOf(space) + [o];
      assert OutputsOf(next) + todo[1..] == OutputsOf(space) + todo;
    }
  }

  lemma PlaceIsWellPlaced(outputs: seq<Output>, sections: Outputs)
    ensures var r := Place(outputs, sections);
      WellPlaced(r, sections) && Disjoint(r) && OutputsOf(r) == PlacementOrder(outputs, sections)
  {
    PlaceAfterIsWellPlaced([], PlacementOrder(outputs, sections), sections);
  }

  /** No two outputs overlap, whatever is connected and configured. */
  lemma PlacementIsDisjoint(outputs: seq<Output>, sections: Outputs, i: nat, j: nat)
    requires i < j < |Place(outputs, sections)|
    ensures !Overlap(Place(outputs, sections)[i], Place(outputs, sections)[j])
  {
    PlaceIsWellPlaced(outputs, sections);
  }

  /** In pixels: no pixel of the global space belongs to two outputs that show any. */
  lemma PixelsBelongToOne(outputs: seq<Output>, sections: Outputs, i: nat, j: nat, p: Point)
    requires i < j < |Place(outputs, sections)|
    requires forall o | o in OutputsOf(Place(outputs, sections)) :: o.width > 0 && o.height > 0
    ensures !(Shows(Place(outputs, sections)[i], p) && Shows(Place(outputs, sections)[j], p))
  {
    var space := Place(outputs, sections);
    PlacementIsDisjoint(outputs, sections, i, j);
    assert OutputsOf(space)[i] in OutputsOf(space) && OutputsOf(space)[j] in OutputsOf(space);
    OverlapMeans(space[i], space[j]);
  }

  /** A configured position is used if and only if it overlaps nothing placed earlier. */
  lemma ConfiguredPositionUsedIff(outputs: seq<Output>, sections: Outputs, k: nat)
    requires k < |Place(outputs, sections)|
    requires ConfiguredPosition(sections, Place(outputs, sections)[k].output).Some?
    ensures var space := Place(outputs, sections);
      var p := ConfiguredPosition(sections, space[k].output).value;
      space[k].loc == p <==> forall i | 0 <= i < k :: !Overlap(space[i], Mapped(space[k].output, p))
  {
    PlaceIsWellPlaced(outputs, sections);
    var space := Place(outputs, sections);
    var p := ConfiguredPosition(sections, space[k].output).value;
    assert forall i | 0 <= i < k :: space[..k][i] == space[i];
    if space[k].loc == p {
      forall i | 0 <= i < k ensures !Overlap(space[i], Mapped(space[k].output, p)) {
        assert space[k] == Mapped(space[k].output, p);
      }
    }
  }

  lemma {:induction false} RightEdgeAttained(space: seq<Mapped>)
    ensures space == [] ==> RightEdge(space) == 0
    ensures space != [] ==> exists i :: 0 <= i < |space| && space[i].loc.x + space[i].output.width == RightEdge(space)
  {
    if |space| > 0 {
      var n := |space| - 1;
      var before, edge := space[..n], space[n].loc.x + space[n].output.width;
      if n == 0 || RightEdge(before) < edge {
        assert RightEdge(space) == edge;
      } else {
        RightEdgeAttained(before);
        var i :| 0 <= i < n && before[i].loc.x + before[i].output.width == RightEdge(before);
        assert space[i] == before[i];
      }
    }
  }

  /** An output without a usable configured position stands at the top, right of everything placed
      earlier and touching it. */
  lemma FallbackIsRightmost(outputs: seq<Output>, sections: Outputs, k: nat)
    requires k < |Place(outputs, sections)|
    requires var o := Place(outputs, sections)[k].output;
      var configured := ConfiguredPosition(sections, o);
      configured.None? || exists i :: 0 <= i < k && Overlap(Place(outputs, sections)[i], Mapped(o, configured.value))
    ensures var space := Place(outputs, sections);
      && space[k].loc.y == 0
      && (k == 0 ==> space[k].loc.x == 0)
      && (k > 0 ==> exists i :: 0 <= i < k && space[i].loc.x + space[i].output.width == space[k].loc.x)
      && forall i :: 0 <= i < k ==> space[i].loc.x + space[i].output.width <= space[k].loc.x
  {
    PlaceIsWellPlaced(outputs, sections);
    var space := Place(outputs, sections);
    var earlier := space[..k];
    var configured := ConfiguredPosition(sections, space[k].output);
    if configured.Some? {
      var i :| 0 <= i < k && Overlap(space[i], Mapped(space[k].output, configured.value));
      assert earlier[i] == space[i];
    }
    assert space[k].loc == Point(RightEdge(earlier), 0);
    RightEdgeBounds(earlier);
    RightEdgeAttained(earlier);
    if k > 0 {
      var i :| 0 <= i < k && earlier[i].loc.x + earlier[i].output.width == RightEdge(earlier);
      assert space[i] == earlier[i];
    }
    forall i | 0 <= i < k ensures space[i].loc.x + space[i].output.width <= space[k].loc.x {
      assert space[i] == earlier[i];
    }
  }

  function TotalWidth(s: seq<Output>): nat {
    if s == [] then 0 else TotalWidth(s[..|s| - 1]) + s[|s| - 1].width
  }

  lemma {:induction false} TiledRightEdge(space: seq<Mapped>)
    requires forall k | 0 <= k < |space| :: space[k].loc == Point(RightEdge(space[..k]), 0)
    ensures RightEdge(space) == TotalWidth(OutputsOf(space))
  {
    if space == [] {
    } else {
      var n := |space| - 1;
      var before := space[..n];
      forall k | 0 <= k < |before| ensures before[k].loc == Point(RightEdge(before[..k]), 0) {
        assert before[..k] == space[..k] && before[k] == space[k];
      }
      TiledRightEdge(before);
      assert OutputsOf(space)[..n] == OutputsOf(before);
      assert space[n].loc == Point(RightEdge(before), 0);
    }
  }

  lemma TilesFromEdges(space: seq<Mapped>, k: nat)
    requires k < |space| && forall i | 0 <= i < |space| :: space[i].loc == Point(RightEdge(space[..i]), 0)
    ensures space[k].loc == Point(TotalWidth(OutputsOf(space)[..k]), 0)
  {
    var before := space[..k];
    forall i | 0 <= i < |before| ensures before[i].loc == Point(RightEdge(before[..i]), 0) {
      assert before[..i] == space[..i] && before[i] == space[i];
    }
    TiledRightEdge(before);
    assert OutputsOf(before) == OutputsOf(space)[..k];
  }

  /** With nothing configured, outputs stand side by side from x = 0 on, without gaps, by name. */
  lemma UnconfiguredOutputsTile(outputs: seq<Output>, sections: Outputs, k: nat)
    requires forall o | o in PlacementOrder(outputs, sections) :: ConfiguredPosition(sections, o).None?
    requires k < |Place(outputs, sections)|
    ensures k < |PlacementOrder(outputs, sections)|
    ensures Place(outputs, sections)[k].loc == Point(TotalWidth(PlacementOrder(outputs, sections)[..k]), 0)
  {
    PlaceIsWellPlaced(outputs, sections);
    var space := Place(outputs, sections);
    forall i | 0 <= i < |space| ensures space[i].loc == Point(RightEdge(space[..i]), 0) {
      assert space[i].output == OutputsOf(space)[i];
    }
    TilesFromEdges(space, k);
  }

  /** Positions depend on the outputs and the configuration only, not on the order of enumeration. */
  lemma PlacementIsCanonical(s: seq<Output>, t: seq<Output>, sections: Outputs)
    requires multiset(s) == multiset(t) && NamesIdentify(s)
    ensures Place(s, sections) == Place(t, sections)
  {
    OrderIsCanonical(s, t);
  }

  lemma {:induction false} SelectSplits(s: seq<Output>, sections: Outputs)
    ensures multiset(Select(s, sections, true)) + multiset(Select(s, sections, false)) == multiset(s)
  {
    if s == [] {
    } else {
      SelectSplits(s[1..], sections);
      assert s == [s[0]] + s[1..];
    }
  }

  lemma PlaceKeepsOutputs(s: seq<Output>, sections: Outputs)
    ensures multiset(OutputsOf(Place(s, sections))) == multiset(s)
  {
    PlaceIsWellPlaced(s, sections);
    SortSorts(s);
    SelectSplits(SortByName(s), sections);
  }

  /** Placing what is already placed changes nothing. */
  lemma PlaceIsIdempotent(s: seq<Output>, sections: Outputs)
    requires NamesIdentify(s)
    ensures Place(OutputsOf(Place(s, sections)), sections) == Place(s, sections)
  {
    PlaceKeepsOutputs(s, sections);
    PlacementIsCanonical(s, OutputsOf(Place(s, sections)), sections);
  }

  // ---------- Outputs coming and going ----------

  function Unmap(space: seq<Mapped>, o: Output): seq<Mapped> {
    if space == [] then [] else (if space[0].output == o then [] else [space[0]]) + Unmap(space[1..], o)
  }

  function Without(s: seq<Output>, o: Output): seq<Output> {
    if s == [] then [] else (if s[0] == o then [] else [s[0]]) + Without(s[1..], o)
  }

  lemma {:induction false} UnmapForgets(space: seq<Mapped>, o: Output)
    ensures OutputsOf(Unmap(space, o)) == Without(OutputsOf(space), o)
  {
    if space == [] {
    } else {
      UnmapForgets(space[1..], o);
      assert OutputsOf(space)[1..] == OutputsOf(space[1..]);
    }
  }

  lemma {:induction false} WithoutCounts(s: seq<Output>, o: Output, p: Output)
    ensures multiset(Without(s, o))[p] == if p == o then 0 else multiset(s)[p]
  {
    if s == [] {
    } else {
      WithoutCounts(s[1..], o, p);
      assert s == [s[0]] + s[1..];
    }
  }

  lemma UnmapRemoves(space: seq<Mapped>, o: Output)
    ensures multiset(OutputsOf(Unmap(space, o))) == multiset(OutputsOf(space))[o := 0]
  {
    forall p ensures multiset(OutputsOf(Unmap(space, o)))[p] == multiset(OutputsOf(space))[o := 0][p] {
      UnmapForgets(space, o);
      WithoutCounts(OutputsOf(space), o, p);
    }
  }

  /** Connecting an output and disconnecting it again puts every other output back where it was. */
  lemma AddThenRemoveRestores(outputs: seq<Output>, sections: Outputs, o: Output)
    requires NamesIdentify(outputs) && forall a | a in outputs :: a.name != o.name
    ensures var space := Place(outputs, sections);
      var added := Place(OutputsOf(space) + [o], sections);
      Place(OutputsOf(Unmap(added, o)), sections) == space
  {
    var space := Place(outputs, sections);
    PlaceKeepsOutputs(outputs, sections);
    var added := Place(OutputsOf(space) + [o], sections);
    PlaceKeepsOutputs(OutputsOf(space) + [o], sections);
    UnmapRemoves(added, o);
    assert o !in multiset(outputs);
    assert multiset(OutputsOf(Unmap(added, o))) == multiset(outputs);
    PlacementIsCanonical(outputs, OutputsOf(Unmap(added, o)), sections);
  }

  /** The global space, whose outputs are moved in place. */
  class GlobalSpace {
    var space: seq<Mapped>
    var sections: Outputs

    constructor (sections: Outputs)
      ensures space == [] && this.sections == sections
    {
      space, this.sections := [], sections;
    }

    /** Repositions all outputs, optionally adding one, and returns those that moved. */
    method RepositionOutputs(newOutput: Option<Output>) returns (moved: seq<Output>)
      modifies this`space
      ensures space == Place(OutputsOf(old(space)) + (if newOutput.Some? then [newOutput.value] else []), sections)
      ensures forall o :: o in moved <==>
        exists m :: m in space && m.output == o && FindPosition(old(space), o) != Some(m.loc)
    {
      var before := space;
      var outputs := OutputsOf(space) + if newOutput.Some? then [newOutput.value] else [];
      var todo := PlacementOrder(outputs, sections);
      space := [];
      moved := [];
      var k := 0;
      while k < |todo|
        invariant k <= |todo|
        invariant PlaceAfter(space, todo[k..], sections) == Place(outputs, sections)
        invariant forall o :: o in moved <==>
          exists m :: m in space && m.output == o && FindPosition(before, o) != Some(m.loc)
      {
        var o := todo[k];
        var configured := ConfiguredPosition(sections, o);
        var position := ChoosePosition(o, configured);
        ghost var placed := space;
        space := space + [Mapped(o, position)];
        assert todo[k..][1..] == todo[k + 1..];
        if FindPosition(before, o) != Some(position) {
          moved := moved + [o];
        }
        forall p: Output
          ensures p in moved <==> exists m :: m in space && m.output == p && FindPosition(before, p) != Some(m.loc)
        {
          assert forall m :: m in space <==> m in placed || m == Mapped(o, position);
        }
        k := k + 1;
      }
    }

    /** The configured position if it is free, otherwise to the right of everything. */
    method ChoosePosition(o: Output, configured: Option<Point>) returns (p: Point)
      ensures p == PositionIn(space, o, configured)
    {
      if configured.Some? {
        var free, i := true, 0;
        while i < |space| && free
          invariant i <= |space|
          invariant free <==> forall j | 0 <= j < i :: !Overlap(space[j], Mapped(o, configured.value))
        {
          free := !Overlap(space[i], Mapped(o, configured.value));
          i := i + 1;
        }
        if free {
          return configured.value;
        }
      }
      var x, i := 0, 0;
      while i < |space|
        invariant i <= |space|
        invariant x == RightEdge(space[..i])
      {
        var edge := space[i].loc.x + space[i].output.width;
        assert space[..i + 1][..i] == space[..i];
        if i == 0 || x < edge {
          x := edge;
        }
        i := i + 1;
      }
      assert space[..|space|] == space;
      return Point(x, 0);
    }

    method RemoveOutput(o: Output) returns (moved: seq<Output>)
      modifies this`space
      ensures space == Place(OutputsOf(Unmap(old(space), o)), sections)
      ensures forall p :: p in moved <==>
        exists m :: m in space && m.output == p && FindPosition(Unmap(old(space), o), p) != Some(m.loc)
    {
      space := Unmap(space, o);
      assert OutputsOf(space) + [] == OutputsOf(space);
      moved := RepositionOutputs(None);
    }
  }

  /** `output_geometry`: the position of an output, if it is mapped. */
  function FindPosition(space: seq<Mapped>, o: Output): Option<Point> {
    if space == [] then None
    else if space[0].output == o then Some(space[0].loc)
    else FindPosition(space[1..], o)
  }

  lemma {:induction false} FindsItsOwnPosition(space: seq<Mapped>, m: Mapped)
    requires m in space && forall i, j | 0 <= i < j < |space| :: space[i].output != space[j].output
    ensures FindPosition(space, m.output) == Some(m.loc)
  {
    if space[0] != m {
      var i :| 0 <= i < |space| && space[i] == m;
      assert space[1..][i - 1] == m;
      FindsItsOwnPosition(space[1..], m);
    }
  }

  /** Repositioning a second time moves no output. */
  lemma SecondRepositionMovesNothing(outputs: seq<Output>, sections: Outputs, m: Mapped)
    requires NamesIdentify(outputs) && forall i, j | 0 <= i < j < |outputs| :: outputs[i] != outputs[j]
    requires m in Place(OutputsOf(Place(outputs, sections)), sections)
    ensures FindPosition(Place(outputs, sections), m.output) == Some(m.loc)
  {
    var space := Place(outputs, sections);
    PlaceIsIdempotent(outputs, sections);
    PlaceKeepsOutputs(outputs, sections);
    DistinctMeansNoRepeats(outputs);
    forall i, j | 0 <= i < j < |space| ensures space[i].output != space[j].output {
      if space[i].output == space[j].output {
        RepeatsShow(OutputsOf(space), i, j);
      }
    }
    FindsItsOwnPosition(space, m);
  }

  lemma {:induction false} DistinctMeansNoRepeats(s: seq<Output>)
    requires forall i, j | 0 <= i < j < |s| :: s[i] != s[j]
    ensures forall o :: multiset(s)[o] <= 1
  {
    if s == [] {
    } else {
      DistinctMeansNoRepeats(s[1..]);
      assert s == [s[0]] + s[1..];
      assert s[0] !in s[1..];
    }
  }

  lemma RepeatsShow(s: seq<Output>, i: nat, j: nat)
    requires i < j < |s| && s[i] == s[j]
    ensures multiset(s)[s[i]] >= 2
  {
    assert s == s[..j] + [s[j]] + s[j + 1..];
    assert s[i] in s[..j];
  }
}
