/** The recent-windows bind table over a whole configuration, and what its order means for lookups. */
module RecentWindowsConfig {
  import opened Wrappers
  import opened Keys
  import opened KeyPresses
  import opened BindTables

  // Conflict-freedom of every merged table.

  lemma {:induction false} RetainedConflictFree(binds: seq<Bind>, added: seq<Bind>)
    requires ConflictFree(binds)
    ensures ConflictFree(Retained(binds, added))
  {
    if binds == [] {
    } else {
      var init, last := binds[..|binds| - 1], binds[|binds| - 1];
      RetainedConflictFree(init, added);
      forall bind | bind in Retained(init, added)
        ensures !bind.key.ConflictsWith(last.key)
      {
        RetainedMeans(init, added, bind);
        var i :| 0 <= i < |init| && init[i] == bind;
        assert binds[i] == bind;
      }
    }
  }

  lemma MergedConflictFree(binds: seq<Bind>, part: Option<seq<Bind>>)
    requires ConflictFree(binds) && ConflictFree(NewOf(part))
    ensures ConflictFree(Merged(binds, part))
  {
    if part.Some? {
      var added, retained := part.value, Retained(binds, part.value);
      RetainedConflictFree(binds, added);
      forall i, j | 0 <= i < |retained| && 0 <= j < |added|
        ensures !retained[i].key.ConflictsWith(added[j].key)
      {
        RetainedMeans(binds, added, retained[i]);
        ConflictIsAlike(retained[i].key, added[j].key);
      }
    }
  }

  /** However many parts are merged onto a conflict-free table, the result is conflict-free, although
      conflict is not transitive. */
  lemma {:induction false} TablesStayConflictFree(binds: seq<Bind>, parts: seq<Option<seq<Bind>>>)
    requires ConflictFree(binds) && PartsConflictFree(parts)
    ensures ConflictFree(MergedAll(binds, parts))
  {
    if parts == [] {
    } else {
      var init := parts[..|parts| - 1];
      TablesStayConflictFree(binds, init);
      MergedConflictFree(MergedAll(binds, init), parts[|parts| - 1]);
    }
  }

  lemma MergedTwo(binds: seq<Bind>, one: Option<seq<Bind>>, other: Option<seq<Bind>>)
    ensures MergedAll(binds, [one, other]) == Merged(Merged(binds, one), other)
  {
    assert [one, other][..1] == [one] && [one][..0] == [];
    assert MergedAll(binds, [one]) == Merged(MergedAll(binds, []), one);
  }

  /** A bind replaced by a second is not brought back by a third that replaces the second. */
  lemma ReplacedTwice(first: Bind, second: Bind, third: Bind)
    requires second.key.ConflictsWith(first.key) && third.key.ConflictsWith(second.key)
    ensures MergedAll([first], [Some([second]), Some([third])]) == [third]
  {
    assert [second][0].key.ConflictsWith(first.key) && [third][0].key.ConflictsWith(second.key);
    RetainedOne(first, [second]);
    RetainedOne(second, [third]);
    MergedTwo([first], Some([second]), Some([third]));
  }

  /** `Alt_L`, then `Alt`, then `Alt_R`: the second takes away the first and the third takes away the
      second, and the first does not come back although nothing left conflicts with it. */
  lemma RemovedBindStaysRemoved(action: Action)
    ensures var left := Bind(Key(KeysymTrigger(ALT_L), {ALT}), action);
      var either := Bind(Key(ModifierTrigger(Alt), {ALT}), action);
      var right := Bind(Key(KeysymTrigger(ALT_R), {ALT}), action);
      && MergedAll([left], [Some([either]), Some([right])]) == [right]
      && ConflictFree([left, right])
  {
    ReplacedTwice(Bind(Key(KeysymTrigger(ALT_L), {ALT}), action), Bind(Key(ModifierTrigger(Alt), {ALT}), action),
                  Bind(Key(KeysymTrigger(ALT_R), {ALT}), action));
  }

  // Lookups.

  /** The first bind in the table that a press triggers. */
  function Lookup(binds: seq<Bind>, modKey: ModKey, press: Press): Option<Bind> {
    if binds == [] then None
    else if Matches(binds[0].key, modKey, press) then Some(binds[0])
    else Lookup(binds[1..], modKey, press)
  }

  ghost predicate ParsedTable(binds: seq<Bind>) {
    forall bind | bind in binds :: bind.key.Parsed()
  }

  /** No two binds overlap once `Mod` has its meaning. */
  ghost predicate Unambiguous(binds: seq<Bind>, modKey: ModKey) {
    forall i, j :: 0 <= i < j < |binds| ==>
      !Resolve(binds[i].key, modKey).ConflictsWith(Resolve(binds[j].key, modKey))
  }

  ghost predicate OneMatchAtMost(binds: seq<Bind>, modKey: ModKey, press: Press) {
    forall i, j :: 0 <= i < j < |binds| ==>
      !(Matches(binds[i].key, modKey, press) && Matches(binds[j].key, modKey, press))
  }

  /** No press ever matches two binds of a table, so that its order does not matter, if and only if
      the table is unambiguous. */
  lemma OneMatchIffUnambiguous(binds: seq<Bind>, modKey: ModKey)
    requires ParsedTable(binds)
    ensures Unambiguous(binds, modKey) <==> forall press: Press | press.Valid() :: OneMatchAtMost(binds, modKey, press)
  {
    forall i, j | 0 <= i < j < |binds|
      ensures Resolve(binds[i].key, modKey).ConflictsWith(Resolve(binds[j].key, modKey)) <==>
              SharePress(binds[i].key, binds[j].key, modKey)
    {
      SharePressIffConflict(binds[i].key, binds[j].key, modKey);
    }
    if !Unambiguous(binds, modKey) {
      var i, j :| 0 <= i < j < |binds| && Resolve(binds[i].key, modKey).ConflictsWith(Resolve(binds[j].key, modKey));
      var press: Press :| press.Valid() && Matches(binds[i].key, modKey, press) && Matches(binds[j].key, modKey, press);
      assert !OneMatchAtMost(binds, modKey, press);
    }
  }

  /** No two binds overlap under different names for the mod key. */
  ghost predicate OverlapsAreWritten(binds: seq<Bind>, modKey: ModKey) {
    forall i, j :: 0 <= i < j < |binds| && SharePress(binds[i].key, binds[j].key, modKey) ==>
      binds[i].key.modifiers == binds[j].key.modifiers
  }

  /** What the configuration maintains is enough for that if and only if overlapping binds list the
      same modifiers, as they do in a table that does not name `Mod`. */
  lemma ConflictFreeIsUnambiguous(binds: seq<Bind>, modKey: ModKey)
    requires ParsedTable(binds)
    ensures Unambiguous(binds, modKey) <==> ConflictFree(binds) && OverlapsAreWritten(binds, modKey)
    ensures (forall bind | bind in binds :: !NamesMod(bind.key)) ==> OverlapsAreWritten(binds, modKey)
  {
    forall i, j | 0 <= i < j < |binds|
      ensures binds[i].key.ConflictsWith(binds[j].key) <==>
              SharePress(binds[i].key, binds[j].key, modKey) && binds[i].key.modifiers == binds[j].key.modifiers
      ensures SharePress(binds[i].key, binds[j].key, modKey) <==>
              Resolve(binds[i].key, modKey).ConflictsWith(Resolve(binds[j].key, modKey))
      ensures SharePress(binds[i].key, binds[j].key, modKey) && binds[i].key.modifiers != binds[j].key.modifiers ==>
              NamesMod(binds[i].key) || NamesMod(binds[j].key)
    {
      WrittenConflictIff(binds[i].key, binds[j].key, modKey);
      SharePressIffConflict(binds[i].key, binds[j].key, modKey);
    }
  }

  lemma {:induction false} LookupFinds(binds: seq<Bind>, modKey: ModKey, press: Press)
    ensures Lookup(binds, modKey, press) == None <==>
            forall bind | bind in binds :: !Matches(bind.key, modKey, press)
    ensures Lookup(binds, modKey, press).Some? ==>
              && Lookup(binds, modKey, press).value in binds
              && Matches(Lookup(binds, modKey, press).value.key, modKey, press)
  {
    if binds == [] {
    } else {
      assert binds == [binds[0]] + binds[1..];
      LookupFinds(binds[1..], modKey, press);
    }
  }

  lemma {:induction false} LookupSplits(one: seq<Bind>, other: seq<Bind>, modKey: ModKey, press: Press)
    ensures Lookup(one + other, modKey, press) ==
            if Lookup(one, modKey, press).Some? then Lookup(one, modKey, press) else Lookup(other, modKey, press)
  {
    if one == [] {
      assert one + other == other;
    } else {
      assert (one + other)[1..] == one[1..] + other;
      LookupSplits(one[1..], other, modKey, press);
    }
  }

  /** Every press that a new bind answers to is answered by the new table. */
  ghost predicate NewWins(binds: seq<Bind>, added: seq<Bind>, modKey: ModKey) {
    forall press: Press | press.Valid() && Lookup(added, modKey, press).Some? ::
      Lookup(Merged(binds, Some(added)), modKey, press) == Lookup(added, modKey, press)
  }

  ghost predicate NoHiddenOverlap(binds: seq<Bind>, added: seq<Bind>, modKey: ModKey) {
    forall bind, later | bind in Retained(binds, added) && later in added ::
      !Resolve(bind.key, modKey).ConflictsWith(Resolve(later.key, modKey))
  }

  lemma OldAnswersFirst(binds: seq<Bind>, added: seq<Bind>, modKey: ModKey, press: Press)
    requires Lookup(added, modKey, press).Some?
    ensures Lookup(Merged(binds, Some(added)), modKey, press) == Lookup(added, modKey, press) <==>
            Lookup(Retained(binds, added), modKey, press) == None
  {
    var retained := Retained(binds, added);
    LookupSplits(retained, added, modKey, press);
    LookupFinds(retained, modKey, press);
    LookupFinds(added, modKey, press);
    if Lookup(retained, modKey, press).Some? {
      var earlier, later := Lookup(retained, modKey, press).value, Lookup(added, modKey, press).value;
      RetainedMeans(binds, added, earlier);
      var i :| 0 <= i < |added| && added[i] == later;
    }
  }

  /** Overriding works as intended, every press of a new bind being answered by the new table, if and
      only if no retained bind is the same as a new one under another name for the mod key. */
  lemma OverrideWinsIff(binds: seq<Bind>, added: seq<Bind>, modKey: ModKey)
    requires ParsedTable(binds) && ParsedTable(added)
    ensures NewWins(binds, added, modKey) <==> NoHiddenOverlap(binds, added, modKey)
  {
    var retained := Retained(binds, added);
    if NoHiddenOverlap(binds, added, modKey) {
      forall press: Press | press.Valid() && Lookup(added, modKey, press).Some?
        ensures Lookup(Merged(binds, Some(added)), modKey, press) == Lookup(added, modKey, press)
      {
        NewAnswers(binds, added, modKey, press);
      }
    } else {
      var bind, later :| bind in retained && later in added &&
                         Resolve(bind.key, modKey).ConflictsWith(Resolve(later.key, modKey));
      RetainedMeans(binds, added, bind);
      SharePressIffConflict(bind.key, later.key, modKey);
      var press: Press :| press.Valid() && Matches(bind.key, modKey, press) && Matches(later.key, modKey, press);
      LookupFinds(retained, modKey, press);
      LookupFinds(added, modKey, press);
      OldAnswersFirst(binds, added, modKey, press);
    }
  }

  lemma NewAnswers(binds: seq<Bind>, added: seq<Bind>, modKey: ModKey, press: Press)
    requires ParsedTable(binds) && ParsedTable(added) && NoHiddenOverlap(binds, added, modKey)
    requires press.Valid() && Lookup(added, modKey, press).Some?
    ensures Lookup(Merged(binds, Some(added)), modKey, press) == Lookup(added, modKey, press)
  {
    var retained := Retained(binds, added);
    LookupFinds(retained, modKey, press);
    LookupFinds(added, modKey, press);
    OldAnswersFirst(binds, added, modKey, press);
    if Lookup(retained, modKey, press).Some? {
      var earlier, later := Lookup(retained, modKey, press).value, Lookup(added, modKey, press).value;
      RetainedMeans(binds, added, earlier);
      SharedPressConflicts(earlier.key, later.key, modKey, press);
    }
  }

  // The defaults.

  function DefaultPair(keysym: Keysym, base: Modifier, sameApp: bool): seq<Bind> {
    [ Bind(Key(KeysymTrigger(keysym), {base}), NextWindow(sameApp)),
      Bind(Key(KeysymTrigger(keysym), {base, SHIFT}), PreviousWindow(sameApp)) ]
  }

  function DefaultsFor(base: Modifier): seq<Bind> {
    DefaultPair(TAB, base, false) + DefaultPair(GRAVE, base, true)
  }

  function Defaults(): seq<Bind> {
    DefaultsFor(ALT) + DefaultsFor(COMPOSITOR)
  }

  method DefaultBinds() returns (binds: seq<Bind>)
    ensures binds == Defaults()
    ensures ConflictFree(binds) && ParsedTable(binds)
  {
    binds := [];
    var bases := [ALT, COMPOSITOR];
    for i := 0 to 2
      invariant binds == if i == 0 then [] else if i == 1 then DefaultsFor(ALT) else Defaults()
    {
      binds := binds + DefaultPair(TAB, bases[i], false);
      binds := binds + DefaultPair(GRAVE, bases[i], true);
    }
    DefaultsConflictFree();
  }

  function Shifted(i: nat): set<Modifier> {
    if i % 2 == 1 then {SHIFT} else {}
  }

  /** The default binds by position: `Tab` before the grave accent, plain before shifted, under `Alt`
      before under `Mod`. */
  lemma DefaultAt(i: nat)
    requires i < 8
    ensures |Defaults()| == 8
    ensures Defaults()[i].key.trigger == KeysymTrigger(if i % 4 < 2 then TAB else GRAVE)
    ensures Defaults()[i].key.modifiers == {if i < 4 then ALT else COMPOSITOR} + Shifted(i)
    ensures Defaults()[i].action ==
            if i % 2 == 1 then PreviousWindow(i % 4 >= 2) else NextWindow(i % 4 >= 2)
  {
  }

  lemma DefaultKeysDiffer(i: nat, j: nat)
    requires i < j < 8
    ensures !Defaults()[i].key.ConflictsWith(Defaults()[j].key)
  {
    DefaultAt(i);
    DefaultAt(j);
    var one, other := Defaults()[i].key.modifiers, Defaults()[j].key.modifiers;
    assert ALT in one <==> i < 4;
    assert ALT in other <==> j < 4;
    assert SHIFT in one <==> i % 2 == 1;
    assert SHIFT in other <==> j % 2 == 1;
  }

  lemma DefaultsConflictFree()
    ensures ConflictFree(Defaults()) && ParsedTable(Defaults())
  {
    forall i, j | 0 <= i < j < 8
      ensures !Defaults()[i].key.ConflictsWith(Defaults()[j].key)
    {
      DefaultKeysDiffer(i, j);
    }
    forall i | 0 <= i < 8
      ensures Defaults()[i].key.Parsed()
    {
      DefaultAt(i);
    }
  }

  lemma ResolvedDefault(i: nat, modKey: ModKey)
    requires i < 8
    ensures Resolve(Defaults()[i].key, modKey).trigger == Defaults()[i].key.trigger
    ensures Resolve(Defaults()[i].key, modKey).modifiers == {if i < 4 then ALT else modKey.Flag()} + Shifted(i)
  {
    DefaultAt(i);
    FlagIsNotCompositor(modKey);
  }

  lemma DefaultOverlap(i: nat, j: nat, modKey: ModKey)
    requires i < j < 8
    ensures Resolve(Defaults()[i].key, modKey).ConflictsWith(Resolve(Defaults()[j].key, modKey)) <==>
            (modKey == Alt && j == i + 4) || (modKey == Shift && i >= 4 && i % 2 == 0 && j == i + 1)
  {
    ResolvedDefault(i, modKey);
    ResolvedDefault(j, modKey);
    DefaultAt(i);
    DefaultAt(j);
    FlagsDiffer(modKey, Alt);
    FlagsDiffer(modKey, Shift);
    var one, other := Resolve(Defaults()[i].key, modKey).modifiers, Resolve(Defaults()[j].key, modKey).modifiers;
    assert ALT in one <==> i < 4 || modKey == Alt;
    assert ALT in other <==> j < 4 || modKey == Alt;
    assert SHIFT in one <==> i % 2 == 1 || (i >= 4 && modKey == Shift);
    assert SHIFT in other <==> j % 2 == 1 || (j >= 4 && modKey == Shift);
    assert modKey.Flag() in other <==> j >= 4 || modKey == Alt || (modKey == Shift && j % 2 == 1);
  }

  /** The defaults overlap for two mod keys only: `Alt`, where the overlapping binds do the same, and
      `Shift`, where the same press means the next window and the previous one. */
  lemma DefaultsUnambiguousIff(modKey: ModKey)
    ensures Unambiguous(Defaults(), modKey) <==> modKey != Alt && modKey != Shift
  {
    DefaultAt(0);
    forall i, j | 0 <= i < j < 8
      ensures Resolve(Defaults()[i].key, modKey).ConflictsWith(Resolve(Defaults()[j].key, modKey)) <==>
              (modKey == Alt && j == i + 4) || (modKey == Shift && i >= 4 && i % 2 == 0 && j == i + 1)
    {
      DefaultOverlap(i, j, modKey);
    }
    assert Resolve(Defaults()[4].key, Shift).ConflictsWith(Resolve(Defaults()[5].key, Shift)) by {
      DefaultOverlap(4, 5, Shift);
    }
    assert Resolve(Defaults()[0].key, Alt).ConflictsWith(Resolve(Defaults()[4].key, Alt)) by {
      DefaultOverlap(0, 4, Alt);
    }
  }

  /** With `Shift` as the mod key no press at all reaches the default `Mod+Shift+Tab`. */
  lemma ShiftedDefaultUnreachable(press: Press)
    requires press.Valid()
    ensures Lookup(Defaults(), Shift, press) != Some(Defaults()[5])
  {
    DefaultsConflictFree();
    if Lookup(Defaults(), Shift, press) == Some(Defaults()[5]) {
      LookupFinds(Defaults(), Shift, press);
      ShiftedDefaultIsHidden(press);
      LookupStops(Defaults(), 4, Shift, press);
    }
  }

  lemma ShiftedDefaultIsHidden(press: Press)
    requires press.Valid() && |Defaults()| == 8 && Matches(Defaults()[5].key, Shift, press)
    ensures Matches(Defaults()[4].key, Shift, press)
  {
    var hidden, first := Defaults()[5].key, Defaults()[4].key;
    DefaultAt(4);
    DefaultAt(5);
    ResolvedDefault(4, Shift);
    ResolvedDefault(5, Shift);
    KeysymMatch(first, Shift, press);
    KeysymMatch(hidden, Shift, press);
    assert Resolve(first, Shift) == Resolve(hidden, Shift);
  }

  lemma {:induction false} LookupStops(binds: seq<Bind>, n: nat, modKey: ModKey, press: Press)
    requires n < |binds| && Matches(binds[n].key, modKey, press)
    ensures exists i :: 0 <= i <= n && Lookup(binds, modKey, press) == Some(binds[i])
  {
    if !Matches(binds[0].key, modKey, press) {
      LookupStops(binds[1..], n - 1, modKey, press);
      var i :| 0 <= i <= n - 1 && Lookup(binds[1..], modKey, press) == Some(binds[1..][i]);
      assert binds[1..][i] == binds[i + 1];
    }
  }

  // The whole configuration.

  /** What reading makes of the binds sections of a configuration: a part may have none, and a section
      is a list of nodes, some of them no binds. */
  ghost function ReadParts(sections: seq<Option<seq<Option<Bind>>>>): (parts: seq<Option<seq<Bind>>>)
    ensures |parts| == |sections|
  {
    seq(|sections|, i requires 0 <= i < |sections| =>
      match sections[i]
      case None => None
      case Some(nodes) => Some(Table(nodes, Kept(nodes, |nodes|))))
  }

  /** Whatever the parts of a configuration say, the table that comes out is conflict-free, ends with
      the binds of the last part, and holds, in the order of defaults and parts, exactly the binds that
      no later part conflicts with. */
  lemma ConfiguredTable(sections: seq<Option<seq<Option<Bind>>>>)
    ensures var parts, table := ReadParts(sections), MergedAll(Defaults(), ReadParts(sections));
      && ConflictFree(table)
      && table == Layers(Defaults(), parts)
      && (forall bind :: bind in table <==>
            || (bind in Defaults() && !Clashes(AllNew(parts), bind.key))
            || exists i :: 0 <= i < |parts| && bind in NewOf(parts[i]) && !Clashes(AllNew(parts[i + 1..]), bind.key))
      && (parts != [] ==>
            var last := NewOf(parts[|parts| - 1]);
            |last| <= |table| && table[|table| - |last|..] == last)
  {
    var parts := ReadParts(sections);
    forall i | 0 <= i < |parts| ensures ConflictFree(NewOf(parts[i])) {
      if sections[i].Some? {
        KeptConflictFree(sections[i].value, |sections[i].value|);
      }
    }
    DefaultsConflictFree();
    TablesStayConflictFree(Defaults(), parts);
    MergeIsLayered(Defaults(), parts);
    forall bind ensures bind in MergedAll(Defaults(), parts) <==>
            || (bind in Defaults() && !Clashes(AllNew(parts), bind.key))
            || exists i :: 0 <= i < |parts| && bind in NewOf(parts[i]) && !Clashes(AllNew(parts[i + 1..]), bind.key)
    {
      LayersMean(Defaults(), parts, bind);
    }
    if parts != [] {
      LastPartStays(MergedAll(Defaults(), parts[..|parts| - 1]), parts[|parts| - 1]);
    }
  }

  lemma LastPartStays(binds: seq<Bind>, last: Option<seq<Bind>>)
    ensures var table, added := Merged(binds, last), NewOf(last);
      |added| <= |table| && table[|table| - |added|..] == added
  {
  }

  /** The configuration section, updated in place as parts of the configuration are read. */
  class RecentWindows {
    var binds: seq<Bind>

    constructor ()
      ensures binds == Defaults() && ConflictFree(binds)
    {
      var defaults := DefaultBinds();
      binds := defaults;
    }

    method MergeWith(part: Option<seq<Bind>>)
      requires ConflictFree(binds) && ConflictFree(NewOf(part))
      modifies `binds
      ensures binds == Merged(old(binds), part)
      ensures ConflictFree(binds)
    {
      MergedConflictFree(binds, part);
      if part.Some? {
        var retained := [];
        for i := 0 to |binds|
          invariant binds == old(binds)
          invariant retained == Retained(binds[..i], part.value)
        {
          assert binds[..i + 1][..i] == binds[..i];
          var conflict := AnyConflict(part.value, binds[i].key);
          if !conflict {
            retained := retained + [binds[i]];
          }
        }
        assert binds[..|binds|] == binds;
        binds := retained + part.value;
      }
    }

    static method AnyConflict(added: seq<Bind>, key: Key) returns (found: bool)
      ensures found == Clashes(added, key)
    {
      var index := Position(added, key);
      found := index.Some?;
    }
  }
}
