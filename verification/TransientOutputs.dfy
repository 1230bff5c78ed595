/** Output configuration that is changed at run time, on top of what is read from disk. */
module TransientOutputs {
  import opened Wrappers
  import opened OutputNames
  import opened OutputSections

  /** The actions of the IPC, and the two of the display-configuration service: `Off`, and replacing
      the whole section. */
  datatype Action =
    | Off | On
    | SetMode(mode: Option<nat>) | CustomMode(custom: nat) | SetModeline(modeline: nat)
    | SetScale(scale: Option<nat>) | SetTransform(transform: nat) | SetPosition(position: Option<Point>)
    | SetVrr(vrr: Option<bool>) | SetMaxBpc(maxBpc: nat)
    | Replace(section: Section)

  function Apply(action: Action, section: Section): Section {
    match action
    case Off => section.(off := true)
    case On => section.(off := false)
    case SetMode(None) => section.(mode := None, modeline := None)
    case SetMode(Some(mode)) => section.(mode := Some(Mode(false, mode)), modeline := None)
    case CustomMode(mode) => section.(mode := Some(Mode(true, mode)), modeline := None)
    case SetModeline(modeline) => section.(modeline := Some(modeline))
    case SetScale(scale) => section.(scale := scale)
    case SetTransform(transform) => section.(transform := transform)
    case SetPosition(position) => section.(position := position)
    case SetVrr(vrr) => section.(vrr := vrr)
    case SetMaxBpc(maxBpc) => section.(maxBpc := Some(maxBpc))
    case Replace(replacement) => replacement
  }

  /** What an action leaves in each setting of the section. */
  lemma ActionSets(action: Action, section: Section)
    requires !action.Replace?
    ensures var t := Apply(action, section);
      && t.name == section.name && t.rest == section.rest
      && t.off == ((section.off && !action.On?) || action.Off?)
      && t.mode == (match action
                    case SetMode(None) => None
                    case SetMode(Some(mode)) => Some(Mode(false, mode))
                    case CustomMode(mode) => Some(Mode(true, mode))
                    case _ => section.mode)
      && t.modeline == (if action.SetModeline? then Some(action.modeline)
                        else if action.SetMode? || action.CustomMode? then None else section.modeline)
      && t.scale == (if action.SetScale? then action.scale else section.scale)
      && t.transform == (if action.SetTransform? then action.transform else section.transform)
      && t.position == (if action.SetPosition? then action.position else section.position)
      && t.vrr == (if action.SetVrr? then action.vrr else section.vrr)
      && t.maxBpc == (if action.SetMaxBpc? then Some(action.maxBpc) else section.maxBpc)
  {
  }

  /** The setting that an action is about. */
  datatype Setting = Power | Timing | Scale | Transform | Place | Refresh | Depth | Everything

  function SettingOf(action: Action): Setting {
    match action
    case Off => Power
    case On => Power
    case SetMode(_) => Timing
    case CustomMode(_) => Timing
    case SetModeline(_) => Timing
    case SetScale(_) => Scale
    case SetTransform(_) => Transform
    case SetPosition(_) => Place
    case SetVrr(_) => Refresh
    case SetMaxBpc(_) => Depth
    case Replace(_) => Everything
  }

  lemma TimingCommutes(one: Action, other: Action, section: Section)
    requires SettingOf(one) == Timing && SettingOf(other) != Timing && !other.Replace?
    ensures Apply(one, Apply(other, section)) == Apply(other, Apply(one, section))
  {
  }

  lemma OthersCommute(one: Action, other: Action, section: Section)
    requires !one.Replace? && !other.Replace? && SettingOf(one) != Timing && SettingOf(other) != Timing
    requires SettingOf(one) != SettingOf(other)
    ensures Apply(one, Apply(other, section)) == Apply(other, Apply(one, section))
  {
  }

  lemma DifferentSettingsCommute(one: Action, other: Action, section: Section)
    requires !one.Replace? && !other.Replace? && SettingOf(one) != SettingOf(other)
    ensures Apply(one, Apply(other, section)) == Apply(other, Apply(one, section))
  {
    if SettingOf(one) == Timing {
      TimingCommutes(one, other, section);
    } else if SettingOf(other) == Timing {
      TimingCommutes(other, one, section);
    } else {
      OthersCommute(one, other, section);
    }
  }

  lemma SameSettingOrder(one: Action, other: Action, section: Section)
    requires !one.Replace? && SettingOf(one) == SettingOf(other)
    ensures Apply(one, Apply(other, section)) == Apply(other, Apply(one, section)) <==> one == other
    ensures !(one.SetModeline? && !other.SetModeline?) ==> Apply(one, Apply(other, section)) == Apply(one, section)
  {
  }

  /** The order of two IPC actions on a section matters if and only if they differ and are about the
      same setting; of two such, the later one wins, except that a modeline leaves the mode it falls
      back to. */
  lemma ActionsCommuteIff(one: Action, other: Action, section: Section)
    requires !one.Replace? && !other.Replace?
    ensures Apply(one, Apply(other, section)) == Apply(other, Apply(one, section)) <==>
            SettingOf(one) != SettingOf(other) || one == other
    ensures SettingOf(one) == SettingOf(other) && !(one.SetModeline? && !other.SetModeline?) ==>
              Apply(one, Apply(other, section)) == Apply(one, section)
  {
    if SettingOf(one) == SettingOf(other) {
      SameSettingOrder(one, other, section);
    } else {
      DifferentSettingsCommute(one, other, section);
    }
  }

  // The target of an action.

  function FirstMatch(names: seq<OutputName>, target: Text): (r: Option<OutputName>)
    ensures r.Some? ==> r.value in names && Matches(r.value, target)
    ensures r.None? ==> forall i :: 0 <= i < |names| ==> !Matches(names[i], target)
  {
    if names == [] then None
    else if Matches(names[0], target) then Some(names[0])
    else FirstMatch(names[1..], target)
  }

  /** The output that a name given by the user means: one that is on, else one that is connected,
      else an unknown one with the name for its connector. */
  function TargetOf(enabled: seq<OutputName>, connected: seq<OutputName>, name: Text): OutputName {
    var on := FirstMatch(enabled, name);
    if on.Some? then on.value
    else
      var present := FirstMatch(connected, name);
      if present.Some? then present.value
      else OutputName(name, None, None, None)
  }

  /** A name means the first output that is on and matches; only if there is none, the first connected one
      that does; and only if there is none either, an unknown one at the connector of that name. */
  lemma TargetIs(enabled: seq<OutputName>, connected: seq<OutputName>, name: Text)
    ensures var target := TargetOf(enabled, connected, name);
      || IsFirstMatch(enabled, name, target)
      || (NoMatch(enabled, name) && IsFirstMatch(connected, name, target))
      || (NoMatch(enabled, name) && NoMatch(connected, name) && target == OutputName(name, None, None, None))
  {
    FirstMatchIsFirst(enabled, name);
    FirstMatchIsFirst(connected, name);
  }

  ghost predicate NoMatch(names: seq<OutputName>, target: Text) {
    forall i | 0 <= i < |names| :: !Matches(names[i], target)
  }

  ghost predicate IsFirstMatch(names: seq<OutputName>, target: Text, found: OutputName) {
    exists i :: 0 <= i < |names| && names[i] == found && Matches(found, target) && NoMatch(names[..i], target)
  }

  lemma {:induction false} FirstMatchIsFirst(names: seq<OutputName>, target: Text)
    ensures FirstMatch(names, target).Some? ==> IsFirstMatch(names, target, FirstMatch(names, target).value)
    ensures FirstMatch(names, target).None? ==> NoMatch(names, target)
  {
    if names != [] {
      if Matches(names[0], target) {
        assert names[..0] == [];
      } else {
        FirstMatchIsFirst(names[1..], target);
        if FirstMatch(names[1..], target).Some? {
          var found := FirstMatch(names[1..], target).value;
          var i :| 0 <= i < |names[1..]| && names[1..][i] == found && NoMatch(names[1..][..i], target);
          assert names[..i + 1] == [names[0]] + names[1..][..i];
          assert names[i + 1] == found;
        }
      }
    }
  }

  /** Whatever is plugged in, the name selects its target: a section saved under the name given by
      the user is one that the target finds. */
  lemma TargetMatches(enabled: seq<OutputName>, connected: seq<OutputName>, name: Text)
    ensures Matches(TargetOf(enabled, connected, name), name)
  {
  }

  /** The sections after an action. */
  ghost function Modified(outputs: Outputs, target: OutputName, name: Text, action: Action): Outputs {
    var index := FindName(Names(outputs), target);
    match index
    case Some(i) => outputs[i := Apply(action, outputs[i])]
    case None => outputs + [Apply(action, Default(name))]
  }

  /** The section that an action works on. */
  ghost function Acted(outputs: Outputs, target: OutputName, name: Text): Section {
    var found := Find(outputs, target);
    if found.Some? then found.value else Default(name)
  }

  lemma FindNameIs(names: seq<Text>, name: OutputName, index: nat)
    requires index < |names| && Matches(name, names[index])
    requires forall i :: 0 <= i < index ==> !Matches(name, names[i])
    ensures FindName(names, name) == Some(index)
  {
  }

  /** An action is visible, the target finds the section acted on, changed, if and only if it leaves
      that section a name that selects the target. If it does not, which only a replacement can bring
      about, what the target finds is the next section for it, in place of the one that was found. */
  lemma ActionIsVisibleIff(outputs: Outputs, target: OutputName, name: Text, action: Action)
    ensures var changed, found := Apply(action, Acted(outputs, target, name)), FindName(Names(outputs), target);
      var after := Find(Modified(outputs, target, name, action), target);
      && (after == Some(changed) <==> Matches(target, changed.name))
      && (!Matches(target, changed.name) ==>
            after == if found.Some? then Find(outputs[found.value + 1..], target) else None)
  {
    var changed := Apply(action, Acted(outputs, target, name));
    var after := Modified(outputs, target, name, action);
    var index := match FindName(Names(outputs), target) case Some(i) => i case None => |outputs|;
    if Matches(target, changed.name) {
      FindNameIs(Names(after), target, index);
    } else if index < |outputs| {
      FindBeyond(outputs, after, target, index);
    }
  }

  lemma FindBeyond(outputs: Outputs, after: Outputs, target: OutputName, index: nat)
    requires index < |outputs| == |after| && after[index + 1..] == outputs[index + 1..]
    requires forall i :: 0 <= i <= index ==> !Matches(target, after[i].name)
    ensures Find(after, target) == Find(outputs[index + 1..], target)
  {
    var rest := outputs[index + 1..];
    forall i | 0 <= i < |rest| ensures Names(after)[index + 1 + i] == rest[i].name {
      assert after[index + 1..][i] == after[index + 1 + i];
    }
    match FindName(Names(rest), target) {
      case Some(k) => FindNameIs(Names(after), target, index + 1 + k);
      case None =>
    }
  }

  /** The IPC's own actions always leave the name alone, so they are always visible. */
  lemma IpcActionsAreVisible(outputs: Outputs, enabled: seq<OutputName>, connected: seq<OutputName>, name: Text, action: Action)
    requires !action.Replace?
    ensures var target := TargetOf(enabled, connected, name);
      Find(Modified(outputs, target, name, action), target) == Some(Apply(action, Acted(outputs, target, name)))
  {
    var target := TargetOf(enabled, connected, name);
    TargetMatches(enabled, connected, name);
    assert Apply(action, Acted(outputs, target, name)).name == Acted(outputs, target, name).name;
    ActionIsVisibleIff(outputs, target, name, action);
  }

  /** An action that keeps the section's name reaches another output exactly if the two share the
      section: by the same first match, or by neither having one while the new name selects both. */
  lemma ActionIsLocal(outputs: Outputs, target: OutputName, name: Text, action: Action, other: OutputName)
    requires Apply(action, Acted(outputs, target, name)).name == Acted(outputs, target, name).name
    ensures var mine, theirs := FindName(Names(outputs), target), FindName(Names(outputs), other);
      Find(Modified(outputs, target, name, action), other) ==
      if mine == theirs && (mine.Some? || Matches(other, name)) then Some(Apply(action, Acted(outputs, target, name)))
      else Find(outputs, other)
  {
    var after := Modified(outputs, target, name, action);
    var mine, theirs := FindName(Names(outputs), target), FindName(Names(outputs), other);
    if theirs.Some? {
      FindNameIs(Names(after), other, theirs.value);
    } else if mine.None? && Matches(other, name) {
      FindNameIs(Names(after), other, |outputs|);
    }
  }

  // The state over a session.

  datatype Event =
    | Reload(config: Option<Outputs>)
    | Modify(target: OutputName, name: Text, action: Action)
    | ReplaceAll(outputs: Outputs)

  /** The sections in effect, and those last read from disk. */
  datatype State = State(outputs: Outputs, fromDisk: Outputs)

  ghost function Step(state: State, event: Event): State {
    match event
    case Reload(None) => state
    case Reload(Some(config)) => if config != state.fromDisk then State(config, config) else state
    case _ => state.(outputs := Change(state.outputs, event))
  }

  /** The effect of an action; a reload is none. */
  ghost function Change(outputs: Outputs, event: Event): Outputs {
    match event
    case Reload(_) => outputs
    case Modify(target, name, action) => Modified(outputs, target, name, action)
    case ReplaceAll(replacement) => replacement
  }

  ghost function Run(state: State, events: seq<Event>): State {
    if events == [] then state
    else Step(Run(state, events[..|events| - 1]), events[|events| - 1])
  }

  /** The actions among some events, replayed on some sections; reloads are passed over. */
  ghost function Replay(outputs: Outputs, events: seq<Event>): Outputs {
    if events == [] then outputs
    else Change(Replay(outputs, events[..|events| - 1]), events[|events| - 1])
  }

  /** No reload among the events reads anything but these sections. */
  ghost predicate DiskStays(outputs: Outputs, events: seq<Event>) {
    forall i :: 0 <= i < |events| && events[i].Reload? && events[i].config.Some? ==> events[i].config.value == outputs
  }

  /** The sections of the last reload that succeeded. */
  ghost function LastRead(initial: Outputs, events: seq<Event>): Outputs {
    if events == [] then initial
    else
      match events[|events| - 1]
      case Reload(Some(config)) => config
      case _ => LastRead(initial, events[..|events| - 1])
  }

  lemma {:induction false} FromDiskIsLastRead(initial: Outputs, events: seq<Event>)
    ensures Run(State(initial, initial), events).fromDisk == LastRead(initial, events)
  {
    if events == [] {
    } else {
      FromDiskIsLastRead(initial, events[..|events| - 1]);
    }
  }

  lemma {:induction false} RunSplits(state: State, one: seq<Event>, other: seq<Event>)
    ensures Run(state, one + other) == Run(Run(state, one), other)
  {
    if other == [] {
      assert one + other == one;
    } else {
      var init := other[..|other| - 1];
      RunSplits(state, one, init);
      assert (one + other)[..|one + other| - 1] == one + init;
    }
  }

  lemma {:induction false} UnchangedDiskReplays(state: State, events: seq<Event>)
    requires DiskStays(state.fromDisk, events)
    ensures Run(state, events) == State(Replay(state.outputs, events), state.fromDisk)
  {
    if events == [] {
    } else {
      var init := events[..|events| - 1];
      UnchangedDiskReplays(state, init);
    }
  }

  /** Transient changes survive failed reloads and reloads of an unchanged file, and only those. Take
      any reload that reads something other than the successful one before it: what is in effect
      after it is what it read, with the actions since then replayed in order, for as long as no
      reload reads anything else. */
  lemma ChangesReplaySinceLastRead(initial: Outputs, before: seq<Event>, config: Outputs, after: seq<Event>)
    requires config != LastRead(initial, before) && DiskStays(config, after)
    ensures Run(State(initial, initial), before + [Reload(Some(config))] + after) == State(Replay(config, after), config)
  {
    var start, reload := State(initial, initial), [Reload(Some(config))];
    FromDiskIsLastRead(initial, before);
    RunSplits(start, before + reload, after);
    assert (before + reload)[..|before|] == before;
    UnchangedDiskReplays(State(config, config), after);
  }

  /** The same from the start of the session, if no reload ever reads anything new. */
  lemma ChangesReplaySinceStart(initial: Outputs, events: seq<Event>)
    requires DiskStays(initial, events)
    ensures Run(State(initial, initial), events) == State(Replay(initial, events), initial)
  {
    UnchangedDiskReplays(State(initial, initial), events);
  }

  /** How a session falls into the two cases: no reload read anything new, or the last that did read
      `config`. */
  datatype Split = Never | Changed(before: seq<Event>, config: Outputs, after: seq<Event>)

  ghost predicate SplitsInto(initial: Outputs, events: seq<Event>, split: Split) {
    match split
    case Never => DiskStays(initial, events)
    case Changed(before, config, after) =>
      && events == before + [Reload(Some(config))] + after
      && config != LastRead(initial, before)
      && DiskStays(config, after)
  }

  lemma {:induction false} LastReadStays(initial: Outputs, before: seq<Event>, after: seq<Event>)
    requires DiskStays(LastRead(initial, before), after)
    ensures LastRead(initial, before + after) == LastRead(initial, before)
  {
    if after == [] {
      assert before + after == before;
    } else {
      var init, last := after[..|after| - 1], after[|after| - 1];
      assert (before + after)[..|before + after| - 1] == before + init;
      LastReadStays(initial, before, init);
    }
  }

  lemma SplitEnds(initial: Outputs, events: seq<Event>, split: Split)
    requires SplitsInto(initial, events, split)
    ensures LastRead(initial, events) == match split case Never => initial case Changed(_, config, _) => config
  {
    match split
    case Never =>
      LastReadStays(initial, [], events);
      assert [] + events == events;
    case Changed(before, config, after) =>
      assert (before + [Reload(Some(config))])[..|before|] == before;
      LastReadStays(initial, before + [Reload(Some(config))], after);
  }

  lemma DiskStaysOn(outputs: Outputs, events: seq<Event>, last: Event)
    requires DiskStays(outputs, events)
    requires last.Reload? && last.config.Some? ==> last.config.value == outputs
    ensures DiskStays(outputs, events + [last])
  {
  }

  /** Every session is one of the two. */
  lemma {:induction false} SessionsSplit(initial: Outputs, events: seq<Event>) returns (split: Split)
    ensures SplitsInto(initial, events, split)
  {
    if events == [] {
      split := Never;
    } else {
      var init, last := events[..|events| - 1], events[|events| - 1];
      assert events == init + [last];
      split := SessionsSplit(initial, init);
      SplitEnds(initial, init, split);
      if last.Reload? && last.config.Some? && last.config.value != LastRead(initial, init) {
        split := Changed(init, last.config.value, []);
      } else {
        match split {
          case Never => DiskStaysOn(initial, init, last);
          case Changed(before, config, after) =>
            DiskStaysOn(config, after, last);
            assert before + [Reload(Some(config))] + (after + [last]) == init + [last];
            split := Changed(before, config, after + [last]);
        }
      }
    }
  }

  /** The part of the compositor's state that holds the output configuration. */
  class OutputConfig {
    var outputs: Outputs
    var configFileOutputs: Outputs

    ghost function Current(): State
      reads this
    {
      State(outputs, configFileOutputs)
    }

    constructor (config: Outputs)
      ensures Current() == State(config, config)
    {
      outputs, configFileOutputs := config, config;
    }

    /** Returns whether outputs have to be reconfigured: their sections changed on disk, or some other
        setting that outputs depend on did. */
    method ReloadConfig(config: Option<Outputs>, othersChanged: bool) returns (changed: bool)
      modifies this
      ensures Current() == Step(old(Current()), Reload(config))
      ensures changed <==> config.Some? && (config.value != old(configFileOutputs) || othersChanged)
    {
      changed := false;
      if config.None? {
        return;
      }
      changed := othersChanged;
      var preserved: Option<Outputs> := None;
      if config.value != configFileOutputs {
        changed := true;
        configFileOutputs := config.value;
      } else {
        preserved := Some(outputs);
      }
      outputs := config.value;
      if preserved.Some? {
        outputs := preserved.value;
      }
    }

    method ModifyOutputConfig(enabled: seq<OutputName>, connected: seq<OutputName>, name: Text, action: Action)
      modifies `outputs
      ensures Current() == Step(old(Current()), Modify(TargetOf(enabled, connected, name), name, action))
    {
      var target := TargetOf(enabled, connected, name);
      var index := FindName(Names(outputs), target);
      if index.None? {
        outputs := outputs + [Default(name)];
      }
      var i := if index.Some? then index.value else |outputs| - 1;
      outputs := outputs[i := Apply(action, outputs[i])];
    }

    method ApplyOutputConfig(config: Outputs)
      modifies `outputs
      ensures Current() == Step(old(Current()), ReplaceAll(config))
    {
      outputs := config;
    }
  }
}
