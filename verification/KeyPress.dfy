/** Which binds a press triggers, and what conflicts between keys have to do with it. */
module KeyPresses {
  import opened Wrappers
  import opened Keys

  /** One keysym of a key press, or a press or scroll of a pointing device, with the modifiers held. */
  datatype Press = KeyPress(keysym: Keysym, held: set<Modifier>) | PointerPress(id: nat, held: set<Modifier>)
  {
    /** The held modifiers come from the keyboard state, which knows no compositor mod. */
    predicate Valid() {
      COMPOSITOR !in held
    }
  }

  predicate TriggerIsModKey(trigger: Trigger, modKey: ModKey) {
    match trigger
    case CompositorMod => true
    case ModifierTrigger(modifier) => modifier == modKey
    case KeysymTrigger(keysym) => modKey.MatchesKeysym(keysym)
    case Pointing(_) => false
  }

  /** Whether the modifiers of a bind match the held ones. */
  predicate ModifiersMatch(key: Key, modKey: ModKey, held: set<Modifier>) {
    var flag := modKey.Flag();
    if TriggerIsModKey(key.trigger, modKey) then
      key.modifiers - {COMPOSITOR, flag} == held - {flag}
    else
      var required :=
        if COMPOSITOR in key.modifiers then key.modifiers + {flag}
        else if flag in key.modifiers then key.modifiers + {COMPOSITOR}
        else key.modifiers;
      required == if flag in held then held + {COMPOSITOR} else held
  }

  predicate TriggerMatchesKeysym(trigger: Trigger, keysym: Keysym, modKey: ModKey) {
    match trigger
    case CompositorMod => modKey.MatchesKeysym(keysym)
    case KeysymTrigger(own) => own == keysym
    case ModifierTrigger(modifier) => modifier.MatchesKeysym(keysym)
    case Pointing(_) => false
  }

  /** The modifiers that a keysym stands for while the mod key is known. */
  function RawModifiers(keysym: Keysym, modKey: ModKey): set<Modifier> {
    KeysymTrigger(keysym).ImpliedModifier() + if modKey.MatchesKeysym(keysym) then {COMPOSITOR} else {}
  }

  /** The tests by which the lookups for keys and for pointing devices find a bind. */
  predicate Matches(key: Key, modKey: ModKey, press: Press) {
    && ModifiersMatch(key, modKey, press.held)
    && match press
       case PointerPress(id, _) => key.trigger == Pointing(id)
       case KeyPress(keysym, held) =>
         if key.trigger.IsGenericModifier() then
           && (key.trigger == CompositorMod || key.trigger == ModifierTrigger(modKey) ==> modKey.Flag() in held)
           && !(key.modifiers !! RawModifiers(keysym, modKey))
         else
           TriggerMatchesKeysym(key.trigger, keysym, modKey)
  }

  /** The key with `Mod` replaced by the mod key it stands for. */
  function Resolve(key: Key, modKey: ModKey): Key {
    Key(if key.trigger == CompositorMod then ModifierTrigger(modKey) else key.trigger,
        key.modifiers - {COMPOSITOR} + if COMPOSITOR in key.modifiers then {modKey.Flag()} else {})
  }

  predicate NamesMod(key: Key) {
    key.trigger == CompositorMod || COMPOSITOR in key.modifiers
  }

  lemma FlagIsNotCompositor(modKey: ModKey)
    ensures modKey.Flag() != COMPOSITOR
  {
  }

  lemma FlagsDiffer(one: ModKey, other: ModKey)
    ensures one.Flag() == other.Flag() <==> one == other
  {
  }

  /** What the modifier test comes to: the resolved modifiers are the held ones, leaving out the mod
      key itself if it is the trigger. */
  lemma ModifiersMatchResolved(key: Key, modKey: ModKey, held: set<Modifier>)
    requires COMPOSITOR !in held
    ensures var flag, resolved := modKey.Flag(), Resolve(key, modKey).modifiers;
      ModifiersMatch(key, modKey, held) <==>
      if TriggerIsModKey(key.trigger, modKey) then resolved - {flag} == held - {flag} else resolved == held
  {
    FlagIsNotCompositor(modKey);
    var flag, resolved := modKey.Flag(), Resolve(key, modKey).modifiers;
    if TriggerIsModKey(key.trigger, modKey) {
      assert resolved - {flag} == key.modifiers - {COMPOSITOR, flag};
    } else {
      var required :=
        if COMPOSITOR in key.modifiers then key.modifiers + {flag}
        else if flag in key.modifiers then key.modifiers + {COMPOSITOR}
        else key.modifiers;
      var known := if flag in held then held + {COMPOSITOR} else held;
      assert required - {COMPOSITOR} == resolved;
      assert known - {COMPOSITOR} == held;
      assert COMPOSITOR in required <==> flag in resolved;
      assert required == if flag in resolved then resolved + {COMPOSITOR} else resolved;
    }
  }

  lemma GenericMatch(key: Key, modKey: ModKey, press: Press)
    requires key.Parsed() && press.Valid() && key.trigger.IsGenericModifier()
    ensures Matches(key, modKey, press) <==>
            && press.KeyPress?
            && Resolve(key, modKey).modifiers == press.held
            && !(press.held !! KeysymTrigger(press.keysym).ImpliedModifier())
  {
    FlagIsNotCompositor(modKey);
    ModifiersMatchResolved(key, modKey, press.held);
    var flag, resolved, held := modKey.Flag(), Resolve(key, modKey).modifiers, press.held;
    if TriggerIsModKey(key.trigger, modKey) {
      assert flag in resolved;
      assert flag in held && resolved - {flag} == held - {flag} <==> resolved == held by {
        assert resolved == resolved - {flag} + {flag};
        if flag in held {
          assert held == held - {flag} + {flag};
        }
      }
    }
    if press.KeyPress? {
      IntersectsResolved(key, modKey, press.keysym);
    }
  }

  lemma IntersectsResolved(key: Key, modKey: ModKey, keysym: Keysym)
    ensures key.modifiers !! RawModifiers(keysym, modKey) <==>
            Resolve(key, modKey).modifiers !! KeysymTrigger(keysym).ImpliedModifier()
  {
    FlagIsNotCompositor(modKey);
    var resolved := Resolve(key, modKey).modifiers;
    match ModKeyOf(keysym) {
      case None =>
      case Some(own) =>
        FlagIsNotCompositor(own);
        FlagsDiffer(own, modKey);
        assert own.Flag() in resolved <==> own.Flag() in key.modifiers || (own == modKey && COMPOSITOR in key.modifiers);
    }
  }

  lemma KeysymMatch(key: Key, modKey: ModKey, press: Press)
    requires key.Parsed() && press.Valid() && key.trigger.KeysymTrigger?
    ensures Matches(key, modKey, press) <==>
            && press.KeyPress?
            && key.trigger.keysym == press.keysym
            && var flag, resolved := modKey.Flag(), Resolve(key, modKey).modifiers;
            if modKey.MatchesKeysym(press.keysym) then resolved - {flag} == press.held - {flag} else resolved == press.held
  {
    ModifiersMatchResolved(key, modKey, press.held);
  }

  lemma PointingMatch(key: Key, modKey: ModKey, press: Press)
    requires press.Valid() && key.trigger.Pointing?
    ensures Matches(key, modKey, press) <==>
            press.PointerPress? && key.trigger.id == press.id && Resolve(key, modKey).modifiers == press.held
  {
    ModifiersMatchResolved(key, modKey, press.held);
  }

  function KeysymFor(modKey: ModKey): (keysym: Keysym)
    ensures modKey.MatchesKeysym(keysym)
  {
    match modKey
    case Ctrl => CONTROL_L
    case Shift => SHIFT_L
    case Alt => ALT_L
    case Super => SUPER_L
    case IsoLevel3Shift => LEVEL3_SHIFT
    case IsoLevel5Shift => LEVEL5_SHIFT
  }

  /** A press that triggers a key: its own keysym or button, or a keysym of its modifier. */
  function Example(key: Key, modKey: ModKey): Press {
    var resolved := Resolve(key, modKey);
    match resolved.trigger
    case KeysymTrigger(keysym) => KeyPress(keysym, resolved.modifiers)
    case ModifierTrigger(modifier) => KeyPress(KeysymFor(modifier), resolved.modifiers)
    case CompositorMod => KeyPress(KeysymFor(modKey), resolved.modifiers)
    case Pointing(id) => PointerPress(id, resolved.modifiers)
  }

  lemma ResolvedIsParsed(key: Key, modKey: ModKey)
    requires key.Parsed()
    ensures Resolve(key, modKey).Parsed()
    ensures COMPOSITOR !in Resolve(key, modKey).modifiers
    ensures Resolve(key, modKey).trigger.IsModifier() == key.trigger.IsModifier()
    ensures Resolve(key, modKey).trigger.IsGenericModifier() == key.trigger.IsGenericModifier()
  {
    FlagIsNotCompositor(modKey);
    match key.trigger {
      case KeysymTrigger(keysym) =>
        if ModKeyOf(keysym).Some? {
          FlagIsNotCompositor(ModKeyOf(keysym).value);
        }
      case ModifierTrigger(modifier) => FlagIsNotCompositor(modifier);
      case CompositorMod =>
      case Pointing(_) =>
    }
  }

  lemma GenericAndKeysym(generic: Key, specific: Key, modKey: ModKey, press: Press)
    requires generic.Parsed() && specific.Parsed() && press.Valid()
    requires generic.trigger.IsGenericModifier() && specific.trigger.KeysymTrigger?
    requires Matches(generic, modKey, press) && Matches(specific, modKey, press)
    ensures Resolve(generic, modKey).ConflictsWith(Resolve(specific, modKey))
  {
    GenericMatch(generic, modKey, press);
    KeysymMatch(specific, modKey, press);
    ResolvedIsParsed(specific, modKey);
    ResolvedIsParsed(generic, modKey);
    var flag, resolved, held := modKey.Flag(), Resolve(specific, modKey).modifiers, press.held;
    if modKey.MatchesKeysym(press.keysym) {
      assert flag in resolved && flag in held;
      assert resolved == resolved - {flag} + {flag} == held;
    }
  }

  lemma TwoKeysyms(one: Key, other: Key, modKey: ModKey, press: Press)
    requires one.Parsed() && other.Parsed() && press.Valid()
    requires one.trigger.KeysymTrigger? && other.trigger.KeysymTrigger?
    requires Matches(one, modKey, press) && Matches(other, modKey, press)
    ensures Resolve(one, modKey) == Resolve(other, modKey)
  {
    KeysymMatch(one, modKey, press);
    KeysymMatch(other, modKey, press);
    ResolvedIsParsed(one, modKey);
    ResolvedIsParsed(other, modKey);
    var flag, first, second := modKey.Flag(), Resolve(one, modKey).modifiers, Resolve(other, modKey).modifiers;
    if modKey.MatchesKeysym(press.keysym) {
      assert first == first - {flag} + {flag} == second;
    }
  }

  lemma TwoPointing(one: Key, other: Key, modKey: ModKey, press: Press)
    requires press.Valid() && one.trigger.Pointing?
    requires Matches(one, modKey, press) && Matches(other, modKey, press)
    ensures Resolve(one, modKey) == Resolve(other, modKey)
  {
    PointingMatch(one, modKey, press);
    PointingMatch(other, modKey, press);
  }

  lemma SharedPressConflicts(one: Key, other: Key, modKey: ModKey, press: Press)
    requires one.Parsed() && other.Parsed() && press.Valid()
    requires Matches(one, modKey, press) && Matches(other, modKey, press)
    ensures Resolve(one, modKey).ConflictsWith(Resolve(other, modKey))
  {
    if one.trigger.Pointing? {
      TwoPointing(one, other, modKey, press);
    } else if other.trigger.Pointing? {
      TwoPointing(other, one, modKey, press);
    } else if one.trigger.IsGenericModifier() && other.trigger.IsGenericModifier() {
      GenericMatch(one, modKey, press);
      GenericMatch(other, modKey, press);
      ResolvedIsParsed(one, modKey);
      ResolvedIsParsed(other, modKey);
    } else if one.trigger.IsGenericModifier() {
      GenericAndKeysym(one, other, modKey, press);
    } else if other.trigger.IsGenericModifier() {
      GenericAndKeysym(other, one, modKey, press);
    } else {
      TwoKeysyms(one, other, modKey, press);
    }
  }

  /** Every key is triggered by its example press, and by that of any key it conflicts with whose
      trigger is at least as specific. */
  lemma ExampleMatches(key: Key, other: Key, modKey: ModKey)
    requires key.Parsed() && other.Parsed()
    requires Resolve(key, modKey).ConflictsWith(Resolve(other, modKey))
    requires key.trigger.IsGenericModifier() || Resolve(key, modKey) == Resolve(other, modKey)
    ensures Example(other, modKey).Valid() && Matches(key, modKey, Example(other, modKey))
  {
    ResolvedIsParsed(key, modKey);
    ResolvedIsParsed(other, modKey);
    var press := Example(other, modKey);
    if key.trigger.IsGenericModifier() {
      GenericMatch(key, modKey, press);
      ImpliedByExample(other, modKey);
    } else if key.trigger.Pointing? {
      PointingMatch(key, modKey, press);
    } else {
      KeysymMatch(key, modKey, press);
    }
  }

  lemma ImpliedByExample(key: Key, modKey: ModKey)
    requires key.Parsed() && key.trigger.IsModifier()
    ensures Example(key, modKey).KeyPress?
    ensures !(Resolve(key, modKey).modifiers !! KeysymTrigger(Example(key, modKey).keysym).ImpliedModifier())
  {
    ResolvedIsParsed(key, modKey);
    var resolved := Resolve(key, modKey);
    var implied := KeysymTrigger(Example(key, modKey).keysym).ImpliedModifier();
    assert implied == resolved.trigger.ImpliedModifier();
    var own: ModKey := match resolved.trigger
      case ModifierTrigger(modifier) => modifier
      case KeysymTrigger(keysym) => ModKeyOf(keysym).value
      case _ => modKey;
    assert own.Flag() in implied && own.Flag() in resolved.modifiers;
  }

  /** Some press triggers both keys. */
  ghost predicate SharePress(one: Key, other: Key, modKey: ModKey) {
    exists press: Press :: press.Valid() && Matches(one, modKey, press) && Matches(other, modKey, press)
  }

  /** The law that conflict detection is for, with `Mod` replaced by its meaning: two keys can be
      triggered by one press if and only if they conflict. */
  lemma SharePressIffConflict(one: Key, other: Key, modKey: ModKey)
    requires one.Parsed() && other.Parsed()
    ensures SharePress(one, other, modKey) <==> Resolve(one, modKey).ConflictsWith(Resolve(other, modKey))
  {
    if Resolve(one, modKey).ConflictsWith(Resolve(other, modKey)) {
      ResolvedIsParsed(one, modKey);
      ResolvedIsParsed(other, modKey);
      var (general, specific) := if one.trigger.IsGenericModifier() then (one, other) else (other, one);
      ExampleMatches(general, specific, modKey);
      ExampleMatches(specific, specific, modKey);
    }
    forall press: Press | press.Valid() && Matches(one, modKey, press) && Matches(other, modKey, press)
      ensures Resolve(one, modKey).ConflictsWith(Resolve(other, modKey))
    {
      SharedPressConflicts(one, other, modKey, press);
    }
  }

  lemma WrittenConflictIsResolved(one: Key, other: Key, modKey: ModKey)
    requires one.Parsed() && other.Parsed()
    ensures one.ConflictsWith(other) <==>
            one.modifiers == other.modifiers && Resolve(one, modKey).ConflictsWith(Resolve(other, modKey))
  {
    ResolvedIsParsed(one, modKey);
    ResolvedIsParsed(other, modKey);
  }

  /** The law for keys as written: they conflict if and only if they share a press and list the same
      modifiers. So the test misses exactly the shared presses of keys that list different modifiers,
      which takes one of them to name `Mod`. */
  lemma WrittenConflictIff(one: Key, other: Key, modKey: ModKey)
    requires one.Parsed() && other.Parsed()
    ensures one.ConflictsWith(other) <==> SharePress(one, other, modKey) && one.modifiers == other.modifiers
    ensures SharePress(one, other, modKey) && one.modifiers != other.modifiers ==> NamesMod(one) || NamesMod(other)
  {
    SharePressIffConflict(one, other, modKey);
    WrittenConflictIsResolved(one, other, modKey);
    if !NamesMod(one) && !NamesMod(other) {
      assert Resolve(one, modKey) == one && Resolve(other, modKey) == other;
    }
  }

  /** With `Super` as the mod key, `Mod` and `Super` share every press and are not found to conflict:
      the mod key is not known when the configuration is read. */
  lemma ModHidesAConflict() returns (mod: Key, super: Key)
    ensures mod.Parsed() && super.Parsed() && !mod.ConflictsWith(super)
    ensures forall press: Press | press.Valid() :: Matches(mod, Super, press) <==> Matches(super, Super, press)
  {
    mod := Key(CompositorMod, {COMPOSITOR});
    super := Key(ModifierTrigger(Super), {SUPER});
    assert Resolve(mod, Super).modifiers == Resolve(super, Super).modifiers;
    forall press: Press | press.Valid()
      ensures Matches(mod, Super, press) <==> Matches(super, Super, press)
    {
      GenericMatch(mod, Super, press);
      GenericMatch(super, Super, press);
    }
  }
}
