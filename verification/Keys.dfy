/** Bind keys: a trigger with the modifiers that must be held. */
module Keys {
  import opened Wrappers

  datatype Modifier = CTRL | SHIFT | ALT | SUPER | ISO_LEVEL3_SHIFT | ISO_LEVEL5_SHIFT | COMPOSITOR

  /** The keys that can serve as the compositor's mod key. */
  datatype ModKey = Ctrl | Shift | Alt | Super | IsoLevel3Shift | IsoLevel5Shift
  {
    function Flag(): Modifier {
      match this
      case Ctrl => CTRL
      case Shift => SHIFT
      case Alt => ALT
      case Super => SUPER
      case IsoLevel3Shift => ISO_LEVEL3_SHIFT
      case IsoLevel5Shift => ISO_LEVEL5_SHIFT
    }

    predicate MatchesKeysym(keysym: Keysym) {
      ModKeyOf(keysym) == Some(this)
    }
  }

  /** An XKB keysym. */
  type Keysym = nat

  const CONTROL_L: Keysym := 0xffe3
  const CONTROL_R: Keysym := 0xffe4
  const SHIFT_L: Keysym := 0xffe1
  const SHIFT_R: Keysym := 0xffe2
  const ALT_L: Keysym := 0xffe9
  const ALT_R: Keysym := 0xffea
  const SUPER_L: Keysym := 0xffeb
  const SUPER_R: Keysym := 0xffec
  const LEVEL3_SHIFT: Keysym := 0xfe03
  const LEVEL5_SHIFT: Keysym := 0xfe11
  const TAB: Keysym := 0xff09
  const GRAVE: Keysym := 0x0060

  function ModKeyOf(keysym: Keysym): Option<ModKey> {
    if keysym == CONTROL_L || keysym == CONTROL_R then Some(Ctrl)
    else if keysym == SHIFT_L || keysym == SHIFT_R then Some(Shift)
    else if keysym == ALT_L || keysym == ALT_R then Some(Alt)
    else if keysym == SUPER_L || keysym == SUPER_R then Some(Super)
    else if keysym == LEVEL3_SHIFT then Some(IsoLevel3Shift)
    else if keysym == LEVEL5_SHIFT then Some(IsoLevel5Shift)
    else None
  }

  /** The keysyms of each mod key, and the modifier that it holds down. */
  lemma ModKeysMean(keysym: Keysym)
    ensures ModKeyOf(keysym) == Some(Ctrl) <==> keysym in {0xffe3, 0xffe4}
    ensures ModKeyOf(keysym) == Some(Shift) <==> keysym in {0xffe1, 0xffe2}
    ensures ModKeyOf(keysym) == Some(Alt) <==> keysym in {0xffe9, 0xffea}
    ensures ModKeyOf(keysym) == Some(Super) <==> keysym in {0xffeb, 0xffec}
    ensures ModKeyOf(keysym) == Some(IsoLevel3Shift) <==> keysym == 0xfe03
    ensures ModKeyOf(keysym) == Some(IsoLevel5Shift) <==> keysym == 0xfe11
    ensures KeysymTrigger(keysym).ImpliedModifier() ==
            if keysym in {0xffe3, 0xffe4} then {CTRL} else if keysym in {0xffe1, 0xffe2} then {SHIFT}
            else if keysym in {0xffe9, 0xffea} then {ALT} else if keysym in {0xffeb, 0xffec} then {SUPER}
            else if keysym == 0xfe03 then {ISO_LEVEL3_SHIFT} else if keysym == 0xfe11 then {ISO_LEVEL5_SHIFT} else {}
  {
  }

  /** Mouse buttons, scrolling and stylus buttons are `Pointing`: they never take part in the
      modifier rules. */
  datatype Trigger = KeysymTrigger(keysym: Keysym) | CompositorMod | ModifierTrigger(modifier: ModKey) | Pointing(id: nat)
  {
    predicate IsModifier() {
      match this
      case CompositorMod => true
      case ModifierTrigger(_) => true
      case KeysymTrigger(keysym) => ModKeyOf(keysym).Some?
      case Pointing(_) => false
    }

    predicate IsGenericModifier() {
      CompositorMod? || ModifierTrigger?
    }

    function ImpliedModifier(): set<Modifier> {
      match this
      case CompositorMod => {COMPOSITOR}
      case ModifierTrigger(modifier) => {modifier.Flag()}
      case KeysymTrigger(keysym) =>
        (match ModKeyOf(keysym)
         case Some(modifier) => {modifier.Flag()}
         case None => {})
      case Pointing(_) => {}
    }
  }

  datatype Key = Key(trigger: Trigger, modifiers: set<Modifier>)
  {
    /** What parsing guarantees: the modifier a trigger stands for is among the modifiers. */
    predicate Parsed() {
      trigger.ImpliedModifier() <= modifiers
    }

    predicate ConflictsWith(other: Key) {
      || this == other
      || (&& modifiers == other.modifiers
          && (|| (trigger.IsGenericModifier() && other.trigger.IsModifier())
              || (trigger.IsModifier() && other.trigger.IsGenericModifier())))
    }
  }

  /** The end of key parsing: written modifiers are or-ed onto the one the trigger implies, in any
      order and with any repetition. */
  method Assemble(trigger: Trigger, written: seq<Modifier>) returns (key: Key)
    ensures key.trigger == trigger && key.Parsed()
    ensures forall m :: m in key.modifiers <==> m in written || m in trigger.ImpliedModifier()
  {
    var modifiers := trigger.ImpliedModifier();
    for i := 0 to |written|
      invariant forall m :: m in modifiers <==> m in written[..i] || m in trigger.ImpliedModifier()
    {
      modifiers := modifiers + {written[i]};
    }
    key := Key(trigger, modifiers);
  }

  lemma ConflictIsAlike(one: Key, other: Key)
    ensures one.ConflictsWith(one)
    ensures one.ConflictsWith(other) <==> other.ConflictsWith(one)
  {
  }

  /** Conflict is reflexive and symmetric but not transitive: it fails to carry over exactly when the
      outer two are different specific keys, joined by a generic one. */
  lemma ConflictCarriesOverIff(one: Key, middle: Key, other: Key)
    requires one.ConflictsWith(middle) && middle.ConflictsWith(other)
    ensures one.ConflictsWith(other) <==>
            one == other || one.trigger.IsGenericModifier() || other.trigger.IsGenericModifier()
  {
  }

  /** So `Alt` conflicts with either of `Alt_L` and `Alt_R`, and those two do not conflict. */
  lemma ConflictIsNotTransitive() returns (left: Key, either: Key, right: Key)
    ensures left.Parsed() && either.Parsed() && right.Parsed()
    ensures left.ConflictsWith(either) && either.ConflictsWith(right) && !left.ConflictsWith(right)
  {
    left := Key(KeysymTrigger(ALT_L), {ALT});
    either := Key(ModifierTrigger(Alt), {ALT});
    right := Key(KeysymTrigger(ALT_R), {ALT});
  }
}
