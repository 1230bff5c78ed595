/** Output names: how a configured name selects an output, and the order that placement sorts by.
    Text is a sequence of bytes, as `str` slicing and comparison work on bytes. */
module OutputNames {
  import opened Wrappers

  type Byte = b: int | 0 <= b < 256
  type Text = seq<Byte>

  datatype OutputName = OutputName(connector: Text, make: Option<Text>, model: Option<Text>, serial: Option<Text>)

  const SPACE: Byte := 0x20
  const UNKNOWN: Text := [0x55, 0x6e, 0x6b, 0x6e, 0x6f, 0x77, 0x6e]

  function ToLower(b: Byte): Byte {
    if 0x41 <= b <= 0x5a then b + 0x20 else b
  }

  predicate EqIgnoreAsciiCase(a: Text, b: Text) {
    |a| == |b| && forall i | 0 <= i < |a| :: ToLower(a[i]) == ToLower(b[i])
  }

  predicate IsCharBoundary(t: Text, i: nat) {
    i == 0 || i == |t| || (i < |t| && !(0x80 <= t[i] < 0xc0))
  }

  /** `t.get(..n)`. */
  function GetPrefix(t: Text, n: nat): Option<Text> {
    if n <= |t| && IsCharBoundary(t, n) then Some(t[..n]) else None
  }

  function UnwrapOrUnknown(t: Option<Text>): Text {
    if t.Some? then t.value else UNKNOWN
  }

  predicate MissingMakeModelSerial(name: OutputName) {
    name.make.None? && name.model.None? && name.serial.None?
  }

  function FormatMakeModelSerial(name: OutputName): Text {
    UnwrapOrUnknown(name.make) + [SPACE] + UnwrapOrUnknown(name.model) + [SPACE] + UnwrapOrUnknown(name.serial)
  }

  function FormatMakeModelSerialOrConnector(name: OutputName): Text {
    if MissingMakeModelSerial(name) then name.connector else FormatMakeModelSerial(name)
  }

  /** What follows `part` and one space in `t`, if `t` starts with them. */
  function AfterWord(t: Text, part: Text): Option<Text> {
    var prefix := GetPrefix(t, |part|);
    if prefix.None? then None
    else
      var rest := t[|part|..];
      if !EqIgnoreAsciiCase(prefix.value, part) then None
      else if rest == [] || rest[0] != SPACE then None
      else Some(rest[1..])
  }

  predicate Matches(name: OutputName, target: Text) {
    if EqIgnoreAsciiCase(target, name.connector) then true
    else if MissingMakeModelSerial(name) then false
    else
      var afterMake := AfterWord(target, UnwrapOrUnknown(name.make));
      if afterMake.None? then false
      else
        var afterModel := AfterWord(afterMake.value, UnwrapOrUnknown(name.model));
        if afterModel.None? then false
        else EqIgnoreAsciiCase(afterModel.value, UnwrapOrUnknown(name.serial))
  }

  /** Cutting a word off the front decides the comparison with `word rest`: the char boundary that
      `get` insists on is where the space is. */
  lemma AfterWordMeans(t: Text, word: Text, rest: Text)
    ensures EqIgnoreAsciiCase(t, word + [SPACE] + rest) <==>
      AfterWord(t, word).Some? && EqIgnoreAsciiCase(AfterWord(t, word).value, rest)
  {
    var whole := word + [SPACE] + rest;
    if EqIgnoreAsciiCase(t, whole) {
      assert forall i | 0 <= i < |word| :: ToLower(t[i]) == ToLower(whole[i]) == ToLower(word[i]);
      assert ToLower(t[|word|]) == ToLower(whole[|word|]) == SPACE;
      forall i | 0 <= i < |rest| ensures ToLower(t[|word|..][1..][i]) == ToLower(rest[i]) {
        assert t[|word|..][1..][i] == t[|word| + 1 + i] && whole[|word| + 1 + i] == rest[i];
      }
    }
    if AfterWord(t, word).Some? && EqIgnoreAsciiCase(AfterWord(t, word).value, rest) {
      forall i | 0 <= i < |whole| ensures ToLower(t[i]) == ToLower(whole[i]) {
        if i < |word| {
          assert t[..|word|][i] == t[i];
        } else if i > |word| {
          assert t[|word|..][1..][i - |word| - 1] == t[i];
        }
      }
    }
  }

  /** The incremental comparison means: the target is the connector, or make, model and serial are
      not all unknown and the target is their formatted form; either way up to ASCII case. */
  lemma MatchesMeans(name: OutputName, target: Text)
    ensures Matches(name, target) <==>
      || EqIgnoreAsciiCase(target, name.connector)
      || (!MissingMakeModelSerial(name) && EqIgnoreAsciiCase(target, FormatMakeModelSerial(name)))
  {
    var make, model, serial := UnwrapOrUnknown(name.make), UnwrapOrUnknown(name.model), UnwrapOrUnknown(name.serial);
    assert FormatMakeModelSerial(name) == make + [SPACE] + (model + [SPACE] + serial);
    AfterWordMeans(target, make, model + [SPACE] + serial);
    if AfterWord(target, make).Some? {
      AfterWordMeans(AfterWord(target, make).value, model, serial);
    }
  }

  /** Texts are equal up to ASCII case if they are of one length and each two bytes are equal, or the upper
      and the lower case of one letter. */
  lemma CaseMeans(a: Text, b: Text)
    ensures EqIgnoreAsciiCase(a, b) <==>
            |a| == |b| && forall i | 0 <= i < |a| ::
              a[i] == b[i] || (65 <= a[i] <= 90 && b[i] == a[i] + 32) || (65 <= b[i] <= 90 && a[i] == b[i] + 32)
  {
  }

  /** A missing part is written "Unknown", and parts are separated by single spaces. */
  lemma UnknownPartsAreWritten(name: OutputName, make: Text, model: Text, serial: Text)
    requires name.make == Some(make) && name.model.None? && name.serial == Some(serial)
    ensures Matches(name, make + [0x20] + [0x55, 0x6e, 0x6b, 0x6e, 0x6f, 0x77, 0x6e] + [0x20] + serial)
    ensures FormatMakeModelSerial(name.(make := None, model := Some(model))) == UNKNOWN + [0x20] + model + [0x20] + serial
    ensures FormatMakeModelSerial(name.(model := Some(model), serial := None)) == make + [0x20] + model + [0x20] + UNKNOWN
  {
    FormattedNameMatches(name);
  }

  /** The name that configuration tools print for an output selects that output. */
  lemma FormattedNameMatches(name: OutputName)
    ensures Matches(name, FormatMakeModelSerialOrConnector(name))
  {
    MatchesMeans(name, FormatMakeModelSerialOrConnector(name));
  }

  /** `Outputs::find` on the names of the configured sections: the first that matches. */
  function FindName(names: seq<Text>, name: OutputName): (r: Option<nat>)
    ensures r.Some? ==> r.value < |names| && Matches(name, names[r.value]) && forall i | 0 <= i < r.value :: !Matches(name, names[i])
    ensures r.None? ==> forall i | 0 <= i < |names| :: !Matches(name, names[i])
  {
    if names == [] then None
    else if Matches(name, names[0]) then Some(0)
    else
      var rest := FindName(names[1..], name);
      if rest.None? then None else Some(rest.value + 1)
  }

  // ---------- Order ----------

  datatype Ordering = Less | Equal | Greater
  {
    function Reverse(): Ordering {
      match this case Less => Greater case Equal => Equal case Greater => Less
    }

    function Then(next: Ordering): Ordering {
      if Equal? then next else this
    }
  }

  function CompareText(a: Text, b: Text): Ordering {
    if a == [] then (if b == [] then Equal else Less)
    else if b == [] then Greater
    else if a[0] < b[0] then Less
    else if a[0] > b[0] then Greater
    else CompareText(a[1..], b[1..])
  }

  function CompareOption(a: Option<Text>, b: Option<Text>): Ordering {
    match (a, b)
    case (None, None) => Equal
    case (None, Some(_)) => Less
    case (Some(_), None) => Greater
    case (Some(x), Some(y)) => CompareText(x, y)
  }

  function Compare(a: OutputName, b: OutputName): Ordering {
    match (MissingMakeModelSerial(a), MissingMakeModelSerial(b))
    case (true, true) => CompareText(a.connector, b.connector)
    case (true, false) => Greater
    case (false, true) => Less
    case (false, false) =>
      CompareOption(a.make, b.make)
        .Then(CompareOption(a.model, b.model))
        .Then(CompareOption(a.serial, b.serial))
        .Then(CompareText(a.connector, b.connector))
  }

  /** Three comparisons chain: `ab` and `bc` not greater force `ac`. */
  predicate Chains(ab: Ordering, bc: Ordering, ac: Ordering) {
    ab != Greater && bc != Greater ==> ac == ab.Then(bc)
  }

  lemma ThenChains(ab: Ordering, bc: Ordering, ac: Ordering, ab': Ordering, bc': Ordering, ac': Ordering)
    requires Chains(ab, bc, ac) && Chains(ab', bc', ac')
    ensures Chains(ab.Then(ab'), bc.Then(bc'), ac.Then(ac'))
  {
  }

  lemma {:induction false} CompareTextLaws(a: Text, b: Text, c: Text)
    ensures CompareText(a, b) == Equal <==> a == b
    ensures CompareText(b, a) == CompareText(a, b).Reverse()
    ensures Chains(CompareText(a, b), CompareText(b, c), CompareText(a, c))
    decreases |a| + |b| + |c|
  {
    if a != [] && b != [] {
      assert a == [a[0]] + a[1..] && b == [b[0]] + b[1..];
      CompareTextLaws(a[1..], b[1..], if c != [] then c[1..] else []);
    }
  }

  lemma CompareOptionLaws(a: Option<Text>, b: Option<Text>, c: Option<Text>)
    ensures CompareOption(a, b) == Equal <==> a == b
    ensures CompareOption(b, a) == CompareOption(a, b).Reverse()
    ensures Chains(CompareOption(a, b), CompareOption(b, c), CompareOption(a, c))
  {
    var x, y, z := if a.Some? then a.value else [], if b.Some? then b.value else [], if c.Some? then c.value else [];
    CompareTextLaws(x, y, z);
  }

  /** Text is ordered by the first byte that differs, and a prefix comes first. */
  ghost predicate TextLess(a: Text, b: Text) {
    exists k: nat :: k <= |a| && k < |b| && a[..k] == b[..k] && (k == |a| || a[k] < b[k])
  }

  /** An unknown field comes before a known one. */
  ghost predicate FieldLess(a: Option<Text>, b: Option<Text>) {
    b.Some? && (a.None? || TextLess(a.value, b.value))
  }

  lemma {:induction false} CompareTextMeans(a: Text, b: Text)
    ensures CompareText(a, b) == Less <==> TextLess(a, b)
  {
    if a != [] && b != [] && a[0] == b[0] {
      CompareTextMeans(a[1..], b[1..]);
      if CompareText(a[1..], b[1..]) == Less {
        var k: nat :| k <= |a[1..]| && k < |b[1..]| && a[1..][..k] == b[1..][..k] && (k == |a[1..]| || a[1..][k] < b[1..][k]);
        assert a[..k + 1] == [a[0]] + a[1..][..k] && b[..k + 1] == [b[0]] + b[1..][..k];
      }
      forall k: nat | k <= |a| && k < |b| && a[..k] == b[..k] && (k == |a| || a[k] < b[k])
        ensures CompareText(a[1..], b[1..]) == Less
      {
        assert k > 0;
        assert a[1..][..k - 1] == a[..k][1..] == b[..k][1..] == b[1..][..k - 1];
      }
    } else if a != [] && b != [] {
      assert a[..0] == b[..0];
      forall k: nat | 0 < k <= |a| && k < |b| ensures a[..k] != b[..k] {
        assert a[..k][0] != b[..k][0];
      }
    } else if b != [] {
      assert a[..0] == b[..0];
    }
  }

  /** What names are compared by, in this order. */
  function Fields(name: OutputName): (fields: seq<Option<Text>>)
    ensures |fields| == 4
  {
    [name.make, name.model, name.serial, Some(name.connector)]
  }

  lemma CompareOptionMeans(a: Option<Text>, b: Option<Text>)
    ensures CompareOption(a, b) == Less <==> FieldLess(a, b)
  {
    if a.Some? && b.Some? {
      CompareTextMeans(a.value, b.value);
    }
  }

  /** Names with something known come first; otherwise the first field that differs decides. */
  lemma CompareMeans(a: OutputName, b: OutputName)
    ensures Compare(a, b) == Less <==>
            if MissingMakeModelSerial(a) != MissingMakeModelSerial(b) then MissingMakeModelSerial(b)
            else exists k: nat :: k < 4 && Fields(a)[..k] == Fields(b)[..k] && FieldLess(Fields(a)[k], Fields(b)[k])
  {
    CompareOptionMeans(a.make, b.make);
    CompareOptionMeans(a.model, b.model);
    CompareOptionMeans(a.serial, b.serial);
    CompareOptionMeans(Some(a.connector), Some(b.connector));
    CompareOptionLaws(a.make, b.make, None);
    CompareOptionLaws(a.model, b.model, None);
    CompareOptionLaws(a.serial, b.serial, None);
    FieldPrefixes(a, b);
  }

  lemma FieldPrefixes(a: OutputName, b: OutputName)
    ensures Fields(a)[..0] == Fields(b)[..0]
    ensures Fields(a)[..1] == Fields(b)[..1] <==> a.make == b.make
    ensures Fields(a)[..2] == Fields(b)[..2] <==> a.make == b.make && a.model == b.model
    ensures Fields(a)[..3] == Fields(b)[..3] <==> a.make == b.make && a.model == b.model && a.serial == b.serial
  {
    var x, y := Fields(a), Fields(b);
    assert x[..1] == [a.make] && y[..1] == [b.make];
    assert x[..2] == [a.make, a.model] && y[..2] == [b.make, b.model];
    assert x[..3] == [a.make, a.model, a.serial] && y[..3] == [b.make, b.model, b.serial];
    assert [a.make, a.model][1] == a.model && [b.make, b.model][1] == b.model;
    assert [a.make, a.model, a.serial][1] == a.model && [a.make, a.model, a.serial][2] == a.serial;
    assert [a.make, a.model][0] == a.make && [a.make][0] == a.make && [a.make, a.model, a.serial][0] == a.make;
  }

  /** `compare` is a total order on names in which only identical names are equal. */
  lemma CompareIsTotalOrder(a: OutputName, b: OutputName, c: OutputName)
    ensures Compare(a, b) == Equal <==> a == b
    ensures Compare(b, a) == Compare(a, b).Reverse()
    ensures Compare(a, b) != Greater && Compare(b, c) != Greater ==> Compare(a, c) != Greater
  {
    CompareIsAntisymmetric(a, b);
    CompareChains(a, b, c);
  }

  lemma CompareIsAntisymmetric(a: OutputName, b: OutputName)
    ensures Compare(a, b) == Equal <==> a == b
    ensures Compare(b, a) == Compare(a, b).Reverse()
  {
    CompareTextLaws(a.connector, b.connector, []);
    CompareOptionLaws(a.make, b.make, None);
    CompareOptionLaws(a.model, b.model, None);
    CompareOptionLaws(a.serial, b.serial, None);
  }

  lemma CompareChains(a: OutputName, b: OutputName, c: OutputName)
    ensures Chains(Compare(a, b), Compare(b, c), Compare(a, c))
  {
    CompareTextLaws(a.connector, b.connector, c.connector);
    CompareOptionLaws(a.make, b.make, c.make);
    CompareOptionLaws(a.model, b.model, c.model);
    CompareOptionLaws(a.serial, b.serial, c.serial);
    var ab1, bc1, ac1 := CompareOption(a.make, b.make), CompareOption(b.make, c.make), CompareOption(a.make, c.make);
    var ab2, bc2, ac2 := CompareOption(a.model, b.model), CompareOption(b.model, c.model), CompareOption(a.model, c.model);
    var ab3, bc3, ac3 := CompareOption(a.serial, b.serial), CompareOption(b.serial, c.serial), CompareOption(a.serial, c.serial);
    ThenChains(ab1, bc1, ac1, ab2, bc2, ac2);
    ThenChains(ab1.Then(ab2), bc1.Then(bc2), ac1.Then(ac2), ab3, bc3, ac3);
    ThenChains(ab1.Then(ab2).Then(ab3), bc1.Then(bc2).Then(bc3), ac1.Then(ac2).Then(ac3),
               CompareText(a.connector, b.connector), CompareText(b.connector, c.connector), CompareText(a.connector, c.connector));
  }
}
