/** The `output` sections of the configuration. */
module OutputSections {
  import opened Wrappers
  import opened OutputNames

  datatype Point = Point(x: int, y: int)

  datatype Mode = Mode(custom: bool, mode: nat)

  /** One section. Modes and the like are opaque values; `rest` stands for the fields that neither
      placement reads nor any action touches. */
  datatype Section = Section(name: Text, off: bool, mode: Option<Mode>, modeline: Option<nat>, scale: Option<nat>,
                             transform: nat, position: Option<Point>, maxBpc: Option<nat>, vrr: Option<bool>, rest: nat)

  /** A section with nothing but a name. */
  function Default(name: Text): Section {
    Section(name, false, None, None, None, 0, None, None, None, 0)
  }

  type Outputs = seq<Section>

  function Names(outputs: Outputs): (names: seq<Text>)
    ensures |names| == |outputs|
    ensures forall i :: 0 <= i < |outputs| ==> names[i] == outputs[i].name
  {
    seq(|outputs|, i requires 0 <= i < |outputs| => outputs[i].name)
  }

  /** The section that configures an output. */
  function Find(outputs: Outputs, name: OutputName): Option<Section> {
    var index := FindName(Names(outputs), name);
    if index.Some? then Some(outputs[index.value]) else None
  }
}
