/** The predefined parameter sets of moldesign, each built once by its own
    initialisation method from a fixed sequence of descriptors. Their
    postconditions record what the descriptors hold after construction. */
module ParameterSets {
  import opened Parameters

  const Nm := Unit("nm")
  const Fs := Unit("fs")
  const Ps := Unit("ps")
  const Kelvin := Unit("kelvin")
  const DefaultTime := Unit("default.time")
  const DefaultTemperature := Unit("default.temperature")
  const PerPs := Unit("1/ps")

  const ForceFields: seq<Value> := []
  const Periodicities: seq<Value> := [BoolValue(false), StrValue("box")]
  const QmTheories: seq<Value> := []
  const BasisSets: seq<Value> := []

  /** `model_parameters`: a single `subsystem` descriptor with every argument
      left at its default. */
  method ModelParameters() returns (d: map<string, Parameter>)
    ensures d.Keys == {"subsystem"}
    ensures d["subsystem"].displayname == "subsystem"
    ensures d["subsystem"].declaredType == NoType && d["subsystem"].units == None
    ensures d["subsystem"].default == NoneValue && d["subsystem"].choices == []
    ensures !d["subsystem"].selectMultiple && d["subsystem"].helpUrl == None
    ensures forall k :: k in d ==> d[k].Valid()
  {
    var subsystem := new Parameter("subsystem");
    var l := [subsystem];
    d := NamedDict(l);
    assert d == map["subsystem" := subsystem] by {
      assert InsertAll(l, 0) == map[];
      assert InsertAll(l, 1) == InsertAll(l, 0)["subsystem" := subsystem];
    }
  }

  /** `mm_model_parameters`: seven descriptors with distinct names. */
  method MmModelParameters() returns (d: map<string, Parameter>)
    ensures d.Keys == {"cutoff", "nonbonded", "implicit_solvent", "solute_dielectric",
                       "solvent_dielectric", "ewald_error", "periodic"}
    ensures d["cutoff"].displayname == "Cutoff for nonbonded interactions"
    ensures d["cutoff"].declaredType == Prim(FloatKind) && d["cutoff"].units == Some(Nm)
    ensures d["cutoff"].default == QuantityValue(Quantity(1.0, Nm))
    ensures d["nonbonded"].declaredType == Prim(StrKind) && d["nonbonded"].units == None
    ensures d["nonbonded"].default == StrValue("cutoff")
    ensures d["nonbonded"].choices == [StrValue("cutoff"), StrValue("pme"), StrValue("ewald")]
    ensures d["implicit_solvent"].default == NoneValue
    ensures d["periodic"].default == BoolValue(false) && d["periodic"].choices == Periodicities
    ensures d["periodic"].declaredType == NoType && d["periodic"].units == None
    ensures forall k :: k in d ==> d[k].Valid()
  {
    var cutoff := new Parameter("cutoff", Some("Cutoff for nonbonded interactions"),
                                default := QuantityValue(Quantity(1.0, Nm)), typeArg := UnitSpec(Nm));
    var nonbonded := new Parameter("nonbonded", Some("Nonbonded interaction method"),
                                   default := StrValue("cutoff"), typeArg := Prim(StrKind),
                                   choices := Some([StrValue("cutoff"), StrValue("pme"), StrValue("ewald")]));
    var implicitSolvent := new Parameter("implicit_solvent", Some("Implicit solvent method"),
                                         typeArg := Prim(StrKind),
                                         choices := Some([StrValue("gbsa"), StrValue("obc"),
                                                          StrValue("pbsa"), NoneValue]));
    var soluteDielectric := new Parameter("solute_dielectric", Some("Solute dielectric constant"),
                                          default := FloatValue(1.0), typeArg := Prim(FloatKind));
    var solventDielectric := new Parameter("solvent_dielectric", Some("Solvent dielectric constant"),
                                           default := FloatValue(78.5), typeArg := Prim(FloatKind));
    var ewaldError := new Parameter("ewald_error", Some("Ewald error tolerance"),
                                    default := FloatValue(0.0005), typeArg := Prim(FloatKind));
    var periodic := new Parameter("periodic", Some("Periodicity"),
                                  default := BoolValue(false), choices := Some(Periodicities));
    var l := [cutoff, nonbonded, implicitSolvent, soluteDielectric, solventDielectric, ewaldError,
              periodic];
    d := NamedDict(l);
    assert d == map["cutoff" := cutoff, "nonbonded" := nonbonded,
                    "implicit_solvent" := implicitSolvent, "solute_dielectric" := soluteDielectric,
                    "solvent_dielectric" := solventDielectric, "ewald_error" := ewaldError,
                    "periodic" := periodic] by {
      assert InsertAll(l, 0) == map[];
      assert InsertAll(l, 1) == InsertAll(l, 0)["cutoff" := cutoff];
      assert InsertAll(l, 2) == InsertAll(l, 1)["nonbonded" := nonbonded];
      assert InsertAll(l, 3) == InsertAll(l, 2)["implicit_solvent" := implicitSolvent];
      assert InsertAll(l, 4) == InsertAll(l, 3)["solute_dielectric" := soluteDielectric];
      assert InsertAll(l, 5) == InsertAll(l, 4)["solvent_dielectric" := solventDielectric];
      assert InsertAll(l, 6) == InsertAll(l, 5)["ewald_error" := ewaldError];
      assert InsertAll(l, 7) == InsertAll(l, 6)["periodic" := periodic];
    }
  }

  /** `qm_model_parameters`: five descriptors with distinct names. The
      `theory` descriptor is accepted although its default is not among its
      (empty) choices. */
  method QmModelParameters() returns (d: map<string, Parameter>)
    ensures d.Keys == {"theory", "multiplicity", "basis_set", "symmetry", "wfn_guess"}
    ensures d["theory"].choices == QmTheories && d["basis_set"].choices == BasisSets
    ensures d["theory"].default == NoneValue && d["theory"].default !in d["theory"].choices
    ensures d["multiplicity"].default == IntValue(1)
    ensures d["multiplicity"].declaredType == Prim(IntKind) && d["multiplicity"].units == None
    ensures d["symmetry"].displayname == "symmetry"
    ensures d["symmetry"].default == NoneValue
    ensures d["symmetry"].choices == [NoneValue, StrValue("Auto"), StrValue("Loose")]
    ensures d["wfn_guess"].displayname == "Starting guess method:"
    ensures d["wfn_guess"].default == StrValue("huckel")
    ensures d["wfn_guess"].choices == [StrValue("huckel"), StrValue("guess")]
    ensures forall k :: k in d ==> d[k].Valid()
  {
    var theory := new Parameter("theory", Some("QM theory"), choices := Some(QmTheories));
    var multiplicity := new Parameter("multiplicity", Some("Spin multiplicity"),
                                      default := IntValue(1), typeArg := Prim(IntKind));
    var basisSet := new Parameter("basis_set", Some("Basis set"), choices := Some(BasisSets));
    var symmetry := new Parameter("symmetry", default := NoneValue,
                                  choices := Some([NoneValue, StrValue("Auto"), StrValue("Loose")]));
    var wfnGuess := new Parameter("wfn_guess", Some("Starting guess method:"),
                                  default := StrValue("huckel"),
                                  choices := Some([StrValue("huckel"), StrValue("guess")]));
    var l := [theory, multiplicity, basisSet, symmetry, wfnGuess];
    d := NamedDict(l);
    assert d == map["theory" := theory, "multiplicity" := multiplicity, "basis_set" := basisSet,
                    "symmetry" := symmetry, "wfn_guess" := wfnGuess] by {
      assert InsertAll(l, 0) == map[];
      assert InsertAll(l, 1) == InsertAll(l, 0)["theory" := theory];
      assert InsertAll(l, 2) == InsertAll(l, 1)["multiplicity" := multiplicity];
      assert InsertAll(l, 3) == InsertAll(l, 2)["basis_set" := basisSet];
      assert InsertAll(l, 4) == InsertAll(l, 3)["symmetry" := symmetry];
      assert InsertAll(l, 5) == InsertAll(l, 4)["wfn_guess" := wfnGuess];
    }
  }

  /** `integrator_parameters`: the frame interval keeps its default in
      picoseconds although the unit it records is femtoseconds. */
  method IntegratorParameters() returns (d: map<string, Parameter>)
    ensures d.Keys == {"timestep", "frame_interval"}
    ensures d["timestep"].declaredType == Prim(FloatKind)
    ensures d["timestep"].units == Some(DefaultTime)
    ensures d["timestep"].default == QuantityValue(Quantity(1.0, Fs))
    ensures d["frame_interval"].declaredType == Prim(FloatKind)
    ensures d["frame_interval"].units == Some(Fs)
    ensures d["frame_interval"].default == QuantityValue(Quantity(1.0, Ps))
    ensures forall k :: k in d ==> d[k].Valid()
  {
    var timestep := new Parameter("timestep", Some("Dynamics timestep"),
                                  default := QuantityValue(Quantity(1.0, Fs)),
                                  typeArg := UnitSpec(DefaultTime));
    var frameInterval := new Parameter("frame_interval", Some("Time between frames"),
                                       default := QuantityValue(Quantity(1.0, Ps)),
                                       typeArg := UnitSpec(Fs));
    var l := [timestep, frameInterval];
    d := NamedDict(l);
    assert d == map["timestep" := timestep, "frame_interval" := frameInterval] by {
      assert InsertAll(l, 0) == map[];
      assert InsertAll(l, 1) == InsertAll(l, 0)["timestep" := timestep];
      assert InsertAll(l, 2) == InsertAll(l, 1)["frame_interval" := frameInterval];
    }
  }

  /** `md_parameters`: four boolean switches. */
  method MdParameters() returns (d: map<string, Parameter>)
    ensures d.Keys == {"remove_translation", "constrain_hbonds", "constrain_water",
                       "remove_rotation"}
    ensures forall k :: k in d ==> d[k].declaredType == Prim(BoolKind) && d[k].units == None
    ensures d["remove_translation"].default == BoolValue(true)
    ensures d["constrain_hbonds"].default == BoolValue(true)
    ensures d["constrain_water"].default == BoolValue(true)
    ensures d["remove_rotation"].default == BoolValue(false)
    ensures forall k :: k in d ==> d[k].Valid()
  {
    var removeTranslation := new Parameter("remove_translation", Some("Remove global translations"),
                                           default := BoolValue(true), typeArg := Prim(BoolKind));
    var constrainHbonds := new Parameter("constrain_hbonds", Some("Constrain covalent hydrogen bonds"),
                                         default := BoolValue(true), typeArg := Prim(BoolKind));
    var constrainWater := new Parameter("constrain_water", Some("Constrain water geometries"),
                                        default := BoolValue(true), typeArg := Prim(BoolKind));
    var removeRotation := new Parameter("remove_rotation", Some("Remove global rotations"),
                                        default := BoolValue(false), typeArg := Prim(BoolKind));
    var l := [removeTranslation, constrainHbonds, constrainWater, removeRotation];
    d := NamedDict(l);
    assert d == map["remove_translation" := removeTranslation, "constrain_hbonds" := constrainHbonds,
                    "constrain_water" := constrainWater, "remove_rotation" := removeRotation] by {
      assert InsertAll(l, 0) == map[];
      assert InsertAll(l, 1) == InsertAll(l, 0)["remove_translation" := removeTranslation];
      assert InsertAll(l, 2) == InsertAll(l, 1)["constrain_hbonds" := constrainHbonds];
      assert InsertAll(l, 3) == InsertAll(l, 2)["constrain_water" := constrainWater];
      assert InsertAll(l, 4) == InsertAll(l, 3)["remove_rotation" := removeRotation];
    }
  }

  /** `constant_temp_parameters`: the target temperature. */
  method ConstantTempParameters() returns (d: map<string, Parameter>)
    ensures d.Keys == {"temperature"}
    ensures d["temperature"].declaredType == Prim(FloatKind)
    ensures d["temperature"].units == Some(DefaultTemperature)
    ensures d["temperature"].default == QuantityValue(Quantity(298.0, Kelvin))
    ensures forall k :: k in d ==> d[k].Valid()
  {
    var temperature := new Parameter("temperature", Some("Thermostat temperature"),
                                     default := QuantityValue(Quantity(298.0, Kelvin)),
                                     typeArg := UnitSpec(DefaultTemperature));
    var l := [temperature];
    d := NamedDict(l);
    assert d == map["temperature" := temperature] by {
      assert InsertAll(l, 0) == map[];
      assert InsertAll(l, 1) == InsertAll(l, 0)["temperature" := temperature];
    }
  }

  /** `langevin_parameters`: the collision rate, whose type is given as the
      quantity `1/ps`; only its unit is kept. */
  method LangevinParameters() returns (d: map<string, Parameter>)
    ensures d.Keys == {"collision_rate"}
    ensures d["collision_rate"].declaredType == Prim(FloatKind)
    ensures d["collision_rate"].units == Some(PerPs)
    ensures d["collision_rate"].default == QuantityValue(Quantity(1.0, PerPs))
    ensures forall k :: k in d ==> d[k].Valid()
  {
    var collisionRate := new Parameter("collision_rate", Some("Thermal collision rate"),
                                       default := QuantityValue(Quantity(1.0, PerPs)),
                                       typeArg := QuantitySpec(Quantity(1.0, PerPs)));
    var l := [collisionRate];
    d := NamedDict(l);
    assert d == map["collision_rate" := collisionRate] by {
      assert InsertAll(l, 0) == map[];
      assert InsertAll(l, 1) == InsertAll(l, 0)["collision_rate" := collisionRate];
    }
  }
}
