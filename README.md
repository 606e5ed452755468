# Parameter descriptors of the molecular design toolkit

This project models `moldesign/parameters.py`, the module that declares the
configuration parameters of the toolkit's techniques (force-field cutoffs,
QM theory choices, integrator time steps, thermostat settings), and proves
properties of that model in Dafny.

Two pieces of the module behave; the rest is data built with them.

- `Parameter` (module `Parameters`, file `parameters.dfy`) is a class. Its
  constructor follows `Parameter.__init__` step by step:
  - `displayname` falls back to `name`;
  - `value` starts unset (`NoneValue`);
  - `choices` falls back to the empty list;
  - the `type` argument is reclassified. A quantity is first reduced to its
    unit. A unit then makes the stored type `float` and is recorded in
    `units`. Any other argument is stored unchanged, with no unit.

  The Python `type` argument becomes the tagged datatype `TypeSpec`
  (`NoType | Prim(kind) | UnitSpec(unit) | QuantitySpec(quantity)`), so the
  runtime `isinstance` checks become case tests. The stored field is called
  `declaredType` because `type` is a Dafny keyword. All fields except `value`
  are `const`; `value` is the mutable slot that consumers bind later.
- `named_dict` is the function `NamedDict`. It inserts every descriptor
  under its name, in order, into a `map<string, Parameter>` (the fold
  `InsertAll`), so a later descriptor silently replaces an earlier one with
  the same name. Its lemmas state:
  - the key set is exactly the set of names;
  - each key maps to the last descriptor with that name;
  - the size never exceeds the number of descriptors, and equals it exactly
    when the names are distinct;
  - building from a concatenation is a right-biased map union.

The seven predefined sets (`model_parameters`, `mm_model_parameters`, …)
are methods of module `ParameterSets` (file `parameter_sets.dfy`). Each
allocates its descriptors with the source's arguments and builds the map
with `NamedDict`. Their postconditions state that every descriptor in the
result keeps the constructor's invariant `Valid()` (a recorded unit comes
with the float type, and the stored type is never a unit), and record
concrete facts about the result. For example, `cutoff` is a float with unit nm and a 1.0 nm default,
and `frame_interval` keeps its picosecond default although its recorded unit
is femtoseconds.

Units are symbolic: `Unit(symbol)` names the unit expression used in the
source (`nm`, `fs`, `default.time`, `1/ps`, …). A quantity is a magnitude
plus a unit. Nothing is ever converted. Python floats are kept as exact
`real` literals, since the module does no arithmetic on them.

Names need not be distinct: `named_dict` keeps the last duplicate. The
model follows the code, and `NamedDictSize` states exactly when no entry is
lost.

## Model

| member | source | states |
|---|---|---|
| `Parameters.Parameter.constructor` | moldesign/parameters.py:38-68 | displayname is the short description when given and the name otherwise; value starts unset whatever the default; choices is the given list or empty; a unit or quantity type yields type float and that unit (a quantity's magnitude is dropped); any other type is stored unchanged with no unit; default, help_url and select_multiple are stored unchanged; construction has no precondition and never fails |
| `Parameters.NamedDict` | moldesign/parameters.py:72-73 | the in-order fold `InsertAll` of the descriptors into a map keyed by name; its properties are the lemma rows below |
| `Parameters.NamedDictKeys` | moldesign/parameters.py:72-73 | the keys of `named_dict(l)` are exactly the names occurring in `l` |
| `Parameters.NamedDictLastWins` | moldesign/parameters.py:72-73 | a descriptor with no later descriptor of the same name is what its name maps to |
| `Parameters.NamedDictEntryIsLast` | moldesign/parameters.py:72-73 | every entry is the last descriptor of `l` carrying that key as its name |
| `Parameters.NamedDictDistinctLookup` | moldesign/parameters.py:72-73 | when the names are distinct, every descriptor is found under its own name |
| `Parameters.NamedDictSize` | moldesign/parameters.py:72-73 | the mapping has at most `len(l)` entries, and exactly `len(l)` if and only if the names are distinct |
| `Parameters.NamedDictAppend` | moldesign/parameters.py:72-73 | the mapping of `l1 + l2` is that of `l1` overridden by that of `l2` (later entries win) |
| `ParameterSets.ModelParameters` | moldesign/parameters.py:75-77 | `subsystem` is the only key; its descriptor has every argument at its default: displayname `subsystem`, no type, no unit, no default, no choices |
| `ParameterSets.MmModelParameters` | moldesign/parameters.py:80-98 | exactly the seven keys; `cutoff` has type float, unit nm and a 1.0 nm default; `nonbonded` defaults to `'cutoff'` with choices `cutoff`, `pme`, `ewald`; `implicit_solvent` has no default; `periodic` defaults to False with the choices `[False, 'box']` and no type |
| `ParameterSets.QmModelParameters` | moldesign/parameters.py:100-107 | exactly the five keys; `theory` has no default and empty choices, so its default is outside its choices; `multiplicity` is an int defaulting to 1; `symmetry` has no short description, so its displayname is its name; `wfn_guess` defaults to `'huckel'` |
| `ParameterSets.IntegratorParameters` | moldesign/parameters.py:109-112 | `timestep` is a float in the default time unit; `frame_interval` is a float recorded in fs whose default stays 1.0 ps, unconverted |
| `ParameterSets.MdParameters` | moldesign/parameters.py:114-123 | the four switches are booleans with no unit; three default to True and `remove_rotation` to False |
| `ParameterSets.ConstantTempParameters` | moldesign/parameters.py:125-127 | `temperature` is a float in the default temperature unit with a 298 K default |
| `ParameterSets.LangevinParameters` | moldesign/parameters.py:129-131 | `collision_rate`, typed by the quantity `1/ps`, is a float with unit `1/ps` |

## Left out

- The units library (`u.MdtQuantity`, `u.MdtUnit`, unit arithmetic and conversion) is not part of this model. Units are symbolic tags and quantities are magnitude plus tag. `1/u.ps` is taken to be a quantity of magnitude 1. Were it a bare unit instead, the stored type and unit would be the same.
- `DotDict` attribute-style access (moldesign/parameters.py:23, 73) is not part of this model; the plain map has the same key semantics.
- Aliasing of Python lists: `choices=PERIODICITIES` shares one mutable list between the module constant and the descriptor. The model stores sequence values, so a later mutation of that list is not reflected.
- The marker classes `ForceField`, `BasisSet`, `ElectronicWfn`, `QMTheory`, `SymmetryGroup` (moldesign/parameters.py:26-35) have no behaviour. A class passed as a type is modelled as `ClassKind(name)`, and none of them is used as a type in this file.
- Floating-point values (78.5, 0.0005, …) are exact `real` literals, and int magnitudes of quantities (`298 * u.kelvin`, `1/u.ps`) become reals too. No numerics are involved.
- The property-name lists `ground_state_properties`, `excited_state_properties` and `multistate_properties` (moldesign/parameters.py:133-169) and the request conventions in their docstrings. They are interpreted by calculation code outside this file.
- The stale docstring parameters `types` and `number` (moldesign/parameters.py:50-51) do not exist in the signature.
- Notebook UI generation, which the module docstring mentions and which lives elsewhere.
- `ParameterSets.MmModelParameters`: records only some descriptors' arguments (keys, `cutoff`, `nonbonded`, `implicit_solvent`, `periodic`). The rest are built with the source's arguments but not restated in the postcondition. Their entry count of 7 follows from the seven distinct keys and is not stated separately.
- `ParameterSets.QmModelParameters`: does not restate the displaynames of `theory`, `multiplicity` and `basis_set`. The entry count of 5 follows from the key set.
