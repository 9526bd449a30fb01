# POLARIS model catalogue (tools/src/custom/model.py), modelled in Dafny

POLARIS is a radiative-transfer code; `model.py` is its catalogue of model
presets. Each preset is a Python class that fills parameter dictionaries and
overrides some evaluators (gas density, dust id, grain sizes, scale height),
which the grid builder calls once per cell with `self.position` set. This
project models the structural part of that catalogue:

- the registry `update_model_dict`, which merges the twelve preset names into
  the caller's dictionary (`registry.dfy`, module `Registry`);
- HD97048: `use_extra_parameter` (a class whose method assigns `use_cont`,
  `mf_pah` and `gas_mass`), the density table and `scale_height`
  (`hd97048.dfy`, module `HD97048Preset`);
- TestModel's region-dependent evaluators (`test_model.dfy`);
- MultiDisk's density table (`multi_disk.dfy`);
- GGTauDisk's sum of a tapered circumbinary term and three circumstellar
  terms (`gg_tau_disk.dfy`).

The `Math` helper object, the numpy routines and the physical constants are
not part of this model: they are the fields of a `MathLib` value passed to
every evaluator (`common.dfy`). The disk and sphere density profiles,
`rotate_coord_system`, `sqrt`, `exp`, `sin` and the power operator are
uninterpreted functions; the proofs assume only what `Common.Valid` states
(`au`, `pc`, `M_sun` positive; `sqrt` returns the non-negative root; `exp` is
positive, at most 1 for non-positive arguments and 1 at 0; `x ** 1.0 == x`).
Densities are never computed, only their arrangement in tables, the branch
that selects them and how the terms are combined. Numbers are Dafny `real`s.

Presets whose fields are only assigned by their constructor (TestModel,
MultiDisk, GGTauDisk) are datatypes built by a function that holds the
constructor's values; HD97048, whose fields `use_extra_parameter` reassigns,
is a class. A Python attribute that does not exist until
`use_extra_parameter` assigns it is an `Option` field that starts as `None`.

`use_extra_parameter` receives its tokens already converted: each `Token`
holds what `int(token)` and `float(token)` return, or `None` where Python
raises `ValueError`. The method returns `false` in that case and leaves the
state as Python leaves it at the raise: with two tokens and a bad second
token, `use_cont` has already been reassigned while `mf_pah` and `gas_mass`
keep their old values.

A token count other than one or two is not rejected: it selects the ring
version with `mf_pah = 1e-3` (tools/src/custom/model.py:528-530). A design
that raises an error for a wrong count would differ here; this model follows
the code.

## Model

| member | source | states |
|---|---|---|
| Registry.Updated | tools/src/custom/model.py:12-27 | after `dictionary.update(model_dict)` the keys are the caller's keys plus the twelve names, every name maps to the table's class, every other key keeps its value |
| Registry.UpdateModelDict | tools/src/custom/model.py:12-27 | the caller's dictionary object is updated in place to `Updated` of its old contents |
| Registry.UpdatedRegistersEveryPreset | tools/src/custom/model.py:13-26 | each of `cube` ... `custom` maps to its own class after the update, whatever the caller held under that name |
| Registry.ModelTableSize | tools/src/custom/model.py:13-26 | the table has exactly twelve distinct names |
| Registry.UpdatedSize | tools/src/custom/model.py:27 | the dictionary grows by exactly the registered names it did not already hold |
| Registry.UpdatedIdempotent | tools/src/custom/model.py:27 | registering twice gives the same dictionary as registering once |
| HD97048Preset.ReadExtraParameter | tools/src/custom/model.py:522-530 | two tokens: flag `int(tok0) != 0`, fraction `float(tok1)`; one token: flag from it and fraction 1e-3; any other count: ring version and 1e-3, never an error; which conversion raises, in both directions |
| HD97048Preset.GasMassTable | tools/src/custom/model.py:532-543 | `gas_mass` is 3x5 with the continuum and 2x4 without |
| HD97048Preset.ContinuumGasMass | tools/src/custom/model.py:533-538 | continuum table: row 0 holds the four region masses and a 0, rows 1-2 are zero except the last column, which holds 0.2 and 0.8 of `mf_pah` (times M_sun), adding up to `mf_pah` |
| HD97048Preset.RingGasMass | tools/src/custom/model.py:539-543 | ring table: row 1 column 0 is 0, row 0 column 0 is 1e-4 M_sun, row 1 holds the `mf_pah` share of each ring, and the two rows add up to each region's mass |
| HD97048Preset.GasMassZeroPattern | tools/src/custom/model.py:533-543 | for 0 < mf_pah < 1 an entry of `gas_mass` is zero if and only if it is one of the structural zeros |
| HD97048Preset.ScaleHeight | tools/src/custom/model.py:596-615 | inside 0.3 au <= r <= 2.6 au (inclusive) the scale height is the inner disk's law (beta 1, 5 au at 100 au), elsewhere the rings' law (beta 1.26, 12 au at 100 au), the same laws the density calls are given |
| HD97048Preset.ScaleHeightLinearInBand | tools/src/custom/model.py:605-609 | in the band, ends included, the scale height is 5 au times radius over 100 au |
| HD97048Preset.Density | tools/src/custom/model.py:545-594 | continuum: 3x5, rows 1 and 2 identical, zero except column 4, row 0 ends in 0; rings: 2x4, row 1 is row 0 with column 0 replaced by 0 |
| HD97048Preset.DensityMatchesGasMass | tools/src/custom/model.py:70-75 | for every position and fraction the density has the shape of `gas_mass` built for the same `use_cont` and is zero at its structural zeros |
| HD97048Preset.HD97048.constructor | tools/src/custom/model.py:485-516 | a new model has none of `use_cont`, `mf_pah`, `gas_mass` assigned yet |
| HD97048Preset.HD97048.UseExtraParameter | tools/src/custom/model.py:518-543 | on success the fields are the values read from the tokens and `gas_mass` is the matching table; on a failed conversion, exactly the assignments made before the raise |
| HD97048Preset.HD97048.GasDensityDistribution | tools/src/custom/model.py:545-594 | defined exactly when `use_cont` was assigned, with the shape that `use_cont` selects |
| HD97048Preset.ConfiguredShapeContract | tools/src/custom/model.py:75 | after a successful `use_extra_parameter` the density returned at any position has the shape of the stored `gas_mass` |
| HD97048Preset.ExtraParameterScenarios | tools/src/custom/model.py:518-594 | no tokens: ring version, fraction 1e-3, two compositions; tokens "1", "0.5": continuum, fraction 0.5, three compositions |
| TestModelPreset.NewTestModel | tools/src/custom/model.py:184-185 | `gas_mass` is 2x1 |
| TestModelPreset.InInnerRegionBySquares | tools/src/custom/model.py:205 | `norm(pos) < 0.5 * outer_radius` holds exactly when the radius is positive and the squared norm is below the squared half radius |
| TestModelPreset.GasDensityDistribution | tools/src/custom/model.py:192-208 | 2x1 table, at most one composition non-zero, and the two entries add up to the sphere density |
| TestModelPreset.DustId | tools/src/custom/model.py:210-222 | the id is 0 or 1, and 0 exactly inside the region |
| TestModelPreset.DustMinSize | tools/src/custom/model.py:224-232 | the minimum grain size is positive |
| TestModelPreset.DustMaxSize | tools/src/custom/model.py:234-245 | the maximum grain size exceeds the minimum everywhere |
| TestModelPreset.RegionConsistency | tools/src/custom/model.py:205-245 | density, dust id and maximum size agree on the region: the composition the dust id names holds the density, the other is 0, and the maximum size is 0.25e-6 for id 0 and 0.001 for id 1; the minimum size is 5e-9 |
| TestModelPreset.ShapeContract | tools/src/custom/model.py:184-208 | the density has the shape of `gas_mass` at every position |
| MultiDiskPreset.NewMultiDisk | tools/src/custom/model.py:690 | `gas_mass` is 2x1 and the PAH entry is 1e-3 of the silicate entry |
| MultiDiskPreset.GasDensityDistribution | tools/src/custom/model.py:718-728 | 2x1 table whose two compositions are the same disk density |
| MultiDiskPreset.ShapeContract | tools/src/custom/model.py:690-728 | the density has the shape of `gas_mass` at every position |
| GGTauPreset.NewGGTauDisk | tools/src/custom/model.py:366-389 | cut-off and scale factors are positive, alpha is beta + 1.7 |
| GGTauPreset.TaperTestBySquares | tools/src/custom/model.py:402-426 | `radius_cy < 190 au` holds exactly when x^2 + y^2 < (190 au)^2 |
| GGTauPreset.TaperOnlyInside | tools/src/custom/model.py:423-433 | density is factor times the circumbinary term plus the three circumstellar terms; the circumbinary profile is multiplied by the taper only inside 190 au and left unchanged elsewhere |
| GGTauPreset.TaperBounds | tools/src/custom/model.py:426-428 | the taper lies in (0, 1] and is 1 at 190 au, so the term is continuous there |
| GGTauPreset.CircumbinaryBelowProfile | tools/src/custom/model.py:423-428 | tapering keeps a non-negative circumbinary profile between 0 and its untapered value |
| GGTauPreset.DensityNonNegative | tools/src/custom/model.py:396-433 | if the disk profile is never negative, neither is the GG Tau density |

## Left out

- The `Math` collaborator and numpy (`default_disk_density`, `sphere_density`, `rotate_coord_system`, `exp_list`, `simple_mag_field`, `sqrt`, `exp`, `sin`, `**`, the constants): not part of this model; uninterpreted parameters.
- The `Model` base class (`modules/base.py`) is not part of this model: its default evaluators, its parameter dictionaries and `spherical_parameter['outer_radius']`, which TestModel's region test reads and which is a field given to the model here.
- Floating-point rounding: all arithmetic is exact `real` arithmetic; no density value is computed.
- Parsing of token strings by `int()` and `float()`: the tokens arrive as their conversion results.
- Cube, Filament, Galaxy, MhdBastian, MhdFlock and CustomModel: constant configuration (and a no-op `use_extra_parameter`), modelled only as registered class names.
- GGTauCSDisk and ProtoplanetaryDisk `gas_density_distribution`: a single pass-through call to `default_disk_density` with no structure of their own.
- Constructor parameters no modelled evaluator reads (distance, grid type and cell counts, sources, detectors, dust compositions, conversion factors), and GGTauDisk's `radius_list` (numpy `linspace`/`hstack` and the unseen `exp_list`) and its `gas_mass` divided by the base class's `mass_fraction`.
- GGTauDisk's `planet_tunnel` and TestModel's `gas_density2`: computed by the source but never used in the returned value.
- Looking a preset up by name and the error for an unknown name: done by the caller of `update_model_dict`, which is not part of this model.
- Registry.UpdateModelDict: the caller's dictionary is typed `map<string, ModelClass>`; Python allows values of any type for the caller's other keys.
