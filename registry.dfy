/** The model registry: `update_model_dict` merges the catalogue's fixed
    table of preset names into the dictionary the caller passes in, with the
    semantics of Python's `dict.update` (entries of the table overwrite,
    every other entry of the caller is kept). */
module Registry {

  /** The preset classes of the catalogue, one per registered name. */
  datatype ModelClass =
    | Cube
    | Filament
    | Galaxy
    | MhdBastian
    | MhdFlock
    | GGTauDisk
    | GGTauCSDisk
    | HD97048
    | ProtoplanetaryDisk
    | TestModel
    | MultiDisk
    | CustomModel

  /** The fixed table of names and classes merged into the caller's dictionary. */
  function ModelTable(): map<string, ModelClass> {
    map[
      "cube" := Cube,
      "filament" := Filament,
      "galaxy" := Galaxy,
      "mhd_bastian" := MhdBastian,
      "mhd_binary" := MhdFlock,
      "gg_tau_disk" := GGTauDisk,
      "gg_cs_disk" := GGTauCSDisk,
      "hd97048" := HD97048,
      "pp_disk" := ProtoplanetaryDisk,
      "test" := TestModel,
      "multi_disk" := MultiDisk,
      "custom" := CustomModel
    ]
  }

  /** The twelve registered names. */
  function ModelNames(): set<string> {
    {"cube", "filament", "galaxy", "mhd_bastian", "mhd_binary", "gg_tau_disk",
     "gg_cs_disk", "hd97048", "pp_disk", "test", "multi_disk", "custom"}
  }

  /** The dictionary after `dictionary.update(model_dict)`. */
  function Updated(d: map<string, ModelClass>): (r: map<string, ModelClass>)
    ensures r.Keys == d.Keys + ModelNames()
    ensures forall k :: k in ModelTable() ==> r[k] == ModelTable()[k]
    ensures forall k :: k in d && k !in ModelNames() ==> r[k] == d[k]
  {
    d + ModelTable()
  }

  /** The caller's dictionary, an object updated in place. */
  class ModelDictionary {
    var entries: map<string, ModelClass>

    constructor (initial: map<string, ModelClass>)
      ensures entries == initial
    {
      entries := initial;
    }
  }

  /** `update_model_dict(dictionary)`. */
  method UpdateModelDict(dictionary: ModelDictionary)
    modifies dictionary
    ensures dictionary.entries == Updated(old(dictionary.entries))
  {
    dictionary.entries := dictionary.entries + ModelTable();
  }

  /** Every name of the table is registered to its own class, whatever the
      caller's dictionary held under that name before. */
  lemma UpdatedRegistersEveryPreset(d: map<string, ModelClass>)
    ensures var r := Updated(d);
      && r["cube"] == Cube
      && r["filament"] == Filament
      && r["galaxy"] == Galaxy
      && r["mhd_bastian"] == MhdBastian
      && r["mhd_binary"] == MhdFlock
      && r["gg_tau_disk"] == GGTauDisk
      && r["gg_cs_disk"] == GGTauCSDisk
      && r["hd97048"] == HD97048
      && r["pp_disk"] == ProtoplanetaryDisk
      && r["test"] == TestModel
      && r["multi_disk"] == MultiDisk
      && r["custom"] == CustomModel
  {
    var t := ModelTable();
    assert t["cube"] == Cube;
    assert t["filament"] == Filament;
    assert t["galaxy"] == Galaxy;
    assert t["mhd_bastian"] == MhdBastian;
    assert t["mhd_binary"] == MhdFlock;
    assert t["gg_tau_disk"] == GGTauDisk;
    assert t["gg_cs_disk"] == GGTauCSDisk;
    assert t["hd97048"] == HD97048;
    assert t["pp_disk"] == ProtoplanetaryDisk;
    assert t["test"] == TestModel;
    assert t["multi_disk"] == MultiDisk;
    assert t["custom"] == CustomModel;
  }

  /** The table holds twelve distinct names. */
  lemma ModelTableSize()
    ensures ModelTable().Keys == ModelNames()
    ensures |ModelNames()| == 12
  {
    var names := ModelNames();
    assert |names| == 12;
  }

  /** The dictionary grows by exactly the registered names it did not hold. */
  lemma UpdatedSize(d: map<string, ModelClass>)
    ensures |Updated(d)| == |d.Keys - ModelNames()| + 12
  {
    ModelTableSize();
    var r := Updated(d);
    assert r.Keys == (d.Keys - ModelNames()) + ModelNames();
    assert (d.Keys - ModelNames()) !! ModelNames();
  }

  /** Registering a second time changes nothing. */
  lemma UpdatedIdempotent(d: map<string, ModelClass>)
    ensures Updated(Updated(d)) == Updated(d)
  {
  }
}
