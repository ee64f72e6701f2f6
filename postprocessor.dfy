/**
 * The Cavium configuration postprocessor (`CaviumTrConfigurationInitializer`):
 * before the desired configuration is compared with the device's, it forces
 * the cell to be barred and the admin state to be on.
 */
module ConfigPostprocessor {
  import opened CaviumDataModel

  /** A configuration snapshot (`EnodebConfiguration`): the value set for each parameter name. */
  class EnodebConfiguration {
    var values: map<ParamName, Value>

    constructor(values: map<ParamName, Value>)
      ensures this.values == values
    {
      this.values := values;
    }

    /** `set_parameter`: sets one name's value and leaves every other name as it was. */
    method SetParameter(name: ParamName, value: Value)
      modifies this
      ensures values == old(values)[name := value]
    {
      values := values[name := value];
    }
  }

  /** The values forced by the postprocessor: barred cell, admin state on. */
  predicate Forced(values: map<ParamName, Value>) {
    Base(CellBarred) in values && values[Base(CellBarred)] == BoolValue(true)
    && Base(AdminState) in values && values[Base(AdminState)] == BoolValue(true)
  }

  /** The snapshot `postprocess` leaves behind, as a function of the one it is given. */
  function Postprocessed(values: map<ParamName, Value>): (r: map<ParamName, Value>)
    ensures Forced(r)
    ensures r.Keys == values.Keys + {Base(CellBarred), Base(AdminState)}
    ensures forall name | name in values && name != Base(CellBarred) && name != Base(AdminState)
              :: r[name] == values[name]
  {
    values[Base(CellBarred) := BoolValue(true)][Base(AdminState) := BoolValue(true)]
  }

  /** A snapshot that already holds the forced values is left as it is. */
  lemma PostprocessFixesForced(values: map<ParamName, Value>)
    requires Forced(values)
    ensures Postprocessed(values) == values
  {
    assert Postprocessed(values).Keys == values.Keys;
  }

  /** Postprocessing twice gives the same snapshot as postprocessing once. */
  lemma PostprocessIdempotent(values: map<ParamName, Value>)
    ensures Postprocessed(Postprocessed(values)) == Postprocessed(values)
  {
    PostprocessFixesForced(Postprocessed(values));
  }

  /** `postprocess`: sets CELL_BARRED, then ADMIN_STATE, to True in the desired snapshot, in place. */
  method Postprocess(desired: EnodebConfiguration)
    modifies desired
    ensures desired.values == Postprocessed(old(desired.values))
  {
    desired.SetParameter(Base(CellBarred), BoolValue(true));
    desired.SetParameter(Base(AdminState), BoolValue(true));
  }
}
