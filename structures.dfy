/** The records the coordinator publishes to the entities. */
module Structures {

  /** One matrix output. `source` is the routed input as the device reports it. */
  datatype OutputInfo = OutputInfo(
    source: int,
    name: string,
    catName: string,
    connected: bool,
    catConnected: bool,
    enabled: bool,
    catEnabled: bool,
    scaler: int,
    cecSelected: bool)

  /** One matrix input. `outputs` is derived: the outputs currently routed from this input. */
  datatype SourceInfo = SourceInfo(
    outputs: seq<int>,
    name: string,
    active: bool,
    edidIndex: int,
    cecSelected: bool)
}
