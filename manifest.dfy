/** The pipeline manifest (`manifest.json`): a list of pipeline definitions. */
module Manifest {
  import opened Wrappers

  /**
   * One manifest entry `{id, name, group, ...}`. A key the JSON object lacks
   * reads as `None` (`entry.get(...)`); other keys are irrelevant here.
   */
  datatype Entry = Entry(id: Option<string>, name: Option<string>, group: Option<string>)
}
