/** Shared definitions of the recycling-hub simulation (recycling_hubs/utils.py). */
module Utils {

  /** The lifecycle states a project agent can be in. The agent code only ever
      assigns Finished; Passive and Active are set at construction, and
      LifespanAlert and Incomplete are declared but never reached. */
  datatype Status = Passive | Active | LifespanAlert | Finished | Incomplete
}
