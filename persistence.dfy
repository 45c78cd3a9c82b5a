/** What the store layer relies on from the persistence service: only the
    fallback it applies when loading the priority levels. Files and JSON are
    not modelled; what storage holds is a parameter. */
module Persistence {
  import opened Base
  import opened PriorityLevels

  /** DataPersistenceService.loadPriorityLevels, with `stored` for what the
      priorities file holds and `id` for the UUID of a new level: an empty
      store yields a single level "Default" flagged default, so the result is
      never empty. */
  method LoadPriorityLevels(stored: seq<PriorityLevel>, id: Id) returns (levels: seq<PriorityLevel>)
    ensures levels != []
    ensures stored != [] ==> levels == stored
    ensures stored == [] ==>
      && |levels| == 1 && fresh(levels[0])
      && levels[0].id == id && levels[0].name == "Default" && levels[0].isDefault
  {
    levels := stored;
    if levels == [] {
      var level := new PriorityLevel(id, "Default", true);
      levels := [level];
    }
  }
}
