/** A priority level: a named level, one of which is marked as the default. */
module PriorityLevels {
  import opened Base

  class PriorityLevel {
    const id: Id
    var name: string
    var isDefault: bool

    /** `new PriorityLevel(name, isDefault)`, with `id` the fresh UUID. */
    constructor (id: Id, name: string, isDefault: bool)
      ensures this.id == id && this.name == name && this.isDefault == isDefault
    {
      this.id := id;
      this.name := name;
      this.isDefault := isDefault;
    }

    method SetName(name: string)
      modifies this
      ensures this.name == name && isDefault == old(isDefault)
    {
      this.name := name;
    }

    method SetDefault(isDefault: bool)
      modifies this
      ensures this.isDefault == isDefault && name == old(name)
    {
      this.isDefault := isDefault;
    }

    /** PriorityLevel.toString: the level is shown by its name alone. */
    function ToString(): (s: string)
      reads this
      ensures s == name
    {
      name
    }
  }
}
