/** A multiverse groups two versions of a galaxy: the local copy in slot 0 and
    the server copy in slot 1. */
module MultiverseModel {
  import opened Common

  class Multiverse<G> {
    const id: string
    const slots: array<Option<G>>

    ghost predicate Valid()
      reads this
    {
      slots.Length == 2
    }

    constructor (id: string)
      ensures Valid() && fresh(slots)
      ensures this.id == id
      ensures Local() == None && Server() == None
    {
      this.id := id;
      slots := new Option<G>[2](_ => None);
    }

    function Local(): Option<G>
      requires Valid()
      reads this, slots
    {
      slots[0]
    }

    function Server(): Option<G>
      requires Valid()
      reads this, slots
    {
      slots[1]
    }

    method SetLocal(value: G)
      requires Valid()
      modifies slots
      ensures Valid()
      ensures Local() == Some(value) && Server() == old(Server())
    {
      slots[0] := Some(value);
    }

    method SetServer(value: G)
      requires Valid()
      modifies slots
      ensures Valid()
      ensures Server() == Some(value) && Local() == old(Local())
    {
      slots[1] := Some(value);
    }
  }
}
