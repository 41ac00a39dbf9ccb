/** A client of the report: a mutable record holding a name and an address.
    `ClientView` is the value a client shows through its getters at one
    moment; reports are specified over sequences of such values. */
module Clients {

  /** The (name, address) pair a client shows through `GetName` and `GetAddress`. */
  datatype ClientView = ClientView(name: string, address: string)

  class Client {
    var name: string
    var address: string

    constructor (name: string, address: string)
      ensures GetName() == name && GetAddress() == address
    {
      this.name := name;
      this.address := address;
    }

    /** Overwrites the name only. */
    method SetName(name: string)
      modifies this`name
      ensures GetName() == name
      ensures GetAddress() == old(GetAddress())
    {
      this.name := name;
    }

    /** Overwrites the address only. */
    method SetAddress(address: string)
      modifies this`address
      ensures GetAddress() == address
      ensures GetName() == old(GetName())
    {
      this.address := address;
    }

    /** The name as currently stored. */
    function GetName(): (current: string)
      reads this
      ensures current == this.name
    {
      name
    }

    /** The address as currently stored. */
    function GetAddress(): (current: string)
      reads this
      ensures current == this.address
    {
      address
    }

    /** What the getters return right now. */
    function View(): (view: ClientView)
      reads this
    {
      ClientView(GetName(), GetAddress())
    }
  }

  /** The views of a sequence of clients, in the same order; a client that
      occurs twice shows the same view at both positions. */
  function Snapshot(cs: seq<Client>): (vs: seq<ClientView>)
    reads cs
    ensures |vs| == |cs|
    ensures forall i :: 0 <= i < |cs| ==> vs[i] == cs[i].View()
    decreases |cs|
  {
    if cs == [] then [] else Snapshot(cs[..|cs| - 1]) + [cs[|cs| - 1].View()]
  }

  /** Appending a client to a list appends its current view to the snapshot. */
  lemma SnapshotAppend(cs: seq<Client>, c: Client)
    ensures Snapshot(cs + [c]) == Snapshot(cs) + [c.View()]
  {
    assert (cs + [c])[..|cs|] == cs;
  }
}
