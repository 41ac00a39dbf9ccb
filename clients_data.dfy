/** The list of clients to report on: created empty, grown only by `Add`,
    read in insertion order through `GetAll`. */
module ClientsStore {
  import opened Clients

  class ClientsData {
    var clients: seq<Client>

    constructor ()
      ensures clients == []
    {
      clients := [];
    }

    /** Appends `client` at the end; earlier entries and the clients
        themselves are left as they were. */
    method Add(client: Client)
      modifies this`clients
      ensures |clients| == |old(clients)| + 1
      ensures clients[|clients| - 1] == client
      ensures clients[..|clients| - 1] == old(clients)
    {
      clients := clients + [client];
    }

    /** Every client added so far, in the order they were added. */
    method GetAll() returns (all: seq<Client>)
      ensures all == clients
    {
      all := clients;
    }
  }
}
