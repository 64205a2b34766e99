/** The backend's entities as the client exchanges them. Engineer, Dev and Ops follow
    internal/provider/client/models.go; DevOps is the shape the DevOps resource and data
    source use (an ID plus the paired Dev and Ops groups). */
module Models {
  import opened Seqs

  datatype Engineer = Engineer(id: string, name: string, email: string)

  datatype Dev = Dev(id: string, name: string, engineers: seq<Engineer>)

  datatype Ops = Ops(id: string, name: string, engineers: seq<Engineer>)

  datatype DevOps = DevOps(id: string, dev: seq<Dev>, ops: seq<Ops>)

  /** A reference to an engineer as a write request carries it: the ID and Go's zero values elsewhere. */
  function EngineerStub(id: string): Engineer { Engineer(id, "", "") }

  function DevStub(id: string): Dev { Dev(id, "", []) }

  function OpsStub(id: string): Ops { Ops(id, "", []) }

  function EngineerID(e: Engineer): string { e.id }

  function DevID(d: Dev): string { d.id }

  function OpsID(o: Ops): string { o.id }

  /** A declared reference list turned into the stub objects a request carries. */
  function EngineerStubs(ids: seq<string>): seq<Engineer> { Map(ids, EngineerStub) }

  function DevStubs(ids: seq<string>): seq<Dev> { Map(ids, DevStub) }

  function OpsStubs(ids: seq<string>): seq<Ops> { Map(ids, OpsStub) }

  /** Nested entities flattened back to the reference list of the declared form. */
  function EngineerIDs(engs: seq<Engineer>): seq<string> { Map(engs, EngineerID) }

  function DevIDs(devs: seq<Dev>): seq<string> { Map(devs, DevID) }

  function OpsIDs(ops: seq<Ops>): seq<string> { Map(ops, OpsID) }

  /** Stubs carry exactly the references they were built from: flattening the stubs a
      write request sends gives back the declared list, element for element. */
  lemma StubsRoundTrip(ids: seq<string>)
    ensures EngineerIDs(EngineerStubs(ids)) == ids
    ensures DevIDs(DevStubs(ids)) == ids
    ensures OpsIDs(OpsStubs(ids)) == ids
  {
    MapInverse(ids, EngineerStub, EngineerID);
    MapInverse(ids, DevStub, DevID);
    MapInverse(ids, OpsStub, OpsID);
  }
}
