/** The `dob_devops` data source of internal/provider/devops/devops_data_source.go: every
    pairing the backend lists, each as its ID and the IDs of its groups. */
module DevOpsDataSource {
  import opened Wrappers
  import opened Seqs
  import opened Models
  import opened Http
  import opened Framework
  import DevOpsApi
  import DevOpsResource

  /** devopsDSModel: one row of the `devops` list. */
  datatype DevOpsRow = DevOpsRow(id: string, devs: seq<string>, ops: seq<string>)

  function RowOf(d: DevOps): DevOpsRow {
    DevOpsRow(d.id, DevIDs(d.dev), OpsIDs(d.ops))
  }

  /** The rows for a listing: one per pairing, in the backend's order. */
  function Rows(items: seq<DevOps>): seq<DevOpsRow> {
    Map(items, RowOf)
  }

  /** A row says of a pairing exactly what the resource's state says of it. */
  lemma RowAgreesWithResource(d: DevOps)
    ensures var s := DevOpsResource.Declared(d);
            RowOf(d) == DevOpsRow(s.id, s.devs, s.ops)
  {
  }

  /** The pairing a row describes when the backend returns groups by ID only. */
  function PairingOf(row: DevOpsRow): DevOps {
    DevOps(row.id, DevStubs(row.devs), OpsStubs(row.ops))
  }

  /** Rows keep every reference: for any rows, the listing of the pairings they describe
      produces them again. */
  lemma {:induction false} RowsKeepReferences(rows: seq<DevOpsRow>)
    ensures Rows(Map(rows, PairingOf)) == rows
  {
    forall row: DevOpsRow
      ensures RowOf(PairingOf(row)) == row
    {
      StubsRoundTrip(row.devs);
      StubsRoundTrip(row.ops);
    }
    MapInverse(rows, PairingOf, RowOf);
  }

  /** The loop that builds the rows, with its two inner ID loops. */
  method BuildRows(items: seq<DevOps>) returns (rows: seq<DevOpsRow>)
    ensures rows == Rows(items)
  {
    rows := [];
    var i := 0;
    while i < |items|
      invariant 0 <= i <= |items|
      invariant |rows| == i
      invariant forall j :: 0 <= j < i ==> rows[j] == RowOf(items[j])
    {
      var it := items[i];
      var devIDs := Collect(it.dev, DevID);
      var opsIDs := Collect(it.ops, OpsID);
      rows := rows + [DevOpsRow(it.id, devIDs, opsIDs)];
      i := i + 1;
    }
  }

  class DevOpsDataSource {
    const client: Client

    constructor (client: Client)
      ensures this.client == client
    {
      this.client := client;
    }

    /** Read: list the pairings; an error adds one diagnostic whose detail is the error
        text and sets nothing; otherwise the state is the rows of the listing. */
    method Read(resp: Response<seq<DevOpsRow>>)
      modifies client.transport, resp
      ensures var k := DevOpsApi.GetDevOpsCall(client, old(client.transport.sent));
              client.transport.sent == k.sent &&
              match k.result
              case Failure(e) =>
                resp.state == old(resp.state) &&
                resp.diagnostics == old(resp.diagnostics) + [ErrorDiagnostic("Unable to read DevOps groups", ErrorText(e))]
              case Success(items) =>
                resp.state == Some(Rows(items)) && resp.diagnostics == old(resp.diagnostics)
    {
      var items := DevOpsApi.GetDevOps(client);
      if items.Failure? {
        resp.AddError("Unable to read DevOps groups", ErrorText(items.error));
        return;
      }
      var state := BuildRows(items.value);
      resp.Set(state);
    }
  }
}
