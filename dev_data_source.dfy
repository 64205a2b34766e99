/** The `dob_dev` data source of internal/provider/devs/dev_data_source.go: every Dev group
    the backend lists, each with its engineers copied in full. */
module DevDataSource {
  import opened Wrappers
  import opened Seqs
  import opened Models
  import opened Http
  import opened Framework
  import DevApi

  /** devDSEngineer: an engineer inside a row, all three fields kept. */
  datatype DevEngineerRow = DevEngineerRow(id: string, name: string, email: string)

  /** devDSModel: one row of the `dev` list. */
  datatype DevRow = DevRow(id: string, name: string, engineers: seq<DevEngineerRow>)

  function EngineerRowOf(e: Engineer): DevEngineerRow {
    DevEngineerRow(e.id, e.name, e.email)
  }

  function EngineerOfRow(row: DevEngineerRow): Engineer {
    Engineer(row.id, row.name, row.email)
  }

  function RowOf(d: Dev): DevRow {
    DevRow(d.id, d.name, Map(d.engineers, EngineerRowOf))
  }

  function DevOfRow(row: DevRow): Dev {
    Dev(row.id, row.name, Map(row.engineers, EngineerOfRow))
  }

  /** The rows for a listing: one per group, in the backend's order. */
  function Rows(groups: seq<Dev>): seq<DevRow> {
    Map(groups, RowOf)
  }

  /** Unlike the resource, which keeps only engineer IDs, the rows lose nothing: the
      listing, engineers included, can be read back from them. */
  lemma {:induction false} RowsLossless(groups: seq<Dev>)
    ensures Map(Rows(groups), DevOfRow) == groups
  {
    forall d: Dev
      ensures DevOfRow(RowOf(d)) == d
    {
      MapInverse(d.engineers, EngineerRowOf, EngineerOfRow);
    }
    MapInverse(groups, RowOf, DevOfRow);
  }

  /** The two nested loops that build the rows. */
  method BuildRows(devs: seq<Dev>) returns (rows: seq<DevRow>)
    ensures rows == Rows(devs)
  {
    rows := [];
    var i := 0;
    while i < |devs|
      invariant 0 <= i <= |devs|
      invariant |rows| == i
      invariant forall j :: 0 <= j < i ==> rows[j] == RowOf(devs[j])
    {
      var dv := devs[i];
      var engineers := Collect(dv.engineers, EngineerRowOf);
      rows := rows + [DevRow(dv.id, dv.name, engineers)];
      i := i + 1;
    }
  }

  class DevDataSource {
    const client: Client

    constructor (client: Client)
      ensures this.client == client
    {
      this.client := client;
    }

    /** Read: list the groups; an error adds one diagnostic whose detail is the error text
        and sets nothing; otherwise the state is the rows of the listing. */
    method Read(resp: Response<seq<DevRow>>)
      modifies client.transport, resp
      ensures var k := DevApi.GetDevCall(client, old(client.transport.sent));
              client.transport.sent == k.sent &&
              match k.result
              case Failure(e) =>
                resp.state == old(resp.state) &&
                resp.diagnostics == old(resp.diagnostics) + [ErrorDiagnostic("Unable to read Dev groups", ErrorText(e))]
              case Success(devs) =>
                resp.state == Some(Rows(devs)) && resp.diagnostics == old(resp.diagnostics)
    {
      var devs := DevApi.GetDev(client);
      if devs.Failure? {
        resp.AddError("Unable to read Dev groups", ErrorText(devs.error));
        return;
      }
      var state := BuildRows(devs.value);
      resp.Set(state);
    }
  }
}
