/** The `dob_ops` data source of internal/provider/ops/ops_data_source.go: every Ops group
    the backend lists, each with its engineers copied in full. */
module OpsDataSource {
  import opened Wrappers
  import opened Seqs
  import opened Models
  import opened Http
  import opened Framework
  import OpsApi

  /** opsDSEngineer: an engineer inside a row, all three fields kept. */
  datatype OpsEngineerRow = OpsEngineerRow(id: string, name: string, email: string)

  /** opsDSModel: one row of the `ops` list. */
  datatype OpsRow = OpsRow(id: string, name: string, engineers: seq<OpsEngineerRow>)

  function EngineerRowOf(e: Engineer): OpsEngineerRow {
    OpsEngineerRow(e.id, e.name, e.email)
  }

  function EngineerOfRow(row: OpsEngineerRow): Engineer {
    Engineer(row.id, row.name, row.email)
  }

  function RowOf(d: Ops): OpsRow {
    OpsRow(d.id, d.name, Map(d.engineers, EngineerRowOf))
  }

  function OpsOfRow(row: OpsRow): Ops {
    Ops(row.id, row.name, Map(row.engineers, EngineerOfRow))
  }

  /** The rows for a listing: one per group, in the backend's order. */
  function Rows(groups: seq<Ops>): seq<OpsRow> {
    Map(groups, RowOf)
  }

  /** Unlike the resource, which keeps only engineer IDs, the rows lose nothing: the
      listing, engineers included, can be read back from them. */
  lemma {:induction false} RowsLossless(groups: seq<Ops>)
    ensures Map(Rows(groups), OpsOfRow) == groups
  {
    forall d: Ops
      ensures OpsOfRow(RowOf(d)) == d
    {
      MapInverse(d.engineers, EngineerRowOf, EngineerOfRow);
    }
    MapInverse(groups, RowOf, OpsOfRow);
  }

  /** The two nested loops that build the rows. */
  method BuildRows(groups: seq<Ops>) returns (rows: seq<OpsRow>)
    ensures rows == Rows(groups)
  {
    rows := [];
    var i := 0;
    while i < |groups|
      invariant 0 <= i <= |groups|
      invariant |rows| == i
      invariant forall j :: 0 <= j < i ==> rows[j] == RowOf(groups[j])
    {
      var dv := groups[i];
      var engineers := Collect(dv.engineers, EngineerRowOf);
      rows := rows + [OpsRow(dv.id, dv.name, engineers)];
      i := i + 1;
    }
  }

  class OpsDataSource {
    const client: Client

    constructor (client: Client)
      ensures this.client == client
    {
      this.client := client;
    }

    /** Read: list the groups; an error adds one diagnostic whose detail is the error text
        and sets nothing; otherwise the state is the rows of the listing. */
    method Read(resp: Response<seq<OpsRow>>)
      modifies client.transport, resp
      ensures var k := OpsApi.GetOpsCall(client, old(client.transport.sent));
              client.transport.sent == k.sent &&
              match k.result
              case Failure(e) =>
                resp.state == old(resp.state) &&
                resp.diagnostics == old(resp.diagnostics) + [ErrorDiagnostic("Unable to read Ops groups", ErrorText(e))]
              case Success(groups) =>
                resp.state == Some(Rows(groups)) && resp.diagnostics == old(resp.diagnostics)
    {
      var groups := OpsApi.GetOps(client);
      if groups.Failure? {
        resp.AddError("Unable to read Ops groups", ErrorText(groups.error));
        return;
      }
      var state := BuildRows(groups.value);
      resp.Set(state);
    }
  }
}
