/** The `dob_engineer` data source of internal/provider/engineers/engineers_data_source.go:
    every engineer the backend lists, one row each. */
module EngineerDataSource {
  import opened Wrappers
  import opened Seqs
  import opened Models
  import opened Http
  import opened Framework
  import EngineerApi

  /** engineersModel: one row of the `engineers` list. */
  datatype EngineerRow = EngineerRow(id: string, name: string, email: string)

  function RowOf(e: Engineer): EngineerRow {
    EngineerRow(e.id, e.name, e.email)
  }

  function EngineerOf(row: EngineerRow): Engineer {
    Engineer(row.id, row.name, row.email)
  }

  /** The rows for a listing: one per engineer, in the backend's order. */
  function Rows(engineers: seq<Engineer>): seq<EngineerRow> {
    Map(engineers, RowOf)
  }

  /** The rows lose nothing: the listing can be read back from them. */
  lemma {:induction false} RowsLossless(engineers: seq<Engineer>)
    ensures Map(Rows(engineers), EngineerOf) == engineers
  {
    MapInverse(engineers, RowOf, EngineerOf);
  }

  class EngineerDataSource {
    const client: Client

    constructor (client: Client)
      ensures this.client == client
    {
      this.client := client;
    }

    /** Read: list the engineers; an error adds one diagnostic whose detail is the error
        text and sets nothing; otherwise the state is the rows of the listing. */
    method Read(resp: Response<seq<EngineerRow>>)
      modifies client.transport, resp
      ensures var k := EngineerApi.GetEngineersCall(client, old(client.transport.sent));
              client.transport.sent == k.sent &&
              match k.result
              case Failure(e) =>
                resp.state == old(resp.state) &&
                resp.diagnostics == old(resp.diagnostics) + [ErrorDiagnostic("Unable to Read HashiCups Engineers", ErrorText(e))]
              case Success(engineers) =>
                resp.state == Some(Rows(engineers)) && resp.diagnostics == old(resp.diagnostics)
    {
      var engineers := EngineerApi.GetEngineers(client);
      if engineers.Failure? {
        resp.AddError("Unable to Read HashiCups Engineers", ErrorText(engineers.error));
        return;
      }
      var state := Collect(engineers.value, RowOf);
      resp.Set(state);
    }
  }
}
