/** The `dob_ops` resource of internal/provider/ops/ops_resource.go: an Ops group declared
    by name and a list of engineer IDs. */
module OpsResource {
  import opened Wrappers
  import opened Seqs
  import opened Models
  import opened Http
  import opened Framework
  import OpsApi

  /** opsResourceModel: the declared form, engineers as a list of IDs. */
  datatype OpsModel = OpsModel(id: string, name: string, engineers: seq<string>)

  /** The request Create and Update build from a plan: no ID, the plan's name, and one
      ID-only engineer per planned ID, in order. */
  function OpsRequest(plan: OpsModel): Ops {
    Ops("", plan.name, EngineerStubs(plan.engineers))
  }

  /** A backend group in declared form: engineers flattened to their IDs, in order. */
  function Declared(found: Ops): OpsModel {
    OpsModel(found.id, found.name, EngineerIDs(found.engineers))
  }

  /** Create followed by Read agrees with the plan exactly when the backend keeps the IDs
      of the engineers it was sent, in order, whatever names and emails it fills in. */
  lemma ReadAfterCreateKeepsReferences(plan: OpsModel, stored: Ops)
    ensures Declared(stored).engineers == plan.engineers <==>
            EngineerIDs(stored.engineers) == EngineerIDs(OpsRequest(plan).engineers)
  {
    StubsRoundTrip(plan.engineers);
  }

  /** A Ops group deleted behind Terraform's back is not detected as drift: the 404 answer to
      Read's GET is an error (one that even mentions "status: 404"), so Read takes its error
      branch, adding "Error Reading Ops" and keeping the state, rather than removing it. */
  lemma VanishedGroupIsReadError(c: Client, sent: seq<HttpRequest>, opsID: string, body: Bytes)
    requires Accepts(c.transport, c.endpoint + "/op/id/" + opsID)
    requires c.transport.respond(sent + [HttpRequest(Get, c.endpoint + "/op/id/" + opsID, None, None)]) == Answered(404, body)
    ensures OpsApi.GetOpsByIDCall(c, sent, opsID).result == Failure(StatusError(404, body))
    ensures AlreadyGone(OpsApi.GetOpsByIDCall(c, sent, opsID).result.error)
  {
  }

  class OpsResource {
    const client: Client

    constructor (client: Client)
      ensures this.client == client
    {
      this.client := client;
    }

    /** Create: POST the stubbed plan; on failure one diagnostic and no state; on success the
        ID and name from the backend and the engineer list exactly as planned. */
    method Create(plan: OpsModel, resp: Response<OpsModel>)
      modifies client.transport, resp
      ensures var k := OpsApi.CreateOpsCall(client, old(client.transport.sent), OpsRequest(plan));
              client.transport.sent == k.sent &&
              match k.result
              case Failure(e) =>
                resp.state == old(resp.state) &&
                resp.diagnostics == old(resp.diagnostics) + [ErrorDiagnostic("Error creating Ops", "Could not create Ops group, unexpected error: " + ErrorText(e))]
              case Success(created) =>
                resp.state == Some(OpsModel(created.id, created.name, plan.engineers)) &&
                resp.diagnostics == old(resp.diagnostics)
    {
      var engs := Collect(plan.engineers, EngineerStub);
      var reqOps := Ops("", plan.name, engs);
      var created := OpsApi.CreateOps(client, reqOps);
      if created.Failure? {
        resp.AddError("Error creating Ops", "Could not create Ops group, unexpected error: " + ErrorText(created.error));
        return;
      }
      var next := plan.(id := created.value.id, name := created.value.name);
      resp.Set(next);
    }

    /** Read: GET by the state's ID; an error adds a diagnostic and leaves the state alone,
        otherwise the state becomes the declared form of the answer. The client never
        answers "no group and no error", so the source's drift branch (state removal) has
        no counterpart: Read never removes the state. */
    method Read(state: OpsModel, resp: Response<OpsModel>)
      modifies client.transport, resp
      ensures var k := OpsApi.GetOpsByIDCall(client, old(client.transport.sent), state.id);
              client.transport.sent == k.sent &&
              match k.result
              case Failure(e) =>
                resp.state == old(resp.state) &&
                resp.diagnostics == old(resp.diagnostics) + [ErrorDiagnostic("Error Reading Ops", "Could not read Ops ID " + state.id + ": " + ErrorText(e))]
              case Success(found) =>
                resp.state == Some(Declared(found)) && resp.diagnostics == old(resp.diagnostics)
    {
      var found := OpsApi.GetOpsByID(client, state.id);
      if found.Failure? {
        resp.AddError("Error Reading Ops", "Could not read Ops ID " + state.id + ": " + ErrorText(found.error));
        return;
      }
      var engineerIDs := Collect(found.value.engineers, EngineerID);
      var next := state.(id := found.value.id, name := found.value.name, engineers := engineerIDs);
      resp.Set(next);
    }

    /** Update: PUT the stubbed plan to the ID held in the prior state, discard the answer,
        and take the new state from a follow-up GET of the same ID. A failed PUT issues no
        GET; either failure adds one diagnostic and leaves the state alone. */
    method Update(plan: OpsModel, state: OpsModel, resp: Response<OpsModel>)
      modifies client.transport, resp
      ensures var u := OpsApi.UpdateOpsCall(client, old(client.transport.sent), state.id, OpsRequest(plan));
              match u.result
              case Failure(e) =>
                client.transport.sent == u.sent &&
                resp.state == old(resp.state) &&
                resp.diagnostics == old(resp.diagnostics) + [ErrorDiagnostic("Error Updating Ops", "Could not update Ops ID " + state.id + ": " + ErrorText(e))]
              case Success(_) =>
                var g := OpsApi.GetOpsByIDCall(client, u.sent, state.id);
                client.transport.sent == g.sent &&
                match g.result
                case Failure(e) =>
                  resp.state == old(resp.state) &&
                  resp.diagnostics == old(resp.diagnostics) + [ErrorDiagnostic("Error Reading Ops", "Could not read Ops ID " + state.id + ": " + ErrorText(e))]
                case Success(ops) =>
                  resp.state == Some(Declared(ops)) && resp.diagnostics == old(resp.diagnostics)
    {
      var engs := Collect(plan.engineers, EngineerStub);
      var reqOps := Ops("", plan.name, engs);
      var updated := OpsApi.UpdateOps(client, state.id, reqOps);
      if updated.Failure? {
        resp.AddError("Error Updating Ops", "Could not update Ops ID " + state.id + ": " + ErrorText(updated.error));
        return;
      }
      var ops := OpsApi.GetOpsByID(client, state.id);
      if ops.Failure? {
        resp.AddError("Error Reading Ops", "Could not read Ops ID " + state.id + ": " + ErrorText(ops.error));
        return;
      }
      var updatedEngineerIDs := Collect(ops.value.engineers, EngineerID);
      var next := plan.(id := ops.value.id, name := ops.value.name, engineers := updatedEngineerIDs);
      resp.Set(next);
    }

    /** Delete: no error leaves the response as it is; an error whose text mentions
        "status: 404" removes the state without a diagnostic; any other error adds one. */
    method Delete(state: OpsModel, resp: Response<OpsModel>)
      modifies client.transport, resp
      ensures var k := OpsApi.DeleteOpsCall(client, old(client.transport.sent), state.id);
              client.transport.sent == k.sent &&
              match k.result
              case Success(_) =>
                resp.state == old(resp.state) && resp.diagnostics == old(resp.diagnostics)
              case Failure(e) =>
                if AlreadyGone(e) then
                  resp.state == None && resp.diagnostics == old(resp.diagnostics)
                else
                  resp.state == old(resp.state) &&
                  resp.diagnostics == old(resp.diagnostics) + [ErrorDiagnostic("Error Deleting Ops", "Could not delete Ops ID " + state.id + ": " + ErrorText(e))]
    {
      var err := OpsApi.DeleteOps(client, state.id);
      if err.Some? {
        if Text.Contains(ErrorText(err.value), "status: 404") {
          resp.RemoveResource();
          return;
        }
        resp.AddError("Error Deleting Ops", "Could not delete Ops ID " + state.id + ": " + ErrorText(err.value));
        return;
      }
    }
  }
}
