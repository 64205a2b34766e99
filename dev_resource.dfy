/** The `dob_dev` resource of internal/provider/devs/dev_resource.go: a Dev group declared
    by name and a list of engineer IDs. */
module DevResource {
  import opened Wrappers
  import opened Seqs
  import opened Models
  import opened Http
  import opened Framework
  import DevApi

  /** devResourceModel: the declared form, engineers as a list of IDs. */
  datatype DevModel = DevModel(id: string, name: string, engineers: seq<string>)

  /** The request Create and Update build from a plan: no ID, the plan's name, and one
      ID-only engineer per planned ID, in order. */
  function DevRequest(plan: DevModel): Dev {
    Dev("", plan.name, EngineerStubs(plan.engineers))
  }

  /** A backend group in declared form: engineers flattened to their IDs, in order. */
  function Declared(found: Dev): DevModel {
    DevModel(found.id, found.name, EngineerIDs(found.engineers))
  }

  /** Create followed by Read agrees with the plan exactly when the backend keeps the IDs
      of the engineers it was sent, in order, whatever names and emails it fills in. */
  lemma ReadAfterCreateKeepsReferences(plan: DevModel, stored: Dev)
    ensures Declared(stored).engineers == plan.engineers <==>
            EngineerIDs(stored.engineers) == EngineerIDs(DevRequest(plan).engineers)
  {
    StubsRoundTrip(plan.engineers);
  }

  /** A Dev group deleted behind Terraform's back is not detected as drift: the 404 answer to
      Read's GET is an error (one that even mentions "status: 404"), so Read takes its error
      branch, adding "Error Reading Dev" and keeping the state, rather than removing it. */
  lemma VanishedGroupIsReadError(c: Client, sent: seq<HttpRequest>, devID: string, body: Bytes)
    requires Accepts(c.transport, c.endpoint + "/dev/id/" + devID)
    requires c.transport.respond(sent + [HttpRequest(Get, c.endpoint + "/dev/id/" + devID, None, None)]) == Answered(404, body)
    ensures DevApi.GetDevByIDCall(c, sent, devID).result == Failure(StatusError(404, body))
    ensures AlreadyGone(DevApi.GetDevByIDCall(c, sent, devID).result.error)
  {
  }

  class DevResource {
    const client: Client

    constructor (client: Client)
      ensures this.client == client
    {
      this.client := client;
    }

    /** Create: POST the stubbed plan; on failure one diagnostic and no state; on success the
        ID and name from the backend and the engineer list exactly as planned. */
    method Create(plan: DevModel, resp: Response<DevModel>)
      modifies client.transport, resp
      ensures var k := DevApi.CreateDevCall(client, old(client.transport.sent), DevRequest(plan));
              client.transport.sent == k.sent &&
              match k.result
              case Failure(e) =>
                resp.state == old(resp.state) &&
                resp.diagnostics == old(resp.diagnostics) + [ErrorDiagnostic("Error creating Dev", "Could not create Dev group, unexpected error: " + ErrorText(e))]
              case Success(created) =>
                resp.state == Some(DevModel(created.id, created.name, plan.engineers)) &&
                resp.diagnostics == old(resp.diagnostics)
    {
      var engs := Collect(plan.engineers, EngineerStub);
      var reqDev := Dev("", plan.name, engs);
      var created := DevApi.CreateDev(client, reqDev);
      if created.Failure? {
        resp.AddError("Error creating Dev", "Could not create Dev group, unexpected error: " + ErrorText(created.error));
        return;
      }
      var next := plan.(id := created.value.id, name := created.value.name);
      resp.Set(next);
    }

    /** Read: GET by the state's ID; an error adds a diagnostic and leaves the state alone,
        otherwise the state becomes the declared form of the answer. The client never
        answers "no group and no error", so the source's drift branch (state removal) has
        no counterpart: Read never removes the state. */
    method Read(state: DevModel, resp: Response<DevModel>)
      modifies client.transport, resp
      ensures var k := DevApi.GetDevByIDCall(client, old(client.transport.sent), state.id);
              client.transport.sent == k.sent &&
              match k.result
              case Failure(e) =>
                resp.state == old(resp.state) &&
                resp.diagnostics == old(resp.diagnostics) + [ErrorDiagnostic("Error Reading Dev", "Could not read Dev ID " + state.id + ": " + ErrorText(e))]
              case Success(found) =>
                resp.state == Some(Declared(found)) && resp.diagnostics == old(resp.diagnostics)
    {
      var found := DevApi.GetDevByID(client, state.id);
      if found.Failure? {
        resp.AddError("Error Reading Dev", "Could not read Dev ID " + state.id + ": " + ErrorText(found.error));
        return;
      }
      var engineerIDs := Collect(found.value.engineers, EngineerID);
      var next := state.(id := found.value.id, name := found.value.name, engineers := engineerIDs);
      resp.Set(next);
    }

    /** Update: PUT the stubbed plan to the ID held in the prior state, discard the answer,
        and take the new state from a follow-up GET of the same ID. A failed PUT issues no
        GET; either failure adds one diagnostic and leaves the state alone. */
    method Update(plan: DevModel, state: DevModel, resp: Response<DevModel>)
      modifies client.transport, resp
      ensures var u := DevApi.UpdateDevCall(client, old(client.transport.sent), state.id, DevRequest(plan));
              match u.result
              case Failure(e) =>
                client.transport.sent == u.sent &&
                resp.state == old(resp.state) &&
                resp.diagnostics == old(resp.diagnostics) + [ErrorDiagnostic("Error Updating Dev", "Could not update Dev ID " + state.id + ": " + ErrorText(e))]
              case Success(_) =>
                var g := DevApi.GetDevByIDCall(client, u.sent, state.id);
                client.transport.sent == g.sent &&
                match g.result
                case Failure(e) =>
                  resp.state == old(resp.state) &&
                  resp.diagnostics == old(resp.diagnostics) + [ErrorDiagnostic("Error Reading Dev", "Could not read Dev ID " + state.id + ": " + ErrorText(e))]
                case Success(dev) =>
                  resp.state == Some(Declared(dev)) && resp.diagnostics == old(resp.diagnostics)
    {
      var engs := Collect(plan.engineers, EngineerStub);
      var reqDev := Dev("", plan.name, engs);
      var updated := DevApi.UpdateDev(client, state.id, reqDev);
      if updated.Failure? {
        resp.AddError("Error Updating Dev", "Could not update Dev ID " + state.id + ": " + ErrorText(updated.error));
        return;
      }
      var dev := DevApi.GetDevByID(client, state.id);
      if dev.Failure? {
        resp.AddError("Error Reading Dev", "Could not read Dev ID " + state.id + ": " + ErrorText(dev.error));
        return;
      }
      var updatedEngineerIDs := Collect(dev.value.engineers, EngineerID);
      var next := plan.(id := dev.value.id, name := dev.value.name, engineers := updatedEngineerIDs);
      resp.Set(next);
    }

    /** Delete: no error leaves the response as it is; an error whose text mentions
        "status: 404" removes the state without a diagnostic; any other error adds one. */
    method Delete(state: DevModel, resp: Response<DevModel>)
      modifies client.transport, resp
      ensures var k := DevApi.DeleteDevCall(client, old(client.transport.sent), state.id);
              client.transport.sent == k.sent &&
              match k.result
              case Success(_) =>
                resp.state == old(resp.state) && resp.diagnostics == old(resp.diagnostics)
              case Failure(e) =>
                if AlreadyGone(e) then
                  resp.state == None && resp.diagnostics == old(resp.diagnostics)
                else
                  resp.state == old(resp.state) &&
                  resp.diagnostics == old(resp.diagnostics) + [ErrorDiagnostic("Error Deleting Dev", "Could not delete Dev ID " + state.id + ": " + ErrorText(e))]
    {
      var err := DevApi.DeleteDev(client, state.id);
      if err.Some? {
        if Text.Contains(ErrorText(err.value), "status: 404") {
          resp.RemoveResource();
          return;
        }
        resp.AddError("Error Deleting Dev", "Could not delete Dev ID " + state.id + ": " + ErrorText(err.value));
        return;
      }
    }
  }
}
