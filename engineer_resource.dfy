/** The `dob_engineer` resource of internal/provider/engineers/engineers_resource.go: one
    engineer with a name and an email. */
module EngineerResource {
  import opened Wrappers
  import opened Models
  import opened Http
  import opened Framework
  import EngineerApi

  /** engineerResourceModel. */
  datatype EngineerModel = EngineerModel(id: string, name: string, email: string)

  /** The request Create builds from a plan: no ID, the plan's name and email. */
  function CreateRequest(plan: EngineerModel): Engineer {
    Engineer("", plan.name, plan.email)
  }

  /** The request Update builds: the plan's ID, name and email. */
  function UpdateRequest(plan: EngineerModel): Engineer {
    Engineer(plan.id, plan.name, plan.email)
  }

  /** A backend engineer as resource state: every field taken from the backend. */
  function Declared(e: Engineer): EngineerModel {
    EngineerModel(e.id, e.name, e.email)
  }

  /** A engineer deleted behind Terraform's back is not detected as drift: the 404 answer to
      Read's GET is an error (one that even mentions "status: 404"), so Read takes its error
      branch, adding "Error Reading Engineer" and keeping the state, rather than removing it. */
  lemma VanishedEngineerIsReadError(c: Client, sent: seq<HttpRequest>, engineerID: string, body: Bytes)
    requires Accepts(c.transport, c.endpoint + "/engineers/id/" + engineerID)
    requires c.transport.respond(sent + [HttpRequest(Get, c.endpoint + "/engineers/id/" + engineerID, None, None)]) == Answered(404, body)
    ensures EngineerApi.GetEngineerCall(c, sent, engineerID).result == Failure(StatusError(404, body))
    ensures AlreadyGone(EngineerApi.GetEngineerCall(c, sent, engineerID).result.error)
  {
  }

  class EngineerResource {
    const client: Client

    constructor (client: Client)
      ensures this.client == client
    {
      this.client := client;
    }

    /** Create: POST the plan without an ID; on failure one diagnostic and no state; on
        success all three fields come from the backend's answer. */
    method Create(plan: EngineerModel, resp: Response<EngineerModel>)
      modifies client.transport, resp
      ensures var k := EngineerApi.CreateEngineerCall(client, old(client.transport.sent), CreateRequest(plan));
              client.transport.sent == k.sent &&
              match k.result
              case Failure(e) =>
                resp.state == old(resp.state) &&
                resp.diagnostics == old(resp.diagnostics) + [ErrorDiagnostic("Error creating Engineer", "Could not create order, unexpected error: " + ErrorText(e))]
              case Success(created) =>
                resp.state == Some(Declared(created)) && resp.diagnostics == old(resp.diagnostics)
    {
      var engineer := Engineer("", plan.name, plan.email);
      var createdEngineer := EngineerApi.CreateEngineer(client, engineer);
      if createdEngineer.Failure? {
        resp.AddError("Error creating Engineer", "Could not create order, unexpected error: " + ErrorText(createdEngineer.error));
        return;
      }
      var next := plan.(id := createdEngineer.value.id, name := createdEngineer.value.name, email := createdEngineer.value.email);
      resp.Set(next);
    }

    /** Read: GET by the state's ID; an error adds a diagnostic (without the ID) and leaves
        the state alone; otherwise all three fields are overwritten. There is no drift
        branch: Read never removes the state. */
    method Read(state: EngineerModel, resp: Response<EngineerModel>)
      modifies client.transport, resp
      ensures var k := EngineerApi.GetEngineerCall(client, old(client.transport.sent), state.id);
              client.transport.sent == k.sent &&
              match k.result
              case Failure(e) =>
                resp.state == old(resp.state) &&
                resp.diagnostics == old(resp.diagnostics) + [ErrorDiagnostic("Error Reading Engineer", "Could not read Engineer: " + ErrorText(e))]
              case Success(engineer) =>
                resp.state == Some(Declared(engineer)) && resp.diagnostics == old(resp.diagnostics)
    {
      var engineer := EngineerApi.GetEngineer(client, state.id);
      if engineer.Failure? {
        resp.AddError("Error Reading Engineer", "Could not read Engineer: " + ErrorText(engineer.error));
        return;
      }
      var next := state.(id := engineer.value.id, name := engineer.value.name, email := engineer.value.email);
      resp.Set(next);
    }

    /** Update: unlike the group resources, both the PUT and the follow-up GET address the
        ID held in the plan, and the PUT body carries that ID. A failed PUT issues no GET. */
    method Update(plan: EngineerModel, resp: Response<EngineerModel>)
      modifies client.transport, resp
      ensures var u := EngineerApi.UpdateEngineerCall(client, old(client.transport.sent), plan.id, UpdateRequest(plan));
              match u.result
              case Failure(e) =>
                client.transport.sent == u.sent &&
                resp.state == old(resp.state) &&
                resp.diagnostics == old(resp.diagnostics) + [ErrorDiagnostic("Error Updating Engineer", "Could not update Engineer, unexpected error: " + ErrorText(e))]
              case Success(_) =>
                var g := EngineerApi.GetEngineerCall(client, u.sent, plan.id);
                client.transport.sent == g.sent &&
                match g.result
                case Failure(e) =>
                  resp.state == old(resp.state) &&
                  resp.diagnostics == old(resp.diagnostics) + [ErrorDiagnostic("Error Reading Engineer", "Could not read Engineer ID " + plan.id + ": " + ErrorText(e))]
                case Success(engineer) =>
                  resp.state == Some(Declared(engineer)) && resp.diagnostics == old(resp.diagnostics)
    {
      var reqEngineer := Engineer("", plan.name, plan.email);
      reqEngineer := reqEngineer.(id := plan.id);
      var updated := EngineerApi.UpdateEngineer(client, plan.id, reqEngineer);
      if updated.Failure? {
        resp.AddError("Error Updating Engineer", "Could not update Engineer, unexpected error: " + ErrorText(updated.error));
        return;
      }
      var engineer := EngineerApi.GetEngineer(client, plan.id);
      if engineer.Failure? {
        resp.AddError("Error Reading Engineer", "Could not read Engineer ID " + plan.id + ": " + ErrorText(engineer.error));
        return;
      }
      var next := plan.(id := engineer.value.id, name := engineer.value.name, email := engineer.value.email);
      resp.Set(next);
    }

    /** Delete: no error leaves the response as it is; an error whose text mentions
        "status: 404" removes the state without a diagnostic; any other error adds one whose
        summary carries the ID. */
    method Delete(state: EngineerModel, resp: Response<EngineerModel>)
      modifies client.transport, resp
      ensures var k := EngineerApi.DeleteEngineerCall(client, old(client.transport.sent), state.id);
              client.transport.sent == k.sent &&
              match k.result
              case Success(_) =>
                resp.state == old(resp.state) && resp.diagnostics == old(resp.diagnostics)
              case Failure(e) =>
                if AlreadyGone(e) then
                  resp.state == None && resp.diagnostics == old(resp.diagnostics)
                else
                  resp.state == old(resp.state) &&
                  resp.diagnostics == old(resp.diagnostics) + [ErrorDiagnostic("Error Deleting Engineer: " + state.id, "Could not delete Engineer, unexpected error: " + ErrorText(e))]
    {
      var err := EngineerApi.DeleteEngineer(client, state.id);
      if err.Some? {
        if Text.Contains(ErrorText(err.value), "status: 404") {
          resp.RemoveResource();
          return;
        }
        resp.AddError("Error Deleting Engineer: " + state.id, "Could not delete Engineer, unexpected error: " + ErrorText(err.value));
        return;
      }
    }
  }
}
