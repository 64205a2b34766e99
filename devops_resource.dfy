/** The `dob_devops` resource of internal/provider/devops/devops_resource.go: a pairing of
    Dev groups with Ops groups, declared as two lists of IDs. The provider does not register
    this resource (its entry in internal/provider/provider.go is commented out); it is
    modelled for what its callbacks would do. */
module DevOpsResource {
  import opened Wrappers
  import opened Seqs
  import opened Models
  import opened Http
  import opened Framework
  import opened DevOpsApi

  /** devopsResourceModel. */
  datatype DevOpsModel = DevOpsModel(id: string, devs: seq<string>, ops: seq<string>)

  /** The request Create and Update build from a plan: no ID, and one ID-only group per
      planned ID on each side, in order. */
  function DevOpsRequest(plan: DevOpsModel): DevOps {
    DevOps("", DevStubs(plan.devs), OpsStubs(plan.ops))
  }

  /** A backend pairing in declared form: both sides flattened to their IDs, in order. */
  function Declared(found: DevOps): DevOpsModel {
    DevOpsModel(found.id, DevIDs(found.dev), OpsIDs(found.ops))
  }

  /** Create followed by Read agrees with the plan exactly when the backend keeps the IDs
      of the Dev and Ops groups it was sent, in order, whatever else it fills in. */
  lemma ReadAfterCreateKeepsReferences(plan: DevOpsModel, stored: DevOps)
    ensures Declared(stored).devs == plan.devs <==> DevIDs(stored.dev) == DevIDs(DevOpsRequest(plan).dev)
    ensures Declared(stored).ops == plan.ops <==> OpsIDs(stored.ops) == OpsIDs(DevOpsRequest(plan).ops)
  {
    StubsRoundTrip(plan.devs);
    StubsRoundTrip(plan.ops);
  }

  class DevOpsResource {
    const client: Client
    /** The get-by-ID, update and delete calls, which the client does not define. */
    const calls: AbstractCalls

    constructor (client: Client, calls: AbstractCalls)
      ensures this.client == client && this.calls == calls
    {
      this.client := client;
      this.calls := calls;
    }

    /** Create: POST the stubbed plan; on success only the ID comes from the backend, and
        both lists stay as planned. A URL the request constructor rejects is a fault in the
        client, excluded here. */
    method Create(plan: DevOpsModel, resp: Response<DevOpsModel>)
      requires Accepts(client.transport, client.endpoint + CollectionPath)
      modifies client.transport, resp
      ensures var k := CreateDevopsCall(client, old(client.transport.sent), DevOpsRequest(plan));
              client.transport.sent == k.sent &&
              match k.result
              case Failure(e) =>
                resp.state == old(resp.state) &&
                resp.diagnostics == old(resp.diagnostics) + [ErrorDiagnostic("Error creating DevOps", "Could not create DevOps, unexpected error: " + ErrorText(e))]
              case Success(created) =>
                resp.state == Some(plan.(id := created.id)) && resp.diagnostics == old(resp.diagnostics)
    {
      var devObjs := Collect(plan.devs, DevStub);
      var opsObjs := Collect(plan.ops, OpsStub);
      var reqDevOps := DevOps("", devObjs, opsObjs);
      var created := DevOpsApi.CreateDevops(client, reqDevOps);
      if created.Failure? {
        resp.AddError("Error creating DevOps", "Could not create DevOps, unexpected error: " + ErrorText(created.error));
        return;
      }
      var next := plan.(id := created.value.id);
      resp.Set(next);
    }

    /** Read: get by the state's ID; an error adds a diagnostic; "no pairing and no error"
        removes the state (drift); otherwise the state becomes the declared form. */
    method Read(state: DevOpsModel, resp: Response<DevOpsModel>)
      modifies calls, resp
      ensures calls.calls == old(calls.calls) + [GetDevOpsByIDCall(state.id)]
      ensures match calls.getAnswer(calls.calls)
              case Failure(e) =>
                resp.state == old(resp.state) &&
                resp.diagnostics == old(resp.diagnostics) + [ErrorDiagnostic("Error Reading DevOps", "Could not read DevOps ID " + state.id + ": " + ErrorText(e))]
              case Success(None) =>
                resp.state == None && resp.diagnostics == old(resp.diagnostics)
              case Success(Some(found)) =>
                resp.state == Some(Declared(found)) && resp.diagnostics == old(resp.diagnostics)
    {
      var found := calls.GetDevOpsByID(state.id);
      if found.Failure? {
        resp.AddError("Error Reading DevOps", "Could not read DevOps ID " + state.id + ": " + ErrorText(found.error));
        return;
      }
      if found.value.None? {
        resp.RemoveResource();
        return;
      }
      var devIDs := Collect(found.value.value.dev, DevID);
      var opsIDs := Collect(found.value.value.ops, OpsID);
      var next := state.(id := found.value.value.id, devs := devIDs, ops := opsIDs);
      resp.Set(next);
    }

    /** Update: update the ID held in the prior state with the stubbed plan, then take the
        new state from a get of that ID. The Go code uses the get's answer without a nil
        check, so "no pairing and no error" after a successful update is a fault, excluded
        by the precondition. */
    method Update(plan: DevOpsModel, state: DevOpsModel, resp: Response<DevOpsModel>)
      requires var afterUpdate := calls.calls + [UpdateDevOpsCall(state.id, DevOpsRequest(plan))];
               calls.updateAnswer(afterUpdate).Success? ==>
                 calls.getAnswer(afterUpdate + [GetDevOpsByIDCall(state.id)]) != Success(None)
      modifies calls, resp
      ensures var afterUpdate := old(calls.calls) + [UpdateDevOpsCall(state.id, DevOpsRequest(plan))];
              match calls.updateAnswer(afterUpdate)
              case Failure(e) =>
                calls.calls == afterUpdate &&
                resp.state == old(resp.state) &&
                resp.diagnostics == old(resp.diagnostics) + [ErrorDiagnostic("Error Updating DevOps", "Could not update DevOps ID " + state.id + ": " + ErrorText(e))]
              case Success(_) =>
                calls.calls == afterUpdate + [GetDevOpsByIDCall(state.id)] &&
                match calls.getAnswer(calls.calls)
                case Failure(e) =>
                  resp.state == old(resp.state) &&
                  resp.diagnostics == old(resp.diagnostics) + [ErrorDiagnostic("Error Reading DevOps", "Could not read DevOps ID " + state.id + ": " + ErrorText(e))]
                case Success(updated) =>
                  updated.Some? && resp.state == Some(Declared(updated.value)) && resp.diagnostics == old(resp.diagnostics)
    {
      var devObjs := Collect(plan.devs, DevStub);
      var opsObjs := Collect(plan.ops, OpsStub);
      var reqDevOps := DevOps("", devObjs, opsObjs);
      var result := calls.UpdateDevOps(state.id, reqDevOps);
      if result.Failure? {
        resp.AddError("Error Updating DevOps", "Could not update DevOps ID " + state.id + ": " + ErrorText(result.error));
        return;
      }
      var updated := calls.GetDevOpsByID(state.id);
      if updated.Failure? {
        resp.AddError("Error Reading DevOps", "Could not read DevOps ID " + state.id + ": " + ErrorText(updated.error));
        return;
      }
      var devIDs := Collect(updated.value.value.dev, DevID);
      var opsIDs := Collect(updated.value.value.ops, OpsID);
      var next := plan.(id := updated.value.value.id, devs := devIDs, ops := opsIDs);
      resp.Set(next);
    }

    /** Delete: no error leaves the response as it is; an error whose text mentions
        "status: 404" removes the state without a diagnostic; any other error adds one. */
    method Delete(state: DevOpsModel, resp: Response<DevOpsModel>)
      modifies calls, resp
      ensures calls.calls == old(calls.calls) + [DeleteDevOpsCall(state.id)]
      ensures match calls.deleteAnswer(calls.calls)
              case None =>
                resp.state == old(resp.state) && resp.diagnostics == old(resp.diagnostics)
              case Some(e) =>
                if AlreadyGone(e) then
                  resp.state == None && resp.diagnostics == old(resp.diagnostics)
                else
                  resp.state == old(resp.state) &&
                  resp.diagnostics == old(resp.diagnostics) + [ErrorDiagnostic("Error Deleting DevOps", "Could not delete DevOps ID " + state.id + ": " + ErrorText(e))]
    {
      var err := calls.DeleteDevOps(state.id);
      if err.Some? {
        if Text.Contains(ErrorText(err.value), "status: 404") {
          resp.RemoveResource();
          return;
        }
        resp.AddError("Error Deleting DevOps", "Could not delete DevOps ID " + state.id + ": " + ErrorText(err.value));
        return;
      }
    }
  }
}
