# DOB Terraform provider: a Dafny model of its reconciliation core

The provider manages four kinds of objects on a small REST backend: engineers, Dev
groups, Ops groups, and DevOps pairings of Dev and Ops groups. It has a thin HTTP client
(`internal/provider/client`), and for each kind a Terraform resource with
Create/Read/Update/Delete callbacks plus a list data source. This project models three
pieces and proves their contracts:

- **The transport client** (`http.dfy`), covering `NewClient` and `doRequest`:
  - A reply counts as success exactly for the codes 200..299, and its body comes back unchanged.
  - Any other code becomes an error whose text is exactly `status: <code>, body: <body>`.
  - A transport failure is passed on as it came.
  - The text is built from a decimal rendering of the code (`text.dfy`). It is proved to contain `status: 404` exactly when the code is 404 or the body itself contains that marker. Delete's "already gone" test relies on this.
- **The per-entity client functions** (`engineer_api.dfy`, `dev_api.dfy`, `ops_api.dfy`, `devops_api.dfy`):
  - Each function is stated as a function of the request history.
  - The history afterwards is the one request the call sends: verb, URL, body and content type.
  - The result is the classified reply, decoded.
  - A decode failure becomes an error and never a default value.
  - Each is also an imperative method: build the request, set the header, call `doRequest`, decode. Each method is proved equal to its specification function.
- **The resources and data sources** (`*_resource.dfy`, `*_data_source.dfy`):
  - Each callback is a method on the resource object.
  - Each callback's postcondition gives the complete outcome: the requests sent (by reference to the client specification), the new state, and the exact diagnostics added.
  - The stub-building and ID-flattening `append` loops, and the nested row-building loops of the data sources, are while loops with invariants.
  - Lemmas relate the forward and backward projections:
    - Lists of ID-only stubs flatten back to the planned IDs.
    - The Dev and Ops data-source rows lose nothing.
    - DevOps rows keep every reference.

Collaborators whose code is not visible are parameters:

- The HTTP stack and the backend are a `Transport` object. It holds the verdict of `http.NewRequest` on a URL, and the backend's reply as a function of the whole request history. It logs every request that reaches the wire.
- The JSON library is a `Codec` value, with partial decoders and total encoders.
- The Terraform framework's response is a `Response` object, with an optional state and a diagnostics list.

Go's `(nil, err)` results are `Result` values. A nil dereference in the Go code counts as a fault, and the model excludes it with a precondition:
- `CreateDevops` sets a header on a request that may be nil.
- The DevOps `Update` uses a follow-up read that may be nil.

## Model

| member | source | states |
|---|---|---|
| Wrappers.ErrorOf | internal/provider/client/dev.go:97-105 | the `error` a call returns: none exactly when the call succeeded, otherwise that call's own error |
| Text.Decimal | internal/provider/client/client.go:46 | `%d` of a status: a non-empty string of decimal digits, one digit exactly for values below ten |
| Text.DecimalRoundTrip | internal/provider/client/client.go:46 | the decimal text reads back as the code it was made from |
| Text.DecimalInjective | internal/provider/client/client.go:46 | different codes give different texts |
| Text.DecimalShort | internal/provider/client/client.go:43-46 | a code below 1000 is at most three digits, and exactly three from 100 on |
| Text.Contains | internal/provider/devs/dev_resource.go:237 | `strings.Contains`: a marker longer than the text never occurs, a prefix always does; that it holds exactly when the marker occurs at some position is Text.ContainsAt |
| Text.ContainsAt | internal/provider/devs/dev_resource.go:237 | `strings.Contains` holds exactly when the marker occurs at some position |
| Text.ContainsSkip | internal/provider/devs/dev_resource.go:237 | a prefix in which no occurrence of the marker starts does not change whether the marker is contained |
| Seqs.Map | internal/provider/devs/dev_resource.go:127-130 | a projection keeps length, and element i of the result is the image of element i of the input |
| Seqs.Collect | internal/provider/devs/dev_resource.go:67-70 | the `append` loop over a slice produces exactly that projection |
| Seqs.MapInverse | internal/provider/devs/dev_resource.go:67-70 | projecting with a map and then with its left inverse gives back the list |
| Models.StubsRoundTrip | internal/provider/devs/dev_resource.go:67-70 | turning IDs into ID-only engineers, Dev groups or Ops groups and taking the IDs back gives the same list |
| Http.IsSuccess | internal/provider/client/client.go:43 | `StatusCode/100 == 2` holds exactly for 200 through 299 |
| Http.StatusText | internal/provider/client/client.go:46 | the `status: %d, body: %s` text: the decimal code at a fixed place after `status: ` and the body verbatim at the end; which texts mention `status: 404` is Http.StatusTextMentions404 |
| Http.ErrorText | internal/provider/client/client.go:46 | `err.Error()`: a status error starts with `status: <code>, body: `, every other error is its own message |
| Http.AlreadyGone | internal/provider/devs/dev_resource.go:237 | the Delete test `strings.Contains(err.Error(), "status: 404")` (also ops_resource.go:237, engineers_resource.go:187, devops_resource.go:234): for a status error it holds exactly when the code is 404 or the body mentions `status: 404` |
| Http.StatusTextMentions404 | internal/provider/client/client.go:46 | the status error text contains `status: 404` exactly when the code is 404 or the body contains `status: 404` |
| Http.StatusTextHead | internal/provider/client/client.go:46 | the text starts with `status: 404` exactly when the code is 404 |
| Http.StatusTextRestSkips | internal/provider/client/client.go:46 | after its first character, no occurrence of the marker starts inside the fixed part of the text |
| Http.Classify | internal/provider/client/client.go:29-50 | success exactly for an answered 2xx, with the body unmodified; any other code gives the status error; a transport failure is returned unchanged |
| Http.NotFoundReplyIsGone | internal/provider/client/client.go:46 | a 404 reply, whatever its body, is an error that Delete treats as "already gone" |
| Http.Receive | internal/provider/client/dev.go:17-26 | a doRequest error is passed on unchanged; a decode failure becomes an error; a value is produced only by decoding a successful body |
| Http.Transport.Do | internal/provider/client/client.go:32-41 | one request is appended to the wire log, and the reply is the backend's answer to that history |
| Http.Client.constructor | internal/provider/client/client.go:17-24 | the endpoint is the given one, or "" when none is given |
| Http.NewClient | internal/provider/client/client.go:16-27 | a fresh client with the endpoint default, and never an error |
| Http.Client.DoRequest | internal/provider/client/client.go:29-50 | exactly one request goes on the wire, and the result is the classification of its reply |
| Http.Send | internal/provider/client/dev.go:54-63 | a rejected URL sends nothing and returns the construction error; otherwise exactly this request is sent and the result is its classified reply |
| Http.Fetch | internal/provider/client/dev.go:30-46 | a call yields a value exactly when its URL is accepted, the reply is 2xx and the decoder accepts the body; the value is the decoder's |
| Http.Exchange | internal/provider/client/dev.go:54-63 | the build / check / set-header / doRequest sequence has exactly the effect and result of Send |
| Http.Perform | internal/provider/client/dev.go:48-70 | the sequence followed by `json.Unmarshal` has exactly the effect and result of Fetch |
| DevApi.Routes | internal/provider/client/dev.go:11-105 | GET `/dev`; POST `/dev` with a JSON content type; GET `/dev/id/{id}`; PUT and DELETE `/dev/{id}`, with no `/id/` and no content type |
| DevApi.GetDev | internal/provider/client/dev.go:11-27 | sends `GET {endpoint}/dev` and nothing else; returns the decoded list of a 2xx reply, or the request, transport, status or decode error |
| DevApi.GetDevByID | internal/provider/client/dev.go:30-46 | sends exactly one GET to the `/id/{id}` URL; a success is always an entity, never "none and no error" |
| DevApi.CreateDev | internal/provider/client/dev.go:48-70 | sends exactly one POST carrying the encoded group and a JSON content type; returns the decoded reply or the error |
| DevApi.UpdateDev | internal/provider/client/dev.go:72-95 | sends exactly one PUT to `/dev/{id}` carrying the encoded group and no content type; returns the decoded reply or the error |
| DevApi.DeleteDev | internal/provider/client/dev.go:97-105 | returns exactly doRequest's error for the DELETE |
| OpsApi.Routes | internal/provider/client/ops.go:11-105 | GET `/op`; POST `/op/` with a trailing slash and a JSON content type; GET `/op/id/{id}`; PUT and DELETE `/op/{id}` |
| OpsApi.GetOps | internal/provider/client/ops.go:11-27 | sends `GET {endpoint}/op` and nothing else; returns the decoded list of a 2xx reply, or the error |
| OpsApi.GetOpsByID | internal/provider/client/ops.go:30-46 | sends exactly one GET to the `/id/{id}` URL; a success is always an entity, never "none and no error" |
| OpsApi.CreateOps | internal/provider/client/ops.go:48-70 | sends exactly one POST to `/op/` carrying the encoded group and a JSON content type; returns the decoded reply or the error |
| OpsApi.UpdateOps | internal/provider/client/ops.go:72-95 | sends exactly one PUT to `/op/{id}` with no content type; returns the decoded reply or the error |
| OpsApi.DeleteOps | internal/provider/client/ops.go:97-105 | returns exactly doRequest's error for the DELETE |
| EngineerApi.Routes | internal/provider/client/engineers.go:11-111 | GET and POST `/engineers` (POST with a JSON content type); GET and PUT `/engineers/id/{id}`; DELETE `/engineers/{id}`, with no `/id/` |
| EngineerApi.GetEngineers | internal/provider/client/engineers.go:11-29 | sends `GET {endpoint}/engineers` and nothing else; returns the decoded list of a 2xx reply, or the error |
| EngineerApi.CreateEngineer | internal/provider/client/engineers.go:31-57 | sends exactly one POST carrying the encoded engineer and a JSON content type; returns the decoded reply or the error |
| EngineerApi.GetEngineer | internal/provider/client/engineers.go:59-76 | sends exactly one GET to `/engineers/id/{id}`; a success is always an entity |
| EngineerApi.UpdateEngineer | internal/provider/client/engineers.go:78-101 | sends exactly one PUT to `/engineers/id/{id}` with no content type; returns the decoded reply or the error |
| EngineerApi.DeleteEngineer | internal/provider/client/engineers.go:103-111 | returns exactly doRequest's error for the DELETE |
| DevOpsApi.Routes | internal/provider/client/devops.go:10-51 | GET `/devops`; POST `/devops` with a JSON content type |
| DevOpsApi.GetDevOps | internal/provider/client/devops.go:10-26 | sends `GET {endpoint}/devops` and nothing else; returns the decoded list of a 2xx reply, or the error |
| DevOpsApi.CreateDevops | internal/provider/client/devops.go:28-51 | sends exactly one POST carrying the encoded pairing and a JSON content type, and returns the decoded reply or the error; a rejected URL is a fault, because the header is set before the error is looked at |
| DevOpsApi.AbstractCalls.GetDevOpsByID | internal/provider/devops/devops_resource.go:110 | the call is logged, and the answer (possibly "none and no error") is the oracle's; Update calls it again at devops_resource.go:191 |
| DevOpsApi.AbstractCalls.UpdateDevOps | internal/provider/devops/devops_resource.go:181 | the call is logged with its request, and the answer is the oracle's |
| DevOpsApi.AbstractCalls.DeleteDevOps | internal/provider/devops/devops_resource.go:231 | the call is logged, and the error is the oracle's |
| DevResource.ReadAfterCreateKeepsReferences | internal/provider/devs/dev_resource.go:67-130 | Read gives back exactly the planned engineer IDs if and only if the backend keeps the IDs of the engineers it was sent, in order, whatever names and emails it fills in |
| DevResource.DevResource.Create | internal/provider/devs/dev_resource.go:55-92 | POSTs one ID-only engineer per planned ID, in order, with the plan's name and no ID; on failure adds the one diagnostic and sets nothing; on success the ID and name come from the reply and the engineers stay as planned |
| DevResource.VanishedGroupIsReadError | internal/provider/devs/dev_resource.go:107-114 | a 404 answer to Read's GET is a status error, one that even mentions `status: 404`; by DevResource.DevResource.Read's contract, Read then adds "Error Reading Dev" and keeps the state, so an out-of-band delete is not detected as drift |
| DevResource.DevResource.Read | internal/provider/devs/dev_resource.go:96-145 | GETs by the state's ID; an error adds the diagnostic and leaves the state; otherwise the ID and name come from the reply and the engineers are its engineer IDs, in order; the state is never removed |
| DevResource.DevResource.Update | internal/provider/devs/dev_resource.go:149-222 | PUTs the stubbed plan to the state's ID; a failure adds a diagnostic and issues no GET; otherwise the state comes from a follow-up GET of that ID, not from the PUT's reply |
| DevResource.DevResource.Delete | internal/provider/devs/dev_resource.go:225-248 | no error leaves the response untouched; an error mentioning `status: 404` removes the state with no diagnostic; any other error adds the diagnostic |
| OpsResource.ReadAfterCreateKeepsReferences | internal/provider/ops/ops_resource.go:67-130 | Read gives back exactly the planned engineer IDs if and only if the backend keeps the IDs of the engineers it was sent, in order |
| OpsResource.OpsResource.Create | internal/provider/ops/ops_resource.go:55-92 | as for Dev, against `POST /op/` |
| OpsResource.VanishedGroupIsReadError | internal/provider/ops/ops_resource.go:107-114 | a 404 answer to Read's GET is a status error, so Read adds "Error Reading Ops" and keeps the state instead of removing it |
| OpsResource.OpsResource.Read | internal/provider/ops/ops_resource.go:96-145 | as for Dev, against `GET /op/id/{id}` |
| OpsResource.OpsResource.Update | internal/provider/ops/ops_resource.go:149-222 | as for Dev: PUT to the state's ID, then the state from a follow-up GET |
| OpsResource.OpsResource.Delete | internal/provider/ops/ops_resource.go:225-248 | as for Dev: a 404 error removes the state silently, any other error adds the diagnostic |
| EngineerResource.EngineerResource.Create | internal/provider/engineers/engineers_resource.go:52-87 | POSTs the name and email with no ID; on failure adds the diagnostic and sets nothing; on success all three fields come from the reply |
| EngineerResource.VanishedEngineerIsReadError | internal/provider/engineers/engineers_resource.go:100-109 | a 404 answer to Read's GET is a status error, so Read adds "Error Reading Engineer" and keeps the state instead of removing it |
| EngineerResource.EngineerResource.Read | internal/provider/engineers/engineers_resource.go:90-121 | any error adds a diagnostic that does not name the ID; otherwise all three fields come from the reply; there is no removal branch |
| EngineerResource.EngineerResource.Update | internal/provider/engineers/engineers_resource.go:124-171 | PUTs a request carrying the plan's ID to the plan's ID; a failure issues no GET; otherwise the state comes from a follow-up GET of the plan's ID |
| EngineerResource.EngineerResource.Delete | internal/provider/engineers/engineers_resource.go:174-197 | a 404 error removes the state silently; any other error adds a diagnostic whose summary names the ID |
| DevOpsResource.ReadAfterCreateKeepsReferences | internal/provider/devops/devops_resource.go:74-140 | for each side, Read gives back exactly the planned Dev (Ops) IDs if and only if the backend keeps the IDs of the groups it was sent, in order, whatever else it fills in |
| DevOpsResource.DevOpsResource.Create | internal/provider/devops/devops_resource.go:56-95 | POSTs one ID-only Dev and Ops per planned ID, in order, with no ID; on success only the ID comes from the reply; on failure adds the diagnostic and sets nothing |
| DevOpsResource.DevOpsResource.Read | internal/provider/devops/devops_resource.go:99-148 | an error adds the diagnostic; "none and no error" removes the state; otherwise the ID comes from the reply and both lists are its IDs, in order |
| DevOpsResource.DevOpsResource.Update | internal/provider/devops/devops_resource.go:151-219 | updates the state's ID with the stubbed plan; a failure issues no read; otherwise the state comes from the follow-up read |
| DevOpsResource.DevOpsResource.Delete | internal/provider/devops/devops_resource.go:222-245 | a 404 error removes the state silently; any other error adds the diagnostic |
| EngineerDataSource.RowsLossless | internal/provider/engineers/engineers_data_source.go:84-92 | the rows give back the listing exactly |
| EngineerDataSource.EngineerDataSource.Read | internal/provider/engineers/engineers_data_source.go:71-100 | a list error adds a diagnostic holding the error text and sets nothing; otherwise one row per engineer, in order, with id, name and email copied |
| DevDataSource.RowsLossless | internal/provider/devs/dev_data_source.go:92-107 | the rows give back the listing exactly, nested engineers included |
| DevDataSource.BuildRows | internal/provider/devs/dev_data_source.go:92-107 | the nested loops give one row per group, in order, with ID and name copied and the engineers copied whole |
| DevDataSource.DevDataSource.Read | internal/provider/devs/dev_data_source.go:80-114 | a list error adds a diagnostic and sets nothing; otherwise the state is exactly those rows |
| OpsDataSource.RowsLossless | internal/provider/ops/ops_data_source.go:92-107 | the rows give back the listing exactly, nested engineers included |
| OpsDataSource.BuildRows | internal/provider/ops/ops_data_source.go:92-107 | one row per group, in order, with the engineers copied whole |
| OpsDataSource.OpsDataSource.Read | internal/provider/ops/ops_data_source.go:80-114 | a list error adds a diagnostic and sets nothing; otherwise the state is exactly those rows |
| DevOpsDataSource.RowAgreesWithResource | internal/provider/devops/devops_data_source.go:89-112 | a row says of a pairing exactly what the DevOps resource's state says of it |
| DevOpsDataSource.RowsKeepReferences | internal/provider/devops/devops_data_source.go:89-115 | any list of rows is produced again from the pairings it describes, so the rows keep every ID and their order |
| DevOpsDataSource.BuildRows | internal/provider/devops/devops_data_source.go:89-115 | one row per pairing, in order, holding its ID and the IDs of its Dev and Ops lists, in order |
| DevOpsDataSource.DevOpsDataSource.Read | internal/provider/devops/devops_data_source.go:77-122 | a list error adds a diagnostic and sets nothing; otherwise the state is exactly those rows |

## Left out

- The types `*_resource.go` and `*_data_source.go` declare: the `Schema`, `Metadata` and `Configure` methods, and `internal/provider/provider.go`. These are registration and schema declarations only.
- The HTTP and JSON libraries. `http.NewRequest`, `HTTPClient.Do`, `io.ReadAll` and `json.Unmarshal` are abstract parameters (a URL verdict, a backend reply, a decoder). `json.Marshal` is treated as total, since plain string records always marshal, so its error branch is not modelled.
- The 10-second client timeout and the `fmt.Printf` request logging in `client.go`. A timeout simply becomes a transport failure.
- Conversions in the Terraform framework (`Plan.Get`, `State.Get`, `ElementsAs`, `ListValueFrom`, `State.Set`) are modelled as total conversions that add no diagnostics. The `HasError` early returns after them are therefore not modelled. So the model also does not capture a callback that starts with error diagnostics already present; the framework hands each callback a fresh response.
- Unknown and null Terraform values. The model does not distinguish a nil slice from an empty one, so a data source with no items is modelled as an empty row list, not a null list.
- Bodies are character strings. Go's `[]byte` is printed with `%s` as the same characters.
- Status codes are limited to 0..999, as Go's HTTP client reads them.
- DevResource.DevResource.Read, OpsResource.OpsResource.Read: `GetDevByID` and `GetOpsByID` never return "none and no error". So the source's drift branch (`found == nil`, which removes the state) has no counterpart: no input can reach it.
- DevOpsApi.AbstractCalls: `GetDevOpsByID`, `UpdateDevOps` and `DeleteDevOps` are called by the DevOps resource but are not defined in `internal/provider/client/devops.go`. They are abstract calls whose answers an oracle gives. The `client.DevOps` type is not in `models.go`. It is taken from its uses as an ID plus a list of Dev and a list of Ops.
- DevOpsApi.CreateDevops, DevOpsResource.DevOpsResource.Create: a URL that `http.NewRequest` rejects causes a nil dereference in the Go code. That is a fault, not an error return, so the precondition excludes it.
- DevOpsResource.DevOpsResource.Update: a follow-up read that answers "none and no error" after a successful update is dereferenced in the Go code. That is a fault, so the precondition excludes it.
- DevOpsResource, DevOpsDataSource: neither is registered in the provider. The resource's line in `provider.go` is commented out, and the data-source list in `provider.go` names only the engineer, Dev and Ops data sources. Both are modelled as written.
- The acceptance tests (`*_test.go`), which run against a live backend.
- Concurrent invocation by the Terraform engine. The model is single-threaded.
