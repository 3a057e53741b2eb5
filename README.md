# Petstore Terraform provider: pet resource and provider configuration

This project models the two parts of the Petstore Terraform provider that have
behaviour of their own. The rest is glue between the Terraform plugin framework
and a generated Petstore HTTP client.

- **The `petstore_pet` resource** (`Resource`, in `pet_resource.dfy`).
  - `Configure` takes the client the provider publishes.
  - `Create` builds the API payload from the plan: nullable Terraform values go
    into optional API fields, tags are appended one by one, and the id is a
    random draw in [0, 1000).
  - `Create`, `Read` and `Update` map the server's 200 answer back into state.
    The id is rendered with `%d`. Category is replaced only when present, tags
    only when non-empty, and status only when it is one of the three enum
    values.
  - `Update` sends a minimal form-parameter set and skips the call when no name
    change needs sending.
  - Read and Update query the id that was stored, parsed back with
    `strconv.ParseInt`.
- **Provider configuration** (`Provider`, in `provider.dfy`).
  - An unknown `server` value is an error.
  - `PETSTORE_SERVER` is the default, and a non-null configured value overrides
    it.
  - An empty address is an error.
  - On success one client is published to resources and data sources alike.

Supporting modules:
- `Framework` (`framework.dfy`): framework values `types.String` and
  `types.Int64` (null, unknown or known, with the framework's accessors), Go
  pointers as `Option`, diagnostics, and the `Panicked` outcome of a nil
  dereference.
- `PetstoreApi` (`petstore_api.dfy`): the generated client's structs as data,
  the reported results of its calls, and the requests sent.
- `Strconv` (`strconv.dfy`): `%d` formatting and base-10 `ParseInt`. It proves
  that every int64 reads back after formatting.
- `Messages` (`messages.dfy`): the diagnostics' detail texts.

Outside effects are turned into inputs and logs:
- The result of each client call is an input (`ApiResult`).
- Each request a handler sends is reported in `calls`. A handler whose client is
  nil panics before any request exists, and then reports none.
- `os.Getenv` and the client constructor's error are inputs of the provider's
  `Configure`, which reports the calls it makes as `effects`.
- The random draw is an input of type `Draw` (0 ≤ draw < 1000).
- A handler's `Response.state` is the state it wrote with `State.Set`; `None`
  means it wrote none.

Four behaviours of the code that a reader might not expect:
- Create, Read and Update do not overwrite every field from the answer:
  - category is replaced only when the answer has one;
  - tags are replaced only when non-empty;
  - status is replaced only when it is an enum value.
- A malformed stored id is not reported; it is read as 0
  (`internal/provider/pet_resource.go:288`, `:395`).
- Update never adds the name for a status-only change. Status is never put into
  the parameters, so that branch (`:379-381`) cannot run, and a status-only
  change sends nothing.
- A configured `server` that is the empty string does not fall back to the
  environment. It is used as it is and fails as empty.

## Model

| member | source | states |
|---|---|---|
| `Strconv.FormatInt` | internal/provider/pet_resource.go:226 | the `%d` rendering has a leading minus sign exactly for a negative number, and the rest is a non-empty digit string with no leading zero except for 0 itself |
| `Strconv.ParseInt` | internal/provider/pet_resource.go:288 | with the error discarded, the empty string and any string starting with neither a sign nor a digit read as 0, and a negative value comes only from a string starting with `-` |
| `Strconv.NatDigits` | internal/provider/pet_resource.go:226 | the `%d` digits of a natural number are non-empty, all decimal digits, and start with `0` only for zero |
| `Strconv.ParseFormatInt` | internal/provider/pet_resource.go:288 | every int64 rendered with `%d` and parsed by `ParseInt(..., 10, 64)` gives back the same int64 |
| `Strconv.FormatIntInjective` | internal/provider/pet_resource.go:313 | distinct int64 ids are stored as distinct id strings |
| `Strconv.ParseIntSyntaxError` | internal/provider/pet_resource.go:395 | syntax errors read as 0 once the error is discarded: the empty string of a null or unknown id, a lone `+` or `-`, a string starting with neither a sign nor a digit, and a rendered int64 followed by a non-digit |
| `Strconv.ParseFormatIntClamps` | internal/provider/pet_resource.go:288 | any integer rendered with `%d` reads back as itself when it fits in int64, and as the nearer int64 bound (the range-error value) when it does not |
| `Resource.Payload` | internal/provider/pet_resource.go:147-197 | payload id is the draw, in [0,1000); name is the plan's; category id and name come from the plan when non-null, else the placeholders 0 and ""; status is the plan's string verbatim when non-null, absent otherwise; tags always present; one tag per plan tag, same order, with id and name present iff non-null in the plan |
| `Resource.BuildPayload` | internal/provider/pet_resource.go:147-197 | the payload built field by field, appending tags in a loop, equals `Payload(plan, draw)` |
| `Resource.DecodeStatus` | internal/provider/pet_resource.go:253-262 | the switch maps `available`, `pending`, `sold` to the identical string and has no case for any other value |
| `Resource.Refreshed` | internal/provider/pet_resource.go:224-262 | the mapping keeps the model's name, always writes a known, non-empty id, and every category, tags or status value it changes is fully known, a changed status being one of the three enum values |
| `Resource.MapTags` | internal/provider/pet_resource.go:242-251 | the indexed loop yields one state tag per answer tag, in order, each with known id and name; it panics exactly when some tag has a nil id or name |
| `Resource.MapResponse` | internal/provider/pet_resource.go:224-262 | the step-by-step overwrite panics exactly when a dereferenced pointer is nil and otherwise yields `Refreshed(model, pet)` |
| `Resource.RefreshedContract` | internal/provider/pet_resource.go:224-262 | the stored id is the `%d` rendering of the answer id and parses back to it; name is untouched; category is replaced iff present; tags are replaced iff non-nil and non-empty, keeping length and order; a recognised status is stored as its own string; a nil or unrecognised status keeps the old value |
| `Resource.CreateEchoRoundTrip` | internal/provider/pet_resource.go:147-262 | when the server answers with the payload it was sent, under its own id, the stored state is the plan with that id, for every status; this needs a plan whose category and tags are known |
| `Resource.ReadAfterCreateIsStable` | internal/provider/pet_resource.go:309-346 | a Read answered with the same pet after Create leaves the created state unchanged when the server kept the planned name |
| `Resource.UpdateParamsFor` | internal/provider/pet_resource.go:370-381 | the name parameter is set iff the plan name is non-null and differs from the state name, and then it is the plan's name; status is never set |
| `Resource.PetIdOf` | internal/provider/pet_resource.go:288 | a null or unknown stored id queries pet 0, and a negative id is queried only for a stored id starting with `-` |
| `Resource.AfterCall` | internal/provider/pet_resource.go:204-269 | the handler tail panics exactly on a 200 body with a nil pointer the mapping dereferences; otherwise it keeps the earlier diagnostics as a prefix and writes state exactly when it adds no diagnostic |
| `Resource.FailedCallWritesNoState` | internal/provider/pet_resource.go:204-221 | after a transport error or an answer without a 200 body, exactly one error diagnostic is appended and no state is written |
| `Resource.StoredStateOnSuccess` | internal/provider/pet_resource.go:224-269 | after a 200 answer whose pointers are set, the state is written with no new diagnostic; Read and Update take the name from the answer and Create keeps the plan's; the stored id parses back to the answer's id |
| `Resource.FinishCall` | internal/provider/pet_resource.go:204-269 | the common tail of the handlers (error diagnostics, name, mapping) yields `AfterCall` |
| `Resource.PetResource.constructor` | internal/provider/pet_resource.go:25-27 | a new resource has no client |
| `Resource.PetResource.Configure` | internal/provider/pet_resource.go:113-131 | nil provider data: no diagnostic, client unchanged; a value of another type: one "Unexpected Resource Configure Type" error, client unchanged; a client value (even a nil pointer): client set to it, no diagnostic |
| `Resource.PetResource.Create` | internal/provider/pet_resource.go:133-270 | a plan read error returns at once with no call; a nil client panics before any request, with no call reported; otherwise exactly one AddPet call with `Payload(plan, draw)`, and the outcome is `AfterCall` on the plan without taking the name, so no 200 body means an error and no state |
| `Resource.PetResource.Read` | internal/provider/pet_resource.go:272-354 | a state read error returns at once; a nil client panics with no call reported; otherwise one GetPetById call with the stored id parsed in base 10, and `AfterCall` on the prior state, taking the name from the answer, so no 200 body means an error and no state |
| `Resource.PetResource.Update` | internal/provider/pet_resource.go:356-462 | a plan or state read error, or an empty parameter set, returns with no call and no state written; otherwise a nil client panics with no call reported, and a set client gets one UpdatePetWithForm call with the parsed stored id and `UpdateParamsFor(plan, state)`, then `AfterCall` on the prior state, taking the name from the answer |
| `Provider.ResolveServer` | internal/provider/provider.go:82-86 | the address is the environment value when the configured value is null, and the configured value otherwise, even when that is the empty string |
| `Provider.PetstoreProvider.constructor` | internal/provider/provider.go:131-137 | the provider keeps the version it is created with |
| `Provider.PetstoreProvider.Configure` | internal/provider/provider.go:53-117 | a config read error, or an unknown `server` (one attribute error on `server`), returns before the environment is read or a client is built; an empty resolved address adds one attribute error and builds no client; a failed construction adds one error and publishes nothing; otherwise the same client for the resolved address is published to data sources and resources; a client is published iff no error was reported, and only for a non-empty address |

## Left out

- The generated client's HTTP calls (`AddPetWithResponse`, `GetPetByIdWithResponse`, `UpdatePetWithFormWithResponse`) and `NewClientWithResponses`: these are network I/O in code that is not part of this model. Their results are inputs, and the client built for an address is represented by that address alone.
- `tflog` tracing: logging only.
- `Metadata` and `Schema` of the resource and the provider, and the `Resources`/`DataSources` registration lists: framework configuration data with no behaviour. The schema's required/optional markings are not enforced on the model's inputs.
- `Delete` (`internal/provider/pet_resource.go:464-503`): a stub that never calls the API and dereferences a nil `HTTPResponse`.
- `ImportState`: a single framework passthrough of the import id into `id`.
- `internal/provider/user_data_source.go`: a stub `Read` that never calls the API, and a `Configure` that duplicates the resource's.
- `PhotoUrls`: unimplemented in the source (TODOs).
- The framework's `Plan.Get`, `State.Get` and `Config.Get` conversions: their diagnostics are inputs, and the decoded models are inputs. The diagnostics `State.Set` could add are not modelled; the state passed to it is the handler's `Response.state`.
- The `ctx` argument, cancellation and concurrency: each handler is one sequential call.
- `Strconv.ParseInt`: models the error-discarding result only for an optional sign followed by digits (value clamped to the int64 range) and gives 0 for everything else. Go's `ParseUint` stops at the first overflow, so a string that overflows before a later non-digit character (such as "99999999999999999999x") is clamped in Go but read as 0 here.
- `Resource.CreateEchoRoundTrip`: stated only for plans whose category and tags are known. A null tag id or name is left nil in the payload, so an echo of it makes the mapping panic on the nil dereference. A null or unknown category field, and an unknown tag field, are sent as the placeholders 0 and "" and come back as those values, not as the null or unknown they were.
- Diagnostic detail texts are carried as `Messages.Detail` values (the template and its arguments) rather than as strings. `Messages.Text` gives the wording, and no contract states it.
