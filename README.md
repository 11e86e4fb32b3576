# Full-stack operations: design extraction and frontend/backend reconciliation

This project models three operations of a full-stack agent framework and proves properties of
the model in Dafny.

- **DesignToBackend** turns a system design into backend tasks. Each endpoint becomes a
  controller task, each data model a model task, and each service a service task. The stack
  is fixed to `.NET Core`.
- **DesignToFrontend** turns the same kind of design into frontend tasks. Each UI component
  becomes a component task and each endpoint a service task. The stack is fixed to `Angular`.
- **FrontendBackendSync** compares a frontend implementation summary with a backend one along
  three axes: API contracts, data models and authentication. It reports the findings as
  `sync_results`. It then hands each finding that is not `matched` to the handler for its
  type. A handler appends to the `backend` or `critical` adjustment bucket, or ignores a
  status it does not handle; a `role_mismatch` finding, however, makes the call raise
  `KeyError('frontend')`. The `frontend` bucket is never written.

Modules:

- `Wrappers`: `Option` and `Result`.
- `Values`: a Python value (`Value`), its truthiness, and `d[key]` with its `KeyError`.
- `DesignSchema`: the design records.
- `DesignToBackend`, `DesignToFrontend`, `FrontendBackendSync`: one module per source file.

How the dictionaries are represented:

- Every dictionary key is an `Option` field. A missing key is `None`; a present key is `Some`,
  even when it holds an empty list.
- `d.get(k)` is `OrNull`, where a missing key reads as `Null`. `d.get(k, default)` is `GetOr`.
- A sync finding keeps the key set of its dictionary (`Finding.fields`). The handlers read
  those keys with `Lookup`, so a missing key raises a `KeyError` just as in the source.

The form follows the source:

- The list comprehensions become recursive functions.
- The loops that `append`, and the conditional `extend` calls, become methods. Each is proved
  equal to a specification function.
- The `adjustments` dictionary, whose lists the handlers append to in place, is the class
  `Adjustments`. The handlers are methods that modify it.

The five helpers the reconciler calls but does not define are fields of `Helpers`. These are
`_find_matching_endpoint`, `_find_matching_model`, `_compare_methods`, `_compare_properties`
and `_compare_roles`. Each is an arbitrary deterministic function, so every theorem holds for
every choice of them. The matchers see whole records: besides the keys this operation reads,
each service, endpoint and model record keeps its other keys in `others`. A matcher's result
counts as a match when it is neither `None` nor an empty record (no key at all): `{}` is false
in Python.

Consequences of the code as written:

- Whenever the role diff is truthy, `arun` raises `KeyError('frontend')`. The `role_mismatch`
  finding carries only `differences` (frontend_backend_sync.py:135-139), and
  `_handle_auth_mismatch` reads its `frontend` key for every `auth` finding (line 196).
  `FrontendBackendSync.Arun` returns `Failure(KeyError("frontend"))` in exactly that case
  (`ReconcileAdjustments`).
- `method_mismatch` and `property_mismatch` are never emitted. Their branches are modelled as
  written, and `SyncStatuses` proves them dead. `MethodMismatchWouldBeCritical` and
  `PropertyMismatchWouldBeCritical` show that such a finding would reach `critical`.
- The `frontend` bucket is never written (`FrontendNeverWritten`).
- A missing `path`, `method` and so on reads as `None`, not as an empty collection.

## Model

| member | source | states |
|---|---|---|
| Values.Lookup | swarm/environment/operations/fullstack/frontend_backend_sync.py:164-198 | `result[key]` succeeds exactly when the key is present and yields its value; otherwise it raises `KeyError(key)` |
| DesignToBackend.CreateApiTasks | swarm/environment/operations/fullstack/design_to_backend.py:49-61 | one `controller` task per endpoint, in input order; `endpoint` is the endpoint's `path`; `method`, `request_model` and `response_model` are copied, None when absent; `security` defaults to `[]` |
| DesignToBackend.CreateModelTasks | swarm/environment/operations/fullstack/design_to_backend.py:63-74 | one `model` task per data model, in order; `name` copied; `properties`, `validations` and `relationships` each default to `[]` |
| DesignToBackend.CreateServiceTasks | swarm/environment/operations/fullstack/design_to_backend.py:76-87 | one `service` task per service, in order; `name` copied; `operations` and `dependencies` default to `[]`, `data_access` to `{}` |
| DesignToBackend.BackendTasks | swarm/environment/operations/fullstack/design_to_backend.py:34-47 | the task list is as long as the three present lists together; controllers come first, then models, then services; a missing key contributes nothing |
| DesignToBackend.BackendTasksBlocks | swarm/environment/operations/fullstack/design_to_backend.py:36-47 | successive slices of the task list are exactly the controller, model and service blocks |
| DesignToBackend.EmptyListIsAbsent | swarm/environment/operations/fullstack/design_to_backend.py:38-45 | a key present with an empty list gives the same tasks as a missing key |
| DesignToBackend.ExtractBackendTasks | swarm/environment/operations/fullstack/design_to_backend.py:34-47 | the conditional `extend` calls build exactly `BackendTasks(design)` |
| DesignToBackend.Arun | swarm/environment/operations/fullstack/design_to_backend.py:13-32 | the result holds the design's tasks, `tech_stack` ".NET Core" and `backend_dependencies` (default `[]`); a missing or empty design gives no tasks, ".NET Core" and `[]` |
| DesignToFrontend.CreateComponentTasks | swarm/environment/operations/fullstack/design_to_frontend.py:48-58 | one `component` task per UI component, in order; `name` copied; `requirements` and `dependencies` default to `[]` |
| DesignToFrontend.CreateServiceTasks | swarm/environment/operations/fullstack/design_to_frontend.py:60-70 | one `service` task per endpoint, in order; `endpoint` is the `path`; `method` and `data_model` are copied, None when absent |
| DesignToFrontend.FrontendTasks | swarm/environment/operations/fullstack/design_to_frontend.py:35-46 | the task list is as long as both present lists together; components first, then services |
| DesignToFrontend.FrontendTasksBlocks | swarm/environment/operations/fullstack/design_to_frontend.py:38-46 | the two slices of the task list are exactly the component and the service blocks |
| DesignToFrontend.EmptyListIsAbsent | swarm/environment/operations/fullstack/design_to_frontend.py:40-44 | a key present with an empty list gives the same tasks as a missing key |
| DesignToFrontend.ExtractFrontendTasks | swarm/environment/operations/fullstack/design_to_frontend.py:35-46 | the conditional `extend` calls build exactly `FrontendTasks(design)` |
| DesignToFrontend.Arun | swarm/environment/operations/fullstack/design_to_frontend.py:14-33 | the result holds the design's tasks, `tech_stack` "Angular" and `frontend_dependencies` (default `[]`); a missing or empty design gives no tasks, "Angular" and `[]` |
| FrontendBackendSync.ApiFindings | swarm/environment/operations/fullstack/frontend_backend_sync.py:61-87 | exactly one finding per frontend service, in input order, each the one built for that service |
| FrontendBackendSync.ApiAxisClassification | swarm/environment/operations/fullstack/frontend_backend_sync.py:65-85 | each API finding is `api_contract`; it is `matched` exactly when the matcher finds an endpoint, and `missing_endpoint` otherwise; it names the service; a matched finding carries the methods diff of the two method lists |
| FrontendBackendSync.ModelFindings | swarm/environment/operations/fullstack/frontend_backend_sync.py:89-113 | exactly one finding per frontend model, in input order |
| FrontendBackendSync.ModelAxisClassification | swarm/environment/operations/fullstack/frontend_backend_sync.py:93-111 | each model finding is `data_model`, `matched` exactly when a backend model is found and `missing_model` otherwise; it names the model; a matched finding carries `property_diffs` |
| FrontendBackendSync.AuthFindings | swarm/environment/operations/fullstack/frontend_backend_sync.py:115-141 | all findings are `auth` and never `matched`; one `mismatch` exactly when the mechanisms differ (two absent count as equal), placed first, with `component` "mechanism" and both mechanisms verbatim; one `role_mismatch` exactly when the role diff is truthy, placed last, carrying `differences` and no `frontend` key; the length is the number of those two conditions that hold; a consistent config gives none |
| FrontendBackendSync.SyncResults | swarm/environment/operations/fullstack/frontend_backend_sync.py:34-59 | the number of findings is services plus models plus auth findings |
| FrontendBackendSync.SyncResultsOrder | swarm/environment/operations/fullstack/frontend_backend_sync.py:36-57 | `sync_results` is the API findings, then the model findings, then the auth findings |
| FrontendBackendSync.SyncStatuses | swarm/environment/operations/fullstack/frontend_backend_sync.py:61-141 | every emitted status is `matched`, `missing_endpoint`, `missing_model`, `mismatch` or `role_mismatch`, never `method_mismatch` or `property_mismatch` |
| FrontendBackendSync.AdjustFromAppend | swarm/environment/operations/fullstack/frontend_backend_sync.py:151-160 | processing two runs of findings in turn is processing their concatenation; a `KeyError` in the first run ends the call |
| FrontendBackendSync.FrontendNeverWritten | swarm/environment/operations/fullstack/frontend_backend_sync.py:143-199 | for any findings at all, a successful pass leaves the `frontend` bucket as it was |
| FrontendBackendSync.Unmatched | swarm/environment/operations/fullstack/frontend_backend_sync.py:151-152 | exactly the findings that are not `matched` are kept: each kept one comes from the input, every unmatched input finding is kept, and the count is the input length minus the `matched` count |
| FrontendBackendSync.MatchedFindingsIgnored | swarm/environment/operations/fullstack/frontend_backend_sync.py:151-152 | removing every `matched` finding changes neither the buckets nor the error |
| FrontendBackendSync.CreateEndpointEntries | swarm/environment/operations/fullstack/frontend_backend_sync.py:162-168 | there are no more entries than services; each entry is `create_endpoint` naming some service the matcher finds no endpoint for |
| FrontendBackendSync.CreateModelEntries | swarm/environment/operations/fullstack/frontend_backend_sync.py:176-182 | there are no more entries than models; each entry is `create_model` naming some model the matcher finds no counterpart for |
| FrontendBackendSync.ApiFindingsAdjust | swarm/environment/operations/fullstack/frontend_backend_sync.py:162-168 | the API findings never raise; they only append `create_endpoint`, naming the service, to `backend` once for each service without an endpoint, in order |
| FrontendBackendSync.ModelFindingsAdjust | swarm/environment/operations/fullstack/frontend_backend_sync.py:176-182 | the model findings never raise; they only append `create_model`, naming the model, to `backend` once for each model without a counterpart, in order |
| FrontendBackendSync.AuthFindingsAdjust | swarm/environment/operations/fullstack/frontend_backend_sync.py:190-198 | a `mismatch` appends one `auth_mechanism_mismatch` to `critical` with both mechanisms verbatim; a truthy role diff raises `KeyError('frontend')` |
| FrontendBackendSync.ReconcileAdjustments | swarm/environment/operations/fullstack/frontend_backend_sync.py:143-199 | on the reconciler's own findings, adjusting raises `KeyError('frontend')` exactly when the role diff is truthy; otherwise `frontend` is empty, `backend` is the `create_endpoint` entries then the `create_model` entries, and `critical` is at most the mechanism entry |
| FrontendBackendSync.CreateEndpointEntriesCount | swarm/environment/operations/fullstack/frontend_backend_sync.py:162-168 | there are as many `create_endpoint` entries as `missing_endpoint` findings |
| FrontendBackendSync.CreateModelEntriesCount | swarm/environment/operations/fullstack/frontend_backend_sync.py:176-182 | there are as many `create_model` entries as `missing_model` findings |
| FrontendBackendSync.BucketSummary | swarm/environment/operations/fullstack/frontend_backend_sync.py:145-198 | when the role diff is falsy: `frontend` is empty; the `backend` size is the `missing_endpoint` count plus the `missing_model` count; `critical` holds at most one entry, always `auth_mechanism_mismatch`, present exactly when the mechanisms differ |
| FrontendBackendSync.MethodMismatchWouldBeCritical | swarm/environment/operations/fullstack/frontend_backend_sync.py:169-174 | the dead `method_mismatch` branch would append `api_method_mismatch` with the service and details to `critical` |
| FrontendBackendSync.PropertyMismatchWouldBeCritical | swarm/environment/operations/fullstack/frontend_backend_sync.py:183-188 | the dead `property_mismatch` branch would append `model_property_mismatch` with the model and the diff to `critical` |
| FrontendBackendSync.ValidateApiContracts | swarm/environment/operations/fullstack/frontend_backend_sync.py:61-87 | the `append` loop builds exactly `ApiFindings` |
| FrontendBackendSync.ValidateDataModels | swarm/environment/operations/fullstack/frontend_backend_sync.py:89-113 | the `append` loop builds exactly `ModelFindings` |
| FrontendBackendSync.ValidateAuthImplementation | swarm/environment/operations/fullstack/frontend_backend_sync.py:115-141 | the two conditional appends build exactly `AuthFindings` |
| FrontendBackendSync.AnalyzeSyncPoints | swarm/environment/operations/fullstack/frontend_backend_sync.py:34-59 | the three `extend` calls build exactly `SyncResults` |
| FrontendBackendSync.Adjustments.constructor | swarm/environment/operations/fullstack/frontend_backend_sync.py:145-149 | the three lists start empty |
| FrontendBackendSync.HandleApiMismatch | swarm/environment/operations/fullstack/frontend_backend_sync.py:162-174 | the lists change as `ApiStep` says; a raised `KeyError` leaves them unchanged |
| FrontendBackendSync.HandleModelMismatch | swarm/environment/operations/fullstack/frontend_backend_sync.py:176-188 | the lists change as `ModelStep` says; a raised `KeyError` leaves them unchanged |
| FrontendBackendSync.HandleAuthMismatch | swarm/environment/operations/fullstack/frontend_backend_sync.py:190-198 | the lists change as `AuthStep` says; a raised `KeyError` leaves them unchanged |
| FrontendBackendSync.GenerateAdjustments | swarm/environment/operations/fullstack/frontend_backend_sync.py:143-160 | the loop over the findings, with the handlers mutating the shared lists, yields exactly `AdjustAll` (the buckets, or the first `KeyError`) |
| FrontendBackendSync.Arun | swarm/environment/operations/fullstack/frontend_backend_sync.py:13-32 | `arun` fails, with `KeyError('frontend')`, exactly when the role diff is truthy; otherwise it returns `sync_results` and buckets with `frontend` empty, `backend` from the missing endpoints then the missing models, and `critical` from the mechanism mismatch |

## Left out

- The `@register_operation` decorator, the `OptimizableOperation` base class, `__init__` with
  its `name`/`description` strings, and `__init__.py`. They are registration and metadata;
  the base class and the registry are not part of this model.
- `async`/`await`. There are no suspension points, so every operation is synchronous here.
- The bodies of `_find_matching_endpoint`, `_find_matching_model`, `_compare_methods`,
  `_compare_properties` and `_compare_roles`. The source does not define them, so they are
  arbitrary functions in `Helpers`.
- Python's dictionary dynamism is replaced by a fixed record schema with these limits:
  - inputs that are not dictionaries are not modelled;
  - a list-valued key (of the design or of an implementation summary) holding a non-list, or
    a dict-valued key holding a non-dict, is not modelled. In Python, `api_services`,
    `models`, `api_endpoints` or `data_models` holding `None` makes the `for` raise
    `TypeError`, and `auth_config` or `security_config` holding `None` makes `.get` raise
    `AttributeError`; the record fields here cannot hold such values;
  - keys the code never reads are kept only on the service, endpoint and model records (in
    `others`), where the matchers can see them; elsewhere they are not modelled. That `others`
    holds none of a record's named keys is a convention, not a checked invariant.
- Floats, and Python's cross-type equality (`1 == True == 1.0`) in the mechanism comparison.
  `Value` has no floats, and its equality is structural.
- Object identity and aliasing. Copied values such as `security` are the same list object in
  Python. Here they are values, and the returned adjustments are a value snapshot of the
  mutated lists.
