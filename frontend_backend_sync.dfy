/** `FrontendBackendSync`: compares what the frontend and the backend implement along three
    axes (API contracts, data models, authentication), reports one finding per comparison and
    sorts the findings that are not `matched` into three adjustment buckets.

    The five matching and comparison helpers of the operation are not given; they are the
    fields of `Helpers`, deterministic functions about which nothing else is assumed. */
module FrontendBackendSync {
  import opened Wrappers
  import opened Values

  // ---------------------------------------------------------------------------------------
  // Inputs
  // ---------------------------------------------------------------------------------------

  /** An entry of the frontend's `api_services`: the two keys this operation reads, and every
      other key (`others`, which holds neither of the two) that a matcher may look at. */
  datatype FrontendService = FrontendService(name: Option<Value>, methods: Option<Value>, others: map<string, Value>)

  /** An entry of the backend's `api_endpoints`, laid out like `FrontendService`. */
  datatype BackendEndpoint = BackendEndpoint(path: Option<Value>, methods: Option<Value>, others: map<string, Value>) {
    /** No key present: the record stands for `{}`, which Python treats as false. */
    predicate IsEmpty() {
      path.None? && methods.None? && others == map[]
    }
  }

  /** An entry of the frontend's `models` or the backend's `data_models`, laid out like
      `FrontendService`. */
  datatype ModelDecl = ModelDecl(name: Option<Value>, properties: Option<Value>, others: map<string, Value>) {
    /** No key present: the record stands for `{}`, which Python treats as false. */
    predicate IsEmpty() {
      name.None? && properties.None? && others == map[]
    }
  }

  /** The frontend's `auth_config` or the backend's `security_config`. */
  datatype AuthConfig = AuthConfig(mechanism: Option<Value>, roles: Option<Value>)

  /** The `{}` default of a missing auth configuration. */
  const NoAuthConfig: AuthConfig := AuthConfig(None, None)

  datatype FrontendImplementation = FrontendImplementation(
    apiServices: Option<seq<FrontendService>>,
    models: Option<seq<ModelDecl>>,
    authConfig: Option<AuthConfig>)

  datatype BackendImplementation = BackendImplementation(
    apiEndpoints: Option<seq<BackendEndpoint>>,
    dataModels: Option<seq<ModelDecl>>,
    securityConfig: Option<AuthConfig>)

  /** The `{}` defaults of a missing implementation summary. */
  const NoFrontend: FrontendImplementation := FrontendImplementation(None, None, None)
  const NoBackend: BackendImplementation := BackendImplementation(None, None, None)

  /** The `inputs` dictionary of `arun`. */
  datatype SyncInputs = SyncInputs(
    frontendImplementation: Option<FrontendImplementation>,
    backendImplementation: Option<BackendImplementation>)

  /** `_find_matching_endpoint`, `_find_matching_model`, `_compare_methods`,
      `_compare_properties` and `_compare_roles`. */
  datatype Helpers = Helpers(
    findMatchingEndpoint: (FrontendService, seq<BackendEndpoint>) -> Option<BackendEndpoint>,
    findMatchingModel: (ModelDecl, seq<ModelDecl>) -> Option<ModelDecl>,
    compareMethods: (Value, Value) -> Value,
    compareProperties: (Value, Value) -> Value,
    compareRoles: (Value, Value) -> Value)

  /** `if matching_endpoint:` — a match is an endpoint that is not `None` and not `{}`. */
  predicate EndpointFound(m: Option<BackendEndpoint>) {
    m.Some? && !m.value.IsEmpty()
  }

  /** `if b_model:` */
  predicate ModelFound(m: Option<ModelDecl>) {
    m.Some? && !m.value.IsEmpty()
  }

  // ---------------------------------------------------------------------------------------
  // Findings
  // ---------------------------------------------------------------------------------------

  /** A sync finding: its `"type"` and `"status"` keys, and the other keys it carries. */
  datatype Finding = Finding(kind: string, status: string, fields: map<string, Value>)

  /** The finding `_validate_api_contracts` appends for one frontend service. */
  function ApiFinding(service: FrontendService, endpoints: seq<BackendEndpoint>, h: Helpers): Finding {
    var m := h.findMatchingEndpoint(service, endpoints);
    if EndpointFound(m) then
      Finding("api_contract", "matched", map[
        "frontend_service" := OrNull(service.name),
        "backend_endpoint" := OrNull(m.value.path),
        "methods" := h.compareMethods(service.methods.GetOr(EmptyList), m.value.methods.GetOr(EmptyList))])
    else
      Finding("api_contract", "missing_endpoint", map["frontend_service" := OrNull(service.name)])
  }

  /** The API axis: exactly one finding per frontend service, in input order. */
  function ApiFindings(services: seq<FrontendService>, endpoints: seq<BackendEndpoint>, h: Helpers)
    : (fs: seq<Finding>)
    ensures |fs| == |services|
    ensures forall i :: 0 <= i < |services| ==> fs[i] == ApiFinding(services[i], endpoints, h)
  {
    if services == [] then [] else [ApiFinding(services[0], endpoints, h)] + ApiFindings(services[1..], endpoints, h)
  }

  /** Each API finding is `matched` when the matcher finds an endpoint, and then carries the
      methods diff, or `missing_endpoint` otherwise; both name the frontend service. */
  lemma ApiAxisClassification(services: seq<FrontendService>, endpoints: seq<BackendEndpoint>, h: Helpers, i: nat)
    requires i < |services|
    ensures var f, m := ApiFindings(services, endpoints, h)[i], h.findMatchingEndpoint(services[i], endpoints);
      && f.kind == "api_contract"
      && (f.status == "matched" <==> EndpointFound(m))
      && (f.status == "missing_endpoint" <==> !EndpointFound(m))
      && "frontend_service" in f.fields
      && f.fields["frontend_service"] == OrNull(services[i].name)
      && (EndpointFound(m) ==>
            && "methods" in f.fields
            && f.fields["methods"] ==
                 h.compareMethods(services[i].methods.GetOr(EmptyList), m.value.methods.GetOr(EmptyList)))
  {
  }

  /** The finding `_validate_data_models` appends for one frontend model. */
  function ModelFinding(model: ModelDecl, backendModels: seq<ModelDecl>, h: Helpers): Finding {
    var m := h.findMatchingModel(model, backendModels);
    if ModelFound(m) then
      Finding("data_model", "matched", map[
        "model_name" := OrNull(model.name),
        "property_diffs" := h.compareProperties(model.properties.GetOr(EmptyList), m.value.properties.GetOr(EmptyList))])
    else
      Finding("data_model", "missing_model", map["model_name" := OrNull(model.name)])
  }

  /** The data-model axis: exactly one finding per frontend model, in input order. */
  function ModelFindings(models: seq<ModelDecl>, backendModels: seq<ModelDecl>, h: Helpers)
    : (fs: seq<Finding>)
    ensures |fs| == |models|
    ensures forall i :: 0 <= i < |models| ==> fs[i] == ModelFinding(models[i], backendModels, h)
  {
    if models == [] then [] else [ModelFinding(models[0], backendModels, h)] + ModelFindings(models[1..], backendModels, h)
  }

  /** Each model finding is `matched` when the matcher finds a backend model, and then carries
      the `property_diffs`, or `missing_model` otherwise; both name the frontend model. */
  lemma ModelAxisClassification(models: seq<ModelDecl>, backendModels: seq<ModelDecl>, h: Helpers, i: nat)
    requires i < |models|
    ensures var f, m := ModelFindings(models, backendModels, h)[i], h.findMatchingModel(models[i], backendModels);
      && f.kind == "data_model"
      && (f.status == "matched" <==> ModelFound(m))
      && (f.status == "missing_model" <==> !ModelFound(m))
      && "model_name" in f.fields
      && f.fields["model_name"] == OrNull(models[i].name)
      && (ModelFound(m) ==>
            && "property_diffs" in f.fields
            && f.fields["property_diffs"] ==
                 h.compareProperties(models[i].properties.GetOr(EmptyList), m.value.properties.GetOr(EmptyList)))
  {
  }

  /** `frontend_auth.get("mechanism") != backend_auth.get("mechanism")`; two missing
      mechanisms are both `None` and so agree. */
  predicate MechanismsDiffer(frontendAuth: AuthConfig, backendAuth: AuthConfig) {
    OrNull(frontendAuth.mechanism) != OrNull(backendAuth.mechanism)
  }

  /** The role diff `_compare_roles` computes. */
  function RoleDiffs(frontendAuth: AuthConfig, backendAuth: AuthConfig, h: Helpers): Value {
    h.compareRoles(frontendAuth.roles.GetOr(EmptyList), backendAuth.roles.GetOr(EmptyList))
  }

  /** The `mismatch` finding; it carries both mechanisms verbatim. */
  function MechanismFinding(frontendAuth: AuthConfig, backendAuth: AuthConfig): Finding {
    Finding("auth", "mismatch", map[
      "component" := Str("mechanism"),
      "frontend" := OrNull(frontendAuth.mechanism),
      "backend" := OrNull(backendAuth.mechanism)])
  }

  /** The `role_mismatch` finding; it carries only the differences. */
  function RoleFinding(diffs: Value): Finding {
    Finding("auth", "role_mismatch", map["differences" := diffs])
  }

  /** The auth axis: a `mismatch` finding exactly when the mechanisms differ, then a
      `role_mismatch` finding exactly when the role diff is truthy; never `matched`, so a
      consistent configuration yields no finding at all. */
  function AuthFindings(frontendAuth: AuthConfig, backendAuth: AuthConfig, h: Helpers): (fs: seq<Finding>)
    ensures |fs| <= 2
    ensures forall f :: f in fs ==> f.kind == "auth" && f.status != "matched"
    ensures (exists f :: f in fs && f.status == "mismatch") <==> MechanismsDiffer(frontendAuth, backendAuth)
    ensures (exists f :: f in fs && f.status == "role_mismatch") <==> Truthy(RoleDiffs(frontendAuth, backendAuth, h))
    ensures forall f :: f in fs && f.status == "mismatch" ==>
      && "frontend" in f.fields && f.fields["frontend"] == OrNull(frontendAuth.mechanism)
      && "backend" in f.fields && f.fields["backend"] == OrNull(backendAuth.mechanism)
    ensures forall f :: f in fs && f.status == "role_mismatch" ==> "frontend" !in f.fields
    ensures fs == [] <==> !MechanismsDiffer(frontendAuth, backendAuth) && !Truthy(RoleDiffs(frontendAuth, backendAuth, h))
    ensures |fs| == (if MechanismsDiffer(frontendAuth, backendAuth) then 1 else 0)
                    + (if Truthy(RoleDiffs(frontendAuth, backendAuth, h)) then 1 else 0)
    ensures MechanismsDiffer(frontendAuth, backendAuth) ==> fs[0] == MechanismFinding(frontendAuth, backendAuth)
    ensures Truthy(RoleDiffs(frontendAuth, backendAuth, h)) ==>
      fs[|fs| - 1] == RoleFinding(RoleDiffs(frontendAuth, backendAuth, h))
  {
    var diffs := RoleDiffs(frontendAuth, backendAuth, h);
    (if MechanismsDiffer(frontendAuth, backendAuth) then [MechanismFinding(frontendAuth, backendAuth)] else [])
    + (if Truthy(diffs) then [RoleFinding(diffs)] else [])
  }

  /** The pieces of the summaries `_analyze_sync_points` reads, with their defaults. */
  function ServicesOf(frontend: FrontendImplementation): seq<FrontendService> {
    frontend.apiServices.GetOr([])
  }

  function EndpointsOf(backend: BackendImplementation): seq<BackendEndpoint> {
    backend.apiEndpoints.GetOr([])
  }

  function FrontendModelsOf(frontend: FrontendImplementation): seq<ModelDecl> {
    frontend.models.GetOr([])
  }

  function BackendModelsOf(backend: BackendImplementation): seq<ModelDecl> {
    backend.dataModels.GetOr([])
  }

  function FrontendAuthOf(frontend: FrontendImplementation): AuthConfig {
    frontend.authConfig.GetOr(NoAuthConfig)
  }

  function BackendAuthOf(backend: BackendImplementation): AuthConfig {
    backend.securityConfig.GetOr(NoAuthConfig)
  }

  /** `sync_results`: the API findings, then the model findings, then the auth findings. */
  function SyncResults(frontend: FrontendImplementation, backend: BackendImplementation, h: Helpers)
    : (rs: seq<Finding>)
    ensures |rs| == |ServicesOf(frontend)| + |FrontendModelsOf(frontend)|
                    + |AuthFindings(FrontendAuthOf(frontend), BackendAuthOf(backend), h)|
  {
    ApiFindings(ServicesOf(frontend), EndpointsOf(backend), h)
    + ModelFindings(FrontendModelsOf(frontend), BackendModelsOf(backend), h)
    + AuthFindings(FrontendAuthOf(frontend), BackendAuthOf(backend), h)
  }

  /** The order of `sync_results`: each axis's findings sit in their own slice. */
  lemma SyncResultsOrder(frontend: FrontendImplementation, backend: BackendImplementation, h: Helpers)
    ensures var rs := SyncResults(frontend, backend, h);
      var s, m := |ServicesOf(frontend)|, |FrontendModelsOf(frontend)|;
      && rs[..s] == ApiFindings(ServicesOf(frontend), EndpointsOf(backend), h)
      && rs[s..s + m] == ModelFindings(FrontendModelsOf(frontend), BackendModelsOf(backend), h)
      && rs[s + m..] == AuthFindings(FrontendAuthOf(frontend), BackendAuthOf(backend), h)
  {
  }

  /** The axes never emit `method_mismatch` or `property_mismatch`: every status is one of the
      five below. */
  lemma SyncStatuses(frontend: FrontendImplementation, backend: BackendImplementation, h: Helpers)
    ensures forall f :: f in SyncResults(frontend, backend, h) ==>
      f.status in {"matched", "missing_endpoint", "missing_model", "mismatch", "role_mismatch"}
  {
  }

  // ---------------------------------------------------------------------------------------
  // Adjustments
  // ---------------------------------------------------------------------------------------

  /** An adjustment entry: its `"type"` key and the other keys it carries. */
  datatype Adjustment = Adjustment(kind: string, fields: map<string, Value>)

  /** The contents of the `adjustments` dictionary's three lists. */
  datatype Buckets = Buckets(frontend: seq<Adjustment>, backend: seq<Adjustment>, critical: seq<Adjustment>)

  const NoAdjustments: Buckets := Buckets([], [], [])

  /** `_handle_api_mismatch` on the buckets: a `missing_endpoint` appends `create_endpoint` to
      `backend`; a `method_mismatch` appends `api_method_mismatch` to `critical`. */
  function ApiStep(b: Buckets, result: Finding): Result<Buckets, KeyError> {
    if result.status == "missing_endpoint" then
      var service :- Lookup(result.fields, "frontend_service");
      Success(b.(backend := b.backend + [Adjustment("create_endpoint", map["service" := service])]))
    else if result.status == "method_mismatch" then
      var service :- Lookup(result.fields, "frontend_service");
      var details :- Lookup(result.fields, "methods");
      Success(b.(critical := b.critical + [Adjustment("api_method_mismatch", map["service" := service, "details" := details])]))
    else
      Success(b)
  }

  /** `_handle_model_mismatch` on the buckets: a `missing_model` appends `create_model` to
      `backend`; a `property_mismatch` appends `model_property_mismatch` to `critical`. */
  function ModelStep(b: Buckets, result: Finding): Result<Buckets, KeyError> {
    if result.status == "missing_model" then
      var model :- Lookup(result.fields, "model_name");
      Success(b.(backend := b.backend + [Adjustment("create_model", map["model" := model])]))
    else if result.status == "property_mismatch" then
      var model :- Lookup(result.fields, "model_name");
      var details :- Lookup(result.fields, "property_diffs");
      Success(b.(critical := b.critical + [Adjustment("model_property_mismatch", map["model" := model, "details" := details])]))
    else
      Success(b)
  }

  /** The critical entry for an auth finding, carrying both sides' values. */
  function MechanismAdjustment(frontend: Value, backend: Value): Adjustment {
    Adjustment("auth_mechanism_mismatch", map["details" := Dict(map["frontend" := frontend, "backend" := backend])])
  }

  /** `_handle_auth_mismatch` on the buckets: every auth finding appends
      `auth_mechanism_mismatch` to `critical`, reading its `frontend` then its `backend` key. */
  function AuthStep(b: Buckets, result: Finding): Result<Buckets, KeyError> {
    if result.kind == "auth" then
      var frontend :- Lookup(result.fields, "frontend");
      var backend :- Lookup(result.fields, "backend");
      Success(b.(critical := b.critical + [MechanismAdjustment(frontend, backend)]))
    else
      Success(b)
  }

  /** One iteration of `_generate_adjustments`: a finding that is not `matched` goes to the
      handler of its type; any other finding is dropped. */
  function Adjust(b: Buckets, result: Finding): Result<Buckets, KeyError> {
    if result.status == "matched" then Success(b)
    else if result.kind == "api_contract" then ApiStep(b, result)
    else if result.kind == "data_model" then ModelStep(b, result)
    else if result.kind == "auth" then AuthStep(b, result)
    else Success(b)
  }

  /** The rest of `_generate_adjustments` from the buckets `b` on: the first `KeyError` a
      handler raises ends the whole call. */
  function AdjustFrom(b: Buckets, results: seq<Finding>): Result<Buckets, KeyError>
    decreases |results|
  {
    if results == [] then Success(b)
    else
      var b' :- Adjust(b, results[0]);
      AdjustFrom(b', results[1..])
  }

  /** `_generate_adjustments`: start from three empty lists. */
  function AdjustAll(results: seq<Finding>): Result<Buckets, KeyError> {
    AdjustFrom(NoAdjustments, results)
  }

  /** Processing two runs of findings one after the other. */
  lemma {:induction false} AdjustFromAppend(b: Buckets, xs: seq<Finding>, ys: seq<Finding>)
    ensures AdjustFrom(b, xs + ys) ==
      match AdjustFrom(b, xs)
      case Success(b') => AdjustFrom(b', ys)
      case Failure(e) => Failure(e)
    decreases |xs|
  {
    if xs != [] {
      assert (xs + ys)[0] == xs[0];
      assert (xs + ys)[1..] == xs[1..] + ys;
      match Adjust(b, xs[0])
      case Success(b') => AdjustFromAppend(b', xs[1..], ys);
      case Failure(_) =>
    } else {
      assert xs + ys == ys;
    }
  }

  /** No handler ever writes the `frontend` bucket, whatever the findings. */
  lemma {:induction false} FrontendNeverWritten(b: Buckets, results: seq<Finding>)
    ensures AdjustFrom(b, results).Success? ==> AdjustFrom(b, results).value.frontend == b.frontend
    decreases |results|
  {
    if results != [] {
      match Adjust(b, results[0])
      case Success(b') => FrontendNeverWritten(b', results[1..]);
      case Failure(_) =>
    }
  }

  /** The findings that are not `matched`, in order. */
  function Unmatched(results: seq<Finding>): (us: seq<Finding>)
    ensures forall f :: f in us ==> f in results && f.status != "matched"
    ensures forall f :: f in results && f.status != "matched" ==> f in us
    ensures |us| == |results| - CountStatus(results, "matched")
  {
    if results == [] then []
    else if results[0].status == "matched" then Unmatched(results[1..])
    else [results[0]] + Unmatched(results[1..])
  }

  /** A `matched` finding never produces an adjustment: dropping all of them changes nothing. */
  lemma {:induction false} MatchedFindingsIgnored(b: Buckets, results: seq<Finding>)
    ensures AdjustFrom(b, results) == AdjustFrom(b, Unmatched(results))
    decreases |results|
  {
    if results != [] {
      if results[0].status == "matched" {
        MatchedFindingsIgnored(b, results[1..]);
      } else {
        match Adjust(b, results[0])
        case Success(b') => MatchedFindingsIgnored(b', results[1..]);
        case Failure(_) =>
      }
    }
  }

  /** Reference definition of the `backend` entries the API axis causes: one `create_endpoint`
      naming each service the matcher finds no endpoint for, in order. */
  function CreateEndpointEntries(services: seq<FrontendService>, endpoints: seq<BackendEndpoint>, h: Helpers)
    : (entries: seq<Adjustment>)
    ensures |entries| <= |services|
    ensures forall a :: a in entries ==> a.kind == "create_endpoint"
    ensures forall a :: a in entries ==>
      exists i :: (0 <= i < |services| && !EndpointFound(h.findMatchingEndpoint(services[i], endpoints))
                   && a == Adjustment("create_endpoint", map["service" := OrNull(services[i].name)]))
  {
    if services == [] then []
    else
      (if EndpointFound(h.findMatchingEndpoint(services[0], endpoints)) then []
       else [Adjustment("create_endpoint", map["service" := OrNull(services[0].name)])])
      + CreateEndpointEntries(services[1..], endpoints, h)
  }

  /** Reference definition of the `backend` entries the data-model axis causes: one
      `create_model` naming each model the matcher finds no counterpart for, in order. */
  function CreateModelEntries(models: seq<ModelDecl>, backendModels: seq<ModelDecl>, h: Helpers)
    : (entries: seq<Adjustment>)
    ensures |entries| <= |models|
    ensures forall a :: a in entries ==> a.kind == "create_model"
    ensures forall a :: a in entries ==>
      exists i :: (0 <= i < |models| && !ModelFound(h.findMatchingModel(models[i], backendModels))
                   && a == Adjustment("create_model", map["model" := OrNull(models[i].name)]))
  {
    if models == [] then []
    else
      (if ModelFound(h.findMatchingModel(models[0], backendModels)) then []
       else [Adjustment("create_model", map["model" := OrNull(models[0].name)])])
      + CreateModelEntries(models[1..], backendModels, h)
  }

  /** The number of findings with a given status. */
  function CountStatus(results: seq<Finding>, status: string): (n: nat)
    ensures n <= |results|
  {
    if results == [] then 0
    else (if results[0].status == status then 1 else 0) + CountStatus(results[1..], status)
  }

  /** The API findings only ever append to `backend`: one `create_endpoint` per
      `missing_endpoint` finding, naming its service, and never raise. */
  lemma {:induction false} ApiFindingsAdjust(b: Buckets, services: seq<FrontendService>, endpoints: seq<BackendEndpoint>, h: Helpers)
    ensures AdjustFrom(b, ApiFindings(services, endpoints, h)) ==
      Success(b.(backend := b.backend + CreateEndpointEntries(services, endpoints, h)))
    decreases |services|
  {
    if services != [] {
      var fs := ApiFindings(services, endpoints, h);
      assert fs[1..] == ApiFindings(services[1..], endpoints, h);
      var tail := CreateEndpointEntries(services[1..], endpoints, h);
      if EndpointFound(h.findMatchingEndpoint(services[0], endpoints)) {
        assert Adjust(b, fs[0]) == Success(b);
        assert AdjustFrom(b, fs) == AdjustFrom(b, fs[1..]);
        ApiFindingsAdjust(b, services[1..], endpoints, h);
        assert CreateEndpointEntries(services, endpoints, h) == tail;
      } else {
        var entry := Adjustment("create_endpoint", map["service" := OrNull(services[0].name)]);
        assert fs[0] == Finding(fs[0].kind, fs[0].status, map["frontend_service" := OrNull(services[0].name)]);
        var b' := b.(backend := b.backend + [entry]);
        assert Adjust(b, fs[0]) == Success(b');
        assert AdjustFrom(b, fs) == AdjustFrom(b', fs[1..]);
        ApiFindingsAdjust(b', services[1..], endpoints, h);
        assert CreateEndpointEntries(services, endpoints, h) == [entry] + tail;
        assert b.backend + [entry] + tail == b.backend + ([entry] + tail);
      }
    } else {
      assert b.backend + CreateEndpointEntries(services, endpoints, h) == b.backend;
    }
  }

  /** The model findings only ever append to `backend`: one `create_model` per
      `missing_model` finding, naming its model, and never raise. */
  lemma {:induction false} ModelFindingsAdjust(b: Buckets, models: seq<ModelDecl>, backendModels: seq<ModelDecl>, h: Helpers)
    ensures AdjustFrom(b, ModelFindings(models, backendModels, h)) ==
      Success(b.(backend := b.backend + CreateModelEntries(models, backendModels, h)))
    decreases |models|
  {
    if models != [] {
      var fs := ModelFindings(models, backendModels, h);
      assert fs[1..] == ModelFindings(models[1..], backendModels, h);
      var tail := CreateModelEntries(models[1..], backendModels, h);
      if ModelFound(h.findMatchingModel(models[0], backendModels)) {
        assert Adjust(b, fs[0]) == Success(b);
        assert AdjustFrom(b, fs) == AdjustFrom(b, fs[1..]);
        ModelFindingsAdjust(b, models[1..], backendModels, h);
        assert CreateModelEntries(models, backendModels, h) == tail;
      } else {
        var entry := Adjustment("create_model", map["model" := OrNull(models[0].name)]);
        assert fs[0] == Finding(fs[0].kind, fs[0].status, map["model_name" := OrNull(models[0].name)]);
        var b' := b.(backend := b.backend + [entry]);
        assert Adjust(b, fs[0]) == Success(b');
        assert AdjustFrom(b, fs) == AdjustFrom(b', fs[1..]);
        ModelFindingsAdjust(b', models[1..], backendModels, h);
        assert CreateModelEntries(models, backendModels, h) == [entry] + tail;
        assert b.backend + [entry] + tail == b.backend + ([entry] + tail);
      }
    } else {
      assert b.backend + CreateModelEntries(models, backendModels, h) == b.backend;
    }
  }

  /** The critical entries the mechanism comparison causes. */
  function MechanismEntries(frontendAuth: AuthConfig, backendAuth: AuthConfig): seq<Adjustment> {
    if MechanismsDiffer(frontendAuth, backendAuth)
    then [MechanismAdjustment(OrNull(frontendAuth.mechanism), OrNull(backendAuth.mechanism))]
    else []
  }

  /** The auth findings: a `mismatch` appends one `auth_mechanism_mismatch` carrying both
      mechanisms verbatim; a `role_mismatch` has no `frontend` key, so handling it raises
      `KeyError('frontend')`. */
  lemma AuthFindingsAdjust(b: Buckets, frontendAuth: AuthConfig, backendAuth: AuthConfig, h: Helpers)
    ensures AdjustFrom(b, AuthFindings(frontendAuth, backendAuth, h)) ==
      if Truthy(RoleDiffs(frontendAuth, backendAuth, h)) then Failure(KeyError("frontend"))
      else Success(b.(critical := b.critical + MechanismEntries(frontendAuth, backendAuth)))
  {
    var diffs := RoleDiffs(frontendAuth, backendAuth, h);
    var mech := if MechanismsDiffer(frontendAuth, backendAuth) then [MechanismFinding(frontendAuth, backendAuth)] else [];
    var role := if Truthy(diffs) then [RoleFinding(diffs)] else [];
    AdjustFromAppend(b, mech, role);
    var b' := b.(critical := b.critical + MechanismEntries(frontendAuth, backendAuth));
    if MechanismsDiffer(frontendAuth, backendAuth) {
      var f := MechanismFinding(frontendAuth, backendAuth);
      assert Adjust(b, f) == Success(b');
      assert AdjustFrom(b, mech) == AdjustFrom(b', []);
    } else {
      assert b.critical + MechanismEntries(frontendAuth, backendAuth) == b.critical;
    }
    assert AdjustFrom(b, mech) == Success(b');
    if Truthy(diffs) {
      assert Adjust(b', RoleFinding(diffs)) == Failure(KeyError("frontend"));
    }
  }

  /** What `_generate_adjustments` makes of the results of `_analyze_sync_points`: the call
      raises `KeyError('frontend')` exactly when the role diff is truthy; otherwise
      `frontend` is empty, `backend` holds the `create_endpoint` entries and then the
      `create_model` entries, and `critical` holds at most the `auth_mechanism_mismatch`
      entry. */
  lemma ReconcileAdjustments(frontend: FrontendImplementation, backend: BackendImplementation, h: Helpers)
    ensures var fa, ba := FrontendAuthOf(frontend), BackendAuthOf(backend);
      AdjustAll(SyncResults(frontend, backend, h)) ==
        if Truthy(RoleDiffs(fa, ba, h)) then Failure(KeyError("frontend"))
        else Success(Buckets(
          [],
          CreateEndpointEntries(ServicesOf(frontend), EndpointsOf(backend), h)
            + CreateModelEntries(FrontendModelsOf(frontend), BackendModelsOf(backend), h),
          MechanismEntries(fa, ba)))
  {
    var fa, ba := FrontendAuthOf(frontend), BackendAuthOf(backend);
    var api := ApiFindings(ServicesOf(frontend), EndpointsOf(backend), h);
    var models := ModelFindings(FrontendModelsOf(frontend), BackendModelsOf(backend), h);
    var auth := AuthFindings(fa, ba, h);
    assert SyncResults(frontend, backend, h) == api + models + auth;
    var apiEntries := CreateEndpointEntries(ServicesOf(frontend), EndpointsOf(backend), h);
    var modelEntries := CreateModelEntries(FrontendModelsOf(frontend), BackendModelsOf(backend), h);
    ApiFindingsAdjust(NoAdjustments, ServicesOf(frontend), EndpointsOf(backend), h);
    var b1 := Buckets([], apiEntries, []);
    assert [] + apiEntries == apiEntries;
    assert AdjustFrom(NoAdjustments, api) == Success(b1);
    ModelFindingsAdjust(b1, FrontendModelsOf(frontend), BackendModelsOf(backend), h);
    var b2 := Buckets([], apiEntries + modelEntries, []);
    assert AdjustFrom(b1, models) == Success(b2);
    AdjustFromAppend(NoAdjustments, api, models);
    assert AdjustFrom(NoAdjustments, api + models) == Success(b2);
    AuthFindingsAdjust(b2, fa, ba, h);
    assert [] + MechanismEntries(fa, ba) == MechanismEntries(fa, ba);
    AdjustFromAppend(NoAdjustments, api + models, auth);
  }

  /** The number of `backend` entries is the number of `missing_endpoint` findings plus the
      number of `missing_model` findings. */
  lemma {:induction false} CreateEndpointEntriesCount(services: seq<FrontendService>, endpoints: seq<BackendEndpoint>, h: Helpers)
    ensures |CreateEndpointEntries(services, endpoints, h)| == CountStatus(ApiFindings(services, endpoints, h), "missing_endpoint")
  {
    if services != [] {
      assert ApiFindings(services, endpoints, h)[1..] == ApiFindings(services[1..], endpoints, h);
      CreateEndpointEntriesCount(services[1..], endpoints, h);
    }
  }

  lemma {:induction false} CreateModelEntriesCount(models: seq<ModelDecl>, backendModels: seq<ModelDecl>, h: Helpers)
    ensures |CreateModelEntries(models, backendModels, h)| == CountStatus(ModelFindings(models, backendModels, h), "missing_model")
  {
    if models != [] {
      assert ModelFindings(models, backendModels, h)[1..] == ModelFindings(models[1..], backendModels, h);
      CreateModelEntriesCount(models[1..], backendModels, h);
    }
  }

  /** `CountStatus` adds up over concatenation. */
  lemma {:induction false} CountStatusAppend(xs: seq<Finding>, ys: seq<Finding>, status: string)
    ensures CountStatus(xs + ys, status) == CountStatus(xs, status) + CountStatus(ys, status)
  {
    if xs != [] {
      assert (xs + ys)[0] == xs[0];
      assert (xs + ys)[1..] == xs[1..] + ys;
      CountStatusAppend(xs[1..], ys, status);
    } else {
      assert xs + ys == ys;
    }
  }

  /** The bucket summary of a successful reconciliation: `frontend` is empty, `backend` has one
      entry per `missing_endpoint` or `missing_model` finding, and the only entry that ever
      reaches `critical` is a single `auth_mechanism_mismatch`. */
  lemma BucketSummary(frontend: FrontendImplementation, backend: BackendImplementation, h: Helpers)
    requires !Truthy(RoleDiffs(FrontendAuthOf(frontend), BackendAuthOf(backend), h))
    ensures var rs := SyncResults(frontend, backend, h);
      && AdjustAll(rs).Success?
      && var b := AdjustAll(rs).value;
      && b.frontend == []
      && |b.backend| == CountStatus(rs, "missing_endpoint") + CountStatus(rs, "missing_model")
      && |b.critical| <= 1
      && (forall a :: a in b.critical ==> a.kind == "auth_mechanism_mismatch")
      && (b.critical != [] <==> MechanismsDiffer(FrontendAuthOf(frontend), BackendAuthOf(backend)))
  {
    var fa, ba := FrontendAuthOf(frontend), BackendAuthOf(backend);
    var rs := SyncResults(frontend, backend, h);
    var api := ApiFindings(ServicesOf(frontend), EndpointsOf(backend), h);
    var models := ModelFindings(FrontendModelsOf(frontend), BackendModelsOf(backend), h);
    var auth := AuthFindings(fa, ba, h);
    assert rs == api + models + auth;
    ReconcileAdjustments(frontend, backend, h);
    assert AdjustAll(rs).Success?;
    CreateEndpointEntriesCount(ServicesOf(frontend), EndpointsOf(backend), h);
    CreateModelEntriesCount(FrontendModelsOf(frontend), BackendModelsOf(backend), h);
    CountStatusAppend(api + models, auth, "missing_endpoint");
    CountStatusAppend(api, models, "missing_endpoint");
    CountStatusAppend(api + models, auth, "missing_model");
    CountStatusAppend(api, models, "missing_model");
    NoStatusCount(models, "missing_endpoint");
    NoStatusCount(auth, "missing_endpoint");
    NoStatusCount(api, "missing_model");
    NoStatusCount(auth, "missing_model");
  }

  /** A status no finding carries counts zero. */
  lemma {:induction false} NoStatusCount(results: seq<Finding>, status: string)
    requires forall f :: f in results ==> f.status != status
    ensures CountStatus(results, status) == 0
  {
    if results != [] {
      assert results[0] in results;
      NoStatusCount(results[1..], status);
    }
  }

  /** The dead branches are dead only because of the axes: a finding carrying
      `method_mismatch` and its keys would reach `critical`. */
  lemma MethodMismatchWouldBeCritical(b: Buckets, service: Value, details: Value)
    ensures var f := Finding("api_contract", "method_mismatch", map["frontend_service" := service, "methods" := details]);
      Adjust(b, f) == Success(b.(critical := b.critical + [Adjustment("api_method_mismatch", map["service" := service, "details" := details])]))
  {
  }

  /** Likewise, a `property_mismatch` finding with its two keys, were one emitted, would append
      `model_property_mismatch` with the model and the diff to `critical`. */
  lemma PropertyMismatchWouldBeCritical(b: Buckets, model: Value, details: Value)
    ensures var f := Finding("data_model", "property_mismatch", map["model_name" := model, "property_diffs" := details]);
      Adjust(b, f) == Success(b.(critical := b.critical + [Adjustment("model_property_mismatch", map["model" := model, "details" := details])]))
  {
  }

  // ---------------------------------------------------------------------------------------
  // The imperative operation
  // ---------------------------------------------------------------------------------------

  /** `_validate_api_contracts`: appends one finding per frontend service. */
  method ValidateApiContracts(services: seq<FrontendService>, endpoints: seq<BackendEndpoint>, h: Helpers)
    returns (validations: seq<Finding>)
    ensures validations == ApiFindings(services, endpoints, h)
  {
    validations := [];
    for i := 0 to |services|
      invariant |validations| == i
      invariant forall k :: 0 <= k < i ==> validations[k] == ApiFinding(services[k], endpoints, h)
    {
      var service := services[i];
      var matchingEndpoint := h.findMatchingEndpoint(service, endpoints);
      if EndpointFound(matchingEndpoint) {
        validations := validations + [Finding("api_contract", "matched", map[
          "frontend_service" := OrNull(service.name),
          "backend_endpoint" := OrNull(matchingEndpoint.value.path),
          "methods" := h.compareMethods(service.methods.GetOr(EmptyList), matchingEndpoint.value.methods.GetOr(EmptyList))])];
      } else {
        validations := validations + [Finding("api_contract", "missing_endpoint", map["frontend_service" := OrNull(service.name)])];
      }
    }
  }

  /** `_validate_data_models`: appends one finding per frontend model. */
  method ValidateDataModels(models: seq<ModelDecl>, backendModels: seq<ModelDecl>, h: Helpers)
    returns (validations: seq<Finding>)
    ensures validations == ModelFindings(models, backendModels, h)
  {
    validations := [];
    for i := 0 to |models|
      invariant |validations| == i
      invariant forall k :: 0 <= k < i ==> validations[k] == ModelFinding(models[k], backendModels, h)
    {
      var model := models[i];
      var backendModel := h.findMatchingModel(model, backendModels);
      if ModelFound(backendModel) {
        validations := validations + [Finding("data_model", "matched", map[
          "model_name" := OrNull(model.name),
          "property_diffs" := h.compareProperties(model.properties.GetOr(EmptyList), backendModel.value.properties.GetOr(EmptyList))])];
      } else {
        validations := validations + [Finding("data_model", "missing_model", map["model_name" := OrNull(model.name)])];
      }
    }
  }

  /** `_validate_auth_implementation`: appends the mechanism finding, then the role finding. */
  method ValidateAuthImplementation(frontendAuth: AuthConfig, backendAuth: AuthConfig, h: Helpers)
    returns (validations: seq<Finding>)
    ensures validations == AuthFindings(frontendAuth, backendAuth, h)
  {
    validations := [];
    if OrNull(frontendAuth.mechanism) != OrNull(backendAuth.mechanism) {
      validations := validations + [Finding("auth", "mismatch", map[
        "component" := Str("mechanism"),
        "frontend" := OrNull(frontendAuth.mechanism),
        "backend" := OrNull(backendAuth.mechanism)])];
    }
    var roleDiffs := h.compareRoles(frontendAuth.roles.GetOr(EmptyList), backendAuth.roles.GetOr(EmptyList));
    if Truthy(roleDiffs) {
      validations := validations + [Finding("auth", "role_mismatch", map["differences" := roleDiffs])];
    }
  }

  /** `_analyze_sync_points`: extends `sync_points` with the three axes in order. */
  method AnalyzeSyncPoints(frontend: FrontendImplementation, backend: BackendImplementation, h: Helpers)
    returns (syncPoints: seq<Finding>)
    ensures syncPoints == SyncResults(frontend, backend, h)
  {
    syncPoints := [];
    var apiSync := ValidateApiContracts(ServicesOf(frontend), EndpointsOf(backend), h);
    syncPoints := syncPoints + apiSync;
    assert syncPoints == apiSync;
    var modelSync := ValidateDataModels(FrontendModelsOf(frontend), BackendModelsOf(backend), h);
    syncPoints := syncPoints + modelSync;
    var authSync := ValidateAuthImplementation(FrontendAuthOf(frontend), BackendAuthOf(backend), h);
    syncPoints := syncPoints + authSync;
  }

  /** The `adjustments` dictionary, whose three lists the handlers append to in place. */
  class Adjustments {
    var frontend: seq<Adjustment>
    var backend: seq<Adjustment>
    var critical: seq<Adjustment>

    constructor ()
      ensures Snapshot() == NoAdjustments
    {
      frontend, backend, critical := [], [], [];
    }

    /** The current contents of the three lists. */
    function Snapshot(): Buckets
      reads this
    {
      Buckets(frontend, backend, critical)
    }
  }

  /** The buckets after a handler that either returned normally or raised. */
  function Settle(raised: Option<KeyError>, b: Buckets): Result<Buckets, KeyError> {
    if raised.Some? then Failure(raised.value) else Success(b)
  }

  /** `_handle_api_mismatch`: a raised `KeyError` leaves the lists as they were, because the
      entry is built before it is appended. */
  method HandleApiMismatch(result: Finding, adjustments: Adjustments) returns (raised: Option<KeyError>)
    modifies adjustments
    ensures Settle(raised, adjustments.Snapshot()) == ApiStep(old(adjustments.Snapshot()), result)
    ensures raised.Some? ==> adjustments.Snapshot() == old(adjustments.Snapshot())
  {
    raised := None;
    if result.status == "missing_endpoint" {
      var service := Lookup(result.fields, "frontend_service");
      if service.Failure? {
        return Some(service.error);
      }
      adjustments.backend := adjustments.backend + [Adjustment("create_endpoint", map["service" := service.value])];
    } else if result.status == "method_mismatch" {
      var service := Lookup(result.fields, "frontend_service");
      if service.Failure? {
        return Some(service.error);
      }
      var details := Lookup(result.fields, "methods");
      if details.Failure? {
        return Some(details.error);
      }
      adjustments.critical := adjustments.critical
        + [Adjustment("api_method_mismatch", map["service" := service.value, "details" := details.value])];
    }
  }

  /** `_handle_model_mismatch`. */
  method HandleModelMismatch(result: Finding, adjustments: Adjustments) returns (raised: Option<KeyError>)
    modifies adjustments
    ensures Settle(raised, adjustments.Snapshot()) == ModelStep(old(adjustments.Snapshot()), result)
    ensures raised.Some? ==> adjustments.Snapshot() == old(adjustments.Snapshot())
  {
    raised := None;
    if result.status == "missing_model" {
      var model := Lookup(result.fields, "model_name");
      if model.Failure? {
        return Some(model.error);
      }
      adjustments.backend := adjustments.backend + [Adjustment("create_model", map["model" := model.value])];
    } else if result.status == "property_mismatch" {
      var model := Lookup(result.fields, "model_name");
      if model.Failure? {
        return Some(model.error);
      }
      var details := Lookup(result.fields, "property_diffs");
      if details.Failure? {
        return Some(details.error);
      }
      adjustments.critical := adjustments.critical
        + [Adjustment("model_property_mismatch", map["model" := model.value, "details" := details.value])];
    }
  }

  /** `_handle_auth_mismatch`. */
  method HandleAuthMismatch(result: Finding, adjustments: Adjustments) returns (raised: Option<KeyError>)
    modifies adjustments
    ensures Settle(raised, adjustments.Snapshot()) == AuthStep(old(adjustments.Snapshot()), result)
    ensures raised.Some? ==> adjustments.Snapshot() == old(adjustments.Snapshot())
  {
    raised := None;
    if result.kind == "auth" {
      var frontend := Lookup(result.fields, "frontend");
      if frontend.Failure? {
        return Some(frontend.error);
      }
      var backend := Lookup(result.fields, "backend");
      if backend.Failure? {
        return Some(backend.error);
      }
      adjustments.critical := adjustments.critical + [MechanismAdjustment(frontend.value, backend.value)];
    }
  }

  /** `_generate_adjustments`: the buckets, or the `KeyError` a handler raised. */
  method GenerateAdjustments(syncResults: seq<Finding>) returns (outcome: Result<Buckets, KeyError>)
    ensures outcome == AdjustAll(syncResults)
  {
    var adjustments := new Adjustments();
    for i := 0 to |syncResults|
      invariant AdjustFrom(adjustments.Snapshot(), syncResults[i..]) == AdjustAll(syncResults)
    {
      var result := syncResults[i];
      assert syncResults[i..][1..] == syncResults[i + 1..];
      var raised: Option<KeyError> := None;
      if result.status != "matched" {
        if result.kind == "api_contract" {
          raised := HandleApiMismatch(result, adjustments);
        } else if result.kind == "data_model" {
          raised := HandleModelMismatch(result, adjustments);
        } else if result.kind == "auth" {
          raised := HandleAuthMismatch(result, adjustments);
        }
      }
      if raised.Some? {
        return Failure(raised.value);
      }
    }
    outcome := Success(adjustments.Snapshot());
  }

  /** The dictionary `arun` returns. */
  datatype SyncReport = SyncReport(syncResults: seq<Finding>, adjustmentsNeeded: Buckets)

  /** `arun`: the findings and the adjustments, or the `KeyError` that escapes when the role
      diff is truthy. */
  method Arun(inputs: SyncInputs, h: Helpers) returns (outcome: Result<SyncReport, KeyError>)
    ensures var frontend := inputs.frontendImplementation.GetOr(NoFrontend);
      var backend := inputs.backendImplementation.GetOr(NoBackend);
      var fa, ba := FrontendAuthOf(frontend), BackendAuthOf(backend);
      && (outcome.Failure? <==> Truthy(RoleDiffs(fa, ba, h)))
      && (outcome.Failure? ==> outcome.error == KeyError("frontend"))
      && (outcome.Success? ==> outcome.value == SyncReport(
            SyncResults(frontend, backend, h),
            Buckets(
              [],
              CreateEndpointEntries(ServicesOf(frontend), EndpointsOf(backend), h)
                + CreateModelEntries(FrontendModelsOf(frontend), BackendModelsOf(backend), h),
              MechanismEntries(fa, ba))))
  {
    var frontendImpl := inputs.frontendImplementation.GetOr(NoFrontend);
    var backendImpl := inputs.backendImplementation.GetOr(NoBackend);
    var syncResults := AnalyzeSyncPoints(frontendImpl, backendImpl, h);
    var adjustments := GenerateAdjustments(syncResults);
    ReconcileAdjustments(frontendImpl, backendImpl, h);
    if adjustments.Failure? {
      return Failure(adjustments.error);
    }
    outcome := Success(SyncReport(syncResults, adjustments.value));
  }
}
