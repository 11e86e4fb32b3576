/** The system design that both extractors read. Every key of the Python dictionaries is an
    `Option`: `None` when the key is missing, `Some` when it is present (its list may be empty). */
module DesignSchema {
  import opened Wrappers
  import opened Values

  /** An entry of `ui_components`. */
  datatype UiComponent = UiComponent(
    name: Option<Value>,
    requirements: Option<Value>,
    dependencies: Option<Value>)

  /** An entry of `api_endpoints`; the backend reads the first five keys, the frontend reads
      `path`, `method` and `data_model`. */
  datatype ApiEndpoint = ApiEndpoint(
    path: Option<Value>,
    httpMethod: Option<Value>,
    requestModel: Option<Value>,
    responseModel: Option<Value>,
    security: Option<Value>,
    dataModel: Option<Value>)

  /** An entry of `data_models`. */
  datatype DataModel = DataModel(
    name: Option<Value>,
    properties: Option<Value>,
    validations: Option<Value>,
    relationships: Option<Value>)

  /** An entry of `services`. */
  datatype ServiceSpec = ServiceSpec(
    name: Option<Value>,
    operations: Option<Value>,
    dependencies: Option<Value>,
    dataAccess: Option<Value>)

  datatype SystemDesign = SystemDesign(
    uiComponents: Option<seq<UiComponent>>,
    apiEndpoints: Option<seq<ApiEndpoint>>,
    dataModels: Option<seq<DataModel>>,
    services: Option<seq<ServiceSpec>>,
    frontendDependencies: Option<Value>,
    backendDependencies: Option<Value>)

  /** The `{}` default of `inputs.get("design", {})`. */
  const EmptyDesign: SystemDesign := SystemDesign(None, None, None, None, None, None)

  /** The `inputs` dictionary of an extractor's `arun`. */
  datatype ExtractorInputs = ExtractorInputs(design: Option<SystemDesign>)

  /** The design an extractor works on: `inputs.get("design", {})`. */
  function DesignOf(inputs: ExtractorInputs): SystemDesign {
    inputs.design.GetOr(EmptyDesign)
  }

  /** The number of entries a key contributes: none when it is missing. */
  function Count<T>(block: Option<seq<T>>): nat {
    if block.Some? then |block.value| else 0
  }
}
