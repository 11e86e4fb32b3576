/** `DesignToBackend`: turns a system design into backend implementation tasks
    (controllers, models, services) for a fixed .NET Core stack. */
module DesignToBackend {
  import opened Wrappers
  import opened Values
  import opened DesignSchema

  /** A backend task; the constructor is the task's `"type"`. */
  datatype BackendTask =
    | ControllerTask(endpoint: Value, httpMethod: Value, requestModel: Value, responseModel: Value, security: Value)
    | ModelTask(name: Value, properties: Value, validations: Value, relationships: Value)
    | ServiceTask(name: Value, operations: Value, dependencies: Value, dataAccess: Value)
  {
    /** The task's `"type"` key. */
    function Type(): string {
      match this
      case ControllerTask(_, _, _, _, _) => "controller"
      case ModelTask(_, _, _, _) => "model"
      case ServiceTask(_, _, _, _) => "service"
    }
  }

  /** The dictionary `arun` returns. */
  datatype BackendPlan = BackendPlan(backendTasks: seq<BackendTask>, techStack: string, dependencies: Value)

  const BackendTechStack: string := ".NET Core"

  /** One element of the `_create_api_tasks` comprehension. */
  function ControllerFor(e: ApiEndpoint): BackendTask {
    ControllerTask(OrNull(e.path), OrNull(e.httpMethod), OrNull(e.requestModel), OrNull(e.responseModel),
                   e.security.GetOr(EmptyList))
  }

  /** One element of the `_create_model_tasks` comprehension. */
  function ModelFor(m: DataModel): BackendTask {
    ModelTask(OrNull(m.name), m.properties.GetOr(EmptyList), m.validations.GetOr(EmptyList),
              m.relationships.GetOr(EmptyList))
  }

  /** One element of the `_create_service_tasks` comprehension. */
  function ServiceFor(s: ServiceSpec): BackendTask {
    ServiceTask(OrNull(s.name), s.operations.GetOr(EmptyList), s.dependencies.GetOr(EmptyList),
                s.dataAccess.GetOr(EmptyDict))
  }

  /** `_create_api_tasks`: one controller task per endpoint, in input order. */
  function CreateApiTasks(endpoints: seq<ApiEndpoint>): (tasks: seq<BackendTask>)
    ensures |tasks| == |endpoints|
    ensures forall i :: 0 <= i < |endpoints| ==>
      && tasks[i].Type() == "controller"
      && tasks[i].endpoint == OrNull(endpoints[i].path)
      && tasks[i].httpMethod == OrNull(endpoints[i].httpMethod)
      && tasks[i].requestModel == OrNull(endpoints[i].requestModel)
      && tasks[i].responseModel == OrNull(endpoints[i].responseModel)
      && tasks[i].security == endpoints[i].security.GetOr(EmptyList)
  {
    if endpoints == [] then [] else [ControllerFor(endpoints[0])] + CreateApiTasks(endpoints[1..])
  }

  /** `_create_model_tasks`: one model task per data model, in input order. */
  function CreateModelTasks(models: seq<DataModel>): (tasks: seq<BackendTask>)
    ensures |tasks| == |models|
    ensures forall i :: 0 <= i < |models| ==>
      && tasks[i].Type() == "model"
      && tasks[i].name == OrNull(models[i].name)
      && tasks[i].properties == models[i].properties.GetOr(EmptyList)
      && tasks[i].validations == models[i].validations.GetOr(EmptyList)
      && tasks[i].relationships == models[i].relationships.GetOr(EmptyList)
  {
    if models == [] then [] else [ModelFor(models[0])] + CreateModelTasks(models[1..])
  }

  /** `_create_service_tasks`: one service task per service, in input order. */
  function CreateServiceTasks(services: seq<ServiceSpec>): (tasks: seq<BackendTask>)
    ensures |tasks| == |services|
    ensures forall i :: 0 <= i < |services| ==>
      && tasks[i].Type() == "service"
      && tasks[i].name == OrNull(services[i].name)
      && tasks[i].operations == services[i].operations.GetOr(EmptyList)
      && tasks[i].dependencies == services[i].dependencies.GetOr(EmptyList)
      && tasks[i].dataAccess == services[i].dataAccess.GetOr(EmptyDict)
  {
    if services == [] then [] else [ServiceFor(services[0])] + CreateServiceTasks(services[1..])
  }

  /** The tasks a key contributes: nothing when it is missing. */
  function ApiBlock(design: SystemDesign): seq<BackendTask> {
    if design.apiEndpoints.Some? then CreateApiTasks(design.apiEndpoints.value) else []
  }

  function ModelBlock(design: SystemDesign): seq<BackendTask> {
    if design.dataModels.Some? then CreateModelTasks(design.dataModels.value) else []
  }

  function ServiceBlock(design: SystemDesign): seq<BackendTask> {
    if design.services.Some? then CreateServiceTasks(design.services.value) else []
  }

  /** The task list `_extract_backend_tasks` builds: all controllers, then all models, then all
      services, each block as long as its key's list. */
  function BackendTasks(design: SystemDesign): (tasks: seq<BackendTask>)
    ensures |tasks| == Count(design.apiEndpoints) + Count(design.dataModels) + Count(design.services)
    ensures forall i :: 0 <= i < |tasks| ==>
      && (tasks[i].Type() == "controller" <==> i < Count(design.apiEndpoints))
      && (tasks[i].Type() == "model" <==>
            Count(design.apiEndpoints) <= i < Count(design.apiEndpoints) + Count(design.dataModels))
      && (tasks[i].Type() == "service" <==>
            Count(design.apiEndpoints) + Count(design.dataModels) <= i)
  {
    ApiBlock(design) + ModelBlock(design) + ServiceBlock(design)
  }

  /** The block order of `BackendTasks`: each key's tasks sit in their own slice. */
  lemma BackendTasksBlocks(design: SystemDesign)
    ensures var a, m := Count(design.apiEndpoints), Count(design.dataModels);
      && BackendTasks(design)[..a] == ApiBlock(design)
      && BackendTasks(design)[a..a + m] == ModelBlock(design)
      && BackendTasks(design)[a + m..] == ServiceBlock(design)
  {
  }

  /** A key that is present with an empty list contributes no task: the result is the same as
      when the key is missing. */
  lemma EmptyListIsAbsent(design: SystemDesign)
    ensures BackendTasks(design.(apiEndpoints := Some([]))) == BackendTasks(design.(apiEndpoints := None))
    ensures BackendTasks(design.(dataModels := Some([]))) == BackendTasks(design.(dataModels := None))
    ensures BackendTasks(design.(services := Some([]))) == BackendTasks(design.(services := None))
  {
  }

  /** `_extract_backend_tasks`: grows the task list with one `extend` per present key. */
  method ExtractBackendTasks(design: SystemDesign) returns (tasks: seq<BackendTask>)
    ensures tasks == BackendTasks(design)
  {
    tasks := [];
    if design.apiEndpoints.Some? {
      tasks := tasks + CreateApiTasks(design.apiEndpoints.value);
    }
    if design.dataModels.Some? {
      tasks := tasks + CreateModelTasks(design.dataModels.value);
    }
    if design.services.Some? {
      tasks := tasks + CreateServiceTasks(design.services.value);
    }
  }

  /** `arun`: the tasks of the design, the fixed stack, and `backend_dependencies` (default `[]`). */
  method Arun(inputs: ExtractorInputs) returns (plan: BackendPlan)
    ensures plan.backendTasks == BackendTasks(DesignOf(inputs))
    ensures plan.techStack == ".NET Core"
    ensures plan.dependencies == DesignOf(inputs).backendDependencies.GetOr(EmptyList)
    ensures DesignOf(inputs) == EmptyDesign ==> plan == BackendPlan([], ".NET Core", List([]))
  {
    var design := DesignOf(inputs);
    var backendTasks := ExtractBackendTasks(design);
    plan := BackendPlan(backendTasks, BackendTechStack, design.backendDependencies.GetOr(EmptyList));
  }
}
