/** `DesignToFrontend`: turns a system design into frontend implementation tasks
    (components, services) for a fixed Angular stack. */
module DesignToFrontend {
  import opened Wrappers
  import opened Values
  import opened DesignSchema

  /** A frontend task; the constructor is the task's `"type"`. */
  datatype FrontendTask =
    | ComponentTask(name: Value, requirements: Value, dependencies: Value)
    | ServiceTask(endpoint: Value, httpMethod: Value, dataModel: Value)
  {
    /** The task's `"type"` key. */
    function Type(): string {
      match this
      case ComponentTask(_, _, _) => "component"
      case ServiceTask(_, _, _) => "service"
    }
  }

  /** The dictionary `arun` returns. */
  datatype FrontendPlan = FrontendPlan(frontendTasks: seq<FrontendTask>, techStack: string, dependencies: Value)

  const FrontendTechStack: string := "Angular"

  /** One element of the `_create_component_tasks` comprehension. */
  function ComponentFor(c: UiComponent): FrontendTask {
    ComponentTask(OrNull(c.name), c.requirements.GetOr(EmptyList), c.dependencies.GetOr(EmptyList))
  }

  /** One element of the `_create_service_tasks` comprehension. */
  function ServiceFor(e: ApiEndpoint): FrontendTask {
    ServiceTask(OrNull(e.path), OrNull(e.httpMethod), OrNull(e.dataModel))
  }

  /** `_create_component_tasks`: one component task per UI component, in input order. */
  function CreateComponentTasks(components: seq<UiComponent>): (tasks: seq<FrontendTask>)
    ensures |tasks| == |components|
    ensures forall i :: 0 <= i < |components| ==>
      && tasks[i].Type() == "component"
      && tasks[i].name == OrNull(components[i].name)
      && tasks[i].requirements == components[i].requirements.GetOr(EmptyList)
      && tasks[i].dependencies == components[i].dependencies.GetOr(EmptyList)
  {
    if components == [] then [] else [ComponentFor(components[0])] + CreateComponentTasks(components[1..])
  }

  /** `_create_service_tasks`: one service task per API endpoint, in input order. */
  function CreateServiceTasks(endpoints: seq<ApiEndpoint>): (tasks: seq<FrontendTask>)
    ensures |tasks| == |endpoints|
    ensures forall i :: 0 <= i < |endpoints| ==>
      && tasks[i].Type() == "service"
      && tasks[i].endpoint == OrNull(endpoints[i].path)
      && tasks[i].httpMethod == OrNull(endpoints[i].httpMethod)
      && tasks[i].dataModel == OrNull(endpoints[i].dataModel)
  {
    if endpoints == [] then [] else [ServiceFor(endpoints[0])] + CreateServiceTasks(endpoints[1..])
  }

  /** The tasks a key contributes: nothing when it is missing. */
  function ComponentBlock(design: SystemDesign): seq<FrontendTask> {
    if design.uiComponents.Some? then CreateComponentTasks(design.uiComponents.value) else []
  }

  function ServiceBlock(design: SystemDesign): seq<FrontendTask> {
    if design.apiEndpoints.Some? then CreateServiceTasks(design.apiEndpoints.value) else []
  }

  /** The task list `_extract_frontend_tasks` builds: all components, then all services, each
      block as long as its key's list. */
  function FrontendTasks(design: SystemDesign): (tasks: seq<FrontendTask>)
    ensures |tasks| == Count(design.uiComponents) + Count(design.apiEndpoints)
    ensures forall i :: 0 <= i < |tasks| ==>
      && (tasks[i].Type() == "component" <==> i < Count(design.uiComponents))
      && (tasks[i].Type() == "service" <==> Count(design.uiComponents) <= i)
  {
    ComponentBlock(design) + ServiceBlock(design)
  }

  /** The block order of `FrontendTasks`: each key's tasks sit in their own slice. */
  lemma FrontendTasksBlocks(design: SystemDesign)
    ensures var c := Count(design.uiComponents);
      && FrontendTasks(design)[..c] == ComponentBlock(design)
      && FrontendTasks(design)[c..] == ServiceBlock(design)
  {
  }

  /** A key that is present with an empty list contributes no task: the result is the same as
      when the key is missing. */
  lemma EmptyListIsAbsent(design: SystemDesign)
    ensures FrontendTasks(design.(uiComponents := Some([]))) == FrontendTasks(design.(uiComponents := None))
    ensures FrontendTasks(design.(apiEndpoints := Some([]))) == FrontendTasks(design.(apiEndpoints := None))
  {
  }

  /** `_extract_frontend_tasks`: grows the task list with one `extend` per present key. */
  method ExtractFrontendTasks(design: SystemDesign) returns (tasks: seq<FrontendTask>)
    ensures tasks == FrontendTasks(design)
  {
    tasks := [];
    if design.uiComponents.Some? {
      tasks := tasks + CreateComponentTasks(design.uiComponents.value);
    }
    if design.apiEndpoints.Some? {
      tasks := tasks + CreateServiceTasks(design.apiEndpoints.value);
    }
  }

  /** `arun`: the tasks of the design, the fixed stack, and `frontend_dependencies` (default `[]`). */
  method Arun(inputs: ExtractorInputs) returns (plan: FrontendPlan)
    ensures plan.frontendTasks == FrontendTasks(DesignOf(inputs))
    ensures plan.techStack == "Angular"
    ensures plan.dependencies == DesignOf(inputs).frontendDependencies.GetOr(EmptyList)
    ensures DesignOf(inputs) == EmptyDesign ==> plan == FrontendPlan([], "Angular", List([]))
  {
    var design := DesignOf(inputs);
    var frontendTasks := ExtractFrontendTasks(design);
    plan := FrontendPlan(frontendTasks, FrontendTechStack, design.frontendDependencies.GetOr(EmptyList));
  }
}
