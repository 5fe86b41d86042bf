/** The workflow builder page: a workflow header (name and description) is
    created first; only then does the step form appear, and each step the
    server accepts is appended to the pipeline preview. The React state of
    the page is the set of fields of class WorkflowBuilder, and each handler
    is a method; a server answer is a parameter of the method that sends the
    request. */
module Builder {
  import opened Base
  import Routes

  const DefaultModel := "gemini-1.5-flash"
  /** The two options of the model selector. */
  const Models: set<string> := {"gemini-1.5-flash", "gemini-1.5-pro"}
  /** Temperatures are kept in tenths: the slider runs from 0 to 2 in steps
      of 0.1, and the form starts (and is reset) at 0.7. */
  const DefaultTemperature: nat := 7
  const MaxTemperature: nat := 20

  /** A step's agent as the server returns it. */
  datatype Agent = Agent(id: nat, name: string, prompt: string, model: string, temperature: nat)

  /** The body of the create-workflow request. */
  datatype WorkflowBody = WorkflowBody(name: string, description: string)

  /** The add-step request: its URL and its body. */
  datatype StepBody = StepBody(name: string, model: string, prompt: string, temperature: nat)
  datatype StepRequest = StepRequest(url: string, body: StepBody)

  /** The server's answer to create-workflow and to add-step. */
  datatype CreateResponse = Created(id: nat) | CreateFailed
  datatype AddResponse = Added(agent: Agent) | AddFailed

  /** The create handler's local check: `!wfName || wfName.trim() === ""`. */
  predicate IsBlankName(name: string)
  {
    name == "" || Trim(name) == ""
  }

  /** A name is refused exactly when it is empty or made of whitespace only. */
  lemma BlankNameIsAllWhitespace(name: string)
    ensures IsBlankName(name) <==> AllWhitespace(name)
  {
    TrimEmptyIffAllWhitespace(name);
  }

  function StepsUrl(workflowId: nat): string
  {
    "/workflows/" + NatText(workflowId) + "/steps"
  }

  /** Where "Finish & Run" navigates. */
  function FinishPath(workflowId: nat): string
  {
    "/workflows/run/" + NatText(workflowId)
  }

  /** The step list after one add-step answer. */
  function StepsAfterAdd(steps: seq<Agent>, r: AddResponse): (s: seq<Agent>)
    ensures r.Added? ==> |s| == |steps| + 1 && s[..|steps|] == steps && s[|steps|] == r.agent
    ensures r.AddFailed? ==> s == steps
  {
    if r.Added? then steps + [r.agent] else steps
  }

  /** The step list after a series of add-step answers, one per click. */
  function StepsAfterAdds(steps: seq<Agent>, rs: seq<AddResponse>): seq<Agent>
    decreases |rs|
  {
    if rs == [] then steps else StepsAfterAdds(StepsAfterAdd(steps, rs[0]), rs[1..])
  }

  /** The agents the server returned in the answers that succeeded, in the
      order of the answers. */
  function Accepted(rs: seq<AddResponse>): seq<Agent>
    decreases |rs|
  {
    if rs == [] then []
    else (if rs[0].Added? then [rs[0].agent] else []) + Accepted(rs[1..])
  }

  /** Steps appear in the order of the clicks that added them, each one the
      agent (with the id) the server returned, after the steps already
      there; failed adds leave no trace. */
  lemma {:induction false} StepsFollowCallOrder(steps: seq<Agent>, rs: seq<AddResponse>)
    ensures StepsAfterAdds(steps, rs) == steps + Accepted(rs)
    decreases |rs|
  {
    if rs != [] {
      StepsFollowCallOrder(StepsAfterAdd(steps, rs[0]), rs[1..]);
      if rs[0].Added? {
        assert steps + [rs[0].agent] + Accepted(rs[1..]) == steps + ([rs[0].agent] + Accepted(rs[1..]));
      } else {
        assert [] + Accepted(rs[1..]) == Accepted(rs[1..]);
      }
    }
  }

  /** One preview card of the pipeline. */
  datatype PreviewCard = PreviewCard(number: nat, model: string, name: string, prompt: string, arrowBelow: bool)

  /** The pipeline preview: one card per step, in list order, numbered from 1,
      with a connector below every card but the last. */
  function Preview(steps: seq<Agent>): (cards: seq<PreviewCard>)
    ensures |cards| == |steps|
    ensures forall i :: 0 <= i < |steps| ==>
              cards[i].number == i + 1 && cards[i].name == steps[i].name &&
              cards[i].model == steps[i].model && cards[i].prompt == steps[i].prompt &&
              (cards[i].arrowBelow <==> i < |steps| - 1)
  {
    var numbered := Numbered(steps);
    seq(|steps|, i requires 0 <= i < |steps| =>
      PreviewCard(numbered[i].0, numbered[i].1.model, numbered[i].1.name, numbered[i].1.prompt, i < |steps| - 1))
  }

  lemma SegmentsOfFinishPath(workflowId: nat)
    ensures Routes.Segments(FinishPath(workflowId)) != []
    ensures Routes.Segments(FinishPath(workflowId))[0] == "workflows"
  {
    var rest := "run/" + NatText(workflowId);
    assert FinishPath(workflowId) == "/" + "workflows" + "/" + rest;
    Routes.SegmentsOfPrefix("workflows", rest);
  }

  /** "Finish & Run" leads to `/workflows/run/<id>`, a path the route table
      does not define: the catch-all sends the browser back to `/`. */
  lemma FinishPathIsUnrouted(workflowId: nat, token: Option<string>)
    ensures Routes.Resolve(FinishPath(workflowId), token) == Routes.Navigate(Routes.LandingPath)
  {
    SegmentsOfFinishPath(workflowId);
    Routes.UnknownPathsGoHome(FinishPath(workflowId), token);
  }

  class WorkflowBuilder {
    var workflowId: Option<nat>
    var steps: seq<Agent>
    var wfName: string
    var wfDesc: string
    var agentName: string
    var agentPrompt: string
    var agentModel: string
    var agentTemp: nat

    /** The header is saved once the page holds a truthy workflow id. */
    predicate HasWorkflow(): (b: bool)
      reads this
      ensures b <==> workflowId.Some? && workflowId.value != 0
    {
      IdSet(workflowId)
    }

    /** Steps exist only under a saved header; the step form holds one of
        the offered models and a temperature on the slider. */
    ghost predicate Valid()
      reads this
    {
      (steps != [] ==> HasWorkflow()) &&
      agentModel in Models && agentTemp <= MaxTemperature
    }

    /** "Finish & Run" is shown once the header is saved and a step exists. */
    predicate CanFinish(): (b: bool)
      reads this
      ensures b <==> HasWorkflow() && |Preview(steps)| >= 1
    {
      HasWorkflow() && |steps| > 0
    }

    /** The number the step form shows for the next step. */
    function NextStepNumber(): (n: nat)
      reads this
      ensures n == |Preview(steps)| + 1
    {
      |steps| + 1
    }

    constructor ()
      ensures Valid()
      ensures workflowId == None && steps == []
      ensures wfName == "" && wfDesc == ""
      ensures agentName == "" && agentPrompt == "" && agentModel == DefaultModel && agentTemp == DefaultTemperature
    {
      workflowId := None;
      steps := [];
      wfName, wfDesc := "", "";
      agentName, agentPrompt := "", "";
      agentModel, agentTemp := DefaultModel, DefaultTemperature;
    }

    // The header inputs are disabled once the header is saved.

    method EditName(name: string)
      requires !HasWorkflow()
      modifies this`wfName
      ensures wfName == name
    {
      wfName := name;
    }

    method EditDescription(description: string)
      requires !HasWorkflow()
      modifies this`wfDesc
      ensures wfDesc == description
    {
      wfDesc := description;
    }

    // The step form exists only once the header is saved.

    method EditAgentName(name: string)
      requires HasWorkflow()
      modifies this`agentName
      ensures agentName == name
    {
      agentName := name;
    }

    method EditAgentPrompt(prompt: string)
      requires HasWorkflow()
      modifies this`agentPrompt
      ensures agentPrompt == prompt
    {
      agentPrompt := prompt;
    }

    method SelectModel(model: string)
      requires Valid() && HasWorkflow() && model in Models
      modifies this`agentModel
      ensures Valid()
      ensures agentModel == model
    {
      agentModel := model;
    }

    method SlideTemperature(tenths: nat)
      requires Valid() && HasWorkflow() && tenths <= MaxTemperature
      modifies this`agentTemp
      ensures Valid()
      ensures agentTemp == tenths
    {
      agentTemp := tenths;
    }

    /** "Create Workflow", offered only while no header is saved. A blank
        name sends nothing; otherwise the name and description are sent
        and a success stores the returned id. A failure has no handler and
        changes nothing. */
    method CreateHeader(response: CreateResponse) returns (sent: Option<WorkflowBody>)
      requires Valid() && !HasWorkflow()
      modifies this`workflowId
      ensures Valid()
      ensures sent.None? <==> AllWhitespace(wfName)
      ensures sent.Some? ==> sent.value == WorkflowBody(wfName, wfDesc)
      ensures workflowId == if sent.Some? && response.Created? then Some(response.id) else old(workflowId)
    {
      BlankNameIsAllWhitespace(wfName);
      if wfName == "" || Trim(wfName) == "" {
        sent := None;
        return;
      }
      sent := Some(WorkflowBody(wfName, wfDesc));
      if response.Created? {
        workflowId := Some(response.id);
      }
    }

    /** "Add Step to Workflow": sends the form as it is, with no local check,
        to the saved workflow's steps URL. A success appends the returned
        agent and clears name and prompt and resets the temperature, keeping
        the model; a failure changes nothing. */
    method AddStep(response: AddResponse) returns (sent: StepRequest)
      requires Valid() && HasWorkflow()
      modifies this`steps, this`agentName, this`agentPrompt, this`agentTemp
      ensures Valid()
      ensures sent == StepRequest(StepsUrl(workflowId.value), StepBody(old(agentName), agentModel, old(agentPrompt), old(agentTemp)))
      ensures steps == StepsAfterAdd(old(steps), response)
      ensures response.Added? ==> agentName == "" && agentPrompt == "" && agentTemp == DefaultTemperature
      ensures response.AddFailed? ==> agentName == old(agentName) && agentPrompt == old(agentPrompt) && agentTemp == old(agentTemp)
    {
      sent := StepRequest(StepsUrl(workflowId.value), StepBody(agentName, agentModel, agentPrompt, agentTemp));
      if response.Added? {
        steps := steps + [response.agent];
        agentName := "";
        agentPrompt := "";
        agentTemp := DefaultTemperature;
      }
    }

    /** "Finish & Run": the path the page navigates to. */
    method Finish() returns (target: string)
      requires CanFinish()
      ensures target == FinishPath(workflowId.value)
      ensures Routes.Segments(target) != [] && Routes.Segments(target)[0] == "workflows"
    {
      target := "/workflows/run/" + NatText(workflowId.value);
      SegmentsOfFinishPath(workflowId.value);
    }
  }
}
