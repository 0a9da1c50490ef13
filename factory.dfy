/**
 * The workflow factory (pkg/workflow/factory.go): a workflow type names the
 * workflow to run. Only the legacy name "preload" and the operation-action
 * name "OSUpgrade-PreloadImage" are known, both matched exactly (case and
 * whitespace included); every other name is refused with
 * "unknown workflow type: <name>".
 */
module WorkflowFactory {
  import opened Wrappers
  import opened GoStrings
  import opened Preload

  /** The workflow types the factory knows, legacy name first. */
  const KnownWorkflowTypes: seq<string> := ["preload", "OSUpgrade-PreloadImage"]

  /** Why no workflow was made. */
  datatype FactoryError = UnknownWorkflowType(workflowType: string)

  /** The text of a factory error. */
  function ErrorMessage(e: FactoryError): (msg: string)
    ensures HasPrefix(msg, "unknown workflow type: ")
    ensures msg[|"unknown workflow type: "|..] == e.workflowType
  {
    "unknown workflow type: " + e.workflowType
  }

  /** `NewWorkflow`: the preload workflow for a known type, an error naming the type otherwise. */
  function NewWorkflow(workflowType: string): (r: Result<PreloadWorkflow, FactoryError>)
    ensures r.Success? <==> workflowType in KnownWorkflowTypes
    ensures r.Failure? ==> r.error == UnknownWorkflowType(workflowType)
  {
    match workflowType
    case "preload" => Success(PreloadWorkflow)
    case "OSUpgrade-PreloadImage" => Success(PreloadWorkflow)
    case _ => Failure(UnknownWorkflowType(workflowType))
  }

  /** Every workflow the factory makes is the preload workflow, whose name is "preload". */
  lemma MadeWorkflowIsPreload(workflowType: string)
    requires NewWorkflow(workflowType).Success?
    ensures GetName(NewWorkflow(workflowType).value) == "preload"
    ensures workflowType == "preload" || workflowType == "OSUpgrade-PreloadImage"
  {
  }

  /** The error message of a refused type carries the type back verbatim, so distinct types give distinct messages. */
  lemma MessageNamesType(t1: string, t2: string)
    requires NewWorkflow(t1).Failure? && NewWorkflow(t2).Failure?
    ensures ErrorMessage(NewWorkflow(t1).error) == ErrorMessage(NewWorkflow(t2).error) <==> t1 == t2
  {
    var m1 := ErrorMessage(NewWorkflow(t1).error);
    var m2 := ErrorMessage(NewWorkflow(t2).error);
    if m1 == m2 {
      assert t1 == m1[23..] == m2[23..] == t2;
    }
  }

  /** Matching is exact: other spellings of the known names are refused. */
  lemma CaseSensitive()
    ensures NewWorkflow("osupgrade-preloadimage") == Failure(UnknownWorkflowType("osupgrade-preloadimage"))
    ensures NewWorkflow("OsUpgrade-PreloadImage").Failure?
    ensures NewWorkflow("OSUPGRADE-PRELOADIMAGE").Failure?
    ensures NewWorkflow("Preload").Failure?
    ensures NewWorkflow("OSUpgrade-PreloadImage").Success?
    ensures NewWorkflow("preload").Success?
  {
  }

  /** Other operations of the CRD, and blank names, have no workflow. */
  lemma UnsupportedOperations()
    ensures NewWorkflow("OSUpgrade-Install").Failure?
    ensures NewWorkflow("OSUpgrade-Activate").Failure?
    ensures NewWorkflow("ConfigUpdate-ApplyConfig").Failure?
    ensures NewWorkflow("Reboot-SoftReboot").Failure?
    ensures NewWorkflow("Reboot-HardReboot").Failure?
    ensures NewWorkflow("").Failure?
    ensures NewWorkflow("   ").Failure?
    ensures NewWorkflow(" preload").Failure?
  {
  }
}
