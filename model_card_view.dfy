/** The pure helpers of the model card: which endpoint states mean "still changing",
    the colour classes of the status badge, the badge text and the deploy button text. */
module ModelCardView {

  /** The endpoint states during which the backend is still changing the deployment.
      A status check that reports one of these starts polling, and a tick that
      reports one of these keeps it going. */
  const TransientStatuses: seq<string> :=
    ["Creating", "Deleting", "Updating", "SystemUpdating", "RollingBack"]

  /** Membership in the transient list: exactly the five named states. */
  function IsTransient(status: string): (transient: bool)
    ensures transient <==>
      || status == "Creating" || status == "Deleting" || status == "Updating"
      || status == "SystemUpdating" || status == "RollingBack"
    ensures transient ==> DisplayedStatus(status) == status
  {
    status in TransientStatuses
  }

  /** The four class strings the status badge can carry. */
  const AmberLabel := "text-amber-700 bg-amber-100"
  const GreenLabel := "text-green-700 bg-green-100"
  const RedLabel := "text-red-700 bg-red-100"
  const NeutralLabel := "text-neutral-700 bg-neutral-100"

  /** The statuses the badge shows in red. */
  const RedStatuses: set<string> := {"OutOfService", "Updating", "Failed", "Deleting"}

  /** getModelLabelColor: total, and every status gets exactly one of the four colours. */
  function LabelColor(status: string): (classes: string)
    ensures classes in {AmberLabel, GreenLabel, RedLabel, NeutralLabel}
    ensures classes == AmberLabel <==> status == "Creating"
    ensures classes == GreenLabel <==> status == "InService"
    ensures classes == RedLabel <==> status in RedStatuses
    ensures classes == NeutralLabel <==>
      status != "Creating" && status != "InService" && status !in RedStatuses
  {
    if status == "Creating" then AmberLabel
    else if status == "InService" then GreenLabel
    else if status == "OutOfService" then RedLabel
    else if status == "Updating" then RedLabel
    else if status == "Failed" then RedLabel
    else if status == "Deleting" then RedLabel
    else NeutralLabel
  }

  /** getButtonText: the button offers to undeploy exactly the deployed models. */
  function ButtonText(isDeployed: bool): (text: string)
    ensures text in {"Deploy", "Undeploy"}
    ensures text == "Undeploy" <==> isDeployed
  {
    if isDeployed then "Undeploy" else "Deploy"
  }

  /** The badge text: the status itself, or "Inactive" while the status is empty. */
  function DisplayedStatus(modelStatus: string): (badge: string)
    ensures badge != ""
    ensures badge == "Inactive" <==> modelStatus == "" || modelStatus == "Inactive"
    ensures modelStatus != "" ==> badge == modelStatus
  {
    if modelStatus != "" then modelStatus else "Inactive"
  }

  /** The settled endpoint states, the empty status and "Inactive" never keep polling. */
  lemma SettledStatusesAreNotTransient()
    ensures !IsTransient("InService") && !IsTransient("OutOfService") && !IsTransient("Failed")
    ensures !IsTransient("") && !IsTransient("Inactive")
  {
  }

  /** Two transient states are shown in the neutral colour, and two in red. */
  lemma TransientBadgeColours()
    ensures IsTransient("SystemUpdating") && LabelColor("SystemUpdating") == NeutralLabel
    ensures IsTransient("RollingBack") && LabelColor("RollingBack") == NeutralLabel
    ensures IsTransient("Updating") && LabelColor("Updating") == RedLabel
    ensures IsTransient("Deleting") && LabelColor("Deleting") == RedLabel
    ensures IsTransient("Creating") && LabelColor("Creating") == AmberLabel
  {
  }
}
