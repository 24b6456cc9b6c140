/**
 * The progress bar (client/src/components/StatusBar.jsx): seven nodes joined
 * by six connectors, coloured by where the application stands. Custom
 * colours come from the `statusColors` prop, a map from status to colour; an
 * absent or empty entry falls back.
 */
module StatusBar {
  import opened Wrappers
  import opened Text
  import ApplicationModel

  const Steps: seq<string> :=
    ["pending", "under_review", "phone_screen", "technical_interview", "hr_interview", "offer", "rejected"]

  const RejectedFallback: string := "#ef4444"
  const PastFallback: string := "#94a3b8"
  const CurrentFallback: string := "#3b82f6"
  const FutureNode: string := "#e5e7eb"
  const FutureConnector: string := "#d1d5db"

  type Colors = map<string, string>

  /** The bar's steps are the schema's stages, in the same order. */
  lemma StepsAreStages()
    ensures Steps == ApplicationModel.Stages
  {
  }

  /** `statusColors[key]` as an optional string. */
  function ColorOf(colors: Colors, key: string): Option<string> {
    if key in colors then Some(colors[key]) else None
  }

  /**
   * `safeStatus`: the prop (default "pending" when absent) if it is one of the
   * steps, else "pending".
   */
  function SafeStatus(status: Option<string>): (s: string)
    ensures s in Steps
    ensures status.Some? && status.value in Steps ==> s == status.value
    ensures !(status.Some? && status.value in Steps) ==> s == "pending"
  {
    var given := status.GetOr("pending");
    if given in Steps then given else "pending"
  }

  /** `STATUS_STEPS.indexOf(step)` for a step that is present. */
  function IndexOf(steps: seq<string>, step: string): (i: nat)
    requires step in steps
    ensures i < |steps| && steps[i] == step
    ensures forall j :: 0 <= j < i ==> steps[j] != step
  {
    if steps[0] == step then 0 else 1 + IndexOf(steps[1..], step)
  }

  /** `currentIndex`. */
  function CurrentIndex(status: Option<string>): (i: nat)
    ensures i < |Steps| && Steps[i] == SafeStatus(status)
  {
    IndexOf(Steps, SafeStatus(status))
  }

  predicate RejectedMode(status: Option<string>) {
    SafeStatus(status) == "rejected"
  }

  /** The colour shared by past and current nodes and connectors. */
  function ReachedColor(status: Option<string>, colors: Colors, step: string, idx: nat): string
    requires idx <= CurrentIndex(status)
  {
    if idx < CurrentIndex(status) then
      OrElse(ColorOf(colors, step), OrElse(ColorOf(colors, SafeStatus(status)), PastFallback))
    else OrElse(ColorOf(colors, SafeStatus(status)), CurrentFallback)
  }

  /** `nodeColor(step, idx)`. */
  function NodeColor(status: Option<string>, colors: Colors, step: string, idx: nat): (c: string)
    ensures RejectedMode(status) ==> c == OrElse(ColorOf(colors, "rejected"), RejectedFallback)
    ensures !RejectedMode(status) && idx > CurrentIndex(status) ==> c == FutureNode
    ensures !RejectedMode(status) && idx <= CurrentIndex(status) ==> c == ReachedColor(status, colors, step, idx)
  {
    if RejectedMode(status) then OrElse(ColorOf(colors, "rejected"), RejectedFallback)
    else if idx <= CurrentIndex(status) then ReachedColor(status, colors, step, idx)
    else FutureNode
  }

  /** `connectorColor(step, idx)`: as a node, but a future connector is lighter. */
  function ConnectorColor(status: Option<string>, colors: Colors, step: string, idx: nat): (c: string)
    ensures !RejectedMode(status) && idx > CurrentIndex(status) ==> c == FutureConnector
    ensures !(!RejectedMode(status) && idx > CurrentIndex(status)) ==> c == NodeColor(status, colors, step, idx)
  {
    if RejectedMode(status) then OrElse(ColorOf(colors, "rejected"), RejectedFallback)
    else if idx <= CurrentIndex(status) then ReachedColor(status, colors, step, idx)
    else FutureConnector
  }

  /** The node colours, one per step. */
  function Nodes(status: Option<string>, colors: Colors): (r: seq<string>)
    ensures |r| == |Steps|
    ensures forall i :: 0 <= i < |r| ==> r[i] == NodeColor(status, colors, Steps[i], i)
  {
    seq(|Steps|, i requires 0 <= i < |Steps| => NodeColor(status, colors, Steps[i], i))
  }

  /** The connector colours: one after every step but the last. */
  function Connectors(status: Option<string>, colors: Colors): (r: seq<string>)
    ensures |r| == |Steps| - 1
    ensures forall i :: 0 <= i < |r| ==> r[i] == ConnectorColor(status, colors, Steps[i], i)
  {
    seq(|Steps| - 1, i requires 0 <= i < |Steps| - 1 => ConnectorColor(status, colors, Steps[i], i))
  }

  /** In rejected mode the whole bar, nodes and connectors, is one colour. */
  lemma RejectedBarIsUniform(colors: Colors)
    ensures var c := OrElse(ColorOf(colors, "rejected"), RejectedFallback);
      && (forall i :: 0 <= i < |Steps| ==> Nodes(Some("rejected"), colors)[i] == c)
      && (forall i :: 0 <= i < |Steps| - 1 ==> Connectors(Some("rejected"), colors)[i] == c)
  {
  }

  /**
   * Without custom colours and outside rejected mode, the bar reads: grey-blue
   * before the current step, blue on it, light grey after it.
   */
  lemma DefaultBarShape(status: Option<string>)
    requires !RejectedMode(status)
    ensures var k := CurrentIndex(status); var nodes := Nodes(status, map[]);
      && (forall i :: 0 <= i < k ==> nodes[i] == PastFallback)
      && nodes[k] == CurrentFallback
      && (forall i :: k < i < |Steps| ==> nodes[i] == FutureNode)
  {
  }

  /** A step's label: `step.replace(/_/g, " ")`. */
  function Label(step: string): (shown: string)
    ensures |shown| == |step| && '_' !in shown
    ensures forall i :: 0 <= i < |step| ==> shown[i] == (if step[i] == '_' then ' ' else step[i])
  {
    ReplaceAll(step, '_', ' ')
  }

  /** The seven labels read as words and tell the steps apart. */
  lemma LabelsDistinct()
    ensures Label("technical_interview") == "technical interview"
    ensures forall i, j :: 0 <= i < j < |Steps| ==> Label(Steps[i]) != Label(Steps[j])
  {
    assert Label("pending") == "pending";
    assert Label("under_review") == "under review";
    assert Label("phone_screen") == "phone screen";
    assert Label("technical_interview") == "technical interview";
    assert Label("hr_interview") == "hr interview";
    assert Label("offer") == "offer";
    assert Label("rejected") == "rejected";
  }
}
