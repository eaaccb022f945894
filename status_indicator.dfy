/** The status badge of the client (client/src/components/StatusIndicator.js):
    the CSS class and label shown for a status string. */
module StatusIndicator {
  import opened Strings

  /** The `{ className, label }` object; `labelText` is its `label`. */
  datatype StatusInfo = StatusInfo(className: string, labelText: string)

  /** `getStatusInfo()`: the three traffic-light colours in any letter case,
      and otherwise the unknown class with the status itself as label, or
      `Unknown` when it is empty. */
  function GetStatusInfo(status: string): (info: StatusInfo)
    ensures Lower(status) == "green" <==> info == StatusInfo("status-online", "Online")
    ensures Lower(status) == "yellow" <==> info == StatusInfo("status-degraded", "Degraded")
    ensures Lower(status) == "red" <==> info == StatusInfo("status-offline", "Offline")
    ensures Lower(status) !in {"green", "yellow", "red"} ==>
      info == StatusInfo("status-unknown", if status == "" then "Unknown" else status)
  {
    match Lower(status)
    case "green" => StatusInfo("status-online", "Online")
    case "yellow" => StatusInfo("status-degraded", "Degraded")
    case "red" => StatusInfo("status-offline", "Offline")
    case _ => StatusInfo("status-unknown", if status == "" then "Unknown" else status)
  }

  /** The class depends only on the lower-cased status: two spellings of the
      same colour get the same badge colour. */
  lemma ClassNameDependsOnLowerOnly(s: string, t: string)
    requires Lower(s) == Lower(t)
    ensures GetStatusInfo(s).className == GetStatusInfo(t).className
  {
  }
}
