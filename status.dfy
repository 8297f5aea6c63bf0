/**
 * The lifecycle status of an event, `"Scheduled" | "Live" | "Closed"`, and the
 * badge colour both dashboards give it (their two `getStatusColor` switches
 * are identical).
 */
module EventStatus {

  datatype Status = Scheduled | Live | Closed

  /** The status as the string the API and the `<select>` use. */
  function Name(s: Status): string
  {
    match s
    case Scheduled => "Scheduled"
    case Live => "Live"
    case Closed => "Closed"
  }

  /** The three names are distinct, so a status is recovered from its name. */
  lemma NameInjective(a: Status, b: Status)
    ensures Name(a) == Name(b) ==> a == b
  {
  }

  const LiveColor := "bg-green-500 animate-pulse"
  const ScheduledColor := "bg-blue-500"
  const NeutralColor := "bg-gray-500"

  /**
   * `getStatusColor(status)`: the badge class for a status string. It is
   * total: "Live" pulses green, "Scheduled" is blue, and "Closed" and every
   * other string fall to gray.
   */
  function StatusColor(status: string): (color: string)
    ensures color == LiveColor <==> status == "Live"
    ensures color == ScheduledColor <==> status == "Scheduled"
    ensures color == NeutralColor <==> status != "Live" && status != "Scheduled"
  {
    match status
    case "Live" => LiveColor
    case "Scheduled" => ScheduledColor
    case "Closed" => NeutralColor
    case _ => NeutralColor
  }

  /** The three statuses get three different badge colours. */
  lemma StatusColorsDistinct(a: Status, b: Status)
    ensures StatusColor(Name(a)) == StatusColor(Name(b)) ==> a == b
  {
  }
}
