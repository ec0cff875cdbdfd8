/** components/StatusPill.tsx: the badge that shows the video connection
    status: a coloured dot, a text and a badge style per status. */
module StatusPill {

  datatype BadgeVariant = Default | Secondary | Destructive | Outline

  datatype StatusConfig = StatusConfig(color: string, text: string, variant: BadgeVariant)

  /** `getStatusConfig`; any string other than the three named ones gets
      the disconnected look. */
  function GetStatusConfig(status: string): StatusConfig {
    if status == "live" then StatusConfig("bg-green-500", "Live", Default)
    else if status == "connecting" then StatusConfig("bg-amber-500", "Connecting...", Secondary)
    else if status == "error" then StatusConfig("bg-red-500", "Error", Destructive)
    else StatusConfig("bg-gray-500", "Disconnected", Outline)
  }

  /** The table, and its default row for every other string. */
  lemma StatusTable(status: string)
    ensures GetStatusConfig("live") == StatusConfig("bg-green-500", "Live", Default)
    ensures GetStatusConfig("connecting") == StatusConfig("bg-amber-500", "Connecting...", Secondary)
    ensures GetStatusConfig("error") == StatusConfig("bg-red-500", "Error", Destructive)
    ensures status !in {"live", "connecting", "error"} ==>
              GetStatusConfig(status) == StatusConfig("bg-gray-500", "Disconnected", Outline)
  {
  }

  /** The four statuses of the union look different: distinct colours, texts
      and styles. */
  lemma FourStatusesDistinct(a: string, b: string)
    requires a in {"disconnected", "connecting", "live", "error"}
    requires b in {"disconnected", "connecting", "live", "error"}
    requires a != b
    ensures GetStatusConfig(a).color != GetStatusConfig(b).color
    ensures GetStatusConfig(a).text != GetStatusConfig(b).text
    ensures GetStatusConfig(a).variant != GetStatusConfig(b).variant
  {
  }
}
