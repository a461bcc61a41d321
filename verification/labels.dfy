/** The three lookup tables of the export (`getStatusText`,
    `getPriorityText`, `getStatusColor`) and their deliberately different
    fallbacks: status text passes unknown codes through, priority text falls
    back to the "medium" label, status colour falls back to a neutral grey. */
module Labels {

  const StatusLabels: map<string, string> := map[
    "pending" := "待开始",
    "in_progress" := "进行中",
    "completed" := "已完成",
    "active" := "活跃",
    "paused" := "暂停"
  ]

  const PriorityLabels: map<string, string> := map[
    "low" := "低",
    "medium" := "中",
    "high" := "高",
    "urgent" := "紧急"
  ]

  const StatusColors: map<string, string> := map[
    "pending" := "FFE6B3",
    "in_progress" := "FFB366",
    "completed" := "90EE90",
    "active" := "87CEEB",
    "paused" := "DDA0DD"
  ]

  /** The named default branches. */
  const DefaultPriorityLabel: string := "中"
  const DefaultColor: string := "E0E0E0"

  /** Fill of weekend header cells on the timeline sheet, independent of any status. */
  const WeekendColor: string := "FFE6E6"

  function StatusText(status: string): (text: string)
    ensures status == "pending" ==> text == "待开始"
    ensures status == "in_progress" ==> text == "进行中"
    ensures status == "completed" ==> text == "已完成"
    ensures status == "active" ==> text == "活跃"
    ensures status == "paused" ==> text == "暂停"
    ensures status in StatusLabels ==> text in StatusLabels.Values
    ensures status !in StatusLabels ==> text == status
  {
    if status in StatusLabels then StatusLabels[status] else status
  }

  function PriorityText(priority: string): (text: string)
    ensures priority == "low" ==> text == "低"
    ensures priority == "high" ==> text == "高"
    ensures priority == "urgent" ==> text == "紧急"
    ensures priority == "medium" ==> text == "中"
    ensures text in PriorityLabels.Values
    ensures priority !in PriorityLabels ==> text == PriorityLabels["medium"]
  {
    if priority in PriorityLabels then PriorityLabels[priority]
    else assert PriorityLabels["medium"] == DefaultPriorityLabel; DefaultPriorityLabel
  }

  function StatusColor(status: string): (color: string)
    ensures status == "pending" ==> color == "FFE6B3"
    ensures status == "in_progress" ==> color == "FFB366"
    ensures status == "completed" ==> color == "90EE90"
    ensures status == "active" ==> color == "87CEEB"
    ensures status == "paused" ==> color == "DDA0DD"
    ensures status !in StatusColors ==> color == DefaultColor
    ensures color in StatusColors.Values || color == DefaultColor
    ensures status in StatusColors ==> color != DefaultColor
  {
    if status in StatusColors then StatusColors[status] else DefaultColor
  }

  /** Status text is the identity exactly on the unknown codes: no label is
      itself a status code, and the five labels are pairwise distinct, so
      status text is injective on the known codes. */
  lemma StatusTextFallback(status: string, other: string)
    ensures StatusText(status) == status <==> status !in StatusLabels
    ensures status in StatusLabels && other in StatusLabels && status != other
      ==> StatusText(status) != StatusText(other)
  {
  }

  /** Priority text collapses every unknown code onto the "medium" label, so
      unlike status text it is not the identity on unknown codes. */
  lemma PriorityTextFallback(priority: string)
    ensures priority !in PriorityLabels ==> PriorityText(priority) == PriorityText("medium")
    ensures PriorityText(priority) == PriorityText("medium") <==> (priority == "medium" || priority !in PriorityLabels)
  {
  }

  /** The colour table has the same five keys as the status labels, its
      result is one of six values, and the grey fallback is reached exactly
      by the codes status text passes through unchanged. */
  lemma StatusColorFallback(status: string)
    ensures StatusColors.Keys == StatusLabels.Keys
    ensures StatusColor(status) in {"FFE6B3", "FFB366", "90EE90", "87CEEB", "DDA0DD", "E0E0E0"}
    ensures StatusColor(status) == DefaultColor <==> StatusText(status) == status
    ensures StatusColor(status) != WeekendColor
  {
  }
}
