/** The status badge of src/components/ui/StatusBadge.tsx: a coloured dot,
    optionally pulsing, and a label. */
module StatusBadge {
  import opened Wrappers

  /** The four statuses the component's props type admits; the `default`
      branches of its switches are unreachable for them. */
  datatype Status = Online | Offline | Away | Busy

  /** The props; `pulsing` defaults to false when omitted. */
  datatype Props = Props(status: Status, labelProp: Option<string>, pulsing: Option<bool>)

  datatype Badge = Badge(dotClass: string, text: string)

  /** The dot's Tailwind background colour class. */
  function StatusColor(status: Status): (color: string)
    ensures |color| > 3 && color[..3] == "bg-"
  {
    match status
    case Online => "bg-green-500"
    case Offline => "bg-gray-400"
    case Away => "bg-yellow-500"
    case Busy => "bg-red-500"
  }

  /** The label shown when no label prop is given. */
  function DefaultLabel(status: Status): (text: string)
    ensures text != ""
  {
    match status
    case Online => "Online"
    case Offline => "Offline"
    case Away => "Ausente"
    case Busy => "Ocupado"
  }

  /** `getStatusLabel`: a truthy (present, non-empty) label prop wins over
      the status's own label. */
  function StatusLabel(status: Status, labelProp: Option<string>): (text: string)
    ensures labelProp.Some? && labelProp.value != "" ==> text == labelProp.value
    ensures labelProp.None? || labelProp.value == "" ==> text == DefaultLabel(status)
    ensures text != ""
  {
    if labelProp.Some? && labelProp.value != "" then labelProp.value else DefaultLabel(status)
  }

  const PULSE_CLASS := "animate-pulse-slow"

  predicate IsSuffix(suffix: string, s: string) {
    |suffix| <= |s| && s[|s| - |suffix|..] == suffix
  }

  /** `sub` occurs in `s` starting at position `i`. */
  predicate OccursAt(sub: string, s: string, i: int) {
    0 <= i <= |s| - |sub| && s[i..i + |sub|] == sub
  }

  /** The rendered badge: the dot's class list ends with the pulse class
      exactly when `pulsing` was passed as true, and always names the
      status's colour; the text is the label `getStatusLabel` picks. */
  function Render(p: Props): (b: Badge)
    ensures IsSuffix(PULSE_CLASS, b.dotClass) <==> p.pulsing == Some(true)
    ensures exists i :: OccursAt(StatusColor(p.status), b.dotClass, i)
    ensures b.text == StatusLabel(p.status, p.labelProp)
  {
    var prefix := "h-2.5 w-2.5 rounded-full ";
    var color := StatusColor(p.status);
    var pulse := if p.pulsing.GetOr(false) then PULSE_CLASS else "";
    var dot := prefix + color + " " + pulse;
    assert OccursAt(color, dot, |prefix|);
    assert pulse == "" ==> dot[|dot| - 1] == ' ' && PULSE_CLASS[|PULSE_CLASS| - 1] == 'w';
    Badge(dot, StatusLabel(p.status, p.labelProp))
  }

  /** The badge tells the statuses apart: two badges for different statuses
      that pulse alike have different dots, and without a label prop
      different texts. */
  lemma BadgeTellsStatusesApart(p: Props, q: Props)
    requires p.status != q.status && p.pulsing.GetOr(false) == q.pulsing.GetOr(false)
    ensures Render(p).dotClass != Render(q).dotClass
    ensures p.labelProp.None? && q.labelProp.None? ==> Render(p).text != Render(q).text
  {
    assert |StatusColor(p.status)| != |StatusColor(q.status)|;
  }
}
