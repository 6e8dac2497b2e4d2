/** The readable name of a work type, as the quote summary prints it. */
module WorkTypeLabels {
  import opened Domain

  /** The key the form's work-type select submits for each option. */
  function WorkTypeKey(t: WorkType): string
  {
    match t
    case Construction => "construction"
    case Repair => "repair"
    case Renovation => "renovation"
    case Maintenance => "maintenance"
  }

  predicate IsKnownKey(key: string)
  {
    key == "construction" || key == "repair" || key == "renovation" || key == "maintenance"
  }

  predicate IsLabel(s: string)
  {
    s == "Construcción Nueva" || s == "Reparación" || s == "Renovación" || s == "Mantenimiento"
  }

  /** The label for a work-type key; a key the table does not know is
      returned unchanged. */
  function WorkTypeLabel(key: string): (shown: string)
    ensures IsKnownKey(key) ==> IsLabel(shown)
    ensures !IsKnownKey(key) ==> shown == key
  {
    if key == "construction" then "Construcción Nueva"
    else if key == "repair" then "Reparación"
    else if key == "renovation" then "Renovación"
    else if key == "maintenance" then "Mantenimiento"
    else key
  }

  /** Every option of the select gets its own label. */
  lemma LabelsOfOptions(t: WorkType)
    ensures WorkTypeLabel(WorkTypeKey(t))
         == match t
            case Construction => "Construcción Nueva"
            case Repair => "Reparación"
            case Renovation => "Renovación"
            case Maintenance => "Mantenimiento"
  {
  }

  /** Distinct work types are shown with distinct labels. */
  lemma LabelsDistinct(t1: WorkType, t2: WorkType)
    ensures WorkTypeLabel(WorkTypeKey(t1)) == WorkTypeLabel(WorkTypeKey(t2)) <==> t1 == t2
  {
    LabelsOfOptions(t1);
    LabelsOfOptions(t2);
  }

  /** No label is itself a key, so labelling a label changes nothing and a
      label never comes back unchanged from a known key. */
  lemma LabelIdempotent(key: string)
    ensures WorkTypeLabel(WorkTypeLabel(key)) == WorkTypeLabel(key)
    ensures WorkTypeLabel(key) == key <==> !IsKnownKey(key)
  {
  }
}
