/** backend/app/quality/occurrence.py, against the linking query of rebuild_item
    (backend/app/projections/rebuild.py, lines 440-449). */
module Occurrences {
  import opened Basics
  import opened Events

  /** A defect_occurrences row; observations are named by their event id, status OPEN is `open`. */
  datatype Occurrence = Occurrence(
    itemId: string, defectType: string, component: Option<string>,
    firstObservation: string, currentObservation: string,
    open: bool, openedAt: int, closedAt: Option<int>)

  function DefectKey(itemId: string, defectType: string, component: Option<string>): (string, string)
  {
    (if Given(component) then component.value else itemId, defectType)
  }

  /** can_link_occurrence */
  predicate CanLink(o: Occurrence, itemId: string, defectType: string, component: Option<string>)
  {
    o.open && DefectKey(o.itemId, o.defectType, o.component) == DefectKey(itemId, defectType, component)
  }

  /** The where clause of the rebuild query. */
  predicate QueryMatches(o: Occurrence, itemId: string, defectType: string, component: Option<string>)
  {
    o.itemId == itemId && o.defectType == defectType && o.component == component && o.open
  }

  /** A component reference that the rule cannot tell from the item itself. */
  predicate Ambiguous(itemId: string, component: Option<string>)
  {
    !Given(component) || component.value == itemId
  }

  /** The query never links what the rule would not. */
  lemma QueryImpliesRule(o: Occurrence, itemId: string, defectType: string, component: Option<string>)
    requires QueryMatches(o, itemId, defectType, component)
    ensures CanLink(o, itemId, defectType, component)
  {
  }

  /** On an open occurrence of one item and one defect type, query and rule agree exactly when the two component
      references are equal or at least one of them is unambiguous. */
  lemma RuleAgreesIff(o: Occurrence, itemId: string, component: Option<string>)
    requires o.open && o.itemId == itemId
    ensures (QueryMatches(o, itemId, o.defectType, component) <==> CanLink(o, itemId, o.defectType, component)) <==>
            (o.component == component || !Ambiguous(itemId, o.component) || !Ambiguous(itemId, component))
  {
  }

  /** With non-empty component ids that differ from the item id, the query is the rule. */
  lemma RuleAgrees(o: Occurrence, itemId: string, defectType: string, component: Option<string>)
    requires o.itemId == itemId
    requires component.Some? ==> component.value != "" && component.value != itemId
    requires o.component.Some? ==> o.component.value != "" && o.component.value != itemId
    ensures QueryMatches(o, itemId, defectType, component) <==> CanLink(o, itemId, defectType, component)
  {
  }

  /** The rule would link a component named like the item to the item itself; the query does not. */
  lemma RuleDisagrees()
    ensures exists o: Occurrence :: CanLink(o, "I", "burr", None) && !QueryMatches(o, "I", "burr", None)
  {
    var o := Occurrence("I", "burr", Some("I"), "E1", "E1", true, 0, None);
    assert CanLink(o, "I", "burr", None) && !QueryMatches(o, "I", "burr", None);
  }
}
