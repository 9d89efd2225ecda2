/** The integrity monitor's tamper classifiers: the bodies of the two
    MutationObserver callbacks, which decide from a batch of mutation records
    whether the overlay must be destroyed and recreated. A mutation record is
    reduced to what the callbacks read: its target and its removed nodes. */
module Integrity {
  import opened JsValues

  /** A node of the document; nodes are compared by identity, as `===` does. */
  class DomNode {
    constructor () {}
  }

  /** A MutationRecord, reduced to `target` and `removedNodes`. */
  datatype MutationRecord = MutationRecord(target: DomNode, removedNodes: seq<DomNode>)

  /** What the body observer counts as tampering in one record: the record's target is the
      overlay, or the first removed node is. Only index 0 of `removedNodes` is looked at. */
  predicate TouchesOverlay(r: MutationRecord, overlay: Option<DomNode>)
  {
    overlay == Some(r.target) || (|r.removedNodes| > 0 && overlay == Some(r.removedNodes[0]))
  }

  /** The overlay observer's callback: any record at all in the batch means tampering. */
  method ClassifyOverlayBatch(batch: seq<MutationRecord>) returns (changed: bool)
    ensures changed <==> |batch| > 0
  {
    changed := false;
    var i := 0;
    while i < |batch|
      invariant 0 <= i <= |batch|
      invariant changed <==> i > 0
    {
      changed := true;
      i := i + 1;
    }
  }

  /** The body observer's callback: tampering exactly when some record touches the overlay
      that is current when the callback runs; other mutations of the document are ignored. */
  method ClassifyBodyBatch(batch: seq<MutationRecord>, overlay: Option<DomNode>) returns (changed: bool)
    ensures changed <==> exists k :: 0 <= k < |batch| && TouchesOverlay(batch[k], overlay)
  {
    changed := false;
    var i := 0;
    while i < |batch|
      invariant 0 <= i <= |batch|
      invariant changed <==> exists k :: 0 <= k < i && TouchesOverlay(batch[k], overlay)
    {
      var item := batch[i];
      if overlay == Some(item.target) {
        changed := true;
      } else if |item.removedNodes| > 0 && overlay == Some(item.removedNodes[0]) {
        changed := true;
      }
      i := i + 1;
    }
  }

  /** The body observer reacts to the overlay being removed on its own, but not to a removal
      that takes the overlay out together with an earlier sibling in the same record (as
      clearing the whole body does): only `removedNodes[0]` is compared. */
  lemma RemovalSeenOnlyAtIndexZero(parent: DomNode, other: DomNode, overlay: DomNode)
    requires parent != overlay && other != overlay
    ensures TouchesOverlay(MutationRecord(parent, [overlay]), Some(overlay))
    ensures overlay in [other, overlay] && !TouchesOverlay(MutationRecord(parent, [other, overlay]), Some(overlay))
  {
  }
}
