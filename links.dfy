/**
 * Linked workflows (script.js `appState.workflowLinks`): a list of link
 * groups, each a group id and the ids of the flows it links. A flow's linked
 * flows are the other members of the first group that holds it.
 */
module Links {
  import opened Wrappers
  import opened Ids
  import Seqs

  datatype LinkGroup = LinkGroup(groupId: string, workflows: seq<string>)

  /** Some group holds the flow. */
  predicate Linked(links: seq<LinkGroup>, flowId: string)
  {
    exists g :: g in links && flowId in g.workflows
  }

  /** The index of the first group holding the flow: the group `for (const linkGroup of links)` stops at. */
  function FirstGroupWith(links: seq<LinkGroup>, flowId: string): (r: Option<nat>)
    ensures r.Some? ==>
      r.value < |links| && flowId in links[r.value].workflows
      && forall j :: 0 <= j < r.value ==> flowId !in links[j].workflows
    ensures r.None? <==> !Linked(links, flowId)
  {
    if links == [] then None
    else if flowId in links[0].workflows then Some(0)
    else
      match FirstGroupWith(links[1..], flowId)
      case None =>
        assert forall g :: g in links ==> g == links[0] || g in links[1..];
        None
      case Some(i) =>
        assert forall j :: 1 <= j < i + 1 ==> links[j] == links[1..][j - 1];
        Some(i + 1)
  }

  /** Any group that holds the flow while no earlier group does is the one `FirstGroupWith` finds. */
  lemma FirstGroupWithAt(links: seq<LinkGroup>, flowId: string, i: nat)
    requires i < |links| && flowId in links[i].workflows
    requires forall j :: 0 <= j < i ==> flowId !in links[j].workflows
    ensures FirstGroupWith(links, flowId) == Some(i)
  {
    assert links[i] in links;
  }

  /** `ws.filter(id => id !== flowId)`. */
  function RemoveId(ws: seq<string>, flowId: string): (r: seq<string>)
    ensures |r| <= |ws| && (flowId in ws ==> |r| < |ws|)
    ensures forall x :: x in r <==> x in ws && x != flowId
  {
    if ws == [] then []
    else
      var last := ws[|ws| - 1];
      assert ws == ws[..|ws| - 1] + [last];
      RemoveId(ws[..|ws| - 1], flowId) + (if last == flowId then [] else [last])
  }

  /**
   * `filter` keeps the other ids in their order, repeats included: removing
   * from a concatenation removes from each part, and a single id stays
   * exactly when it is not the removed one.
   */
  lemma {:induction false} RemoveIdAppend(a: seq<string>, b: seq<string>, flowId: string)
    ensures RemoveId(a + b, flowId) == RemoveId(a, flowId) + RemoveId(b, flowId)
    ensures forall x :: RemoveId([x], flowId) == if x == flowId then [] else [x]
    decreases |b|
  {
    forall x
      ensures RemoveId([x], flowId) == if x == flowId then [] else [x]
    {
      assert [x][..0] == [];
    }
    if b == [] {
      assert a + b == a;
    } else {
      var init := b[..|b| - 1];
      var last := b[|b| - 1];
      assert (a + b)[..|a + b| - 1] == a + init;
      assert (a + b)[|a + b| - 1] == last;
      RemoveIdAppend(a, init, flowId);
      var kept := if last == flowId then [] else [last];
      assert RemoveId(a + b, flowId) == RemoveId(a + init, flowId) + kept;
      assert RemoveId(b, flowId) == RemoveId(init, flowId) + kept;
      Seqs.AppendAssoc(RemoveId(a, flowId), RemoveId(init, flowId), RemoveId(a + init, flowId), kept);
    }
  }

  /** `getLinkedWorkflows(flowId)`: the other members of its first group, or none. */
  function LinkedIn(links: seq<LinkGroup>, flowId: string): (r: seq<string>)
    ensures flowId !in r
    ensures r != [] ==> Linked(links, flowId)
    ensures !Linked(links, flowId) ==> r == []
    ensures Linked(links, flowId) ==>
      var i := FirstGroupWith(links, flowId).value;
      |r| < |links[i].workflows| && forall x :: x in r <==> x in links[i].workflows && x != flowId
  {
    match FirstGroupWith(links, flowId)
    case Some(i) => RemoveId(links[i].workflows, flowId)
    case None => []
  }

  /** `addToLinkGroup(flowId, existingFlowId)` on the list: appended to the first group holding `existingFlowId` unless already there. */
  function AddedTo(links: seq<LinkGroup>, flowId: string, existingFlowId: string): seq<LinkGroup>
  {
    match FirstGroupWith(links, existingFlowId)
    case Some(i) =>
      if flowId in links[i].workflows then links
      else links[i := links[i].(workflows := links[i].workflows + [flowId])]
    case None => links
  }

  predicate NoDuplicates(ws: seq<string>)
  {
    forall i, j :: 0 <= i < j < |ws| ==> ws[i] != ws[j]
  }

  /**
   * `addToLinkGroup` changes only the first group holding the existing flow,
   * leaves the flow in it exactly once, never adds a duplicate, and changes
   * nothing when no group holds the existing flow.
   */
  lemma AddedToSpec(links: seq<LinkGroup>, flowId: string, existingFlowId: string)
    ensures var r := AddedTo(links, flowId, existingFlowId);
      |r| == |links|
      && (forall j :: 0 <= j < |links| ==> r[j].groupId == links[j].groupId && links[j].workflows <= r[j].workflows)
      && (!Linked(links, existingFlowId) ==> r == links)
      && (Linked(links, existingFlowId) ==>
            var i := FirstGroupWith(links, existingFlowId).value;
            flowId in r[i].workflows
            && r[i].workflows == (if flowId in links[i].workflows then links[i].workflows else links[i].workflows + [flowId])
            && (forall j :: 0 <= j < |links| && j != i ==> r[j] == links[j])
            && (NoDuplicates(links[i].workflows) ==> NoDuplicates(r[i].workflows)))
  {
  }

  /**
   * `unlinkWorkflow(flowId)` on the list: the flow leaves every group, and a
   * group left with fewer than two members disappears.
   */
  function Unlinked(links: seq<LinkGroup>, flowId: string): (r: seq<LinkGroup>)
    ensures |r| <= |links|
    ensures forall g :: g in r ==> flowId !in g.workflows && |g.workflows| >= 2
  {
    if links == [] then []
    else
      var g := links[|links| - 1];
      var stripped := g.(workflows := RemoveId(g.workflows, flowId));
      Unlinked(links[..|links| - 1], flowId) + (if |stripped.workflows| > 1 then [stripped] else [])
  }

  /**
   * The indices of the groups `unlinkWorkflow`'s filter keeps, in order:
   * those left with more than one member once the flow is removed.
   */
  function KeptGroups(links: seq<LinkGroup>, flowId: string): (idx: seq<nat>)
    ensures forall k :: 0 <= k < |idx| ==> idx[k] < |links|
    ensures forall a, b :: 0 <= a < b < |idx| ==> idx[a] < idx[b]
    ensures forall j :: 0 <= j < |links| ==> (j in idx <==> |RemoveId(links[j].workflows, flowId)| > 1)
  {
    if links == [] then []
    else
      var last := |links| - 1;
      var before := KeptGroups(links[..last], flowId);
      assert forall j :: 0 <= j < last ==> links[..last][j] == links[j];
      before + (if |RemoveId(links[last].workflows, flowId)| > 1 then [last] else [])
  }

  /**
   * `r` is, group for group, the groups of `links` at positions `idx`, each
   * with the flow removed from its members.
   */
  predicate StrippedAt(r: seq<LinkGroup>, links: seq<LinkGroup>, idx: seq<nat>, flowId: string)
  {
    |r| == |idx|
    && forall k :: 0 <= k < |idx| ==>
         idx[k] < |links| && r[k] == links[idx[k]].(workflows := RemoveId(links[idx[k]].workflows, flowId))
  }

  /**
   * The groups after `unlinkWorkflow` are exactly the kept ones, in their old
   * order and under their old ids, each with the flow removed from its members.
   */
  lemma {:induction false} UnlinkedExact(links: seq<LinkGroup>, flowId: string)
    ensures StrippedAt(Unlinked(links, flowId), links, KeptGroups(links, flowId), flowId)
  {
    if links != [] {
      var last := |links| - 1;
      var prefix := links[..last];
      UnlinkedExact(prefix, flowId);
      var before := KeptGroups(prefix, flowId);
      var kept := Unlinked(prefix, flowId);
      var stripped := links[last].(workflows := RemoveId(links[last].workflows, flowId));
      StrippedExtend(kept, prefix, links, before, flowId);
      if |stripped.workflows| > 1 {
        assert Unlinked(links, flowId) == kept + [stripped];
        assert KeptGroups(links, flowId) == before + [last];
        StrippedSnoc(kept, links, before, flowId, last);
      } else {
        assert Unlinked(links, flowId) == kept;
        assert KeptGroups(links, flowId) == before;
      }
    }
  }

  /** Groups stripped from a prefix of `links` are groups stripped from `links`. */
  lemma {:induction false} StrippedExtend(r: seq<LinkGroup>, prefix: seq<LinkGroup>, links: seq<LinkGroup>, idx: seq<nat>, flowId: string)
    requires StrippedAt(r, prefix, idx, flowId) && |prefix| <= |links| && prefix == links[..|prefix|]
    ensures StrippedAt(r, links, idx, flowId)
  {
    forall k | 0 <= k < |idx|
      ensures idx[k] < |links| && r[k] == links[idx[k]].(workflows := RemoveId(links[idx[k]].workflows, flowId))
    {
      assert prefix[idx[k]] == links[idx[k]];
    }
  }

  /** One more stripped group at position `j` extends the correspondence. */
  lemma {:induction false} StrippedSnoc(r: seq<LinkGroup>, links: seq<LinkGroup>, idx: seq<nat>, flowId: string, j: nat)
    requires StrippedAt(r, links, idx, flowId) && j < |links|
    ensures StrippedAt(r + [links[j].(workflows := RemoveId(links[j].workflows, flowId))], links, idx + [j], flowId)
  {
  }

  /** After `unlinkWorkflow` the flow is linked to nothing. */
  lemma UnlinkedIsolates(links: seq<LinkGroup>, flowId: string)
    ensures !Linked(Unlinked(links, flowId), flowId)
    ensures LinkedIn(Unlinked(links, flowId), flowId) == []
  {
  }

  /** A group keeps linking another flow as long as it keeps two members once `flowId` is gone. */
  lemma {:induction false} UnlinkedKeepsOthers(links: seq<LinkGroup>, flowId: string, other: string, i: nat)
    requires i < |links| && other in links[i].workflows && other != flowId
    requires |RemoveId(links[i].workflows, flowId)| >= 2
    ensures Linked(Unlinked(links, flowId), other)
  {
    var last := |links| - 1;
    var r := Unlinked(links, flowId);
    if i < last {
      assert links[..last][i] == links[i];
      UnlinkedKeepsOthers(links[..last], flowId, other, i);
      var g :| g in Unlinked(links[..last], flowId) && other in g.workflows;
      assert g in r;
    } else {
      var stripped := links[i].(workflows := RemoveId(links[i].workflows, flowId));
      assert stripped in r;
    }
  }

  /** `createLinkedWorkflow`'s linking step on the list: join the source's group, or else found a group of the two. */
  function LinkedAfterCopy(links: seq<LinkGroup>, newFlowId: string, sourceFlowId: string, stamp: nat): seq<LinkGroup>
  {
    if Linked(links, sourceFlowId) then AddedTo(links, newFlowId, sourceFlowId)
    else links + [LinkGroup(Mint("link", stamp), [sourceFlowId, newFlowId])]
  }

  /** A freshly created linked flow and its source are then linked to each other. */
  lemma LinkedAfterCopyJoins(links: seq<LinkGroup>, newFlowId: string, sourceFlowId: string, stamp: nat)
    requires newFlowId != sourceFlowId && !Linked(links, newFlowId)
    ensures newFlowId in LinkedIn(LinkedAfterCopy(links, newFlowId, sourceFlowId, stamp), sourceFlowId)
    ensures sourceFlowId in LinkedIn(LinkedAfterCopy(links, newFlowId, sourceFlowId, stamp), newFlowId)
  {
    var r := LinkedAfterCopy(links, newFlowId, sourceFlowId, stamp);
    if Linked(links, sourceFlowId) {
      var i := FirstGroupWith(links, sourceFlowId).value;
      assert links[i] in links;
      assert r == links[i := links[i].(workflows := links[i].workflows + [newFlowId])];
      FirstGroupWithAt(r, sourceFlowId, i);
      forall j | 0 <= j < i
        ensures newFlowId !in r[j].workflows
      {
        assert links[j] in links;
      }
      FirstGroupWithAt(r, newFlowId, i);
    } else {
      var n := |links|;
      forall j | 0 <= j < n
        ensures sourceFlowId !in r[j].workflows && newFlowId !in r[j].workflows
      {
        assert r[j] == links[j] && links[j] in links;
      }
      FirstGroupWithAt(r, sourceFlowId, n);
      FirstGroupWithAt(r, newFlowId, n);
    }
  }

  /** `appState.workflowLinks`. */
  class WorkflowLinks {
    var links: seq<LinkGroup>

    constructor (initial: seq<LinkGroup>)
      ensures links == initial
    {
      links := initial;
    }

    /** `getLinkedWorkflows(flowId)`: scans the groups in order and stops at the first holding the flow. */
    method GetLinkedWorkflows(flowId: string) returns (r: seq<string>)
      ensures r == LinkedIn(links, flowId)
    {
      var i := 0;
      while i < |links|
        invariant 0 <= i <= |links|
        invariant forall j :: 0 <= j < i ==> flowId !in links[j].workflows
      {
        if flowId in links[i].workflows {
          FirstGroupWithAt(links, flowId, i);
          return RemoveId(links[i].workflows, flowId);
        }
        i := i + 1;
      }
      return [];
    }

    /** `isWorkflowLinked(flowId)`. */
    function IsWorkflowLinked(flowId: string): (b: bool)
      reads this
      ensures b <==> exists g :: g in links && flowId in g.workflows
    {
      FirstGroupWith(links, flowId).Some?
    }

    /** `createLinkGroup(flowId1, flowId2)`: a new group of the two, appended; its fresh id is returned. */
    method CreateLinkGroup(flowId1: string, flowId2: string, clock: IdClock) returns (groupId: string)
      modifies this, clock
      ensures groupId == Mint("link", old(clock.stamp)) && clock.stamp == old(clock.stamp) + 1
      ensures links == old(links) + [LinkGroup(groupId, [flowId1, flowId2])]
    {
      groupId := clock.GenerateId("link");
      links := links + [LinkGroup(groupId, [flowId1, flowId2])];
    }

    /** `addToLinkGroup(flowId, existingFlowId)`: the id of the group joined, or `None` (`null`) when no group holds the existing flow. */
    method AddToLinkGroup(flowId: string, existingFlowId: string) returns (r: Option<string>)
      modifies this
      ensures links == AddedTo(old(links), flowId, existingFlowId)
      ensures r.None? <==> !Linked(old(links), existingFlowId)
      ensures r.Some? ==> r.value == old(links)[FirstGroupWith(old(links), existingFlowId).value].groupId
    {
      var i := 0;
      while i < |links|
        invariant 0 <= i <= |links| && links == old(links)
        invariant forall j :: 0 <= j < i ==> existingFlowId !in links[j].workflows
      {
        var group := links[i];
        if existingFlowId in group.workflows {
          FirstGroupWithAt(links, existingFlowId, i);
          if flowId !in group.workflows {
            links := links[i := group.(workflows := group.workflows + [flowId])];
          }
          return Some(group.groupId);
        }
        i := i + 1;
      }
      return None;
    }

    /** `unlinkWorkflow(flowId)`: the list is replaced by its filtered copy. */
    method UnlinkWorkflow(flowId: string)
      modifies this
      ensures links == Unlinked(old(links), flowId)
      ensures !Linked(links, flowId)
    {
      links := Unlinked(links, flowId);
    }

    /** The linking step of `createLinkedWorkflow(name, sourceFlowId)` for the new flow's id. */
    method LinkNewFlow(newFlowId: string, sourceFlowId: string, clock: IdClock)
      modifies this, clock
      ensures links == LinkedAfterCopy(old(links), newFlowId, sourceFlowId, old(clock.stamp))
      ensures clock.stamp == if Linked(old(links), sourceFlowId) then old(clock.stamp) else old(clock.stamp) + 1
    {
      if IsWorkflowLinked(sourceFlowId) {
        var _ := AddToLinkGroup(newFlowId, sourceFlowId);
      } else {
        var _ := CreateLinkGroup(sourceFlowId, newFlowId, clock);
      }
    }
  }
}
