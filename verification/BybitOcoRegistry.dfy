/** The client-side OCO registry of the Bybit service: which groups exist, which leg belongs to which
    group, which legs are being placed and which of those were filled early. Each function of Registry
    is one critical section of the registry's mutex. */
module BybitOcoState {
  import opened Domain

  type GroupId = string
  type LinkId = string

  function TakeProfitLink(group: GroupId): LinkId {
    group + "_TP"
  }

  function StopLossLink(group: GroupId): LinkId {
    group + "_SL"
  }

  datatype LegQuery = LegQuery(symbol: string, orderId: string, clientOrderId: LinkId)

  datatype Group = Group(
    groupId: GroupId,
    takeProfit: LegQuery,
    stopLeg: LegQuery,
    tpOrderLinkId: LinkId,
    slOrderLinkId: LinkId,
    closing: bool,
    lastError: string)

  /** What the first half of processing a leg's fill decides to do outside the lock. */
  datatype FillStart = NothingToDo | CancelSibling(group: GroupId, sibling: LegQuery)

  function NewGroup(group: GroupId, symbol: string, takeProfitOrderId: string, stopLossOrderId: string): Group {
    Group(group,
          LegQuery(symbol, takeProfitOrderId, TakeProfitLink(group)),
          LegQuery(symbol, stopLossOrderId, StopLossLink(group)),
          TakeProfitLink(group), StopLossLink(group), false, "")
  }

  datatype Registry = Registry(
    groups: map<GroupId, Group>,
    legToGroup: map<LinkId, GroupId>,
    placing: set<LinkId>,
    pendingFilled: set<LinkId>)
  {
    predicate PlacementConflicts(group: GroupId) {
      || group in groups
      || TakeProfitLink(group) in placing || StopLossLink(group) in placing
      || TakeProfitLink(group) in legToGroup || StopLossLink(group) in legToGroup
    }

    function RegisterPlacement(group: GroupId): Result<Registry> {
      if PlacementConflicts(group) then Err("Bybit placeOco: listClientOrderId is already active: " + group)
      else Ok(this.(placing := placing + {TakeProfitLink(group), StopLossLink(group)}))
    }

    function ClearPlacement(group: GroupId): Registry {
      this.(placing := placing - {TakeProfitLink(group), StopLossLink(group)},
            pendingFilled := pendingFilled - {TakeProfitLink(group), StopLossLink(group)})
    }

    /** The leg whose early fill is processed right after the group is created. */
    function EarlyFill(group: GroupId): Option<LinkId> {
      if TakeProfitLink(group) in pendingFilled then Some(TakeProfitLink(group))
      else if StopLossLink(group) in pendingFilled then Some(StopLossLink(group))
      else None
    }

    function CreateGroup(group: Group): Registry {
      ClearPlacement(group.groupId).(
        groups := groups[group.groupId := group],
        legToGroup := legToGroup[group.tpOrderLinkId := group.groupId][group.slOrderLinkId := group.groupId])
    }

    function BeginFill(link: LinkId): (Registry, FillStart) {
      if link !in legToGroup then
        (if link in placing then this.(pendingFilled := pendingFilled + {link}) else this, NothingToDo)
      else if legToGroup[link] !in groups then (this, NothingToDo)
      else
        var group := groups[legToGroup[link]];
        if group.closing then (this, NothingToDo)
        else
          (this.(groups := groups[legToGroup[link] := group.(closing := true)]),
           CancelSibling(legToGroup[link], if link == group.tpOrderLinkId then group.stopLeg else group.takeProfit))
    }

    function RemoveGroup(id: GroupId): Registry
      requires id in groups
    {
      this.(groups := groups - {id},
            legToGroup := legToGroup - {groups[id].tpOrderLinkId, groups[id].slOrderLinkId})
    }

    /** The second half, after the exchange answered: a failed cancellation reopens the group. */
    function EndFill(id: GroupId, cancelError: Option<string>): Registry {
      if id !in groups then this
      else match cancelError {
        case Some(error) => this.(groups := groups[id := groups[id].(closing := false, lastError := error)])
        case None => RemoveGroup(id)
      }
    }

    /** The end of a successful cancellation of a whole group. */
    function EndCancel(copy: Group, id: GroupId): Registry {
      if id !in groups then this
      else this.(groups := groups - {id}, legToGroup := legToGroup - {copy.tpOrderLinkId, copy.slOrderLinkId})
    }

    /** The legs whose waits learn of an error in their group. */
    function LegsOf(link: LinkId): Option<(LegQuery, LegQuery)> {
      if link !in legToGroup || legToGroup[link] !in groups then None
      else Some((groups[legToGroup[link]].takeProfit, groups[legToGroup[link]].stopLeg))
    }

    // ---- Consistency of the four indexes ----

    /** Groups and leg entries correspond exactly: two distinct legs for each group, each pointing back. */
    predicate GroupsIndexed() {
      && (forall id :: id in groups ==>
            && groups[id].groupId == id
            && groups[id].tpOrderLinkId == TakeProfitLink(id) && groups[id].slOrderLinkId == StopLossLink(id)
            && groups[id].takeProfit.clientOrderId == TakeProfitLink(id)
            && groups[id].stopLeg.clientOrderId == StopLossLink(id)
            && TakeProfitLink(id) in legToGroup && legToGroup[TakeProfitLink(id)] == id
            && StopLossLink(id) in legToGroup && legToGroup[StopLossLink(id)] == id)
      && (forall link :: link in legToGroup ==>
            && legToGroup[link] in groups
            && (link == TakeProfitLink(legToGroup[link]) || link == StopLossLink(legToGroup[link])))
    }

    predicate Consistent() {
      && GroupsIndexed()
      && (forall link :: link in placing ==> link !in legToGroup)
      && pendingFilled <= placing
    }
  }

  const EMPTY := Registry(map[], map[], {}, {})

  /** A link id determines its group and its side. */
  lemma LinksAreDistinct(a: GroupId, b: GroupId)
    ensures TakeProfitLink(a) == TakeProfitLink(b) ==> a == b
    ensures StopLossLink(a) == StopLossLink(b) ==> a == b
    ensures TakeProfitLink(a) != StopLossLink(b)
  {
    assert TakeProfitLink(a)[..|a|] == a && StopLossLink(a)[..|a|] == a;
    assert TakeProfitLink(b)[..|b|] == b && StopLossLink(b)[..|b|] == b;
    assert TakeProfitLink(a)[|a| + 1] == 'T' && StopLossLink(b)[|b| + 1] == 'S';
    assert |TakeProfitLink(a)| == |a| + 3 && |StopLossLink(b)| == |b| + 3;
  }

  // ---- Every critical section keeps the indexes consistent, whatever the others do ----

  lemma PlacementKeepsConsistent(r: Registry, group: GroupId)
    requires r.Consistent()
    ensures r.RegisterPlacement(group).Ok? ==> r.RegisterPlacement(group).value.Consistent()
    ensures r.ClearPlacement(group).Consistent()
  {
  }

  lemma CreateKeepsIndexes(r: Registry, group: Group)
    requires r.Consistent()
    requires group == NewGroup(group.groupId, group.takeProfit.symbol, group.takeProfit.orderId, group.stopLeg.orderId)
    ensures var next := r.CreateGroup(group);
      forall id :: id in next.groups ==>
        && TakeProfitLink(id) in next.legToGroup && next.legToGroup[TakeProfitLink(id)] == id
        && StopLossLink(id) in next.legToGroup && next.legToGroup[StopLossLink(id)] == id
  {
    var next := r.CreateGroup(group);
    forall id | id in next.groups
      ensures TakeProfitLink(id) in next.legToGroup && next.legToGroup[TakeProfitLink(id)] == id
      ensures StopLossLink(id) in next.legToGroup && next.legToGroup[StopLossLink(id)] == id
    {
      LinksAreDistinct(id, group.groupId);
      LinksAreDistinct(group.groupId, id);
    }
  }

  lemma CreateKeepsLegs(r: Registry, group: Group)
    requires r.Consistent()
    requires group == NewGroup(group.groupId, group.takeProfit.symbol, group.takeProfit.orderId, group.stopLeg.orderId)
    ensures var next := r.CreateGroup(group);
      && (forall link :: link in next.legToGroup ==>
            && next.legToGroup[link] in next.groups
            && (link == TakeProfitLink(next.legToGroup[link]) || link == StopLossLink(next.legToGroup[link])))
      && (forall link :: link in next.placing ==> link !in next.legToGroup)
      && next.pendingFilled <= next.placing
  {
    hide TakeProfitLink, StopLossLink;
  }

  lemma CreateKeepsConsistent(r: Registry, group: Group)
    requires r.Consistent()
    requires group == NewGroup(group.groupId, group.takeProfit.symbol, group.takeProfit.orderId, group.stopLeg.orderId)
    ensures r.CreateGroup(group).Consistent()
  {
    hide TakeProfitLink, StopLossLink;
    CreateKeepsIndexes(r, group);
    CreateKeepsLegs(r, group);
  }

  lemma FillKeepsConsistent(r: Registry, link: LinkId)
    requires r.Consistent()
    ensures r.BeginFill(link).0.Consistent()
  {
  }

  lemma RemovalKeepsConsistent(r: Registry, id: GroupId)
    requires r.Consistent() && id in r.groups
    ensures r.RemoveGroup(id).Consistent()
  {
    var next := r.RemoveGroup(id);
    forall other | other in next.groups
      ensures TakeProfitLink(other) in next.legToGroup && StopLossLink(other) in next.legToGroup
    {
      LinksAreDistinct(other, id);
      LinksAreDistinct(id, other);
    }
    forall link | link in next.legToGroup
      ensures next.legToGroup[link] in next.groups
    {
      assert link in r.legToGroup && link != TakeProfitLink(id) && link != StopLossLink(id);
    }
  }

  lemma EndsKeepConsistent(r: Registry, id: GroupId, cancelError: Option<string>, copy: Group)
    requires r.Consistent()
    requires copy.tpOrderLinkId == TakeProfitLink(id) && copy.slOrderLinkId == StopLossLink(id)
    ensures r.EndFill(id, cancelError).Consistent()
    ensures r.EndCancel(copy, id).Consistent()
    ensures id in r.groups ==> r.EndCancel(copy, id) == r.RemoveGroup(id)
  {
    if id in r.groups {
      RemovalKeepsConsistent(r, id);
    }
  }

  // ---- Fills ----

  /** The order that a fill asks to cancel is the other leg of the filled leg's own group. */
  lemma FillCancelsSibling(r: Registry, link: LinkId)
    requires r.Consistent() && r.BeginFill(link).1.CancelSibling?
    ensures var start := r.BeginFill(link).1;
      && start.group in r.groups
      && (link == TakeProfitLink(start.group) ==> start.sibling == r.groups[start.group].stopLeg)
      && (link == StopLossLink(start.group) ==> start.sibling == r.groups[start.group].takeProfit)
      && {link, start.sibling.clientOrderId} == {TakeProfitLink(start.group), StopLossLink(start.group)}
      && link != start.sibling.clientOrderId
  {
    LinksAreDistinct(r.legToGroup[link], r.legToGroup[link]);
  }

  /** Fills reported while the legs are still being placed are not lost: whichever legs were filled
      early, creating the group and processing the buffered fill leaves the registry, and asks for the
      same cancellation, as when the same fills arrive right after the group was created, the
      take-profit leg's first. */
  lemma EarlyFillsAreNotLost(r: Registry, group: Group, takeProfitFilled: bool, stopLossFilled: bool)
    requires r.Consistent()
    requires group == NewGroup(group.groupId, group.takeProfit.symbol, group.takeProfit.orderId, group.stopLeg.orderId)
    requires TakeProfitLink(group.groupId) in r.placing && StopLossLink(group.groupId) in r.placing
    requires TakeProfitLink(group.groupId) !in r.pendingFilled && StopLossLink(group.groupId) !in r.pendingFilled
    requires takeProfitFilled || stopLossFilled
    ensures EarlyFills(r, group, takeProfitFilled, stopLossFilled)
         == LateFills(r, group, takeProfitFilled, stopLossFilled)
    ensures EarlyFills(r, group, takeProfitFilled, stopLossFilled).1.CancelSibling?
  {
    LinksAreDistinct(group.groupId, group.groupId);
    var tp, sl := TakeProfitLink(group.groupId), StopLossLink(group.groupId);
    var r1 := if takeProfitFilled then r.BeginFill(tp).0 else r;
    var r2 := if stopLossFilled then r1.BeginFill(sl).0 else r1;
    assert r2.pendingFilled - {tp, sl} == r.pendingFilled - {tp, sl};
    assert r2.CreateGroup(group) == r.CreateGroup(group);
  }

  /** The fills arrive during the placement; then the group is created and the buffered fill processed. */
  function EarlyFills(r: Registry, group: Group, takeProfitFilled: bool, stopLossFilled: bool): (Registry, FillStart) {
    var r1 := if takeProfitFilled then r.BeginFill(TakeProfitLink(group.groupId)).0 else r;
    var r2 := if stopLossFilled then r1.BeginFill(StopLossLink(group.groupId)).0 else r1;
    match r2.EarlyFill(group.groupId)
    case Some(link) => r2.CreateGroup(group).BeginFill(link)
    case None => (r2.CreateGroup(group), NothingToDo)
  }

  /** The group is created first; then the fills arrive. */
  function LateFills(r: Registry, group: Group, takeProfitFilled: bool, stopLossFilled: bool): (Registry, FillStart) {
    var r1 := r.CreateGroup(group);
    var (r2, first) := if takeProfitFilled then r1.BeginFill(TakeProfitLink(group.groupId)) else (r1, NothingToDo);
    var (r3, second) := if stopLossFilled then r2.BeginFill(StopLossLink(group.groupId)) else (r2, NothingToDo);
    (r3, if first.CancelSibling? then first else second)
  }
}

/** The registry object: the four containers and the operations that hold their mutex once. */
module BybitOcoRegistry {
  import opened Domain
  import opened BybitOcoState

  class OcoRegistry {
    var ocoGroups: map<GroupId, Group>
    var ocoLegToGroup: map<LinkId, GroupId>
    var placingOcoOrderLinkIds: set<LinkId>
    var pendingOcoFilledOrderLinkIds: set<LinkId>

    function View(): Registry
      reads this
    {
      Registry(ocoGroups, ocoLegToGroup, placingOcoOrderLinkIds, pendingOcoFilledOrderLinkIds)
    }

    constructor ()
      ensures View() == EMPTY
    {
      ocoGroups, ocoLegToGroup, placingOcoOrderLinkIds, pendingOcoFilledOrderLinkIds := map[], map[], {}, {};
    }

    /** A refused placement throws before anything is inserted, and its registration object, never
        constructed, clears nothing. */
    method RegisterPlacement(group: GroupId) returns (error: Option<string>)
      modifies this
      ensures match old(View()).RegisterPlacement(group)
              case Ok(next) => error == None && View() == next
              case Err(message) => error == Some(message) && View() == old(View())
    {
      var takeProfit, stopLoss := TakeProfitLink(group), StopLossLink(group);
      var groupExists := group in ocoGroups;
      var placementExists := takeProfit in placingOcoOrderLinkIds || stopLoss in placingOcoOrderLinkIds;
      var legExists := takeProfit in ocoLegToGroup || stopLoss in ocoLegToGroup;
      if groupExists || placementExists || legExists {
        return Some("Bybit placeOco: listClientOrderId is already active: " + group);
      }
      placingOcoOrderLinkIds := placingOcoOrderLinkIds + {takeProfit};
      placingOcoOrderLinkIds := placingOcoOrderLinkIds + {stopLoss};
      assert View().placing == old(View()).placing + {takeProfit, stopLoss};
      return None;
    }

    method ClearPlacement(group: GroupId)
      modifies this
      ensures View() == old(View()).ClearPlacement(group)
    {
      var takeProfit, stopLoss := TakeProfitLink(group), StopLossLink(group);
      placingOcoOrderLinkIds := placingOcoOrderLinkIds - {takeProfit};
      placingOcoOrderLinkIds := placingOcoOrderLinkIds - {stopLoss};
      pendingOcoFilledOrderLinkIds := pendingOcoFilledOrderLinkIds - {takeProfit};
      pendingOcoFilledOrderLinkIds := pendingOcoFilledOrderLinkIds - {stopLoss};
      assert View().placing == old(View()).placing - {takeProfit, stopLoss};
      assert View().pendingFilled == old(View()).pendingFilled - {takeProfit, stopLoss};
    }

    /** The locked part of placeOco: the group enters the registry, its legs stop being placed, and the
        early fill to process, if any, is taken out of the buffer. */
    method CreateGroup(group: GroupId, symbol: string, takeProfitOrderId: string, stopLossOrderId: string)
      returns (pendingFilled: Option<LinkId>)
      modifies this
      ensures View() == old(View()).CreateGroup(NewGroup(group, symbol, takeProfitOrderId, stopLossOrderId))
      ensures pendingFilled == old(View()).EarlyFill(group)
    {
      var takeProfit, stopLoss := TakeProfitLink(group), StopLossLink(group);
      LinksAreDistinct(group, group);
      var created := Group(group, LegQuery(symbol, takeProfitOrderId, takeProfit),
                           LegQuery(symbol, stopLossOrderId, stopLoss), takeProfit, stopLoss, false, "");
      ocoGroups := ocoGroups[group := created];
      ocoLegToGroup := ocoLegToGroup[takeProfit := group];
      ocoLegToGroup := ocoLegToGroup[stopLoss := group];
      var takeProfitWasFilled := takeProfit in pendingOcoFilledOrderLinkIds;
      var stopLossWasFilled := stopLoss in pendingOcoFilledOrderLinkIds;
      ClearPlacement(group);
      if takeProfitWasFilled {
        return Some(takeProfit);
      } else if stopLossWasFilled {
        return Some(stopLoss);
      }
      return None;
    }

    method BeginFill(orderLinkId: LinkId) returns (start: FillStart)
      modifies this
      ensures View() == old(View()).BeginFill(orderLinkId).0 && start == old(View()).BeginFill(orderLinkId).1
    {
      if orderLinkId !in ocoLegToGroup {
        if orderLinkId in placingOcoOrderLinkIds {
          pendingOcoFilledOrderLinkIds := pendingOcoFilledOrderLinkIds + {orderLinkId};
        }
        return NothingToDo;
      }
      var groupId := ocoLegToGroup[orderLinkId];
      if groupId !in ocoGroups {
        return NothingToDo;
      }
      var group := ocoGroups[groupId];
      if group.closing {
        return NothingToDo;
      }
      ocoGroups := ocoGroups[groupId := group.(closing := true)];
      if orderLinkId == group.tpOrderLinkId {
        return CancelSibling(groupId, group.stopLeg);
      } else {
        return CancelSibling(groupId, group.takeProfit);
      }
    }

    method EndFill(groupId: GroupId, cancelError: Option<string>) returns (result: Option<string>)
      modifies this
      ensures View() == old(View()).EndFill(groupId, cancelError)
      ensures result == if groupId in old(View()).groups then cancelError else None
    {
      if groupId !in ocoGroups {
        return None;
      }
      var group := ocoGroups[groupId];
      if cancelError.Some? {
        ocoGroups := ocoGroups[groupId := group.(closing := false, lastError := cancelError.value)];
      } else {
        ocoLegToGroup := ocoLegToGroup - {group.tpOrderLinkId};
        ocoLegToGroup := ocoLegToGroup - {group.slOrderLinkId};
        ocoGroups := ocoGroups - {groupId};
        assert View().legToGroup == old(View()).legToGroup - {group.tpOrderLinkId, group.slOrderLinkId};
      }
      return cancelError;
    }

    method FindGroup(groupId: GroupId) returns (copy: Result<Group>)
      ensures copy == if groupId in View().groups then Ok(View().groups[groupId])
                      else Err("Bybit cancelOco: unknown group params")
    {
      if groupId !in ocoGroups {
        return Err("Bybit cancelOco: unknown group params");
      }
      return Ok(ocoGroups[groupId]);
    }

    method FindLegs(orderLinkId: LinkId) returns (legs: Option<(LegQuery, LegQuery)>)
      ensures legs == View().LegsOf(orderLinkId)
    {
      if orderLinkId !in ocoLegToGroup || ocoLegToGroup[orderLinkId] !in ocoGroups {
        return None;
      }
      var group := ocoGroups[ocoLegToGroup[orderLinkId]];
      return Some((group.takeProfit, group.stopLeg));
    }

    method EndCancel(copy: Group, groupId: GroupId)
      modifies this
      ensures View() == old(View()).EndCancel(copy, groupId)
    {
      if groupId in ocoGroups {
        ocoLegToGroup := ocoLegToGroup - {copy.tpOrderLinkId};
        ocoLegToGroup := ocoLegToGroup - {copy.slOrderLinkId};
        ocoGroups := ocoGroups - {groupId};
        assert View().legToGroup == old(View()).legToGroup - {copy.tpOrderLinkId, copy.slOrderLinkId};
      }
    }
  }
}
