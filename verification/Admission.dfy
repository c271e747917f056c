/** When each tenancy call is accepted, told from the rows and the request alone. */
module Admission {
  import opened Calendar
  import DateText
  import opened DueRules
  import opened Tables
  import opened TenancyRules
  import opened Text

  predicate IsOwner(s: State, ownerId: Id, propertyId: Id) {
    propertyId in s.owners && s.owners[propertyId] == ownerId
  }

  predicate HasFreeBed(s: State, roomId: Id) {
    roomId in s.rooms && s.rooms[roomId].occupiedBeds < s.rooms[roomId].totalBeds
  }

  /** The tenancy is active or on notice, and has not been deleted. */
  predicate Resides(s: State, t: Id)
    ensures Resides(s, t) ==> t in s.tenancies
  {
    && t in s.tenancies && s.tenancies[t].deletedAt.None?
    && (s.tenancies[t].status == Active || s.tenancies[t].status == NoticePeriod)
  }

  /** A move-out date from today on, after the day of joining. */
  predicate MayLeaveOn(s: State, t: Id, moveOut: Time, today: Time)
    requires t in s.tenancies
  {
    today <= moveOut && DateText.ToDateOnly(s.tenancies[t].joinedAt) < moveOut
  }

  // --------------------------------------------------------------------- onboarding and shifts

  /** A request of the owner for a free bed, at most ninety days ahead, for somebody who does not reside there. */
  ghost predicate MayOnboard(s: State, r: Onboarding, today: Time) {
    && AsksWell(r, today) && IsOwner(s, r.ownerId, r.propertyId)
    && HasFreeBed(s, r.roomId) && s.rooms[r.roomId].propertyId == r.propertyId
    && LivesElsewhere(s, r)
  }

  predicate AsksWell(r: Onboarding, today: Time) {
    && r.rentAmount > 0.0 && r.securityDeposit >= 0.0 && 1 <= r.rentCycleDay <= 28
    && r.joinDate <= today + 90 * 86_400_000 && (r.moveOutDate.Some? ==> r.joinDate < r.moveOutDate.value)
  }

  ghost predicate LivesElsewhere(s: State, r: Onboarding) {
    forall t :: t in s.tenancies && Some(s.tenancies[t].tenantId) == r.tenantId
                && s.tenancies[t].propertyId == r.propertyId ==>
                  s.tenancies[t].status != Active && s.tenancies[t].status != NoticePeriod
  }

  lemma OnboardAdmittedExactly(s: State, r: Onboarding, today: Time)
    ensures OnboardPreflight(s, r, today).Ok? <==> MayOnboard(s, r, today)
    ensures OnboardPreflight(s, r, today) == Err(Forbidden)
        <==> AsksWell(r, today) && r.propertyId in s.owners && !IsOwner(s, r.ownerId, r.propertyId)
    ensures OnboardPreflight(s, r, today) == Err(Conflict)
        <==> && AsksWell(r, today) && IsOwner(s, r.ownerId, r.propertyId)
             && r.roomId in s.rooms && s.rooms[r.roomId].propertyId == r.propertyId
             && (!HasFreeBed(s, r.roomId) || !LivesElsewhere(s, r))
    ensures OnboardPreflight(s, r, today).Err? ==>
              OnboardPreflight(s, r, today).error in {BadRequest, Forbidden, Conflict}
  {
  }

  /** A tenancy that resides may move to another free bed, in any property of its owner. */
  predicate MayShift(s: State, t: Id, newRoom: Id, newProperty: Option<Id>, ownerId: Id) {
    && Resides(s, t) && IsOwner(s, ownerId, s.tenancies[t].propertyId)
    && var q := if newProperty.Some? then newProperty.value else s.tenancies[t].propertyId;
    && HasFreeBed(s, newRoom) && s.rooms[newRoom].propertyId == q && IsOwner(s, ownerId, q)
    && (newRoom != s.tenancies[t].roomId || q != s.tenancies[t].propertyId)
  }

  lemma ShiftAdmittedExactly(s: State, t: Id, newRoom: Id, newProperty: Option<Id>, ownerId: Id)
    ensures ShiftPreflight(s, t, newRoom, newProperty, ownerId).Ok? <==> MayShift(s, t, newRoom, newProperty, ownerId)
    ensures !Resides(s, t) ==> ShiftPreflight(s, t, newRoom, newProperty, ownerId) == Err(NotFound)
    ensures Resides(s, t) && !IsOwner(s, ownerId, s.tenancies[t].propertyId) ==>
              ShiftPreflight(s, t, newRoom, newProperty, ownerId) == Err(Forbidden)
    ensures Resides(s, t) && IsOwner(s, ownerId, s.tenancies[t].propertyId) ==>
              var row, r := s.tenancies[t], ShiftPreflight(s, t, newRoom, newProperty, ownerId);
              var q := if newProperty.Some? then newProperty.value else row.propertyId;
              var stays := newRoom == row.roomId && q == row.propertyId;
              && (r == Err(NotFound) <==> !stays && newRoom !in s.rooms)
              && (r == Err(BadRequest) <==> stays || (newRoom in s.rooms && s.rooms[newRoom].propertyId != q))
              && (r == Err(Forbidden) <==> && !stays && newRoom in s.rooms && s.rooms[newRoom].propertyId == q
                                           && !IsOwner(s, ownerId, q))
              && (r == Err(Conflict) <==> && !stays && newRoom in s.rooms && s.rooms[newRoom].propertyId == q
                                          && IsOwner(s, ownerId, q) && !HasFreeBed(s, newRoom))
  {
  }

  // -------------------------------------------------------------------------- exits and returns

  /** The tenancy is in the property, not deleted, and active, on notice or pending. */
  predicate IsLiveOf(s: State, t: Id, tenantId: Id, propertyId: Id)
    ensures IsLiveOf(s, t, tenantId, propertyId) ==> t in s.tenancies
  {
    && t in s.tenancies && s.tenancies[t].tenantId == tenantId && s.tenancies[t].propertyId == propertyId
    && s.tenancies[t].deletedAt.None?
    && (s.tenancies[t].status == Active || s.tenancies[t].status == NoticePeriod || s.tenancies[t].status == Pending)
  }

  lemma LiveTenanciesExactly(s: State, tenantId: Id, propertyId: Id)
    ensures forall t :: t in TenanciesOf(s, tenantId, propertyId) <==> IsLiveOf(s, t, tenantId, propertyId)
  {
  }

  ghost predicate OwesNothing(s: State, t: Id) {
    forall d :: d in s.dues && s.dues[d].tenancyId == t ==>
      s.dues[d].status != Unpaid && s.dues[d].status != Partial && s.dues[d].status != Overdue
  }

  ghost predicate MayExit(s: State, t: Id, tenantId: Id, propertyId: Id, ownerId: Id) {
    && IsLiveOf(s, t, tenantId, propertyId) && IsOwner(s, ownerId, propertyId) && OwesNothing(s, t)
    && s.tenancies[t].roomId in s.rooms
  }

  lemma ExitAdmittedExactly(s: State, found: Option<Id>, tenantId: Id, propertyId: Id, ownerId: Id, now: Time)
    ensures DeleteTenant(s, found, tenantId, propertyId, ownerId, now).result.Ok?
        <==> found.Some? && MayExit(s, found.value, tenantId, propertyId, ownerId)
    ensures var r, known := DeleteTenant(s, found, tenantId, propertyId, ownerId, now).result,
                            found.Some? && IsLiveOf(s, found.value, tenantId, propertyId);
            && (!known ==> r == Err(NotFound))
            && (r == Err(Forbidden) <==> known && !IsOwner(s, ownerId, propertyId))
            && (r == Err(BadRequest) <==> known && IsOwner(s, ownerId, propertyId) && !OwesNothing(s, found.value))
            && (r.Err? ==> r.error in {NotFound, Forbidden, BadRequest})
  {
    hide OpenDues, AddBeds, SetTenancy;
    if found.Some? {
      OwesNothingExactly(s, found.value);
    }
  }

  lemma OwesNothingExactly(s: State, t: Id)
    ensures OwesNothing(s, t) <==> OpenDues(s.dues, t) == {}
  {
    if OwesNothing(s, t) {
      forall d
        ensures d !in OpenDues(s.dues, t)
      {
      }
    } else {
      var d :| d in s.dues && s.dues[d].tenancyId == t
               && (s.dues[d].status == Unpaid || s.dues[d].status == Partial || s.dues[d].status == Overdue);
      assert d in OpenDues(s.dues, t);
    }
  }

  /** An exit of a tenancy of the owner, whose room still exists; nobody asks for a free bed. */
  predicate MayRevoke(s: State, t: Id, ownerId: Id) {
    && t in s.tenancies && s.tenancies[t].status == Exited && IsOwner(s, ownerId, s.tenancies[t].propertyId)
    && s.tenancies[t].roomId in s.rooms
  }

  lemma RevokeAdmittedExactly(s: State, t: Id, ownerId: Id)
    ensures RevokeTenancyExit(s, t, ownerId).result == if MayRevoke(s, t, ownerId) then Ok(()) else Err(NotFound)
  {
    hide AddBeds, SetTenancy;
  }

  predicate MayReactivate(s: State, propertyId: Id, ownerId: Id, t: Id) {
    && IsOwner(s, ownerId, propertyId) && t in s.tenancies && s.tenancies[t].propertyId == propertyId
    && s.tenancies[t].status == Exited && HasFreeBed(s, s.tenancies[t].roomId)
  }

  lemma ReactivateAdmittedExactly(s: State, propertyId: Id, ownerId: Id, t: Id)
    ensures ReActiveTenancy(s, propertyId, ownerId, t).result.Ok? <==> MayReactivate(s, propertyId, ownerId, t)
    ensures var r := ReActiveTenancy(s, propertyId, ownerId, t).result;
            var known := t in s.tenancies && s.tenancies[t].propertyId == propertyId;
            && (r == Err(Unauthorized) <==> !IsOwner(s, ownerId, propertyId))
            && (r == Err(BadRequest) <==> && IsOwner(s, ownerId, propertyId) && known
                                          && (|| s.tenancies[t].status != Exited
                                              || (s.tenancies[t].roomId in s.rooms
                                                  && !HasFreeBed(s, s.tenancies[t].roomId))))
            && (r.Err? ==> r.error in {Unauthorized, BadRequest, NotFound})
  {
    hide AddBeds, SetTenancy;
  }

  // ------------------------------------------------------------------ notice, move-in, details

  predicate MayGiveNotice(s: State, t: Id, ownerId: Id, moveOut: Time, today: Time) {
    Resides(s, t) && IsOwner(s, ownerId, s.tenancies[t].propertyId) && MayLeaveOn(s, t, moveOut, today)
  }

  lemma NoticeAdmittedExactly(s: State, t: Id, ownerId: Id, moveOut: Time, today: Time)
    ensures PutOnNoticePeriod(s, t, ownerId, moveOut, today).result.Ok?
        <==> MayGiveNotice(s, t, ownerId, moveOut, today)
    ensures PutOnNoticePeriod(s, t, ownerId, moveOut, today).result
         == if !Resides(s, t) || !IsOwner(s, ownerId, s.tenancies[t].propertyId) then Err(NotFound)
            else if !MayGiveNotice(s, t, ownerId, moveOut, today) then Err(BadRequest) else Ok(())
  {
    hide DateText.ToDateOnly, SetTenancy;
  }

  predicate MayCancelNotice(s: State, t: Id, ownerId: Id) {
    Resides(s, t) && s.tenancies[t].status == NoticePeriod && IsOwner(s, ownerId, s.tenancies[t].propertyId)
  }

  lemma CancelAdmittedExactly(s: State, t: Id, ownerId: Id)
    ensures CancelNoticePeriod(s, t, ownerId).result == if MayCancelNotice(s, t, ownerId) then Ok(()) else Err(NotFound)
  {
    hide SetTenancy;
  }

  /** The owner of the request's property approves it for a tenancy that is active. */
  predicate MayApproveMoveOut(s: State, t: Id, requestProperty: Id, ownerId: Id, moveOut: Time, today: Time) {
    && Resides(s, t) && s.tenancies[t].status == Active && IsOwner(s, ownerId, requestProperty)
    && MayLeaveOn(s, t, moveOut, today)
  }

  lemma ApprovalAdmittedExactly(s: State, t: Id, requestProperty: Id, ownerId: Id, moveOut: Time, today: Time)
    ensures ApproveMoveOut(s, t, requestProperty, ownerId, moveOut, today).result.Ok?
        <==> MayApproveMoveOut(s, t, requestProperty, ownerId, moveOut, today)
    ensures ApproveMoveOut(s, t, requestProperty, ownerId, moveOut, today).result
         == if t !in s.tenancies || !IsOwner(s, ownerId, requestProperty) then Err(NotFound)
            else if !MayApproveMoveOut(s, t, requestProperty, ownerId, moveOut, today) then Err(BadRequest) else Ok(())
  {
    hide DateText.ToDateOnly, SetTenancy;
  }

  /** A pending tenancy, or an active one ahead of its joining day, that has not been confirmed before. */
  predicate MayConfirmMoveIn(s: State, t: Id, ownerId: Id, today: Time) {
    && t in s.tenancies && s.tenancies[t].deletedAt.None? && IsOwner(s, ownerId, s.tenancies[t].propertyId)
    && t !in s.movedIn
    && (|| s.tenancies[t].status == Pending
        || (s.tenancies[t].status == Active && today < DateText.ToDateOnly(s.tenancies[t].joinedAt)))
  }

  lemma MoveInAdmittedExactly(s: State, t: Id, ownerId: Id, today: Time)
    ensures ConfirmMoveIn(s, t, ownerId, today).result.Ok? <==> MayConfirmMoveIn(s, t, ownerId, today)
    ensures var r := ConfirmMoveIn(s, t, ownerId, today).result;
            && (r == Err(NotFound) <==> || t !in s.tenancies || s.tenancies[t].deletedAt.Some?
                                        || !IsOwner(s, ownerId, s.tenancies[t].propertyId)
                                        || (s.tenancies[t].status != Active && s.tenancies[t].status != Pending))
            && (r.Err? ==> r.error in {NotFound, BadRequest})
  {
    hide DateText.ToDateOnly, SetTenancy;
  }

  predicate MayUpdateDetails(s: State, t: Id, ownerId: Id, moveOut: Option<Option<Time>>, today: Time) {
    && Resides(s, t) && IsOwner(s, ownerId, s.tenancies[t].propertyId)
    && (moveOut.Some? && moveOut.value.Some? ==> MayLeaveOn(s, t, moveOut.value.value, today))
  }

  lemma DetailsAdmittedExactly(s: State, t: Id, ownerId: Id, moveOut: Option<Option<Time>>, today: Time)
    ensures UpdateTenancyDetails(s, t, ownerId, moveOut, today).result.Ok?
        <==> MayUpdateDetails(s, t, ownerId, moveOut, today)
    ensures UpdateTenancyDetails(s, t, ownerId, moveOut, today).result
         == if !Resides(s, t) || !IsOwner(s, ownerId, s.tenancies[t].propertyId) then Err(NotFound)
            else if !MayUpdateDetails(s, t, ownerId, moveOut, today) then Err(BadRequest) else Ok(())
  {
    hide DateText.ToDateOnly, SetTenancy;
  }
}
