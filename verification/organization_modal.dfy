/**
 * The organization dialog: whether the form is complete enough to enable the Create button, and
 * what pressing it does. The sub-resources are created first; only when that run succeeds is the
 * organization itself sent, with the trimmed names, the ids the run produced and the three
 * numeric fields read with parseInt. The dialog closes only when the organization is created.
 */
module OrganizationModal {
  import opened Wrappers
  import opened Strings
  import opened Numbers
  import opened Validation
  import opened Entities
  import opened OrganizationApi

  datatype ModalMode = CreateMode | EditMode

  /** The dialog's state: the general fields and the three slots. */
  datatype Form = Form(
    name: string,
    annualTurnover: string,
    employeesCount: string,
    rating: string,
    fullName: string,
    orgType: Option<OrganizationType>,
    coordinates: CoordinatesSlot,
    address: AddressSlot,
    postalAddress: AddressSlot)

  // ---- isFormValid ----

  /** Both names have visible text, turnover and employee count are positive integers, the rating a positive number, and a type is chosen. */
  predicate GeneralInfoValid(f: Form): (r: bool)
    ensures r <==>
      && |f.name| > 0 && !IsBlank(f.name) && |f.fullName| > 0 && !IsBlank(f.fullName)
      && IsPositiveInteger(f.annualTurnover) && IsPositiveInteger(f.employeesCount)
      && IsPositiveNumber(f.rating) && f.orgType.Some?
  {
    && ValidateName(f.name) == ""
    && ValidateFullName(f.fullName) == ""
    && ValidateAnnualTurnover(f.annualTurnover) == ""
    && ValidateEmployeesCount(f.employeesCount) == ""
    && ValidateRating(f.rating) == ""
    && f.orgType.Some?
  }

  /** Manual: both numbers pass their checks. Existing: some id is selected (0 included). */
  predicate CoordinatesValid(c: CoordinatesSlot): (r: bool)
    ensures c.mode == Manual ==> (r <==> IsIntegerAtMost(c.x, 442) && IsIntegerText(c.y))
    ensures c.mode == Existing ==> (r <==> c.selected != Unselected)
  {
    if c.mode == Manual then ValidateCoordinatesX(c.x) == "" && ValidateCoordinatesY(c.y) == ""
    else c.selected.Selected?
  }

  /** Manual: street and zip are non-empty. Existing: some id is selected (0 included). */
  predicate AddressValid(a: AddressSlot): (r: bool)
    ensures a.mode == Manual ==> (r <==> a.street != [] && a.zip != [])
    ensures a.mode == Existing ==> (r <==> a.selected != Unselected)
  {
    if a.mode == Manual then ValidateStreet(a.street) == "" && ValidateZip(a.zip) == ""
    else a.selected.Selected?
  }

  /** The whole form passes: the general fields and all three slots. */
  predicate IsFormValid(f: Form): (r: bool)
    ensures r ==> f.orgType.Some? && !IsBlank(f.name) && !IsBlank(f.fullName)
    ensures r && f.coordinates.mode == Manual ==> f.coordinates.x != [] && f.coordinates.y != []
    ensures r && f.address.mode == Existing ==> f.address.selected.Selected?
    ensures r && f.postalAddress.mode == Existing ==> f.postalAddress.selected.Selected?
  {
    GeneralInfoValid(f) && CoordinatesValid(f.coordinates) && AddressValid(f.address) && AddressValid(f.postalAddress)
  }

  /** The Create button is disabled only when creating, and then exactly when the form is not valid. */
  predicate IsCreateDisabled(mode: ModalMode, f: Form): (r: bool)
    ensures mode == EditMode ==> !r
    ensures mode == CreateMode && (f.orgType == None || IsBlank(f.name)) ==> r
  {
    mode == CreateMode && !IsFormValid(f)
  }

  // ---- handleCreateOrganization, as a specification ----

  function Params(f: Form): CreateDataParams {
    CreateDataParams(f.coordinates, f.address, f.postalAddress)
  }

  /**
   * The organization body: trimmed names, the ids of the run, the numbers through parseInt.
   * With no type chosen the dialog sends the empty string in the type field; the model sends
   * None there (the Create button is disabled on such a form).
   */
  function PayloadOf(f: Form, ids: Ids): (r: OrganizationPayload)
    ensures r.name == [] <==> IsBlank(f.name)
    ensures r.fullName == [] <==> IsBlank(f.fullName)
    ensures HasBareEdges(r.name) && HasBareEdges(r.fullName)
    ensures r.coordinatesId == ids.coordinatesId && r.addressId == ids.addressId && r.postalAddressId == ids.postalAddressId
  {
    TrimHasBareEdges(f.name);
    TrimHasBareEdges(f.fullName);
    OrganizationPayload(
      Trim(f.name), Trim(f.fullName),
      ids.coordinatesId, ids.addressId, ids.postalAddressId,
      ParseInt(f.annualTurnover), ParseInt(f.employeesCount), ParseInt(f.rating),
      f.orgType)
  }

  /** The notice for the organization call: created, 401, another status, or a rejected call. */
  function OrganizationNotice(reply: Reply, fullName: string): (r: Notice)
    ensures r.Success? <==> Created(reply)
    ensures r.Success? ==> r.title == "Organization " + fullName + " created"
    ensures reply.Reply? && reply.status == 401 ==> r == Error("Unauthorized", "You are not authorized to create organizations")
    ensures reply.Reply? && reply.status != 201 && reply.status != 401 ==>
      r == Error("Creation failed", "Failed to create organization")
    ensures reply == Thrown ==> r == Error("Creation failed", "Failed to create organization resources")
  {
    if Created(reply) then Success("Organization " + fullName + " created", "You can now manage it")
    else if reply.Reply? && reply.status == 401 then Error("Unauthorized", "You are not authorized to create organizations")
    else if reply.Reply? then Error("Creation failed", "Failed to create organization")
    else Error("Creation failed", "Failed to create organization resources")
  }

  /** What one press of Create does: the calls made, the notices shown, and whether the dialog closed. */
  datatype Submission = Submission(requests: seq<Request>, notices: seq<Notice>, closed: bool)

  function Submit(f: Form, replies: seq<Reply>): Submission {
    var r := Resolve(Plan(Params(f)), replies);
    var data := ResultOf(r);
    if !data.success then Submission(r.requests, r.notices, false)
    else
      var reply := Head(r.rest);
      Submission(r.requests + [CreateOrganization(PayloadOf(f, data.ids))],
                 r.notices + [OrganizationNotice(reply, f.fullName)],
                 Created(reply))
  }

  // ---- handleCreateOrganization, as the source performs it ----

  /**
   * In create mode: run the sub-resource creation; on success send the organization and report
   * its status, closing the dialog on 201. In edit mode nothing is done.
   */
  method HandleCreateOrganization(mode: ModalMode, f: Form, replies: seq<Reply>)
    returns (requests: seq<Request>, notices: seq<Notice>, closed: bool)
    ensures mode == EditMode ==> requests == [] && notices == [] && !closed
    ensures mode == CreateMode ==> Submission(requests, notices, closed) == Submit(f, replies)
  {
    requests, notices, closed := [], [], false;
    if mode == CreateMode {
      var result, pending;
      result, requests, notices, pending := CreateOrganizationData(Params(f), replies);
      if result.success {
        var payload := PayloadOf(f, result.ids);
        requests := requests + [CreateOrganization(payload)];
        var reply := Head(pending);
        if reply.Reply? && reply.status == 201 {
          notices := notices + [Success("Organization " + f.fullName + " created", "You can now manage it")];
          closed := true;
        } else if reply.Reply? && reply.status == 401 {
          notices := notices + [Error("Unauthorized", "You are not authorized to create organizations")];
        } else if reply.Reply? {
          notices := notices + [Error("Creation failed", "Failed to create organization")];
        } else {
          notices := notices + [Error("Creation failed", "Failed to create organization resources")];
        }
      }
    }
  }

  // ---- what pressing Create does ----

  /** Slots that only create sub-resources, each with a success notice, yield only such calls and notices. */
  lemma {:induction false} SubResourceCalls(actions: seq<SlotAction>)
    requires forall i :: 0 <= i < |actions| && actions[i].Create? ==>
      !actions[i].request.CreateOrganization? && actions[i].notice.Success?
    ensures forall q :: q in CreatesOf(actions) ==> !q.CreateOrganization?
    ensures forall n :: n in NoticesOf(actions) ==> n.Success?
    decreases |actions|
  {
    if actions != [] {
      assert forall i :: 0 <= i < |actions[1..]| ==> actions[1..][i] == actions[i + 1];
      SubResourceCalls(actions[1..]);
    }
  }

  /** The sub-resource calls never create an organization, and their notices are all successes. */
  lemma PlannedCallsAreSubResources(p: CreateDataParams)
    ensures forall q :: q in CreatesOf(Plan(p)) ==> !q.CreateOrganization?
    ensures forall n :: n in NoticesOf(Plan(p)) ==> n.Success?
  {
    SubResourceCalls(Plan(p));
  }

  /** The calls and notices of the sub-resource run, which every submission starts with. */
  lemma SubResourcePart(f: Form, replies: seq<Reply>)
    ensures var r := Resolve(Plan(Params(f)), replies);
      && (forall q :: q in r.requests ==> !q.CreateOrganization?)
      && (forall n :: n in r.notices ==> n.Success?)
      && (r.ok <==> AllCreated(replies, |CreatesOf(Plan(Params(f)))|))
      && (r.ok ==> r.rest == Drop(replies, |CreatesOf(Plan(Params(f)))|))
  {
    var p := Params(f);
    var r := Resolve(Plan(p), replies);
    RequestsArePlannedPrefix(Plan(p), replies);
    PlannedCallsAreSubResources(p);
    SuccessIffAllCreated(Plan(p), replies);
    assert forall q :: q in r.requests ==> q in CreatesOf(Plan(p));
    assert forall n :: n in r.notices ==> n in NoticesOf(Plan(p));
  }

  /**
   * The organization is sent exactly when every sub-resource call answered 201, and then as the
   * last call; when it is not sent, every notice shown is a success (a failed run is silent) and
   * the dialog stays open.
   */
  lemma OrganizationSentIffResourcesCreated(f: Form, replies: seq<Reply>)
    ensures var s := Submit(f, replies); var n := |CreatesOf(Plan(Params(f)))|;
      && ((exists q :: q in s.requests && q.CreateOrganization?) <==> AllCreated(replies, n))
      && (AllCreated(replies, n) ==> s.requests[|s.requests| - 1] == CreateOrganization(PayloadOf(f, ResultOf(Resolve(Plan(Params(f)), replies)).ids)))
      && (!AllCreated(replies, n) ==> !s.closed && forall m :: m in s.notices ==> m.Success?)
  {
    var r := Resolve(Plan(Params(f)), replies);
    SubResourcePart(f, replies);
    var s := Submit(f, replies);
    if r.ok {
      assert s.requests[|s.requests| - 1] in s.requests;
    }
  }

  /**
   * The dialog closes exactly when every call, the organization's included, answered 201; the
   * last notice then names the full name as typed. When the sub-resources were created but the
   * organization call was not, the last notice tells which of the three failures it was.
   */
  lemma ClosesIffEverythingCreated(f: Form, replies: seq<Reply>)
    ensures var s := Submit(f, replies); var n := |CreatesOf(Plan(Params(f)))|;
      && (s.closed <==> AllCreated(replies, n + 1))
      && (s.closed ==> |s.notices| > 0 && s.notices[|s.notices| - 1] == Success("Organization " + f.fullName + " created", "You can now manage it"))
      && (AllCreated(replies, n) ==>
            |s.notices| > 0 && s.notices[|s.notices| - 1] == OrganizationNotice(ReplyAt(replies, n), f.fullName))
  {
    var r := Resolve(Plan(Params(f)), replies);
    var n := |CreatesOf(Plan(Params(f)))|;
    var s := Submit(f, replies);
    SubResourcePart(f, replies);
    if r.ok {
      assert Head(r.rest) == ReplyAt(replies, n);
      assert s.closed == Created(ReplyAt(replies, n));
      assert s.notices[|s.notices| - 1] == OrganizationNotice(ReplyAt(replies, n), f.fullName);
      assert AllCreated(replies, n + 1) <==> Created(ReplyAt(replies, n));
    } else {
      assert !s.closed && !AllCreated(replies, n + 1);
    }
  }

  /** The number of calls: one per planned sub-resource call when all answer 201, plus the organization. */
  lemma CallCount(f: Form, replies: seq<Reply>)
    ensures var n := |CreatesOf(Plan(Params(f)))|;
      && n <= 3
      && (AllCreated(replies, n) ==> |Submit(f, replies).requests| == n + 1)
      && (!AllCreated(replies, n) ==> 1 <= |Submit(f, replies).requests| <= n)
  {
    SuccessIffAllCreated(Plan(Params(f)), replies);
  }

  // ---- what a valid form sends ----

  /** Every existing-mode slot has a non-zero id; 0 passes the form check but is falsy in the run. */
  predicate NoZeroSelection(f: Form) {
    && (f.coordinates.mode == Existing ==> f.coordinates.selected != Selected(0))
    && (f.address.mode == Existing ==> f.address.selected != Selected(0))
    && (f.postalAddress.mode == Existing ==> f.postalAddress.selected != Selected(0))
  }

  /** Valid coordinates are created when typed and reused when chosen, except a chosen id of 0, which is left. */
  lemma ValidCoordinatesArePlanned(c: CoordinatesSlot)
    requires CoordinatesValid(c)
    ensures CoordinatesAction(c).Leave? <==> c.mode == Existing && c.selected == Selected(0)
    ensures c.mode == Manual ==> CoordinatesAction(c).Create?
  {
    if c.mode == Manual {
      assert IsIntegerAtMost(c.x, 442) && IsIntegerText(c.y);
    }
  }

  /** The same for an address slot. */
  lemma ValidAddressIsPlanned(a: AddressSlot)
    requires AddressValid(a)
    ensures AddressAction(a).Leave? <==> a.mode == Existing && a.selected == Selected(0)
    ensures a.mode == Manual ==> AddressAction(a).Create?
  {
  }

  /**
   * An enabled Create button in create mode means every slot typed by hand will be sent to the
   * server, and the names are not blank; in edit mode the button is never disabled.
   */
  lemma EnabledCreatePlansTypedSlots(mode: ModalMode, f: Form)
    requires !IsCreateDisabled(mode, f)
    ensures mode == CreateMode ==> f.coordinates.mode == Manual ==> CoordinatesAction(f.coordinates).Create?
    ensures mode == CreateMode ==> f.address.mode == Manual ==> AddressAction(f.address).Create?
    ensures mode == CreateMode ==> f.postalAddress.mode == Manual ==> AddressAction(f.postalAddress).Create?
    ensures mode == CreateMode ==> !IsBlank(f.name) && !IsBlank(f.fullName)
  {
    if mode == CreateMode {
      ValidCoordinatesArePlanned(f.coordinates);
      ValidAddressIsPlanned(f.address);
      ValidAddressIsPlanned(f.postalAddress);
    }
  }

  /** When the run succeeds on a valid form without a zero id, the organization is sent with all three ids. */
  lemma ValidFormSendsAllIds(f: Form, replies: seq<Reply>)
    requires IsFormValid(f) && NoZeroSelection(f)
    requires Resolve(Plan(Params(f)), replies).ok
    ensures var ids := ResultOf(Resolve(Plan(Params(f)), replies)).ids;
      ids.coordinatesId.Some? && ids.addressId.Some? && ids.postalAddressId.Some?
  {
    var acts := Plan(Params(f));
    ValidCoordinatesArePlanned(f.coordinates);
    ValidAddressIsPlanned(f.address);
    ValidAddressIsPlanned(f.postalAddress);
    OnlyLeftSlotsAreUnset(acts, replies);
    var r := Resolve(acts, replies);
    assert |r.slots| == 3;
    assert r.slots[0].Some? && r.slots[1].Some? && r.slots[2].Some? by {
      assert !acts[0].Leave? && !acts[1].Leave? && !acts[2].Leave?;
    }
  }

  /**
   * A selected id of 0 passes the form check, yet the run leaves that slot unset, so the
   * organization is sent without that id.
   */
  lemma ZeroSelectionPassesButIsDropped(f: Form, replies: seq<Reply>)
    requires f.coordinates.mode == Existing && f.coordinates.selected == Selected(0)
    requires Resolve(Plan(Params(f)), replies).ok
    ensures CoordinatesValid(f.coordinates)
    ensures ResultOf(Resolve(Plan(Params(f)), replies)).ids.coordinatesId == None
  {
    OnlyLeftSlotsAreUnset(Plan(Params(f)), replies);
  }

  /** A text that passes a positive-integer check is read by parseInt as exactly its value. */
  lemma PositiveIntegerIsParsedExactly(s: string)
    requires IsPositiveInteger(s)
    ensures ParseInt(s).Some? && ParseInt(s).value as real == NumberValue(s).value
  {
    var d := ToNumber(s).value;
    var v := Value(d);
    assert v.Floor as real == v && v > 0.0;
    assert v >= 1.0;
    ParseIntIsFloorOfNumber(s, d);
  }

  /** Turnover and employee count that pass their checks are sent as exactly the numbers shown. */
  lemma ValidCountsAreSentExactly(f: Form, ids: Ids)
    requires GeneralInfoValid(f)
    ensures PayloadOf(f, ids).annualTurnover.Some?
    ensures PayloadOf(f, ids).annualTurnover.value as real == NumberValue(f.annualTurnover).value
    ensures PayloadOf(f, ids).employeesCount.Some?
    ensures PayloadOf(f, ids).employeesCount.value as real == NumberValue(f.employeesCount).value
    ensures PayloadOf(f, ids).name == Trim(f.name) && Trim(f.name) != []
    ensures PayloadOf(f, ids).fullName == Trim(f.fullName) && Trim(f.fullName) != []
  {
    PositiveIntegerIsParsedExactly(f.annualTurnover);
    PositiveIntegerIsParsedExactly(f.employeesCount);
    TrimEmptyIffBlank(f.name);
    TrimEmptyIffBlank(f.fullName);
  }

  /** A rating of at least 1 is sent as its integer part: the fraction the check allowed is dropped. */
  lemma RatingIsTruncated(f: Form, ids: Ids)
    requires ValidateRating(f.rating) == "" && NumberValue(f.rating).value >= 1.0
    ensures PayloadOf(f, ids).rating == Some(NumberValue(f.rating).value.Floor)
  {
    ParseIntIsFloorOfNumber(f.rating, ToNumber(f.rating).value);
  }

  /**
   * The rating check and parseInt part ways on fractions: "2.5" passes and is sent as 2, "0.5"
   * passes and is sent as 0, and ".5" passes and is sent as NaN (no number at all).
   */
  lemma FractionalRatingsAreMangled()
    ensures ValidateRating("2.5") == "" && ParseInt("2.5") == Some(2)
    ensures ValidateRating("0.5") == "" && ParseInt("0.5") == Some(0)
    ensures ValidateRating(".5") == "" && ParseInt(".5") == None
  {
    TwoPointFive();
    ZeroPointFive();
    PointFive();
    NumberChecks(Decimal(25, 1), 0);
    NumberChecks(Decimal(5, 1), 0);
  }
}
