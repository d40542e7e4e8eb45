/**
 * The creation of an organization's sub-resources. Three slots are resolved in the fixed order
 * coordinates, address, postal address. A slot in manual mode with both fields filled costs one
 * create call; a slot in existing mode with a truthy id reuses that id; anything else leaves the
 * slot unset. The first call that does not answer 201 aborts the whole run and discards every id.
 *
 * The server is an oracle: the sequence of replies the calls receive, in order. A call made after
 * the sequence is exhausted, like a call whose fetch rejects, is `Thrown`.
 */
module OrganizationApi {
  import opened Wrappers
  import opened Strings
  import opened Numbers
  import opened Entities

  datatype InputMode = Manual | Existing

  /** The value of an id select: `""` (nothing chosen) or a number. */
  datatype Selection = Unselected | Selected(id: int)

  /** JavaScript truthiness of `number | ""`: the empty string and 0 are falsy. */
  predicate Truthy(s: Selection) {
    s.Selected? && s.id != 0
  }

  datatype CoordinatesSlot = CoordinatesSlot(mode: InputMode, x: string, y: string, selected: Selection)

  datatype AddressSlot = AddressSlot(mode: InputMode, street: string, zip: string, selected: Selection)

  datatype CreateDataParams = CreateDataParams(coordinates: CoordinatesSlot, address: AddressSlot, postalAddress: AddressSlot)

  /** What the modal sends for the organization itself; a missing id or a NaN number is `None` (sent as null or left out). */
  datatype OrganizationPayload = OrganizationPayload(
    name: string,
    fullName: string,
    coordinatesId: Option<int>,
    addressId: Option<int>,
    postalAddressId: Option<int>,
    annualTurnover: Option<int>,
    employeesCount: Option<int>,
    rating: Option<int>,
    orgType: Option<OrganizationType>)

  /** A create call and its JSON body. */
  datatype Request =
    | CreateCoordinates(x: Option<int>, y: Option<int>)
    | CreateAddress(street: string, zip: string)
    | CreateOrganization(payload: OrganizationPayload)

  /** What a call came back with: a status and the id in the body, or a rejected promise. */
  datatype Reply = Reply(status: int, id: int) | Thrown

  datatype Notice = Success(title: string, detail: string) | Error(title: string, detail: string)

  datatype Ids = Ids(coordinatesId: Option<int>, addressId: Option<int>, postalAddressId: Option<int>)

  const NoIds := Ids(None, None, None)

  datatype DataResult = DataResult(success: bool, ids: Ids)

  predicate Created(r: Reply) {
    r.Reply? && r.status == 201
  }

  /** The reply the next call receives, and the replies left after it. */
  function Head(replies: seq<Reply>): Reply {
    if replies == [] then Thrown else replies[0]
  }

  function Tail(replies: seq<Reply>): seq<Reply> {
    if replies == [] then [] else replies[1..]
  }

  /** The reply the call numbered `i` (from 0) receives. */
  function ReplyAt(replies: seq<Reply>, i: nat): Reply {
    if i < |replies| then replies[i] else Thrown
  }

  function Drop(replies: seq<Reply>, n: nat): seq<Reply> {
    if n <= |replies| then replies[n..] else []
  }

  // ---- what each slot asks for ----

  datatype SlotAction = Create(request: Request, notice: Notice) | Reuse(id: int) | Leave

  const UseIt := "You can now use it"

  function CoordinatesAction(c: CoordinatesSlot): (a: SlotAction)
    ensures a.Create? <==> c.mode == Manual && c.x != "" && c.y != ""
    ensures a.Create? ==> a.request == CreateCoordinates(ParseInt(c.x), ParseInt(c.y))
    ensures a.Reuse? <==> c.mode == Existing && Truthy(c.selected)
    ensures a.Reuse? ==> a.id == c.selected.id
  {
    if c.mode == Manual && c.x != "" && c.y != "" then
      Create(CreateCoordinates(ParseInt(c.x), ParseInt(c.y)), Success("(" + c.x + "; " + c.y + ") added to database", UseIt))
    else if c.mode == Existing && Truthy(c.selected) then Reuse(c.selected.id)
    else Leave
  }

  function AddressAction(a: AddressSlot): (r: SlotAction)
    ensures r.Create? <==> a.mode == Manual && a.street != "" && a.zip != ""
    ensures r.Create? ==> r.request == CreateAddress(a.street, a.zip)
    ensures r.Reuse? <==> a.mode == Existing && Truthy(a.selected)
    ensures r.Reuse? ==> r.id == a.selected.id
  {
    if a.mode == Manual && a.street != "" && a.zip != "" then
      Create(CreateAddress(a.street, a.zip), Success(a.street + ":" + a.zip + " added to database", UseIt))
    else if a.mode == Existing && Truthy(a.selected) then Reuse(a.selected.id)
    else Leave
  }

  /** The three slots in the order they are processed. */
  function Plan(p: CreateDataParams): seq<SlotAction> {
    [CoordinatesAction(p.coordinates), AddressAction(p.address), AddressAction(p.postalAddress)]
  }

  // ---- the run, as a specification ----

  /**
   * The outcome of resolving `actions` in order against `replies`: whether every call succeeded,
   * the id of each slot, the calls made, the success notices shown and the unread replies.
   */
  datatype Resolution = Resolution(ok: bool, slots: seq<Option<int>>, requests: seq<Request>, notices: seq<Notice>, rest: seq<Reply>)

  function Resolve(actions: seq<SlotAction>, replies: seq<Reply>): (r: Resolution)
    ensures r.ok ==> |r.slots| == |actions|
    ensures |r.requests| <= |actions|
    decreases |actions|
  {
    if actions == [] then Resolution(true, [], [], [], replies)
    else match actions[0]
      case Leave =>
        var tail := Resolve(actions[1..], replies);
        tail.(slots := [None] + tail.slots)
      case Reuse(id) =>
        var tail := Resolve(actions[1..], replies);
        tail.(slots := [Some(id)] + tail.slots)
      case Create(request, notice) =>
        if Created(Head(replies)) then
          var tail := Resolve(actions[1..], Tail(replies));
          tail.(slots := [Some(Head(replies).id)] + tail.slots,
                requests := [request] + tail.requests,
                notices := [notice] + tail.notices)
        else Resolution(false, [], [request], [], Tail(replies))
  }

  /** `{ success: true, ids }` with the three slot ids, or `{ success: false, ids: {} }`. */
  function ResultOf(r: Resolution): DataResult {
    if r.ok && |r.slots| == 3 then DataResult(true, Ids(r.slots[0], r.slots[1], r.slots[2]))
    else DataResult(false, NoIds)
  }

  /** The requests of the slots that call the server, in slot order. */
  function CreatesOf(actions: seq<SlotAction>): (r: seq<Request>)
    ensures |r| <= |actions|
    decreases |actions|
  {
    if actions == [] then []
    else if actions[0].Create? then [actions[0].request] + CreatesOf(actions[1..])
    else CreatesOf(actions[1..])
  }

  function NoticesOf(actions: seq<SlotAction>): (r: seq<Notice>)
    ensures |r| == |CreatesOf(actions)|
    decreases |actions|
  {
    if actions == [] then []
    else if actions[0].Create? then [actions[0].notice] + NoticesOf(actions[1..])
    else NoticesOf(actions[1..])
  }

  /** The first `n` calls all answered 201. */
  predicate AllCreated(replies: seq<Reply>, n: nat) {
    n <= |replies| && forall i :: 0 <= i < n ==> Created(replies[i])
  }

  /** The id slot `i` ends with on a successful run, `k` being the number of calls before it. */
  function SlotId(a: SlotAction, replies: seq<Reply>, k: nat): Option<int> {
    match a
    case Leave => None
    case Reuse(id) => Some(id)
    case Create(_, _) => if ReplyAt(replies, k).Reply? then Some(ReplyAt(replies, k).id) else None
  }

  // ---- the run, as the source performs it ----

  /**
   * `createOrganizationData`: the `ids` record is filled slot by slot; the first call that does
   * not answer 201 throws, and the catch returns failure with no ids.
   */
  method CreateOrganizationData(p: CreateDataParams, replies: seq<Reply>)
    returns (result: DataResult, requests: seq<Request>, notices: seq<Notice>, pending: seq<Reply>)
    ensures var r := Resolve(Plan(p), replies);
      result == ResultOf(r) && requests == r.requests && notices == r.notices && pending == r.rest
  {
    ghost var acts := Plan(p);
    assert acts == [acts[0]] + acts[1..] && acts[1..] == [acts[1]] + acts[2..] && acts[2..] == [acts[2]] + [];
    var failed, coordinatesId, addressId, postalAddressId;
    var called: seq<Request>, shown: seq<Notice>;

    failed, coordinatesId, requests, notices, pending := CoordinatesBlock(p.coordinates, replies, acts[1..]);
    if failed {
      return DataResult(false, NoIds), requests, notices, pending;
    }
    failed, addressId, called, shown, pending := AddressBlock(p.address, pending, acts[2..]);
    PrefixedTwice([coordinatesId], requests, notices, [addressId], called, shown, Resolve(acts[2..], pending));
    requests, notices := requests + called, notices + shown;
    if failed {
      return DataResult(false, NoIds), requests, notices, pending;
    }

    failed, postalAddressId, called, shown, pending := AddressBlock(p.postalAddress, pending, []);
    PrefixedTwice([coordinatesId, addressId], requests, notices, [postalAddressId], called, shown, Resolve([], pending));
    requests, notices := requests + called, notices + shown;
    if failed {
      return DataResult(false, NoIds), requests, notices, pending;
    }
    result := DataResult(true, Ids(coordinatesId, addressId, postalAddressId));
  }

  /**
   * The coordinates block: with manual mode and both fields non-empty, one call with the parsed
   * numbers; 201 keeps the returned id and shows a notice, any other answer throws. With existing
   * mode and a truthy id, that id. Otherwise nothing. Stated as the first step of the run over
   * this slot followed by the `later` ones.
   */
  method CoordinatesBlock(c: CoordinatesSlot, replies: seq<Reply>, ghost later: seq<SlotAction>)
    returns (failed: bool, id: Option<int>, requests: seq<Request>, notices: seq<Notice>, pending: seq<Reply>)
    ensures failed ==> Resolve([CoordinatesAction(c)] + later, replies) == Resolution(false, [], requests, notices, pending) && notices == []
    ensures !failed ==> Resolve([CoordinatesAction(c)] + later, replies) == Prefixed([id], requests, notices, Resolve(later, pending))
  {
    ghost var acts := [CoordinatesAction(c)] + later;
    ResolveStep(acts, replies);
    assert acts[1..] == later;
    failed, id, requests, notices, pending := false, None, [], [], replies;
    if c.mode == Manual && c.x != "" && c.y != "" {
      var reply := Head(pending);
      requests := [CreateCoordinates(ParseInt(c.x), ParseInt(c.y))];
      pending := Tail(pending);
      if reply.Reply? && reply.status == 201 {
        id := Some(reply.id);
        notices := [Success("(" + c.x + "; " + c.y + ") added to database", UseIt)];
      } else {
        failed := true;
      }
    } else if c.mode == Existing && Truthy(c.selected) {
      id := Some(c.selected.id);
    }
  }

  /** The address block, used for the address and for the postal address. */
  method AddressBlock(a: AddressSlot, replies: seq<Reply>, ghost later: seq<SlotAction>)
    returns (failed: bool, id: Option<int>, requests: seq<Request>, notices: seq<Notice>, pending: seq<Reply>)
    ensures failed ==> Resolve([AddressAction(a)] + later, replies) == Resolution(false, [], requests, notices, pending) && notices == []
    ensures !failed ==> Resolve([AddressAction(a)] + later, replies) == Prefixed([id], requests, notices, Resolve(later, pending))
  {
    ghost var acts := [AddressAction(a)] + later;
    ResolveStep(acts, replies);
    assert acts[1..] == later;
    failed, id, requests, notices, pending := false, None, [], [], replies;
    if a.mode == Manual && a.street != "" && a.zip != "" {
      var reply := Head(pending);
      requests := [CreateAddress(a.street, a.zip)];
      pending := Tail(pending);
      if reply.Reply? && reply.status == 201 {
        id := Some(reply.id);
        notices := [Success(a.street + ":" + a.zip + " added to database", UseIt)];
      } else {
        failed := true;
      }
    } else if a.mode == Existing && Truthy(a.selected) {
      id := Some(a.selected.id);
    }
  }

  lemma PrefixedTwice(s1: seq<Option<int>>, q1: seq<Request>, n1: seq<Notice>,
                      s2: seq<Option<int>>, q2: seq<Request>, n2: seq<Notice>, r: Resolution)
    ensures Prefixed(s1, q1, n1, Prefixed(s2, q2, n2, r)) == Prefixed(s1 + s2, q1 + q2, n1 + n2, r)
  {
  }

  /** A resolution with the outcome of earlier slots in front of it. */
  function Prefixed(slots: seq<Option<int>>, requests: seq<Request>, notices: seq<Notice>, r: Resolution): Resolution {
    r.(slots := slots + r.slots, requests := requests + r.requests, notices := notices + r.notices)
  }

  /** One slot of the run: a left or reused slot makes no call; a created one makes one, and a failed call ends the run. */
  lemma ResolveStep(actions: seq<SlotAction>, replies: seq<Reply>)
    requires actions != []
    ensures var r := Resolve(actions, replies); var a := actions[0];
      && (a.Leave? ==> r == Prefixed([None], [], [], Resolve(actions[1..], replies)))
      && (a.Reuse? ==> r == Prefixed([Some(a.id)], [], [], Resolve(actions[1..], replies)))
      && (a.Create? && Created(Head(replies)) ==>
            r == Prefixed([Some(Head(replies).id)], [a.request], [a.notice], Resolve(actions[1..], Tail(replies))))
      && (a.Create? && !Created(Head(replies)) ==> r == Resolution(false, [], [a.request], [], Tail(replies)))
  {
  }

  // ---- what the run does ----

  /** The calls made are the first of the planned calls, in slot order, and so are the notices. */
  lemma {:induction false} RequestsArePlannedPrefix(actions: seq<SlotAction>, replies: seq<Reply>)
    ensures Resolve(actions, replies).requests <= CreatesOf(actions)
    ensures Resolve(actions, replies).notices <= NoticesOf(actions)
    decreases |actions|
  {
    if actions != [] {
      if actions[0].Create? {
        if Created(Head(replies)) {
          RequestsArePlannedPrefix(actions[1..], Tail(replies));
        }
      } else {
        RequestsArePlannedPrefix(actions[1..], replies);
      }
    }
  }

  /**
   * The run succeeds exactly when every planned call answers 201; then it has made every planned
   * call and shown one notice per call. Otherwise it stopped at the first call that did not answer
   * 201: every earlier call answered 201, and the failed call shows no notice.
   */
  lemma {:induction false} SuccessIffAllCreated(actions: seq<SlotAction>, replies: seq<Reply>)
    ensures var r := Resolve(actions, replies);
      && (r.ok <==> AllCreated(replies, |CreatesOf(actions)|))
      && (r.ok ==> |r.requests| == |CreatesOf(actions)| && |r.notices| == |r.requests|)
      && (!r.ok ==> 1 <= |r.requests| && |r.notices| == |r.requests| - 1
                    && AllCreated(replies, |r.requests| - 1) && !Created(ReplyAt(replies, |r.requests| - 1)))
      && r.rest == Drop(replies, |r.requests|)
    decreases |actions|
  {
    if actions != [] {
      ResolveStep(actions, replies);
      if actions[0].Create? {
        if Created(Head(replies)) {
          SuccessIffAllCreated(actions[1..], Tail(replies));
          var t := Resolve(actions[1..], Tail(replies));
          FirstCallShift(replies, |CreatesOf(actions[1..])|, |t.requests|);
        } else {
          assert replies == [] || !Created(replies[0]);
        }
      } else {
        SuccessIffAllCreated(actions[1..], replies);
      }
    }
  }

  /** After a first call that answered 201, the rest of the run sees the remaining replies shifted by one. */
  lemma FirstCallShift(replies: seq<Reply>, m: nat, k: nat)
    requires replies != [] && Created(replies[0])
    ensures AllCreated(replies, m + 1) <==> AllCreated(replies[1..], m)
    ensures k >= 1 ==> (AllCreated(replies, k) <==> AllCreated(replies[1..], k - 1))
    ensures k >= 1 ==> ReplyAt(replies, k) == ReplyAt(replies[1..], k - 1)
    ensures Drop(replies, k + 1) == Drop(replies[1..], k)
  {
    var tail := replies[1..];
    assert forall i :: 0 <= i < |tail| ==> tail[i] == replies[i + 1];
    if AllCreated(tail, m) {
      forall i | 0 <= i < m + 1 ensures Created(replies[i]) {
        if i > 0 {
          assert replies[i] == tail[i - 1];
        }
      }
    }
    if k >= 1 && AllCreated(tail, k - 1) {
      forall i | 0 <= i < k ensures Created(replies[i]) {
        if i > 0 {
          assert replies[i] == tail[i - 1];
        }
      }
    }
  }

  /** On success each slot holds: nothing when left, the chosen id when reused, the id of its call's 201 reply when created. */
  lemma {:induction false} SlotIds(actions: seq<SlotAction>, replies: seq<Reply>)
    requires Resolve(actions, replies).ok
    ensures forall i :: 0 <= i < |actions| ==>
      Resolve(actions, replies).slots[i] == SlotId(actions[i], replies, |CreatesOf(actions[..i])|)
    decreases |actions|
  {
    if actions != [] {
      var r := Resolve(actions, replies);
      var tailReplies := if actions[0].Create? then Tail(replies) else replies;
      var tail := Resolve(actions[1..], tailReplies);
      OkStep(actions, replies);
      SlotIds(actions[1..], tailReplies);
      assert actions[..0] == [];
      forall i | 1 <= i < |actions|
        ensures r.slots[i] == SlotId(actions[i], replies, |CreatesOf(actions[..i])|)
      {
        CreatesOfPrefix(actions, i);
        var k := |CreatesOf(actions[1..][..i - 1])|;
        assert actions[i] == actions[1..][i - 1];
        assert tail.slots[i - 1] == SlotId(actions[i], tailReplies, k);
        SlotIdAfterFirst(actions[i], replies, actions[0].Create?, k);
      }
    }
  }

  /** The id a slot gets, counted on the replies left after the first slot. */
  lemma SlotIdAfterFirst(a: SlotAction, replies: seq<Reply>, firstCalls: bool, k: nat)
    ensures SlotId(a, if firstCalls then Tail(replies) else replies, k) == SlotId(a, replies, k + (if firstCalls then 1 else 0))
  {
    if firstCalls {
      assert ReplyAt(Tail(replies), k) == ReplyAt(replies, k + 1);
    }
  }

  /** A successful run: the first slot gets its id and the rest of the run, on the replies left, succeeds too. */
  lemma OkStep(actions: seq<SlotAction>, replies: seq<Reply>)
    requires actions != [] && Resolve(actions, replies).ok
    ensures var tail := Resolve(actions[1..], if actions[0].Create? then Tail(replies) else replies);
      && tail.ok
      && Resolve(actions, replies).slots == [SlotId(actions[0], replies, 0)] + tail.slots
  {
    if actions[0].Create? {
      assert Created(Head(replies)) && replies != [];
    }
  }

  /** The calls planned before slot `i` are the first slot's call, if any, and those of the next `i - 1` slots. */
  lemma CreatesOfPrefix(actions: seq<SlotAction>, i: nat)
    requires 1 <= i <= |actions|
    ensures |CreatesOf(actions[..i])| == (if actions[0].Create? then 1 else 0) + |CreatesOf(actions[1..][..i - 1])|
  {
    assert actions[..i][1..] == actions[1..][..i - 1];
    assert actions[..i][0] == actions[0];
  }

  /** On success exactly the slots that are not left hold an id. */
  lemma {:induction false} OnlyLeftSlotsAreUnset(actions: seq<SlotAction>, replies: seq<Reply>)
    requires Resolve(actions, replies).ok
    ensures forall i :: 0 <= i < |actions| ==> (Resolve(actions, replies).slots[i].Some? <==> !actions[i].Leave?)
    decreases |actions|
  {
    if actions != [] {
      var tailReplies := if actions[0].Create? then Tail(replies) else replies;
      var tail := Resolve(actions[1..], tailReplies);
      OnlyLeftSlotsAreUnset(actions[1..], tailReplies);
      ResolveStep(actions, replies);
      forall i | 1 <= i < |actions|
        ensures Resolve(actions, replies).slots[i].Some? <==> !actions[i].Leave?
      {
        assert Resolve(actions, replies).slots[i] == tail.slots[i - 1];
        assert actions[i] == actions[1..][i - 1];
      }
    }
  }

  /** Two reply sequences that agree on which calls answer 201, and on the ids of those, produce the same run. */
  ghost predicate SameVerdicts(a: seq<Reply>, b: seq<Reply>) {
    && (forall i: nat :: Created(ReplyAt(a, i)) <==> Created(ReplyAt(b, i)))
    && (forall i: nat :: Created(ReplyAt(a, i)) ==> ReplyAt(a, i).id == ReplyAt(b, i).id)
  }

  lemma {:induction false} FailuresAreIndistinguishable(actions: seq<SlotAction>, a: seq<Reply>, b: seq<Reply>)
    requires SameVerdicts(a, b)
    ensures ResultOf(Resolve(actions, a)) == ResultOf(Resolve(actions, b))
    ensures Resolve(actions, a).ok == Resolve(actions, b).ok
    ensures Resolve(actions, a).ok ==> Resolve(actions, a).slots == Resolve(actions, b).slots
    ensures Resolve(actions, a).requests == Resolve(actions, b).requests
    ensures Resolve(actions, a).notices == Resolve(actions, b).notices
    decreases |actions|
  {
    if actions != [] {
      if actions[0].Create? {
        assert ReplyAt(a, 0) == Head(a) && ReplyAt(b, 0) == Head(b);
        if Created(Head(a)) {
          assert Created(Head(b)) && Head(a).id == Head(b).id;
          forall i: nat ensures ReplyAt(Tail(a), i) == ReplyAt(a, i + 1) && ReplyAt(Tail(b), i) == ReplyAt(b, i + 1) {
          }
          assert SameVerdicts(Tail(a), Tail(b));
          FailuresAreIndistinguishable(actions[1..], Tail(a), Tail(b));
        }
      } else {
        FailuresAreIndistinguishable(actions[1..], a, b);
      }
    }
  }

  // ---- the three-slot run ----

  /** At most three calls, in slot order; one success notice per call that answered 201. */
  lemma AtMostThreeCalls(p: CreateDataParams, replies: seq<Reply>)
    ensures |Resolve(Plan(p), replies).requests| <= 3
    ensures Resolve(Plan(p), replies).requests <= CreatesOf(Plan(p))
  {
    RequestsArePlannedPrefix(Plan(p), replies);
  }

  /** A 401 on the first call stops the run there: no later slot is processed and nothing is kept. */
  lemma UnauthorizedShortCircuits(p: CreateDataParams, id: int, later: seq<Reply>)
    requires CoordinatesAction(p.coordinates).Create?
    ensures var r := Resolve(Plan(p), [Reply(401, id)] + later);
      && ResultOf(r) == DataResult(false, NoIds)
      && r.requests == [CoordinatesAction(p.coordinates).request]
      && r.notices == []
  {
    ResolveStep(Plan(p), [Reply(401, id)] + later);
  }

  /** An existing-mode slot with id 0 is left unset, and the run still succeeds. */
  lemma ZeroIdLeavesSlotUnset(p: CreateDataParams)
    requires p.coordinates.mode == Existing && p.coordinates.selected == Selected(0)
    requires p.address.mode == Existing && Truthy(p.address.selected)
    requires p.postalAddress.mode == Existing && Truthy(p.postalAddress.selected)
    ensures ResultOf(Resolve(Plan(p), [])) == DataResult(true, Ids(None, Some(p.address.selected.id), Some(p.postalAddress.selected.id)))
    ensures Resolve(Plan(p), []).requests == []
  {
    var acts := Plan(p);
    ResolveStep(acts, []);
    assert acts[1..][1..] == acts[2..];
    ResolveStep(acts[1..], []);
    assert acts[2..][1..] == [];
    ResolveStep(acts[2..], []);
  }

  /** A manual slot with an empty field makes no call and is left unset; the run still succeeds. */
  lemma EmptyManualFieldIsSkipped(p: CreateDataParams)
    requires p.coordinates.mode == Manual && p.coordinates.x == ""
    requires p.address.mode == Manual && p.address.zip == ""
    requires p.postalAddress.mode == Manual && p.postalAddress.street == ""
    ensures ResultOf(Resolve(Plan(p), [])) == DataResult(true, NoIds)
    ensures Resolve(Plan(p), []).requests == []
  {
    var acts := Plan(p);
    ResolveStep(acts, []);
    assert acts[1..][1..] == acts[2..];
    ResolveStep(acts[1..], []);
    assert acts[2..][1..] == [];
    ResolveStep(acts[2..], []);
  }

  /**
   * Manual coordinates, an existing address 3 and a manual postal address: two calls,
   * coordinates first, and the result carries the two new ids around the reused one.
   */
  lemma MixedModesScenario(x: string, y: string, street: string, zip: string, coordinatesId: int, postalId: int)
    requires x != "" && y != "" && street != "" && zip != ""
    ensures var p := CreateDataParams(
        CoordinatesSlot(Manual, x, y, Unselected),
        AddressSlot(Existing, "", "", Selected(3)),
        AddressSlot(Manual, street, zip, Unselected));
      var r := Resolve(Plan(p), [Reply(201, coordinatesId), Reply(201, postalId)]);
      && r.requests == [CreateCoordinates(ParseInt(x), ParseInt(y)), CreateAddress(street, zip)]
      && ResultOf(r) == DataResult(true, Ids(Some(coordinatesId), Some(3), Some(postalId)))
      && |r.notices| == 2
  {
    var p := CreateDataParams(
      CoordinatesSlot(Manual, x, y, Unselected),
      AddressSlot(Existing, "", "", Selected(3)),
      AddressSlot(Manual, street, zip, Unselected));
    var a0 := CoordinatesAction(p.coordinates);
    var a2 := AddressAction(p.postalAddress);
    assert Plan(p) == [a0, Reuse(3), a2];
    CreateReuseCreate(a0.request, a0.notice, 3, a2.request, a2.notice, coordinatesId, postalId);
  }

  lemma CreateReuseCreate(q1: Request, n1: Notice, id: int, q2: Request, n2: Notice, i1: int, i2: int)
    ensures Resolve([Create(q1, n1), Reuse(id), Create(q2, n2)], [Reply(201, i1), Reply(201, i2)])
         == Resolution(true, [Some(i1), Some(id), Some(i2)], [q1, q2], [n1, n2], [])
  {
    var acts := [Create(q1, n1), Reuse(id), Create(q2, n2)];
    var replies := [Reply(201, i1), Reply(201, i2)];
    assert acts[1..] == [Reuse(id), Create(q2, n2)] && acts[1..][1..] == [Create(q2, n2)] && [Create(q2, n2)][1..] == [];
    assert Tail(replies) == [Reply(201, i2)] && Tail([Reply(201, i2)]) == [];
    ResolveStep([Create(q2, n2)], [Reply(201, i2)]);
    ResolveStep(acts[1..], [Reply(201, i2)]);
    ResolveStep(acts, replies);
  }
}
