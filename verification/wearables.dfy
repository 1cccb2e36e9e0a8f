/**
 * The grab and notification logic of `WearableManager`. Wearables are
 * named by their index in the `_wearables` list; what a wearable reports
 * (whether it can be grabbed, its distance to the pinch, whether it accepts
 * a grab) is given as input. Notifications broadcast to every registered
 * wearable are recorded as events, in the order they are sent.
 */
module Wearables {
  import opened Wrappers

  datatype Hand = Left | Right

  /** A wearable, by its position in `_wearables`. */
  type WearableId = nat

  /** What a wearable reports to `EvaluatePossiblePinch`: `CanBeGrabbed()` and its distance to the pinch. */
  datatype Candidate = Candidate(grabbable: bool, distance: real)

  /** The initial `closestDistance`: a wearable at this distance or further is never chosen. */
  const FarAway: real := 1000000.0

  /** The notifications the manager sends. */
  datatype Notice =
    | HandTracked(on: bool, hand: Hand)
    | PalmFacingCamera(on: bool, hand: Hand)
    | PinchChanged(on: bool, hand: Hand)

  /** What the manager does to wearables, in order. */
  datatype Event =
    | Broadcast(notice: Notice)                  // sent to every registered wearable, in list order
    | GrabOffered(target: WearableId, hand: Hand) // `BeGrabbedBy` on the chosen wearable
    | Released(target: WearableId, hand: Hand)    // `ReleaseFromGrab` on the wearable the hand holds

  // ------------------------------------------------------------ registration

  /**
   * `Start`'s registration: the wearables already listed, then every
   * wearable UI in order, then every anchor in order.
   */
  method Register<W>(existing: seq<W>, uis: seq<W>, anchors: seq<W>) returns (ws: seq<W>)
    ensures |ws| == |existing| + |uis| + |anchors|
    ensures ws[..|existing|] == existing
    ensures forall i :: 0 <= i < |uis| ==> ws[|existing| + i] == uis[i]
    ensures forall i :: 0 <= i < |anchors| ==> ws[|existing| + |uis| + i] == anchors[i]
  {
    ws := existing;
    for i := 0 to |uis|
      invariant ws == existing + uis[..i]
    {
      ws := ws + [uis[i]];
    }
    assert uis[..|uis|] == uis;
    for i := 0 to |anchors|
      invariant ws == existing + uis + anchors[..i]
    {
      ws := ws + [anchors[i]];
    }
    assert anchors[..|anchors|] == anchors;
  }

  // ------------------------------------------------------------ choosing

  /** A wearable the pinch may grab: grabbable, strictly within the grab distance and below `FarAway`. */
  predicate Qualifies(c: Candidate, grabDistance: real)
  {
    c.grabbable && c.distance < grabDistance && c.distance < FarAway
  }

  /**
   * The choice `EvaluatePossiblePinch`'s loop holds after looking at the
   * first `n` wearables: a later wearable replaces the current choice only
   * when it is strictly closer.
   */
  function Closest(cs: seq<Candidate>, grabDistance: real, n: nat): Option<WearableId>
    requires n <= |cs|
  {
    if n == 0 then None
    else
      var best := Closest(cs, grabDistance, n - 1);
      var c := cs[n - 1];
      if Qualifies(c, grabDistance) && (best.None? || (best.value < |cs| && c.distance < cs[best.value].distance))
      then Some(n - 1)
      else best
  }

  /** The nearest qualifying wearable among the first `n`, earliest first on ties; None when none qualifies. */
  predicate IsNearest(cs: seq<Candidate>, grabDistance: real, n: nat, r: Option<WearableId>)
    requires n <= |cs|
  {
    && (r.None? <==> forall i :: 0 <= i < n ==> !Qualifies(cs[i], grabDistance))
    && (r.Some? ==>
          && r.value < n
          && Qualifies(cs[r.value], grabDistance)
          && (forall i :: 0 <= i < n && Qualifies(cs[i], grabDistance) ==> cs[r.value].distance <= cs[i].distance)
          && (forall i :: 0 <= i < r.value && Qualifies(cs[i], grabDistance) ==> cs[r.value].distance < cs[i].distance))
  }

  /** The loop's choice is the nearest qualifying wearable, ties going to the earliest. */
  lemma {:induction false} ClosestIsNearest(cs: seq<Candidate>, grabDistance: real, n: nat)
    requires n <= |cs|
    ensures IsNearest(cs, grabDistance, n, Closest(cs, grabDistance, n))
  {
    if n > 0 {
      ClosestIsNearest(cs, grabDistance, n - 1);
    }
  }

  /** There is at most one nearest choice, so the loop's choice is the only correct answer. */
  lemma NearestUnique(cs: seq<Candidate>, grabDistance: real, n: nat, r: Option<WearableId>, r': Option<WearableId>)
    requires n <= |cs|
    requires IsNearest(cs, grabDistance, n, r) && IsNearest(cs, grabDistance, n, r')
    ensures r == r'
  {
    if r.Some? && r'.Some? {
      assert !(r.value < r'.value);
      assert !(r'.value < r.value);
    }
  }

  /**
   * `EvaluatePossiblePinch`: the closest grabbable wearable strictly within
   * `grabDistance` of the pinch, or None. A later wearable at the same
   * distance does not replace an earlier one.
   */
  method EvaluatePossiblePinch(cs: seq<Candidate>, grabDistance: real) returns (r: Option<WearableId>)
    ensures IsNearest(cs, grabDistance, |cs|, r)
  {
    r := None;
    var closestDistance := FarAway;
    for i := 0 to |cs|
      invariant r == Closest(cs, grabDistance, i)
      invariant r.None? ==> closestDistance == FarAway
      invariant r.Some? ==> r.value < i && closestDistance == cs[r.value].distance
      invariant r.Some? ==> Qualifies(cs[r.value], grabDistance)
    {
      if cs[i].grabbable {
        var distance := cs[i].distance;
        if distance < grabDistance && distance < closestDistance {
          closestDistance := distance;
          r := Some(i);
        }
      }
    }
    ClosestIsNearest(cs, grabDistance, |cs|);
  }

  // ------------------------------------------------------------ grabbing

  /** `_leftGrabbedWearable` and `_rightGrabbedWearable`. */
  datatype Slots = Slots(left: Option<WearableId>, right: Option<WearableId>)

  function Held(s: Slots, hand: Hand): Option<WearableId>
  {
    if hand == Left then s.left else s.right
  }

  function Other(hand: Hand): (o: Hand)
    ensures o != hand
  {
    if hand == Left then Right else Left
  }

  /** No wearable is held by both hands. */
  predicate Exclusive(s: Slots)
  {
    s.left.None? || s.left != s.right
  }

  /**
   * `TryGrab`: nothing happens without a target or when the target refuses
   * (`accepted` is what its `BeGrabbedBy` returns). Otherwise the grabbing
   * hand's slot takes the target and the other hand's slot lets go of it
   * if it held that same wearable.
   */
  function TryGrab(s: Slots, target: Option<WearableId>, hand: Hand, accepted: bool): (t: Slots)
    ensures target.None? || !accepted ==> t == s
    ensures target.Some? && accepted ==>
      && Held(t, hand) == target
      && Held(t, Other(hand)) == (if Held(s, Other(hand)) == target then None else Held(s, Other(hand)))
  {
    if target.None? || !accepted then s
    else if hand == Left then
      Slots(target, if s.right == target then None else s.right)
    else
      Slots(if s.left == target then None else s.left, target)
  }

  /** Grabbing keeps the hands exclusive; a successful grab makes them exclusive whatever they were before. */
  lemma GrabExclusive(s: Slots, target: Option<WearableId>, hand: Hand, accepted: bool)
    requires Exclusive(s) || (target.Some? && accepted)
    ensures Exclusive(TryGrab(s, target, hand, accepted))
  {
  }

  /** The state the pinch handlers read and write. */
  datatype Wearing = Wearing(count: nat, grabDistance: real, slots: Slots)

  /**
   * `OnLeftPinchDetected` / `OnRightPinchDetected`: tell every wearable the
   * pinch began, pick the nearest candidate and offer it the grab.
   * `accepts` is what each wearable's `BeGrabbedBy` would return.
   */
  method OnPinchDetected(w: Wearing, hand: Hand, cs: seq<Candidate>, accepts: WearableId -> bool)
    returns (w': Wearing, events: seq<Event>)
    requires |cs| == w.count
    ensures w'.count == w.count && w'.grabDistance == w.grabDistance
    ensures var target := Closest(cs, w.grabDistance, |cs|);
      && IsNearest(cs, w.grabDistance, |cs|, target)
      && events == [Broadcast(PinchChanged(true, hand))] + (if target.Some? then [GrabOffered(target.value, hand)] else [])
      && w'.slots == TryGrab(w.slots, target, hand, target.Some? && accepts(target.value))
  {
    events := [Broadcast(PinchChanged(true, hand))];
    var target := EvaluatePossiblePinch(cs, w.grabDistance);
    ClosestIsNearest(cs, w.grabDistance, |cs|);
    NearestUnique(cs, w.grabDistance, |cs|, target, Closest(cs, w.grabDistance, |cs|));
    var accepted := false;
    if target.Some? {
      events := events + [GrabOffered(target.value, hand)];
      accepted := accepts(target.value);
    }
    w' := w.(slots := TryGrab(w.slots, target, hand, accepted));
  }

  /**
   * `OnLeftPinchEnded` / `OnRightPinchEnded`: tell every wearable the pinch
   * ended and release what the hand holds. The slot is not cleared.
   */
  function OnPinchEnded(w: Wearing, hand: Hand): (r: (Wearing, seq<Event>))
    ensures r.0 == w
    ensures Held(w.slots, hand).None? ==> r.1 == [Broadcast(PinchChanged(false, hand))]
    ensures Held(w.slots, hand).Some? ==>
      r.1 == [Broadcast(PinchChanged(false, hand)), Released(Held(w.slots, hand).value, hand)]
  {
    var held := Held(w.slots, hand);
    (w, [Broadcast(PinchChanged(false, hand))] + (if held.Some? then [Released(held.value, hand)] else []))
  }

  // ------------------------------------------------------------ edge flags

  /** The four observed states `Update` compares against its flags, in the order it checks them. */
  datatype Flags = Flags(leftTracked: bool, rightTracked: bool, leftPalm: bool, rightPalm: bool)

  /** One flag of `Update`: a notice fires only on a change, and the flag then follows the observation. */
  function Edge(flag: bool, observed: bool, notice: bool -> Notice): (r: (bool, seq<Event>))
    ensures r.0 == observed
    ensures |r.1| == (if flag == observed then 0 else 1)
    ensures flag != observed ==> r.1 == [Broadcast(notice(observed))]
  {
    if observed && !flag then (true, [Broadcast(notice(true))])
    else if !observed && flag then (false, [Broadcast(notice(false))])
    else (flag, [])
  }

  /** `Update`: the four edge checks, left then right hand tracking, then left then right palm. */
  function UpdateFlags(f: Flags, o: Flags): (r: (Flags, seq<Event>))
    ensures r.0 == o
  {
    var (lt, e1) := Edge(f.leftTracked, o.leftTracked, on => HandTracked(on, Left));
    var (rt, e2) := Edge(f.rightTracked, o.rightTracked, on => HandTracked(on, Right));
    var (lp, e3) := Edge(f.leftPalm, o.leftPalm, on => PalmFacingCamera(on, Left));
    var (rp, e4) := Edge(f.rightPalm, o.rightPalm, on => PalmFacingCamera(on, Right));
    (Flags(lt, rt, lp, rp), e1 + e2 + e3 + e4)
  }

  /** How many of the four flags differ from the observation. */
  function Changes(f: Flags, o: Flags): nat
  {
    (if f.leftTracked != o.leftTracked then 1 else 0) + (if f.rightTracked != o.rightTracked then 1 else 0)
    + (if f.leftPalm != o.leftPalm then 1 else 0) + (if f.rightPalm != o.rightPalm then 1 else 0)
  }

  /** The notice a flag sends when it differs from the observation, and nothing when it does not. */
  function IfChanged(flag: bool, observed: bool, n: Notice): seq<Event>
  {
    if flag != observed then [Broadcast(n)] else []
  }

  /**
   * One notice per changed flag and none otherwise, each saying the new
   * state, in the order left tracking, right tracking, left palm, right palm:
   * `Update` is edge-triggered.
   */
  lemma UpdateNoticesChanges(f: Flags, o: Flags)
    ensures UpdateFlags(f, o).1
         == IfChanged(f.leftTracked, o.leftTracked, HandTracked(o.leftTracked, Left))
          + IfChanged(f.rightTracked, o.rightTracked, HandTracked(o.rightTracked, Right))
          + IfChanged(f.leftPalm, o.leftPalm, PalmFacingCamera(o.leftPalm, Left))
          + IfChanged(f.rightPalm, o.rightPalm, PalmFacingCamera(o.rightPalm, Right))
    ensures |UpdateFlags(f, o).1| == Changes(f, o)
    ensures UpdateFlags(f, o).1 == [] <==> f == o
  {
  }

  /** A second `Update` with the same observations sends nothing. */
  lemma UpdateIdempotent(f: Flags, o: Flags)
    ensures var (g, _) := UpdateFlags(f, o);
      UpdateFlags(g, o) == (o, [])
  {
    UpdateNoticesChanges(o, o);
  }

  /** The left-hand tracking notice comes first, and it says the hand's new state. */
  lemma LeftTrackingFirst(f: Flags, o: Flags)
    requires f.leftTracked != o.leftTracked
    ensures UpdateFlags(f, o).1[0] == Broadcast(HandTracked(o.leftTracked, Left))
  {
  }
}
