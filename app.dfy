/**
 * The trigger router of the application component (src/App.tsx): the
 * per-frame handler that turns each hand's five finger flags into note-on,
 * particle, history and note-off requests, the sweep that silences the
 * fingers of a hand that left the frame, the two resets, and the lookup of
 * the selected instrument.
 *
 * The calls the handler makes into other hooks (`playNote`, `addParticle`,
 * `addNote`, `stopNote`, `stopAll`) are returned as a sequence of events, in
 * the order they are made. Every event carries the finger key it is about.
 * The canvas ref is an `Option`, the `INSTRUMENTS` list a parameter, and the
 * distance function of the thumb test the `norm` parameter.
 */
module App {
  import opened Wrappers
  import opened Types
  import opened HandDetection

  datatype Canvas = Canvas(width: real, height: real)

  datatype Event =
    | NoteOn(key: string, notes: seq<int>)
    | AddParticle(key: string, position: Position, color: string, note: string)
    | HistoryEntry(key: string, note: string, side: Side, finger: Finger, color: string)
    | NoteOff(key: string)
    | AllNotesOff

  predicate About(e: Event, key: string) {
    !e.AllNotesOff? && e.key == key
  }

  /** The events about one key, in order. */
  function EventsFor(events: seq<Event>, key: string): (r: seq<Event>)
    ensures |r| <= |events|
    ensures forall j :: 0 <= j < |r| ==> About(r[j], key)
  {
    if events == [] then []
    else (if About(events[0], key) then [events[0]] else []) + EventsFor(events[1..], key)
  }

  lemma {:induction false} EventsForAppend(a: seq<Event>, b: seq<Event>, key: string)
    ensures EventsFor(a + b, key) == EventsFor(a, key) + EventsFor(b, key)
  {
    if a == [] {
      assert a + b == b;
    } else {
      assert (a + b)[1..] == a[1..] + b;
      EventsForAppend(a[1..], b, key);
    }
  }

  lemma EventsForSingle(e: Event, key: string)
    ensures EventsFor([e], key) == if About(e, key) then [e] else []
  {
    assert [e][1..] == [];
  }

  // ---------------------------------------------------------------------
  // The state the handler works on
  // ---------------------------------------------------------------------

  /** `prevStatesRef.current.get(key) || false`. */
  function WasRaised(prev: map<string, bool>, key: string): bool {
    key in prev && prev[key]
  }

  /** The entry of `prev` for `key`, if any. */
  function PrevOf(prev: map<string, bool>, key: string): Option<bool> {
    if key in prev then Some(prev[key]) else None
  }

  predicate DistinctKeys(keys: seq<string>) {
    forall a, b :: 0 <= a < b < |keys| ==> keys[a] != keys[b]
  }

  /** `keyOrder` lists the keys of `prevStates` once each, in the order they
      were first set: the iteration order of a JavaScript `Map`. */
  ghost predicate OrderOk(prev: map<string, bool>, order: seq<string>) {
    DistinctKeys(order) && forall k :: k in prev <==> k in order
  }

  /** What the handler has built so far: the previous-state map and its
      key order, the set of fingers seen raised, and the events. */
  datatype Acc = Acc(prev: map<string, bool>, order: seq<string>, active: set<string>, events: seq<Event>)

  /** Every tracked hand carries the 21 landmarks of the hand model. */
  predicate AllTracked(hands: seq<Hand>) {
    forall j :: 0 <= j < |hands| ==> |hands[j].landmarks| >= LandmarkCount
  }

  /** The requests for finger `i` of a hand: on a rise, a note-on with the
      finger's notes, one particle at the fingertip and a history entry;
      on a fall, a note-off; otherwise nothing. */
  function Triggered(hand: Hand, side: Side, i: nat, isRaised: bool, wasRaised: bool, preset: InstrumentPreset,
                     canvas: Canvas): seq<Event>
    requires i < 5 && |hand.landmarks| >= LandmarkCount
  {
    var finger := Fingers[i];
    var key := FingerKey(side, finger);
    var noteConfig := NoteFor(preset, side, finger);
    if isRaised && !wasRaised then
      [NoteOn(key, noteConfig.notes),
       AddParticle(key, FingertipPosition(hand, i, canvas.width, canvas.height), noteConfig.color, noteConfig.name),
       HistoryEntry(key, noteConfig.name, side, finger, noteConfig.color)]
    else if !isRaised && wasRaised then [NoteOff(key)]
    else []
  }

  /** The body of the inner `FINGER_NAMES.forEach` for finger `i`. */
  function FingerStep(acc: Acc, hand: Hand, i: nat, isRaised: bool, preset: InstrumentPreset, canvas: Canvas): Acc
    requires i < 5 && |hand.landmarks| >= LandmarkCount
  {
    var side := HandSide(hand);
    var key := FingerKey(side, Fingers[i]);
    Acc(acc.prev[key := isRaised],
        if key in acc.prev then acc.order else acc.order + [key],
        if isRaised then acc.active + {key} else acc.active,
        acc.events + Triggered(hand, side, i, isRaised, WasRaised(acc.prev, key), preset, canvas))
  }

  /** The first `n` fingers of one hand. */
  function HandSteps(acc: Acc, hand: Hand, raised: seq<bool>, n: nat, preset: InstrumentPreset, canvas: Canvas): Acc
    requires n <= 5 && |raised| == 5 && |hand.landmarks| >= LandmarkCount
  {
    if n == 0 then acc
    else FingerStep(HandSteps(acc, hand, raised, n - 1, preset, canvas), hand, n - 1, raised[n - 1], preset, canvas)
  }

  /** The flags of every hand, `detectRaisedFingers` applied hand by hand. */
  function Flags(hands: seq<Hand>, norm: Norm): (flags: seq<seq<bool>>)
    requires AllTracked(hands)
    ensures |flags| == |hands|
    ensures forall j :: 0 <= j < |hands| ==> flags[j] == RaisedFingers(hands[j], norm) && |flags[j]| == 5
  {
    seq(|hands|, j requires 0 <= j < |hands| => RaisedFingers(hands[j], norm))
  }

  /** The flags of one more hand. */
  lemma FlagsSnoc(hands: seq<Hand>, h: nat, norm: Norm)
    requires AllTracked(hands) && h < |hands|
    ensures Flags(hands[..h + 1], norm) == Flags(hands[..h], norm) + [RaisedFingers(hands[h], norm)]
  {
    assert forall j :: 0 <= j < h ==> hands[..h + 1][j] == hands[..h][j];
  }

  /** One flag sequence of five per hand. */
  predicate FlagsFit(hands: seq<Hand>, flags: seq<seq<bool>>) {
    |flags| == |hands| && forall j :: 0 <= j < |flags| ==> |flags[j]| == 5
  }

  /** The outer `detectedHands.forEach`, hand by hand, hand `j` with the
      flags `flags[j]`. */
  function HandsFold(acc: Acc, hands: seq<Hand>, flags: seq<seq<bool>>, preset: InstrumentPreset, canvas: Canvas): Acc
    requires AllTracked(hands) && FlagsFit(hands, flags)
  {
    if hands == [] then acc
    else
      var n := |hands| - 1;
      HandSteps(HandsFold(acc, hands[..n], flags[..n], preset, canvas), hands[n], flags[n], |flags[n]|, preset, canvas)
  }

  /** `detectedHands.some(h => getRealHandSide(h) === handSide)`. */
  predicate SideVisible(hands: seq<Hand>, sideName: string) {
    exists j :: 0 <= j < |hands| && SideName(HandSide(hands[j])) == sideName
  }

  /** Whether the sweep silences `key`: it was raised, it is not raised in
      this frame, and no hand of its side is in the frame. */
  predicate Fires(acc: Acc, key: string, hands: seq<Hand>) {
    WasRaised(acc.prev, key) && key !in acc.active && !SideVisible(hands, KeySide(key))
  }

  /** The body of the `prevStatesRef.current.forEach` sweep for one key. */
  function SweepStep(acc: Acc, key: string, hands: seq<Hand>): Acc {
    if Fires(acc, key, hands) then acc.(prev := acc.prev[key := false], events := acc.events + [NoteOff(key)])
    else acc
  }

  /** The sweep over `keys`, in order. */
  function Sweep(acc: Acc, keys: seq<string>, hands: seq<Hand>): Acc {
    if keys == [] then acc else SweepStep(Sweep(acc, keys[..|keys| - 1], hands), keys[|keys| - 1], hands)
  }

  /** One frame of `handleHandsDetected` with a canvas: the hands, then the
      sweep over every key of the map as it stands after them. */
  function Frame(prev: map<string, bool>, order: seq<string>, hands: seq<Hand>, canvas: Canvas,
                 preset: InstrumentPreset, norm: Norm): Acc
    requires AllTracked(hands)
  {
    var fold := HandsFold(Acc(prev, order, {}, []), hands, Flags(hands, norm), preset, canvas);
    Sweep(fold, fold.order, hands)
  }

  // ---------------------------------------------------------------------
  // The application state
  // ---------------------------------------------------------------------

  /** `INSTRUMENTS.find(i => i.id === id)`. */
  function FindById(instruments: seq<InstrumentPreset>, id: string): (r: Option<InstrumentPreset>)
    ensures r.Some? <==> exists j :: 0 <= j < |instruments| && instruments[j].id == id
    ensures r.Some? ==> exists j :: 0 <= j < |instruments| && instruments[j] == r.value && r.value.id == id
                          && forall j' :: 0 <= j' < j ==> instruments[j'].id != id
  {
    if instruments == [] then None
    else if instruments[0].id == id then Some(instruments[0])
    else
      var r := FindById(instruments[1..], id);
      FindByIdShift(instruments, id, r);
      r
  }

  /** Moving the search one element on keeps both halves of its contract. */
  lemma FindByIdShift(instruments: seq<InstrumentPreset>, id: string, r: Option<InstrumentPreset>)
    requires instruments != [] && instruments[0].id != id
    requires r.Some? <==> exists j :: 0 <= j < |instruments[1..]| && instruments[1..][j].id == id
    requires r.Some? ==> exists j :: 0 <= j < |instruments[1..]| && instruments[1..][j] == r.value && r.value.id == id
                           && forall j' :: 0 <= j' < j ==> instruments[1..][j'].id != id
    ensures r.Some? <==> exists j :: 0 <= j < |instruments| && instruments[j].id == id
    ensures r.Some? ==> exists j :: 0 <= j < |instruments| && instruments[j] == r.value && r.value.id == id
                          && forall j' :: 0 <= j' < j ==> instruments[j'].id != id
  {
    if r.Some? {
      var j :| 0 <= j < |instruments[1..]| && instruments[1..][j] == r.value && r.value.id == id
               && forall j' :: 0 <= j' < j ==> instruments[1..][j'].id != id;
      assert instruments[j + 1] == r.value;
      assert forall j' :: 0 < j' < j + 1 ==> instruments[j'] == instruments[1..][j' - 1];
    }
    if exists j :: 0 <= j < |instruments| && instruments[j].id == id {
      var j :| 0 <= j < |instruments| && instruments[j].id == id;
      assert instruments[1..][j - 1].id == id;
    }
  }

  /** The current instrument: the first one with the selected id, or the
      first instrument when no id matches. */
  function FindInstrument(instruments: seq<InstrumentPreset>, id: string): (p: InstrumentPreset)
    requires |instruments| > 0
    ensures p in instruments
    ensures (exists j :: 0 <= j < |instruments| && instruments[j].id == id) ==> p.id == id
    ensures (forall j :: 0 <= j < |instruments| ==> instruments[j].id != id) ==> p == instruments[0]
  {
    match FindById(instruments, id)
    case Some(p) => p
    case None => instruments[0]
  }

  class Session {
    var isStarted: bool
    var selectedInstrumentId: string
    var activeFingers: set<string>
    var prevStates: map<string, bool>
    var keyOrder: seq<string>

    ghost predicate Valid()
      reads this
    {
      OrderOk(prevStates, keyOrder)
    }

    constructor(defaultInstrumentId: string)
      ensures Valid()
      ensures !isStarted && selectedInstrumentId == defaultInstrumentId
      ensures activeFingers == {} && prevStates == map[] && keyOrder == []
    {
      isStarted := false;
      selectedInstrumentId := defaultInstrumentId;
      activeFingers := {};
      prevStates := map[];
      keyOrder := [];
    }

    /** `handleHandsDetected`. Without a canvas the frame is ignored.
        Otherwise the hands are visited in order, and for each hand its five
        fingers in order: a raised finger is marked active and, if it was
        not raised before, triggers its notes, one particle and a
        history entry; a finger that falls triggers a note-off; the map
        records the new flag. Then every key still recorded as raised whose
        finger is not active and whose side has no hand in the frame gets a
        note-off and is recorded as lowered. The result is `Frame`, played
        with the notes of the selected instrument of `instruments` (the
        `INSTRUMENTS` list). */
    method HandleHandsDetected(hands: seq<Hand>, canvas: Option<Canvas>, instruments: seq<InstrumentPreset>,
                               norm: Norm)
      returns (events: seq<Event>)
      requires Valid() && AllTracked(hands) && |instruments| > 0
      modifies this
      ensures Valid()
      ensures canvas.None? ==>
                events == [] && prevStates == old(prevStates) && keyOrder == old(keyOrder)
                && activeFingers == old(activeFingers)
      ensures canvas.Some? ==>
                Acc(prevStates, keyOrder, activeFingers, events)
                == Frame(old(prevStates), old(keyOrder), hands, canvas.value,
                         FindInstrument(instruments, selectedInstrumentId), norm)
      ensures isStarted == old(isStarted) && selectedInstrumentId == old(selectedInstrumentId)
    {
      if canvas.None? {
        return [];
      }
      var preset := FindInstrument(instruments, selectedInstrumentId);
      var c := canvas.value;
      var newActiveFingers;
      newActiveFingers, events := TrackHands(hands, preset, c, norm);
      events := SilenceHiddenSides(hands, newActiveFingers, events);
      activeFingers := newActiveFingers;
      FrameOrderOk(old(prevStates), old(keyOrder), hands, c, preset, norm);
    }

    /** The outer `detectedHands.forEach`: every hand's flags, then its
        fingers. */
    method TrackHands(hands: seq<Hand>, preset: InstrumentPreset, c: Canvas, norm: Norm)
      returns (newActiveFingers: set<string>, events: seq<Event>)
      requires AllTracked(hands)
      modifies this
      ensures Acc(prevStates, keyOrder, newActiveFingers, events)
              == HandsFold(Acc(old(prevStates), old(keyOrder), {}, []), hands, Flags(hands, norm), preset, c)
      ensures isStarted == old(isStarted) && selectedInstrumentId == old(selectedInstrumentId)
    {
      newActiveFingers := {};
      events := [];
      ghost var init := Acc(prevStates, keyOrder, {}, []);
      ghost var flags: seq<seq<bool>> := [];
      for h := 0 to |hands|
        invariant flags == Flags(hands[..h], norm)
        invariant Acc(prevStates, keyOrder, newActiveFingers, events) == HandsFold(init, hands[..h], flags, preset, c)
        invariant isStarted == old(isStarted) && selectedInstrumentId == old(selectedInstrumentId)
      {
        var raisedFingers;
        raisedFingers, newActiveFingers, events := VisitHand(hands, h, flags, init, preset, c, norm,
                                                             newActiveFingers, events);
        flags := flags + [raisedFingers];
      }
      assert hands[..|hands|] == hands;
    }

    /** The body of the outer `forEach` for hand `h`: its flags, then its
        fingers. */
    method VisitHand(hands: seq<Hand>, h: nat, ghost flags: seq<seq<bool>>, ghost init: Acc,
                     preset: InstrumentPreset, c: Canvas, norm: Norm, active: set<string>, eventsIn: seq<Event>)
      returns (raisedFingers: seq<bool>, newActiveFingers: set<string>, events: seq<Event>)
      requires AllTracked(hands) && h < |hands| && flags == Flags(hands[..h], norm)
      requires Acc(prevStates, keyOrder, active, eventsIn) == HandsFold(init, hands[..h], flags, preset, c)
      modifies this
      ensures flags + [raisedFingers] == Flags(hands[..h + 1], norm)
      ensures Acc(prevStates, keyOrder, newActiveFingers, events)
              == HandsFold(init, hands[..h + 1], flags + [raisedFingers], preset, c)
      ensures isStarted == old(isStarted) && selectedInstrumentId == old(selectedInstrumentId)
    {
      raisedFingers := DetectRaisedFingers(hands[h], norm);
      FlagsSnoc(hands, h, norm);
      HandsFoldSnoc(init, hands, h, flags, raisedFingers, preset, c);
      newActiveFingers, events := TrackHand(hands[h], raisedFingers, preset, c, active, eventsIn);
    }

    /** The inner `FINGER_NAMES.forEach` for one hand with its flags. */
    method TrackHand(hand: Hand, raisedFingers: seq<bool>, preset: InstrumentPreset, c: Canvas,
                     active: set<string>, eventsIn: seq<Event>)
      returns (newActiveFingers: set<string>, events: seq<Event>)
      requires |hand.landmarks| >= LandmarkCount && |raisedFingers| == 5
      modifies this
      ensures Acc(prevStates, keyOrder, newActiveFingers, events)
              == HandSteps(Acc(old(prevStates), old(keyOrder), active, eventsIn), hand, raisedFingers,
                           |raisedFingers|, preset, c)
      ensures isStarted == old(isStarted) && selectedInstrumentId == old(selectedInstrumentId)
    {
      var handSide := HandSide(hand);
      ghost var before := Acc(prevStates, keyOrder, active, eventsIn);
      newActiveFingers, events := active, eventsIn;
      for index := 0 to 5
        invariant Acc(prevStates, keyOrder, newActiveFingers, events)
                  == HandSteps(before, hand, raisedFingers, index, preset, c)
        invariant isStarted == old(isStarted) && selectedInstrumentId == old(selectedInstrumentId)
      {
        newActiveFingers, events := VisitFinger(hand, handSide, index, raisedFingers[index], preset, c,
                                                newActiveFingers, events);
      }
    }

    /** The body of the inner `forEach` for finger `index` of a hand of side
        `handSide`. */
    method VisitFinger(hand: Hand, handSide: Side, index: nat, isRaised: bool, preset: InstrumentPreset, c: Canvas,
                       active: set<string>, eventsIn: seq<Event>)
      returns (newActiveFingers: set<string>, events: seq<Event>)
      requires index < 5 && |hand.landmarks| >= LandmarkCount && handSide == HandSide(hand)
      modifies this
      ensures Acc(prevStates, keyOrder, newActiveFingers, events)
              == FingerStep(Acc(old(prevStates), old(keyOrder), active, eventsIn), hand, index, isRaised, preset, c)
      ensures isStarted == old(isStarted) && selectedInstrumentId == old(selectedInstrumentId)
    {
      newActiveFingers, events := active, eventsIn;
      var fingerName := Fingers[index];
      var key := FingerKey(handSide, fingerName);
      var wasRaised := key in prevStates && prevStates[key];
      var noteConfig := NoteFor(preset, handSide, fingerName);
      if isRaised {
        newActiveFingers := newActiveFingers + {key};
        if !wasRaised {
          var pos := FingertipPosition(hand, index, c.width, c.height);
          events := events + [NoteOn(key, noteConfig.notes),
                              AddParticle(key, pos, noteConfig.color, noteConfig.name),
                              HistoryEntry(key, noteConfig.name, handSide, fingerName, noteConfig.color)];
        }
      } else if wasRaised {
        events := events + [NoteOff(key)];
      }
      if key !in prevStates {
        keyOrder := keyOrder + [key];
      }
      prevStates := prevStates[key := isRaised];
    }

    /** The `prevStatesRef.current.forEach` sweep: a key still recorded as
        raised, not active in this frame, whose side has no hand in the
        frame, gets a note-off and is recorded as lowered. */
    method SilenceHiddenSides(hands: seq<Hand>, active: set<string>, eventsIn: seq<Event>) returns (events: seq<Event>)
      modifies this
      ensures Acc(prevStates, keyOrder, active, events)
              == Sweep(Acc(old(prevStates), old(keyOrder), active, eventsIn), old(keyOrder), hands)
      ensures isStarted == old(isStarted) && selectedInstrumentId == old(selectedInstrumentId)
    {
      ghost var folded := Acc(prevStates, keyOrder, active, eventsIn);
      events := eventsIn;
      var keys := keyOrder;
      for j := 0 to |keys|
        invariant Acc(prevStates, keyOrder, active, events) == Sweep(folded, keys[..j], hands)
        invariant isStarted == old(isStarted) && selectedInstrumentId == old(selectedInstrumentId)
      {
        events := SilenceKey(hands, active, keys[j], events);
        assert keys[..j + 1][..j] == keys[..j];
      }
      assert keys[..|keys|] == keys;
    }

    /** The body of the sweep for one key. */
    method SilenceKey(hands: seq<Hand>, active: set<string>, key: string, eventsIn: seq<Event>)
      returns (events: seq<Event>)
      modifies this
      ensures Acc(prevStates, keyOrder, active, events)
              == SweepStep(Acc(old(prevStates), old(keyOrder), active, eventsIn), key, hands)
      ensures isStarted == old(isStarted) && selectedInstrumentId == old(selectedInstrumentId)
    {
      events := eventsIn;
      var wasRaised := key in prevStates && prevStates[key];
      if wasRaised && key !in active {
        var handSide := KeySide(key);
        var handStillVisible := exists i :: 0 <= i < |hands| && SideName(HandSide(hands[i])) == handSide;
        if !handStillVisible {
          events := events + [NoteOff(key)];
          prevStates := prevStates[key := false];
        }
      }
    }

    /** `handleStart`: leave the landing page. */
    method Start()
      modifies this
      ensures isStarted
      ensures selectedInstrumentId == old(selectedInstrumentId) && activeFingers == old(activeFingers)
      ensures prevStates == old(prevStates) && keyOrder == old(keyOrder)
    {
      isStarted := true;
    }

    /** `handleInstrumentChange`: select the instrument, stop every voice,
        forget every finger. */
    method InstrumentChange(id: string) returns (events: seq<Event>)
      requires Valid()
      modifies this
      ensures Valid()
      ensures events == [AllNotesOff]
      ensures selectedInstrumentId == id && prevStates == map[] && keyOrder == [] && activeFingers == {}
      ensures isStarted == old(isStarted)
    {
      selectedInstrumentId := id;
      events := [AllNotesOff];
      prevStates, keyOrder := map[], [];
      activeFingers := {};
    }

    /** `handleGoHome`: stop every voice, forget every finger, and return
        to the landing page. */
    method GoHome() returns (events: seq<Event>)
      requires Valid()
      modifies this
      ensures Valid()
      ensures events == [AllNotesOff]
      ensures prevStates == map[] && keyOrder == [] && activeFingers == {} && !isStarted
      ensures selectedInstrumentId == old(selectedInstrumentId)
    {
      events := [AllNotesOff];
      prevStates, keyOrder := map[], [];
      activeFingers := {};
      isStarted := false;
    }
  }

  // ---------------------------------------------------------------------
  // One finger
  // ---------------------------------------------------------------------

  /** Different fingers, or different sides, have different keys, and a key
      starts with its side's name. */
  lemma KeysDiffer(s1: Side, i: nat, s2: Side, j: nat)
    requires i < 5 && j < 5
    ensures FingerKey(s1, Fingers[i]) == FingerKey(s2, Fingers[j]) <==> s1 == s2 && i == j
  {
    FingerKeyInjective(s1, Fingers[i], s2, Fingers[j]);
    if Fingers[i] == Fingers[j] {
      FingersDistinct(i, j);
    }
  }

  /** The five finger names are distinct. */
  lemma FingersDistinct(i: nat, j: nat)
    requires i < 5 && j < 5 && Fingers[i] == Fingers[j]
    ensures i == j
  {
  }

  /** Every request for finger `i` is about that finger's key. */
  lemma TriggeredAbout(hand: Hand, side: Side, i: nat, isRaised: bool, wasRaised: bool, preset: InstrumentPreset,
                       canvas: Canvas, k: string)
    requires i < 5 && |hand.landmarks| >= LandmarkCount
    ensures EventsFor(Triggered(hand, side, i, isRaised, wasRaised, preset, canvas), k)
         == if k == FingerKey(side, Fingers[i]) then Triggered(hand, side, i, isRaised, wasRaised, preset, canvas)
            else []
  {
    var t := Triggered(hand, side, i, isRaised, wasRaised, preset, canvas);
    if |t| == 3 {
      assert t == [t[0]] + [t[1]] + [t[2]];
      EventsForAppend([t[0]] + [t[1]], [t[2]], k);
      EventsForAppend([t[0]], [t[1]], k);
      EventsForSingle(t[0], k);
      EventsForSingle(t[1], k);
      EventsForSingle(t[2], k);
    } else if |t| == 1 {
      EventsForSingle(t[0], k);
    }
  }

  /** One finger step sets that finger's entry, marks it active when
      raised, adds its requests, and changes nothing about any other key. */
  lemma FingerStepEffect(acc: Acc, hand: Hand, i: nat, isRaised: bool, preset: InstrumentPreset, canvas: Canvas,
                         k: string)
    requires i < 5 && |hand.landmarks| >= LandmarkCount
    ensures var r := FingerStep(acc, hand, i, isRaised, preset, canvas);
            var key := FingerKey(HandSide(hand), Fingers[i]);
            PrevOf(r.prev, k) == (if k == key then Some(isRaised) else PrevOf(acc.prev, k))
            && (k in r.active <==> k in acc.active || (k == key && isRaised))
            && EventsFor(r.events, k)
               == EventsFor(acc.events, k)
                  + (if k == key then Triggered(hand, HandSide(hand), i, isRaised, WasRaised(acc.prev, key), preset, canvas)
                     else [])
  {
    var key := FingerKey(HandSide(hand), Fingers[i]);
    var t := Triggered(hand, HandSide(hand), i, isRaised, WasRaised(acc.prev, key), preset, canvas);
    EventsForAppend(acc.events, t, k);
    TriggeredAbout(hand, HandSide(hand), i, isRaised, WasRaised(acc.prev, key), preset, canvas, k);
  }

  /** A finger step keeps the key order in step with the map. */
  lemma FingerStepOrderOk(acc: Acc, hand: Hand, i: nat, isRaised: bool, preset: InstrumentPreset, canvas: Canvas)
    requires i < 5 && |hand.landmarks| >= LandmarkCount
    requires OrderOk(acc.prev, acc.order)
    ensures OrderOk(FingerStep(acc, hand, i, isRaised, preset, canvas).prev,
                    FingerStep(acc, hand, i, isRaised, preset, canvas).order)
  {
  }

  // ---------------------------------------------------------------------
  // One hand
  // ---------------------------------------------------------------------

  /** The first `n` fingers of a hand leave alone the key of finger `f` of
      side `s` when the hand is of another side or `f` is not among them. */
  lemma {:induction false} HandStepsUntouched(acc: Acc, hand: Hand, raised: seq<bool>, n: nat,
                                              preset: InstrumentPreset, canvas: Canvas, s: Side, f: nat)
    requires n <= 5 && |raised| == 5 && |hand.landmarks| >= LandmarkCount && f < 5
    requires HandSide(hand) != s || n <= f
    ensures var r := HandSteps(acc, hand, raised, n, preset, canvas);
            var key := FingerKey(s, Fingers[f]);
            PrevOf(r.prev, key) == PrevOf(acc.prev, key) && (key in r.active <==> key in acc.active)
            && EventsFor(r.events, key) == EventsFor(acc.events, key)
  {
    if n > 0 {
      HandStepsUntouched(acc, hand, raised, n - 1, preset, canvas, s, f);
      KeysDiffer(s, f, HandSide(hand), n - 1);
      FingerStepEffect(HandSteps(acc, hand, raised, n - 1, preset, canvas), hand, n - 1, raised[n - 1], preset,
                       canvas, FingerKey(s, Fingers[f]));
    }
  }

  /** Finger `i` of a hand, once visited, has the hand's flag as its entry,
      is active exactly when it was already or is raised, and has gained
      exactly the requests of its own step. */
  lemma {:induction false} HandStepsSets(acc: Acc, hand: Hand, raised: seq<bool>, n: nat, i: nat,
                                         preset: InstrumentPreset, canvas: Canvas)
    requires i < n <= 5 && |raised| == 5 && |hand.landmarks| >= LandmarkCount
    ensures var r := HandSteps(acc, hand, raised, n, preset, canvas);
            var key := FingerKey(HandSide(hand), Fingers[i]);
            PrevOf(r.prev, key) == Some(raised[i])
            && (key in r.active <==> key in acc.active || raised[i])
            && EventsFor(r.events, key)
               == EventsFor(acc.events, key)
                  + Triggered(hand, HandSide(hand), i, raised[i], WasRaised(acc.prev, key), preset, canvas)
  {
    var key := FingerKey(HandSide(hand), Fingers[i]);
    var m := HandSteps(acc, hand, raised, n - 1, preset, canvas);
    if n - 1 == i {
      HandStepsUntouched(acc, hand, raised, i, preset, canvas, HandSide(hand), i);
      assert WasRaised(m.prev, key) == WasRaised(acc.prev, key);
      FingerStepEffect(m, hand, i, raised[i], preset, canvas, key);
    } else {
      HandStepsSets(acc, hand, raised, n - 1, i, preset, canvas);
      KeysDiffer(HandSide(hand), i, HandSide(hand), n - 1);
      FingerStepEffect(m, hand, n - 1, raised[n - 1], preset, canvas, key);
    }
  }

  lemma {:induction false} HandStepsOrderOk(acc: Acc, hand: Hand, raised: seq<bool>, n: nat,
                                            preset: InstrumentPreset, canvas: Canvas)
    requires n <= 5 && |raised| == 5 && |hand.landmarks| >= LandmarkCount
    requires OrderOk(acc.prev, acc.order)
    ensures OrderOk(HandSteps(acc, hand, raised, n, preset, canvas).prev,
                    HandSteps(acc, hand, raised, n, preset, canvas).order)
  {
    if n > 0 {
      HandStepsOrderOk(acc, hand, raised, n - 1, preset, canvas);
      FingerStepOrderOk(HandSteps(acc, hand, raised, n - 1, preset, canvas), hand, n - 1, raised[n - 1],
                        preset, canvas);
    }
  }

  // ---------------------------------------------------------------------
  // All hands
  // ---------------------------------------------------------------------

  lemma {:induction false} HandsFoldOrderOk(acc: Acc, hands: seq<Hand>, flags: seq<seq<bool>>,
                                            preset: InstrumentPreset, canvas: Canvas)
    requires AllTracked(hands) && FlagsFit(hands, flags) && OrderOk(acc.prev, acc.order)
    ensures OrderOk(HandsFold(acc, hands, flags, preset, canvas).prev, HandsFold(acc, hands, flags, preset, canvas).order)
  {
    if hands != [] {
      var n := |hands| - 1;
      HandsFoldOrderOk(acc, hands[..n], flags[..n], preset, canvas);
      HandStepsOrderOk(HandsFold(acc, hands[..n], flags[..n], preset, canvas), hands[n], flags[n], |flags[n]|,
                       preset, canvas);
    }
  }

  /** Folding one more hand is one more run of its finger steps. */
  lemma HandsFoldSnoc(acc: Acc, hands: seq<Hand>, h: nat, flags: seq<seq<bool>>, raised: seq<bool>,
                      preset: InstrumentPreset, canvas: Canvas)
    requires AllTracked(hands) && h < |hands| && |flags| == h && |raised| == 5
    requires forall j :: 0 <= j < h ==> |flags[j]| == 5
    ensures HandsFold(acc, hands[..h + 1], flags + [raised], preset, canvas)
         == HandSteps(HandsFold(acc, hands[..h], flags, preset, canvas), hands[h], raised, |raised|, preset, canvas)
  {
    assert hands[..h + 1][..h] == hands[..h];
    assert (flags + [raised])[..h] == flags;
  }

  /** Hands of other sides leave a key of side `s` alone. */
  lemma {:induction false} HandsFoldUntouched(acc: Acc, hands: seq<Hand>, flags: seq<seq<bool>>,
                                              preset: InstrumentPreset, canvas: Canvas, s: Side, f: nat)
    requires AllTracked(hands) && FlagsFit(hands, flags) && f < 5
    requires forall j :: 0 <= j < |hands| ==> HandSide(hands[j]) != s
    ensures var r := HandsFold(acc, hands, flags, preset, canvas);
            var key := FingerKey(s, Fingers[f]);
            PrevOf(r.prev, key) == PrevOf(acc.prev, key) && (key in r.active <==> key in acc.active)
            && EventsFor(r.events, key) == EventsFor(acc.events, key)
  {
    if hands != [] {
      var n := |hands| - 1;
      HandsFoldUntouched(acc, hands[..n], flags[..n], preset, canvas, s, f);
      HandStepsUntouched(HandsFold(acc, hands[..n], flags[..n], preset, canvas), hands[n], flags[n], |flags[n]|,
                         preset, canvas, s, f);
    }
  }

  /** The entry of a key of side `s` after all hands is the flag the last
      hand of side `s` raised for it. */
  lemma {:induction false} HandsFoldLastOfSide(acc: Acc, hands: seq<Hand>, flags: seq<seq<bool>>,
                                               preset: InstrumentPreset, canvas: Canvas, h: nat, f: nat)
    requires AllTracked(hands) && FlagsFit(hands, flags) && h < |hands| && f < 5
    requires forall j :: h < j < |hands| ==> HandSide(hands[j]) != HandSide(hands[h])
    ensures PrevOf(HandsFold(acc, hands, flags, preset, canvas).prev, FingerKey(HandSide(hands[h]), Fingers[f]))
         == Some(flags[h][f])
  {
    var n := |hands| - 1;
    if h == n {
      HandsFoldLastHand(acc, hands, flags, preset, canvas, f);
    } else {
      HandsFoldLastOfSide(acc, hands[..n], flags[..n], preset, canvas, h, f);
      HandStepsUntouched(HandsFold(acc, hands[..n], flags[..n], preset, canvas), hands[n], flags[n], |flags[n]|,
                         preset, canvas, HandSide(hands[h]), f);
    }
  }

  /** The last hand of the frame sets the entries of its five fingers. */
  lemma HandsFoldLastHand(acc: Acc, hands: seq<Hand>, flags: seq<seq<bool>>, preset: InstrumentPreset,
                          canvas: Canvas, f: nat)
    requires AllTracked(hands) && FlagsFit(hands, flags) && |hands| > 0 && f < 5
    ensures PrevOf(HandsFold(acc, hands, flags, preset, canvas).prev, FingerKey(HandSide(hands[|hands| - 1]), Fingers[f]))
         == Some(flags[|hands| - 1][f])
  {
    var n := |hands| - 1;
    HandStepsSets(HandsFold(acc, hands[..n], flags[..n], preset, canvas), hands[n], flags[n], |flags[n]|, f,
                  preset, canvas);
  }

  /** When hand `h` is the only hand of its side, each of its keys ends with
      the hand's flag, is active exactly when it was or is raised, and gains
      exactly the requests of its own step. */
  lemma {:induction false} HandsFoldOnlyOfSide(acc: Acc, hands: seq<Hand>, flags: seq<seq<bool>>,
                                               preset: InstrumentPreset, canvas: Canvas, h: nat, f: nat)
    requires AllTracked(hands) && FlagsFit(hands, flags) && h < |hands| && f < 5
    requires forall j :: 0 <= j < |hands| && j != h ==> HandSide(hands[j]) != HandSide(hands[h])
    ensures var r := HandsFold(acc, hands, flags, preset, canvas);
            var side := HandSide(hands[h]);
            var key := FingerKey(side, Fingers[f]);
            PrevOf(r.prev, key) == Some(flags[h][f])
            && (key in r.active <==> key in acc.active || flags[h][f])
            && EventsFor(r.events, key)
               == EventsFor(acc.events, key) + Triggered(hands[h], side, f, flags[h][f], WasRaised(acc.prev, key), preset, canvas)
  {
    var n := |hands| - 1;
    var m := HandsFold(acc, hands[..n], flags[..n], preset, canvas);
    if h == n {
      HandsFoldUntouched(acc, hands[..n], flags[..n], preset, canvas, HandSide(hands[h]), f);
      HandStepsSets(m, hands[n], flags[n], |flags[n]|, f, preset, canvas);
    } else {
      HandsFoldOnlyOfSide(acc, hands[..n], flags[..n], preset, canvas, h, f);
      HandStepsUntouched(m, hands[n], flags[n], |flags[n]|, preset, canvas, HandSide(hands[h]), f);
    }
  }

  // ---------------------------------------------------------------------
  // The sweep
  // ---------------------------------------------------------------------

  /** The sweep keeps the active set, the key order and the map's keys. */
  lemma {:induction false} SweepShape(acc: Acc, keys: seq<string>, hands: seq<Hand>)
    ensures Sweep(acc, keys, hands).active == acc.active
    ensures Sweep(acc, keys, hands).order == acc.order
    ensures Sweep(acc, keys, hands).prev.Keys == acc.prev.Keys
  {
    if keys != [] {
      SweepShape(acc, keys[..|keys| - 1], hands);
    }
  }

  /** One sweep step touches only its own key, and that one only when it
      fires. */
  lemma SweepStepKey(acc: Acc, last: string, hands: seq<Hand>, key: string)
    ensures var r := SweepStep(acc, last, hands);
            if last == key && Fires(acc, key, hands) then
              PrevOf(r.prev, key) == Some(false) && EventsFor(r.events, key) == EventsFor(acc.events, key) + [NoteOff(key)]
            else
              PrevOf(r.prev, key) == PrevOf(acc.prev, key) && EventsFor(r.events, key) == EventsFor(acc.events, key)
  {
    EventsForSingle(NoteOff(last), key);
    EventsForAppend(acc.events, [NoteOff(last)], key);
  }

  /** Over distinct keys, the sweep silences `key` exactly when it lists
      `key` and `key` fires, and otherwise leaves it alone. */
  lemma {:induction false} SweepKey(acc: Acc, keys: seq<string>, hands: seq<Hand>, key: string)
    requires DistinctKeys(keys)
    ensures var r := Sweep(acc, keys, hands);
            if key in keys && Fires(acc, key, hands) then
              PrevOf(r.prev, key) == Some(false) && EventsFor(r.events, key) == EventsFor(acc.events, key) + [NoteOff(key)]
            else
              PrevOf(r.prev, key) == PrevOf(acc.prev, key) && EventsFor(r.events, key) == EventsFor(acc.events, key)
  {
    if keys != [] {
      var init, last := keys[..|keys| - 1], keys[|keys| - 1];
      var m := Sweep(acc, init, hands);
      assert keys == init + [last];
      SweepKey(acc, init, hands, key);
      SweepShape(acc, init, hands);
      SweepStepKey(m, last, hands, key);
      if last == key {
        assert key !in init;
        assert Fires(m, key, hands) == Fires(acc, key, hands);
      }
    }
  }

  // ---------------------------------------------------------------------
  // One frame
  // ---------------------------------------------------------------------

  /** A frame keeps the key order in step with the map. */
  lemma FrameOrderOk(prev: map<string, bool>, order: seq<string>, hands: seq<Hand>, canvas: Canvas,
                     preset: InstrumentPreset, norm: Norm)
    requires AllTracked(hands) && OrderOk(prev, order)
    ensures OrderOk(Frame(prev, order, hands, canvas, preset, norm).prev, Frame(prev, order, hands, canvas, preset, norm).order)
  {
    var fold := HandsFold(Acc(prev, order, {}, []), hands, Flags(hands, norm), preset, canvas);
    HandsFoldOrderOk(Acc(prev, order, {}, []), hands, Flags(hands, norm), preset, canvas);
    SweepShape(fold, fold.order, hands);
  }

  /** A key of a visible side is never touched by the sweep. */
  lemma VisibleNotSwept(hands: seq<Hand>, h: nat, f: nat, acc: Acc)
    requires h < |hands| && f < 5
    ensures !Fires(acc, FingerKey(HandSide(hands[h]), Fingers[f]), hands)
  {
    FingerKeyInjective(HandSide(hands[h]), Fingers[f], HandSide(hands[h]), Fingers[f]);
  }

  /** The entry of every finger of a visible side after a frame is the flag
      the last hand of that side raised for it. */
  lemma FrameLastHandOfSide(prev: map<string, bool>, order: seq<string>, hands: seq<Hand>, canvas: Canvas,
                            preset: InstrumentPreset, norm: Norm, h: nat, f: nat)
    requires AllTracked(hands) && OrderOk(prev, order) && h < |hands| && f < 5
    requires forall j :: h < j < |hands| ==> HandSide(hands[j]) != HandSide(hands[h])
    ensures FingerKey(HandSide(hands[h]), Fingers[f]) in Frame(prev, order, hands, canvas, preset, norm).prev
    ensures Frame(prev, order, hands, canvas, preset, norm).prev[FingerKey(HandSide(hands[h]), Fingers[f])]
         == RaisedFingers(hands[h], norm)[f]
  {
    var acc := Acc(prev, order, {}, []);
    var fold := HandsFold(acc, hands, Flags(hands, norm), preset, canvas);
    var key := FingerKey(HandSide(hands[h]), Fingers[f]);
    HandsFoldLastOfSide(acc, hands, Flags(hands, norm), preset, canvas, h, f);
    HandsFoldOrderOk(acc, hands, Flags(hands, norm), preset, canvas);
    VisibleNotSwept(hands, h, f, fold);
    SweepKey(fold, fold.order, hands, key);
  }

  /** For the only hand of its side, finger `f` gets, in this frame: on a
      rise (raised now, not raised before or never seen), exactly one
      note-on with its notes, one particle at its fingertip and one
      history entry, in that order; on a fall, exactly one note-off; and no
      request at all otherwise. */
  lemma FrameFingerRequests(prev: map<string, bool>, order: seq<string>, hands: seq<Hand>, canvas: Canvas,
                            preset: InstrumentPreset, norm: Norm, h: nat, f: nat)
    requires AllTracked(hands) && OrderOk(prev, order) && h < |hands| && f < 5
    requires forall j :: 0 <= j < |hands| && j != h ==> HandSide(hands[j]) != HandSide(hands[h])
    ensures var r := Frame(prev, order, hands, canvas, preset, norm);
            var side := HandSide(hands[h]);
            var key := FingerKey(side, Fingers[f]);
            var raised := RaisedFingers(hands[h], norm)[f];
            var was := WasRaised(prev, key);
            var cfg := NoteFor(preset, side, Fingers[f]);
            (key in r.active <==> raised)
            && (raised && !was ==>
                  EventsFor(r.events, key)
                  == [NoteOn(key, cfg.notes),
                      AddParticle(key, FingertipPosition(hands[h], f, canvas.width, canvas.height), cfg.color, cfg.name),
                      HistoryEntry(key, cfg.name, side, Fingers[f], cfg.color)])
            && (!raised && was ==> EventsFor(r.events, key) == [NoteOff(key)])
            && (raised == was ==> EventsFor(r.events, key) == [])
  {
    var acc := Acc(prev, order, {}, []);
    var fold := HandsFold(acc, hands, Flags(hands, norm), preset, canvas);
    var key := FingerKey(HandSide(hands[h]), Fingers[f]);
    HandsFoldOnlyOfSide(acc, hands, Flags(hands, norm), preset, canvas, h, f);
    HandsFoldOrderOk(acc, hands, Flags(hands, norm), preset, canvas);
    VisibleNotSwept(hands, h, f, fold);
    SweepKey(fold, fold.order, hands, key);
    SweepShape(fold, fold.order, hands);
  }

  /** A finger of a side with no hand in the frame: if it was raised it gets
      exactly one note-off and is recorded as lowered; otherwise it gets no
      request and its entry stays as it was. */
  lemma FrameAbsentSide(prev: map<string, bool>, order: seq<string>, hands: seq<Hand>, canvas: Canvas,
                        preset: InstrumentPreset, norm: Norm, s: Side, f: nat)
    requires AllTracked(hands) && OrderOk(prev, order) && f < 5
    requires forall j :: 0 <= j < |hands| ==> HandSide(hands[j]) != s
    ensures var r := Frame(prev, order, hands, canvas, preset, norm);
            var key := FingerKey(s, Fingers[f]);
            (WasRaised(prev, key) ==> EventsFor(r.events, key) == [NoteOff(key)] && PrevOf(r.prev, key) == Some(false))
            && (!WasRaised(prev, key) ==> EventsFor(r.events, key) == [] && PrevOf(r.prev, key) == PrevOf(prev, key))
  {
    var acc := Acc(prev, order, {}, []);
    var fold := HandsFold(acc, hands, Flags(hands, norm), preset, canvas);
    var key := FingerKey(s, Fingers[f]);
    HandsFoldUntouched(acc, hands, Flags(hands, norm), preset, canvas, s, f);
    HandsFoldOrderOk(acc, hands, Flags(hands, norm), preset, canvas);
    SweepKey(fold, fold.order, hands, key);
    FingerKeyInjective(s, Fingers[f], s, Fingers[f]);
    assert WasRaised(fold.prev, key) == WasRaised(prev, key);
  }

  /** While a finger stays raised over a second frame, that frame requests
      no note-on (nothing at all) for it. */
  lemma NoRetriggerWhileRaised(prev: map<string, bool>, order: seq<string>, first: seq<Hand>, second: seq<Hand>,
                               canvas: Canvas, preset: InstrumentPreset, norm: Norm, h1: nat, h2: nat, f: nat)
    requires AllTracked(first) && AllTracked(second) && OrderOk(prev, order) && f < 5
    requires h1 < |first| && h2 < |second| && HandSide(first[h1]) == HandSide(second[h2])
    requires forall j :: h1 < j < |first| ==> HandSide(first[j]) != HandSide(first[h1])
    requires forall j :: 0 <= j < |second| && j != h2 ==> HandSide(second[j]) != HandSide(second[h2])
    requires RaisedFingers(first[h1], norm)[f] && RaisedFingers(second[h2], norm)[f]
    ensures var r1 := Frame(prev, order, first, canvas, preset, norm);
            var r2 := Frame(r1.prev, r1.order, second, canvas, preset, norm);
            EventsFor(r2.events, FingerKey(HandSide(second[h2]), Fingers[f])) == []
  {
    var r1 := Frame(prev, order, first, canvas, preset, norm);
    FrameLastHandOfSide(prev, order, first, canvas, preset, norm, h1, f);
    FrameOrderOk(prev, order, first, canvas, preset, norm);
    FrameFingerRequests(r1.prev, r1.order, second, canvas, preset, norm, h2, f);
  }

  /** After a reset (instrument change or going home) the map is empty, so
      a finger that is still raised triggers again on the next frame. */
  lemma RetriggerAfterReset(hands: seq<Hand>, canvas: Canvas, preset: InstrumentPreset, norm: Norm, h: nat, f: nat)
    requires AllTracked(hands) && h < |hands| && f < 5
    requires forall j :: 0 <= j < |hands| && j != h ==> HandSide(hands[j]) != HandSide(hands[h])
    requires RaisedFingers(hands[h], norm)[f]
    ensures var r := Frame(map[], [], hands, canvas, preset, norm);
            var key := FingerKey(HandSide(hands[h]), Fingers[f]);
            |EventsFor(r.events, key)| == 3
            && EventsFor(r.events, key)[0] == NoteOn(key, NoteFor(preset, HandSide(hands[h]), Fingers[f]).notes)
  {
    FrameFingerRequests(map[], [], hands, canvas, preset, norm, h, f);
  }
}
