/**
 * The synthesiser's voice manager (src/utils/AudioEngine.ts). The Web Audio
 * graph is replaced by two arenas of abstract nodes: every oscillator and
 * every gain node the engine ever created is an entry of `oscs` / `gains`,
 * named by its index. An oscillator records the MIDI note it plays, its
 * waveform, detune, start time and the stop time scheduled for it (none
 * while it sounds); a gain node records the automation events scheduled on
 * its gain parameter. The audio clock is the `now` parameter of each call.
 */
module AudioEngine {
  import opened Wrappers

  // ---------------------------------------------------------------------
  // Configuration and parameter arithmetic
  // ---------------------------------------------------------------------

  const DefaultVolume: real := 0.3
  const AttackTime: real := 0.02
  const DecayTime: real := 0.1
  const SustainLevel: real := 0.3
  const ReleaseTime: real := 0.3
  const DetuneAmount: real := 5.0
  /** The two floors the engine uses for exponential ramps, which need a
      positive target, and the extra delay between the end of the release
      ramp and the oscillator's stop. */
  const RampFloor: real := 0.001
  const StopDelay: real := 0.01

  datatype Waveform = Sine | Square | Sawtooth | Triangle

  /** `getWaveform` for the engine's drum flag and GM program number. */
  function WaveformFor(isDrum: bool, program: int): (w: Waveform)
    ensures isDrum ==> w == Triangle
    ensures !isDrum ==> (w == Sawtooth <==> program == 29 || program == 33)
    ensures !isDrum ==> (w == Square <==> program == 81 || program == 85)
    ensures !isDrum ==> (w == Sine <==> program == 4 || program == 48 || program == 89 || program == 94)
    ensures w != Triangle ==> !isDrum
  {
    if isDrum then Triangle
    else if program == 29 || program == 33 then Sawtooth
    else if program == 81 || program == 85 then Square
    else if program == 48 || program == 89 || program == 94 then Sine
    else if program == 4 then Sine
    else Triangle
  }

  /** `Math.max(0, Math.min(1, volume))`. */
  function Clamp01(v: real): (r: real)
    ensures 0.0 <= r <= 1.0
    ensures 0.0 <= v <= 1.0 ==> r == v
    ensures v < 0.0 ==> r == 0.0
    ensures v > 1.0 ==> r == 1.0
  {
    if v < 0.0 then 0.0 else if v > 1.0 then 1.0 else v
  }

  function Max(a: real, b: real): real {
    if a >= b then a else b
  }

  function Attack(isDrum: bool): real {
    if isDrum then 0.001 else AttackTime
  }

  function Decay(isDrum: bool): real {
    if isDrum then 0.05 else DecayTime
  }

  function Sustain(isDrum: bool, volume: real): real {
    if isDrum then volume * 0.2 else volume * SustainLevel
  }

  function Release(isDrum: bool): real {
    if isDrum then 0.05 else ReleaseTime
  }

  /** `(index - midiNotes.length / 2) * detuneAmount`, in cents. */
  function Detune(index: nat, count: nat): real {
    ((index as real) - (count as real) / 2.0) * DetuneAmount
  }

  /** Adjacent notes of a chord are detuned 5 cents apart. */
  lemma DetuneSpacing(index: nat, count: nat)
    ensures Detune(index + 1, count) - Detune(index, count) == DetuneAmount
  {
  }

  /** The detune spread is centred on -2.5 cents, not on 0: note i and note
      n-1-i of an n-note chord always sum to -5 cents, and a single note is
      played 2.5 cents flat. */
  lemma DetuneCentre(index: nat, count: nat)
    requires index < count
    ensures Detune(index, count) + Detune(count - 1 - index, count) == -DetuneAmount
    ensures Detune(0, 1) == -DetuneAmount / 2.0
  {
  }

  /** One event scheduled on a gain parameter. `HoldCurrentAt` is
      `setValueAtTime(gain.value, t)`: it pins whatever value the gain has
      reached. */
  datatype Automation =
    | SetValueAt(value: real, time: real)
    | LinearRampTo(value: real, time: real)
    | ExponentialRampTo(value: real, time: real)
    | CancelScheduledFrom(time: real)
    | HoldCurrentAt(time: real)

  /** The envelope `playNotes` schedules on each note's gain: silence now, a
      linear rise to half the volume over the attack, then an exponential
      fall to the sustain level (at least 0.001) over the decay. */
  function Envelope(isDrum: bool, volume: real, now: real): (schedule: seq<Automation>)
    ensures |schedule| == 3
  {
    [SetValueAt(0.0, now),
     LinearRampTo(volume * 0.5, now + Attack(isDrum)),
     ExponentialRampTo(Max(Sustain(isDrum, volume), RampFloor), now + Attack(isDrum) + Decay(isDrum))]
  }

  /** What `stopNotes` appends to a gain's schedule: cancel what is pending,
      hold the current value, and fall exponentially to 0.001 over the
      release. */
  function ReleaseSchedule(isDrum: bool, now: real): (schedule: seq<Automation>)
    ensures |schedule| == 3
  {
    [CancelScheduledFrom(now), HoldCurrentAt(now), ExponentialRampTo(RampFloor, now + Release(isDrum))]
  }

  /** The events of a schedule happen in order, and every exponential ramp
      has a positive target, as Web Audio demands of exponential ramps. */
  predicate WellTimed(schedule: seq<Automation>) {
    (forall j :: 0 <= j < |schedule| ==> schedule[j].ExponentialRampTo? ==> schedule[j].value > 0.0)
    && forall j :: 0 <= j < |schedule| - 1 ==> AutomationTime(schedule[j]) <= AutomationTime(schedule[j + 1])
  }

  function AutomationTime(a: Automation): real {
    match a
    case SetValueAt(_, t) => t
    case LinearRampTo(_, t) => t
    case ExponentialRampTo(_, t) => t
    case CancelScheduledFrom(t) => t
    case HoldCurrentAt(t) => t
  }

  /** The attack peaks at half the volume after 0.02 s (0.001 s for drums),
      the decay settles at max(sustain, 0.001) 0.1 s later (0.05 s for
      drums), and the whole envelope is well timed for every volume. */
  lemma EnvelopeShape(isDrum: bool, volume: real, now: real)
    ensures Envelope(isDrum, volume, now)[0] == SetValueAt(0.0, now)
    ensures Envelope(isDrum, volume, now)[1] == LinearRampTo(volume * 0.5, now + (if isDrum then 0.001 else 0.02))
    ensures Envelope(isDrum, volume, now)[2].value
         == Max(if isDrum then volume * 0.2 else volume * 0.3, 0.001)
    ensures AutomationTime(Envelope(isDrum, volume, now)[2])
         == now + (if isDrum then 0.001 + 0.05 else 0.02 + 0.1)
    ensures WellTimed(Envelope(isDrum, volume, now))
  {
  }

  /** From a volume of 0.002 on the decay never rises above the attack
      peak; below it the 0.001 floor lies above the peak. */
  lemma DecayFalls(isDrum: bool, volume: real, now: real)
    ensures volume >= 0.002 ==> Envelope(isDrum, volume, now)[2].value <= Envelope(isDrum, volume, now)[1].value
    ensures 0.0 <= volume < 0.002 ==> Envelope(isDrum, volume, now)[2].value > Envelope(isDrum, volume, now)[1].value
  {
  }

  /** The release reaches its floor before the oscillator stops. */
  lemma ReleaseShape(isDrum: bool, now: real)
    ensures WellTimed(ReleaseSchedule(isDrum, now))
    ensures AutomationTime(ReleaseSchedule(isDrum, now)[2]) < now + Release(isDrum) + StopDelay
    ensures now + Release(isDrum) + StopDelay == now + (if isDrum then 0.06 else 0.31)
  {
  }

  // ---------------------------------------------------------------------
  // Nodes and voices
  // ---------------------------------------------------------------------

  /** An oscillator created for the voice of key `owner`. */
  datatype Oscillator = Oscillator(owner: string, note: int, waveform: Waveform, detune: real,
                                   startAt: real, stopAt: Option<real>)

  /** A gain node created for the voice of key `owner`. */
  datatype Gain = Gain(owner: string, schedule: seq<Automation>)

  /** The value of `activeOscillators` for one key: its oscillators and the
      gain nodes behind them, as node ids. */
  datatype Voice = Voice(oscillators: seq<nat>, gainNodes: seq<nat>)

  /** Every node the engine has created, and the active voices. */
  datatype Graph = Graph(oscs: seq<Oscillator>, gains: seq<Gain>, active: map<string, Voice>)

  predicate Distinct(ids: seq<nat>) {
    forall a, b :: 0 <= a < b < |ids| ==> ids[a] != ids[b]
  }

  /** The voice of `key`: one live oscillator and one gain per note, all
      created for this key, each node listed once. */
  predicate VoiceOwned(oscs: seq<Oscillator>, gains: seq<Gain>, key: string, v: Voice) {
    |v.oscillators| == |v.gainNodes| && Distinct(v.oscillators) && Distinct(v.gainNodes)
    && (forall j :: 0 <= j < |v.oscillators| ==>
          v.oscillators[j] < |oscs| && oscs[v.oscillators[j]].owner == key && oscs[v.oscillators[j]].stopAt == None)
    && (forall j :: 0 <= j < |v.gainNodes| ==> v.gainNodes[j] < |gains| && gains[v.gainNodes[j]].owner == key)
  }

  /** Every oscillator that has no stop scheduled is reachable from the
      voice of the key it was created for: none is left sounding with
      nothing able to stop it. */
  predicate NoOrphans(oscs: seq<Oscillator>, active: map<string, Voice>) {
    forall i :: 0 <= i < |oscs| && oscs[i].stopAt == None ==>
      oscs[i].owner in active && i in active[oscs[i].owner].oscillators
  }

  /** Each active voice owns its nodes and no oscillator is orphaned. */
  predicate GraphValid(g: Graph) {
    (forall k :: k in g.active ==> VoiceOwned(g.oscs, g.gains, k, g.active[k]))
    && NoOrphans(g.oscs, g.active)
  }

  /** The oscillators `ids` scheduled to stop at `at`. */
  function StopAt(oscs: seq<Oscillator>, ids: seq<nat>, at: real): (r: seq<Oscillator>)
    ensures |r| == |oscs|
    ensures forall i :: 0 <= i < |r| ==> r[i] == if i in ids then oscs[i].(stopAt := Some(at)) else oscs[i]
  {
    seq(|oscs|, i requires 0 <= i < |oscs| => if i in ids then oscs[i].(stopAt := Some(at)) else oscs[i])
  }

  /** A gain with the release appended to its schedule. */
  function ReleaseGain(g: Gain, isDrum: bool, now: real): Gain {
    g.(schedule := g.schedule + ReleaseSchedule(isDrum, now))
  }

  /** The gains `ids` released. */
  function Released(gains: seq<Gain>, ids: seq<nat>, isDrum: bool, now: real): (r: seq<Gain>)
    ensures |r| == |gains|
    ensures forall i :: 0 <= i < |r| ==> r[i] == if i in ids then ReleaseGain(gains[i], isDrum, now) else gains[i]
  {
    seq(|gains|, i requires 0 <= i < |gains| => if i in ids then ReleaseGain(gains[i], isDrum, now) else gains[i])
  }

  /** When `stopNotes` stops an oscillator. */
  function StopTime(isDrum: bool, now: real): real {
    now + Release(isDrum) + StopDelay
  }

  /** `stopNotes` on the node graph: the key's gains released, its
      oscillators stopped, its entry deleted; no change for a key without
      a voice. */
  function StopVoice(g: Graph, key: string, isDrum: bool, now: real): Graph {
    if key !in g.active then g
    else Graph(StopAt(g.oscs, g.active[key].oscillators, StopTime(isDrum, now)),
               Released(g.gains, g.active[key].gainNodes, isDrum, now),
               g.active - {key})
  }

  /** The oscillator `playNotes` creates for note `j` of `notes`. */
  function NewOscillator(key: string, notes: seq<int>, j: nat, waveform: Waveform, now: real): Oscillator
    requires j < |notes|
  {
    Oscillator(key, notes[j], waveform, Detune(j, |notes|), now, None)
  }

  /** The oscillators `playNotes` creates, one per note in note order. */
  function NewOscillators(key: string, notes: seq<int>, waveform: Waveform, now: real): (r: seq<Oscillator>)
    ensures |r| == |notes|
    ensures forall j :: 0 <= j < |r| ==> r[j] == NewOscillator(key, notes, j, waveform, now)
  {
    seq(|notes|, j requires 0 <= j < |notes| => NewOscillator(key, notes, j, waveform, now))
  }

  /** The gains `playNotes` creates, one per note, each with the envelope. */
  function NewGains(key: string, count: nat, isDrum: bool, volume: real, now: real): (r: seq<Gain>)
    ensures |r| == count
    ensures forall j :: 0 <= j < |r| ==> r[j] == Gain(key, Envelope(isDrum, volume, now))
  {
    seq(count, _ => Gain(key, Envelope(isDrum, volume, now)))
  }

  /** The ids `from`, `from + 1`, ... of `count` nodes appended together. */
  function Ids(from: nat, count: nat): (r: seq<nat>)
    ensures |r| == count
    ensures forall j :: 0 <= j < |r| ==> r[j] == from + j
  {
    seq(count, j => from + j)
  }

  /** The second half of `playNotes` on the node graph: fresh nodes for
      every note, registered as the key's voice. */
  function StartVoice(g: Graph, key: string, notes: seq<int>, waveform: Waveform, isDrum: bool, volume: real,
                      now: real): Graph
  {
    Graph(g.oscs + NewOscillators(key, notes, waveform, now),
          g.gains + NewGains(key, |notes|, isDrum, volume, now),
          g.active[key := Voice(Ids(|g.oscs|, |notes|), Ids(|g.gains|, |notes|))])
  }

  /** `playNotes` on the node graph of an initialised engine. */
  function PlayVoice(g: Graph, key: string, notes: seq<int>, waveform: Waveform, isDrum: bool, volume: real,
                     now: real): Graph
  {
    StartVoice(StopVoice(g, key, isDrum, now), key, notes, waveform, isDrum, volume, now)
  }

  /** `stopAll` on the node graph: every sounding oscillator stopped, every
      gain of a voice released, no voice left. */
  function StopEverything(g: Graph, isDrum: bool, now: real): Graph {
    Graph(seq(|g.oscs|, i requires 0 <= i < |g.oscs| =>
                if g.oscs[i].stopAt == None then g.oscs[i].(stopAt := Some(StopTime(isDrum, now))) else g.oscs[i]),
          seq(|g.gains|, i requires 0 <= i < |g.gains| =>
                if InSomeVoice(g.active, g.gains[i].owner, i) then ReleaseGain(g.gains[i], isDrum, now)
                else g.gains[i]),
          map[])
  }

  /** Whether gain `i` belongs to the voice of `owner`. */
  predicate InSomeVoice(active: map<string, Voice>, owner: string, i: nat) {
    owner in active && i in active[owner].gainNodes
  }

  // ---------------------------------------------------------------------
  // What the graph operations do
  // ---------------------------------------------------------------------

  /** `stopNotes` removes exactly its key, leaves every other voice and
      every node outside the key's voice as it was, schedules each of the
      voice's oscillators to stop at now + release + 0.01 and gives each of
      its gains the release; and the graph stays valid. */
  lemma StopVoiceEffect(g: Graph, key: string, isDrum: bool, now: real)
    requires GraphValid(g)
    ensures var r := StopVoice(g, key, isDrum, now);
            GraphValid(r)
            && key !in r.active
            && (forall k :: k != key ==> (k in r.active <==> k in g.active))
            && (forall k :: k in r.active ==> r.active[k] == g.active[k])
            && |r.oscs| == |g.oscs| && |r.gains| == |g.gains|
            && (key in g.active ==>
                  forall j :: 0 <= j < |g.active[key].oscillators| ==>
                    r.oscs[g.active[key].oscillators[j]].stopAt == Some(now + (if isDrum then 0.05 else 0.3) + 0.01))
            && (forall k, j :: k in r.active && 0 <= j < |r.active[k].oscillators| ==>
                  r.oscs[r.active[k].oscillators[j]] == g.oscs[r.active[k].oscillators[j]])
  {
    if key in g.active {
      var r := StopVoice(g, key, isDrum, now);
      var voice := g.active[key];
      forall k | k in r.active
        ensures VoiceOwned(r.oscs, r.gains, k, r.active[k])
        ensures forall j :: 0 <= j < |r.active[k].oscillators| ==>
                  r.oscs[r.active[k].oscillators[j]] == g.oscs[r.active[k].oscillators[j]]
      {
        var v := r.active[k];
        forall j | 0 <= j < |v.oscillators|
          ensures r.oscs[v.oscillators[j]] == g.oscs[v.oscillators[j]]
        {
        }
      }
    }
  }

  /** `stopNotes` keeps the graph valid and leaves the key without a
      voice. */
  lemma StopVoiceValid(g: Graph, key: string, isDrum: bool, now: real)
    requires GraphValid(g)
    ensures GraphValid(StopVoice(g, key, isDrum, now)) && key !in StopVoice(g, key, isDrum, now).active
  {
    StopVoiceEffect(g, key, isDrum, now);
  }

  /** Registering fresh nodes for a key without a voice keeps the graph
      valid. */
  lemma StartVoiceValid(g: Graph, key: string, notes: seq<int>, waveform: Waveform, isDrum: bool, volume: real,
                        now: real)
    requires GraphValid(g) && key !in g.active
    ensures GraphValid(StartVoice(g, key, notes, waveform, isDrum, volume, now))
  {
    var voice := Voice(Ids(|g.oscs|, |notes|), Ids(|g.gains|, |notes|));
    FreshVoiceValid(g.oscs, g.gains, g.active, key, voice, g.active[key := voice],
                    NewOscillators(key, notes, waveform, now), NewGains(key, |notes|, isDrum, volume, now));
  }

  /** The same, on the components of the graph. */
  lemma FreshVoiceValid(oscs: seq<Oscillator>, gains: seq<Gain>, active: map<string, Voice>, key: string,
                        voice: Voice, active': map<string, Voice>, created: seq<Oscillator>, envelopes: seq<Gain>)
    requires GraphValid(Graph(oscs, gains, active)) && key !in active
    requires active' == active[key := voice]
    requires |created| == |envelopes| && voice == Voice(Ids(|oscs|, |created|), Ids(|gains|, |envelopes|))
    requires forall j :: 0 <= j < |created| ==> created[j].owner == key && created[j].stopAt == None
    requires forall j :: 0 <= j < |envelopes| ==> envelopes[j].owner == key
    ensures GraphValid(Graph(oscs + created, gains + envelopes, active'))
  {
    var oscs', gains' := oscs + created, gains + envelopes;
    forall k | k in active
      ensures VoiceOwned(oscs', gains', k, active[k])
    {
      var v := active[k];
      forall j | 0 <= j < |v.oscillators|
        ensures oscs'[v.oscillators[j]] == oscs[v.oscillators[j]]
      {
      }
      forall j | 0 <= j < |v.gainNodes|
        ensures gains'[v.gainNodes[j]] == gains[v.gainNodes[j]]
      {
      }
    }
    forall j | 0 <= j < |voice.oscillators|
      ensures oscs'[voice.oscillators[j]] == created[j]
    {
    }
    forall j | 0 <= j < |voice.gainNodes|
      ensures gains'[voice.gainNodes[j]] == envelopes[j]
    {
    }
    assert VoiceOwned(oscs', gains', key, voice);
    forall i | 0 <= i < |oscs'| && oscs'[i].stopAt == None
      ensures oscs'[i].owner in active' && i in active'[oscs'[i].owner].oscillators
    {
      if i >= |oscs| {
        assert voice.oscillators[i - |oscs|] == i;
      }
    }
  }

  /** `playNotes` leaves the key with exactly one voice and every other
      voice untouched, and the graph stays valid. */
  lemma PlayVoiceValid(g: Graph, key: string, notes: seq<int>, waveform: Waveform, isDrum: bool, volume: real,
                       now: real)
    requires GraphValid(g)
    ensures GraphValid(PlayVoice(g, key, notes, waveform, isDrum, volume, now))
    ensures PlayVoice(g, key, notes, waveform, isDrum, volume, now).active.Keys == g.active.Keys + {key}
    ensures forall k :: k in g.active && k != key ==>
              PlayVoice(g, key, notes, waveform, isDrum, volume, now).active[k] == g.active[k]
  {
    StopVoiceEffect(g, key, isDrum, now);
    StartVoiceValid(StopVoice(g, key, isDrum, now), key, notes, waveform, isDrum, volume, now);
  }

  /** The key's new voice has one live oscillator and one gain per note,
      in note order: oscillator j plays note j with the given waveform and
      detune j of n, and gain j carries the envelope. */
  lemma PlayVoiceNewVoice(g: Graph, key: string, notes: seq<int>, waveform: Waveform, isDrum: bool, volume: real,
                          now: real, j: nat)
    requires j < |notes|
    ensures var r := PlayVoice(g, key, notes, waveform, isDrum, volume, now);
            key in r.active
            && |r.active[key].oscillators| == |notes| && |r.active[key].gainNodes| == |notes|
            && r.active[key].oscillators[j] < |r.oscs| && r.active[key].gainNodes[j] < |r.gains|
            && r.oscs[r.active[key].oscillators[j]] == Oscillator(key, notes[j], waveform, Detune(j, |notes|), now, None)
            && r.gains[r.active[key].gainNodes[j]] == Gain(key, Envelope(isDrum, volume, now))
  {
    var s := StopVoice(g, key, isDrum, now);
    assert |s.oscs| == |g.oscs| && |s.gains| == |g.gains|;
    var r := StartVoice(s, key, notes, waveform, isDrum, volume, now);
    assert r.active[key].oscillators[j] == |s.oscs| + j;
    assert r.oscs[|s.oscs| + j] == NewOscillators(key, notes, waveform, now)[j];
    assert r.gains[|s.gains| + j] == NewGains(key, |notes|, isDrum, volume, now)[j];
  }

  /** A voice the key already had is stopped and released by `playNotes`
      before the new one is registered. */
  lemma PlayVoiceStopsOld(g: Graph, key: string, notes: seq<int>, waveform: Waveform, isDrum: bool, volume: real,
                          now: real, j: nat)
    requires GraphValid(g) && key in g.active && j < |g.active[key].oscillators|
    ensures g.active[key].oscillators[j] < |PlayVoice(g, key, notes, waveform, isDrum, volume, now).oscs|
    ensures PlayVoice(g, key, notes, waveform, isDrum, volume, now).oscs[g.active[key].oscillators[j]].stopAt
         == Some(now + (if isDrum then 0.05 else 0.3) + 0.01)
    ensures g.active[key].gainNodes[j] < |PlayVoice(g, key, notes, waveform, isDrum, volume, now).gains|
    ensures PlayVoice(g, key, notes, waveform, isDrum, volume, now).gains[g.active[key].gainNodes[j]]
         == ReleaseGain(g.gains[g.active[key].gainNodes[j]], isDrum, now)
  {
    var s := StopVoice(g, key, isDrum, now);
    var o, n := g.active[key].oscillators[j], g.active[key].gainNodes[j];
    assert o < |s.oscs| && n < |s.gains|;
    var r := StartVoice(s, key, notes, waveform, isDrum, volume, now);
    assert r.oscs[o] == s.oscs[o];
    assert r.gains[n] == s.gains[n];
  }

  /** Stopping one voice does not change what `stopAll` ends in. */
  lemma StopVoiceKeepsStopEverything(g: Graph, key: string, isDrum: bool, now: real)
    requires GraphValid(g) && key in g.active
    ensures StopEverything(StopVoice(g, key, isDrum, now), isDrum, now) == StopEverything(g, isDrum, now)
  {
    var s := StopVoice(g, key, isDrum, now);
    var a, b := StopEverything(s, isDrum, now), StopEverything(g, isDrum, now);
    var voice := g.active[key];
    forall i | 0 <= i < |g.oscs|
      ensures a.oscs[i] == b.oscs[i]
    {
      if i in voice.oscillators {
        var m :| 0 <= m < |voice.oscillators| && voice.oscillators[m] == i;
        assert g.oscs[i].stopAt == None;
      }
    }
    forall i | 0 <= i < |g.gains|
      ensures a.gains[i] == b.gains[i]
    {
      if i in voice.gainNodes {
        var m :| 0 <= m < |voice.gainNodes| && voice.gainNodes[m] == i;
        assert g.gains[i].owner == key;
      }
    }
  }

  /** With no voice left, no oscillator is sounding and `stopAll` has
      nothing more to do. */
  lemma StopEverythingDone(g: Graph, isDrum: bool, now: real)
    requires GraphValid(g) && g.active == map[]
    ensures StopEverything(g, isDrum, now) == g
  {
  }

  /** `stopAll` leaves no voice and no sounding oscillator: each oscillator
      that was sounding stops at now + release + 0.01, each already stopped
      one keeps its stop time, and exactly the gains of the old voices get
      the release. */
  lemma StopEverythingEffect(g: Graph, isDrum: bool, now: real)
    ensures var r := StopEverything(g, isDrum, now);
            r.active == map[] && |r.oscs| == |g.oscs| && |r.gains| == |g.gains|
            && (forall i :: 0 <= i < |r.oscs| ==> r.oscs[i].stopAt != None)
            && (forall i :: 0 <= i < |r.oscs| ==>
                  r.oscs[i].stopAt == if g.oscs[i].stopAt == None then Some(StopTime(isDrum, now)) else g.oscs[i].stopAt)
            && (forall i :: 0 <= i < |r.gains| ==>
                  (r.gains[i] != g.gains[i] <==> InSomeVoice(g.active, g.gains[i].owner, i)))
            && GraphValid(r)
  {
    var r := StopEverything(g, isDrum, now);
    forall i | 0 <= i < |r.gains|
      ensures r.gains[i] != g.gains[i] <==> InSomeVoice(g.active, g.gains[i].owner, i)
    {
      if InSomeVoice(g.active, g.gains[i].owner, i) {
        assert |r.gains[i].schedule| == |g.gains[i].schedule| + 3;
      }
    }
  }

  // ---------------------------------------------------------------------
  // The loops of the engine's methods
  // ---------------------------------------------------------------------

  /** The `gainNodes.forEach` of `stopNotes`: each gain of the voice gets
      the release. */
  method ReleaseGains(gains: seq<Gain>, ids: seq<nat>, isDrum: bool, now: real) returns (r: seq<Gain>)
    requires Distinct(ids) && forall j :: 0 <= j < |ids| ==> ids[j] < |gains|
    ensures r == Released(gains, ids, isDrum, now)
  {
    r := gains;
    for j := 0 to |ids|
      invariant |r| == |gains|
      invariant forall i :: 0 <= i < |r| ==> r[i] == if i in ids[..j] then ReleaseGain(gains[i], isDrum, now) else gains[i]
    {
      assert ids[j] !in ids[..j];
      assert ids[..j + 1] == ids[..j] + [ids[j]];
      r := r[ids[j] := ReleaseGain(r[ids[j]], isDrum, now)];
    }
    assert ids[..|ids|] == ids;
  }

  /** The `oscillators.forEach` of `stopNotes`: each oscillator of the
      voice is scheduled to stop at `at`. */
  method StopOscillators(oscs: seq<Oscillator>, ids: seq<nat>, at: real) returns (r: seq<Oscillator>)
    requires forall j :: 0 <= j < |ids| ==> ids[j] < |oscs|
    ensures r == StopAt(oscs, ids, at)
  {
    r := oscs;
    for j := 0 to |ids|
      invariant |r| == |oscs|
      invariant forall i :: 0 <= i < |r| ==> r[i] == if i in ids[..j] then oscs[i].(stopAt := Some(at)) else oscs[i]
    {
      assert ids[..j + 1] == ids[..j] + [ids[j]];
      r := r[ids[j] := r[ids[j]].(stopAt := Some(at))];
    }
    assert ids[..|ids|] == ids;
  }

  /** The `midiNotes.forEach` of `playNotes`: for each note, in order, one
      oscillator and one gain node are created and their ids collected. */
  method CreateNodes(oscs: seq<Oscillator>, gains: seq<Gain>, key: string, notes: seq<int>, waveform: Waveform,
                     isDrum: bool, volume: real, now: real)
    returns (newOscs: seq<Oscillator>, newGains: seq<Gain>, oscillators: seq<nat>, gainNodes: seq<nat>)
    ensures newOscs == oscs + NewOscillators(key, notes, waveform, now)
    ensures newGains == gains + NewGains(key, |notes|, isDrum, volume, now)
    ensures oscillators == Ids(|oscs|, |notes|) && gainNodes == Ids(|gains|, |notes|)
  {
    var created := NewOscillators(key, notes, waveform, now);
    var envelopes := NewGains(key, |notes|, isDrum, volume, now);
    oscillators, gainNodes := [], [];
    newOscs, newGains := oscs, gains;
    for j := 0 to |notes|
      invariant newOscs == oscs + created[..j]
      invariant newGains == gains + envelopes[..j]
      invariant oscillators == Ids(|oscs|, j) && gainNodes == Ids(|gains|, j)
    {
      assert created[..j + 1] == created[..j] + [NewOscillator(key, notes, j, waveform, now)];
      assert envelopes[..j + 1] == envelopes[..j] + [Gain(key, Envelope(isDrum, volume, now))];
      newOscs := newOscs + [NewOscillator(key, notes, j, waveform, now)];
      newGains := newGains + [Gain(key, Envelope(isDrum, volume, now))];
      oscillators := oscillators + [|oscs| + j];
      gainNodes := gainNodes + [|gains| + j];
    }
    assert created[..|notes|] == created && envelopes[..|notes|] == envelopes;
  }

  // ---------------------------------------------------------------------
  // The engine
  // ---------------------------------------------------------------------

  class AudioEngine {
    /** Whether an audio context exists, and the master gain's value when a
        master gain node exists. */
    var hasContext: bool
    var masterGain: Option<real>
    var oscs: seq<Oscillator>
    var gains: seq<Gain>
    var activeOscillators: map<string, Voice>
    var instrument: int
    var isDrum: bool
    var isInitialized: bool

    function Nodes(): Graph
      reads this
    {
      Graph(oscs, gains, activeOscillators)
    }

    /** The engine's invariant: it is initialised exactly when it has a
        context and a master gain; without a context there are no voices;
        and the node graph is valid. Because the voices form a map, a key
        has at most one voice. */
    predicate Valid()
      reads this
    {
      (isInitialized <==> hasContext && masterGain.Some?)
      && (!hasContext ==> activeOscillators == map[])
      && GraphValid(Nodes())
    }

    constructor()
      ensures Valid()
      ensures !hasContext && masterGain == None && !isInitialized
      ensures oscs == [] && gains == [] && activeOscillators == map[]
      ensures instrument == 0 && !isDrum
    {
      hasContext := false;
      masterGain := None;
      oscs := [];
      gains := [];
      activeOscillators := map[];
      instrument := 0;
      isDrum := false;
      isInitialized := false;
    }

    /** `initialize`: a second call does nothing; otherwise, when the
        browser can create an audio context, the engine gets one and a
        master gain at the default volume. When it cannot, the error is
        passed on (`ok` is false) and nothing changes. */
    method Initialize(contextAvailable: bool) returns (ok: bool)
      requires Valid()
      modifies this
      ensures Valid()
      ensures ok == isInitialized
      ensures isInitialized == (old(isInitialized) || contextAvailable)
      ensures old(isInitialized) || !contextAvailable ==>
                hasContext == old(hasContext) && masterGain == old(masterGain)
      ensures !old(isInitialized) && contextAvailable ==> hasContext && masterGain == Some(DefaultVolume)
      ensures Nodes() == old(Nodes())
      ensures instrument == old(instrument) && isDrum == old(isDrum)
    {
      if isInitialized {
        return true;
      }
      if contextAvailable {
        hasContext := true;
        masterGain := Some(DefaultVolume);
        isInitialized := true;
      }
      ok := isInitialized;
    }

    /** `setVolume`: with a master gain, its value becomes the volume
        clamped into [0, 1]; without one nothing happens. */
    method SetVolume(volume: real)
      requires Valid()
      modifies this
      ensures Valid()
      ensures old(masterGain).Some? ==> masterGain == Some(Clamp01(volume))
      ensures old(masterGain).None? ==> masterGain == None
      ensures hasContext == old(hasContext) && isInitialized == old(isInitialized)
      ensures Nodes() == old(Nodes())
      ensures instrument == old(instrument) && isDrum == old(isDrum)
    {
      if masterGain.Some? {
        masterGain := Some(Clamp01(volume));
      }
    }

    /** `setInstrument`. */
    method SetInstrument(program: int, drum: bool)
      requires Valid()
      modifies this
      ensures Valid()
      ensures instrument == program && isDrum == drum
      ensures hasContext == old(hasContext) && masterGain == old(masterGain) && isInitialized == old(isInitialized)
      ensures Nodes() == old(Nodes())
    {
      instrument := program;
      isDrum := drum;
    }

    /** `stopNotes`: with a context, the graph becomes `StopVoice` of the
        old one (no change for a key without a voice); without a context
        nothing changes. */
    method StopNotes(key: string, now: real)
      requires Valid()
      modifies this
      ensures Valid()
      ensures Nodes() == if old(hasContext) then StopVoice(old(Nodes()), key, isDrum, now) else old(Nodes())
      ensures key !in activeOscillators
      ensures hasContext == old(hasContext) && masterGain == old(masterGain) && isInitialized == old(isInitialized)
      ensures instrument == old(instrument) && isDrum == old(isDrum)
    {
      if key !in activeOscillators || !hasContext {
        return;
      }
      var voice := activeOscillators[key];
      var releaseTime := Release(isDrum);
      assert VoiceOwned(oscs, gains, key, voice);
      StopVoiceValid(Nodes(), key, isDrum, now);
      ghost var target := StopVoice(Nodes(), key, isDrum, now);
      gains := ReleaseGains(gains, voice.gainNodes, isDrum, now);
      oscs := StopOscillators(oscs, voice.oscillators, now + releaseTime + StopDelay);
      activeOscillators := activeOscillators - {key};
      assert Nodes() == target;
    }

    /** `playNotes`: on an engine with a context and a master gain, the
        graph becomes `PlayVoice` of the old one, built with the engine's
        current waveform; otherwise nothing changes. */
    method PlayNotes(key: string, notes: seq<int>, volume: real, now: real)
      requires Valid()
      modifies this
      ensures Valid()
      ensures Nodes() == if old(hasContext) && old(masterGain).Some?
                         then PlayVoice(old(Nodes()), key, notes, WaveformFor(isDrum, instrument), isDrum, volume, now)
                         else old(Nodes())
      ensures hasContext == old(hasContext) && masterGain == old(masterGain) && isInitialized == old(isInitialized)
      ensures instrument == old(instrument) && isDrum == old(isDrum)
    {
      if !hasContext || masterGain.None? {
        return;
      }
      StopNotes(key, now);
      var waveform := WaveformFor(isDrum, instrument);
      StartVoiceValid(Nodes(), key, notes, waveform, isDrum, volume, now);
      var newOscs, newGains, oscillators, gainNodes := CreateNodes(oscs, gains, key, notes, waveform, isDrum, volume, now);
      oscs, gains := newOscs, newGains;
      activeOscillators := activeOscillators[key := Voice(oscillators, gainNodes)];
    }

    /** `stopAll`: the graph becomes `StopEverything` of the old one. */
    method StopAll(now: real)
      requires Valid()
      modifies this
      ensures Valid()
      ensures Nodes() == StopEverything(old(Nodes()), isDrum, now)
      ensures activeOscillators == map[]
      ensures hasContext == old(hasContext) && masterGain == old(masterGain) && isInitialized == old(isInitialized)
      ensures instrument == old(instrument) && isDrum == old(isDrum)
    {
      ghost var target := StopEverything(Nodes(), isDrum, now);
      while activeOscillators.Keys != {}
        invariant Valid()
        invariant StopEverything(Nodes(), isDrum, now) == target
        invariant hasContext == old(hasContext) && masterGain == old(masterGain) && isInitialized == old(isInitialized)
        invariant instrument == old(instrument) && isDrum == old(isDrum)
        decreases |activeOscillators.Keys|
      {
        var k :| k in activeOscillators.Keys;
        StopVoiceOf(k, now);
      }
      assert activeOscillators == map[];
      StopEverythingDone(Nodes(), isDrum, now);
    }

    /** One turn of the `stopAll` loop: `stopNotes` on a key that has a
        voice, which brings the engine one voice closer to what stopping
        all of them gives. */
    method StopVoiceOf(k: string, now: real)
      requires Valid() && k in activeOscillators
      modifies this
      ensures Valid()
      ensures StopEverything(Nodes(), isDrum, now) == StopEverything(old(Nodes()), isDrum, now)
      ensures activeOscillators.Keys == old(activeOscillators.Keys) - {k}
      ensures hasContext == old(hasContext) && masterGain == old(masterGain) && isInitialized == old(isInitialized)
      ensures instrument == old(instrument) && isDrum == old(isDrum)
    {
      StopVoiceKeepsStopEverything(Nodes(), k, isDrum, now);
      StopNotes(k, now);
    }

    /** `dispose`: all voices are stopped, then the context and the master
        gain are dropped and the engine is no longer initialised. */
    method Dispose(now: real)
      requires Valid()
      modifies this
      ensures Valid()
      ensures Nodes() == StopEverything(old(Nodes()), isDrum, now)
      ensures !hasContext && masterGain == None && !isInitialized
      ensures instrument == old(instrument) && isDrum == old(isDrum)
    {
      StopAll(now);
      hasContext := false;
      masterGain := None;
      isInitialized := false;
    }
  }
}
