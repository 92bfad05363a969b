/**
 * The two kinds of playback object the page handlers drive: an HTML audio
 * element and a three.js animation clip action.
 */
module Media {

  /** An audio element as the handlers see it: whether it plays, and `currentTime`. */
  datatype Channel = Channel(playing: bool, time: real)
  {
    /** `play()`; the promise it returns (and its rejection) is not modelled. */
    function Play(): Channel { this.(playing := true) }

    /** `pause()`: playback stops, the position is kept. */
    function Pause(): Channel { this.(playing := false) }

    /** `currentTime = 0`. */
    function Rewind(): Channel { this.(time := 0.0) }
  }

  /** A freshly constructed audio element: paused at the start. */
  const Silent: Channel := Channel(false, 0.0)

  /** A clip action: whether its mixer schedules it, and its local time. */
  datatype Action = Action(running: bool, time: real)
  {
    /** `reset()`: back to the start of the clip. */
    function Reset(): Action { this.(time := 0.0) }

    /** `play()`: scheduled on the mixer. */
    function Play(): Action { this.(running := true) }

    /** `stop()`: deactivated on the mixer, which also resets the action. */
    function Stop(): Action { Action(false, 0.0) }
  }

  /** An action as `mixer.clipAction(clip)` first creates it. */
  const Idle: Action := Action(false, 0.0)

  /** Running from the start of its clip. */
  predicate Restarted(a: Action) { a.running && a.time == 0.0 }

  /** Not scheduled, and rewound. */
  predicate Halted(a: Action) { !a.running && a.time == 0.0 }

  /** Every action of a list after `reset(); play()`. */
  function RestartAll(acts: seq<Action>): (r: seq<Action>)
    ensures |r| == |acts|
    ensures forall i :: 0 <= i < |r| ==> Restarted(r[i])
  {
    seq(|acts|, i requires 0 <= i < |acts| => acts[i].Reset().Play())
  }

  /** Every action of a list after `stop()`. */
  function StopAll(acts: seq<Action>): (r: seq<Action>)
    ensures |r| == |acts|
    ensures forall i :: 0 <= i < |r| ==> Halted(r[i])
  {
    seq(|acts|, i requires 0 <= i < |acts| => acts[i].Stop())
  }

  /** The actions of a new mixer after `mixer.clipAction(clip).reset().play()` for each clip. */
  function StartedMixer(clips: nat): (r: seq<Action>)
    ensures |r| == clips
    ensures forall i :: 0 <= i < |r| ==> Restarted(r[i])
  {
    RestartAll(seq(clips, _ => Idle))
  }

  /** `actions.forEach(action => { action.reset(); action.play(); })` */
  method ResetAndPlayEach(acts: seq<Action>) returns (r: seq<Action>)
    ensures r == RestartAll(acts)
  {
    r := acts;
    var i := 0;
    while i < |r|
      invariant 0 <= i <= |r| == |acts|
      invariant forall k :: 0 <= k < i ==> r[k] == acts[k].Reset().Play()
      invariant forall k :: i <= k < |r| ==> r[k] == acts[k]
    {
      r := r[i := r[i].Reset().Play()];
      i := i + 1;
    }
  }

  /** `actions.forEach(action => action.stop())` */
  method StopEach(acts: seq<Action>) returns (r: seq<Action>)
    ensures r == StopAll(acts)
  {
    r := acts;
    var i := 0;
    while i < |r|
      invariant 0 <= i <= |r| == |acts|
      invariant forall k :: 0 <= k < i ==> r[k] == acts[k].Stop()
      invariant forall k :: i <= k < |r| ==> r[k] == acts[k]
    {
      r := r[i := r[i].Stop()];
      i := i + 1;
    }
  }

  /** A new mixer, then `model.animations.forEach(clip => mixer.clipAction(clip).reset().play())`. */
  method StartMixer(clips: nat) returns (r: seq<Action>)
    ensures r == StartedMixer(clips)
  {
    r := [];
    var i := 0;
    while i < clips
      invariant 0 <= i <= clips && |r| == i
      invariant forall k :: 0 <= k < i ==> r[k] == Idle.Reset().Play()
    {
      r := r + [Idle.Reset().Play()];
      i := i + 1;
    }
  }
}
