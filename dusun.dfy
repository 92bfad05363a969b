/**
 * The eager variant of the storybook: all fifteen models are loaded and bound
 * to their anchors at start-up, each anchor owns one mixer for the whole
 * session, and a process-wide registry (`activeModel`, `activeMixer`) names the
 * page that was found last and not yet lost.
 */
module Dusun {
  import opened Common
  import opened Media
  import PageTable

  /** What one anchor's closures act on: its model's visibility, its mixer's actions, its audio. */
  datatype Page = Page(visible: bool, actions: seq<Action>, narration: Channel, tapSound: Option<Channel>)

  /** The anchors' state together with the registry; a registry slot names the page whose object it holds. */
  datatype State = State(pages: seq<Page>, activeModel: Option<PageId>, activeMixer: Option<PageId>)

  predicate Wf(s: State) { |s.pages| == PageCount }

  /** What never changes after setup: every page's number of actions and whether it has a tap sound. */
  predicate SameShape(s: State, t: State)
    requires Wf(s) && Wf(t)
  {
    forall q: PageId :: |t.pages[q].actions| == |s.pages[q].actions|
                        && t.pages[q].tapSound.Some? == s.pages[q].tapSound.Some?
  }

  /** The registry's two slots always name the same page, and that page's model is shown. */
  predicate Inv(s: State)
  {
    && Wf(s)
    && s.activeMixer == s.activeModel
    && (s.activeModel.Some? ==> s.pages[s.activeModel.value].visible)
  }

  /** Some page's model is registered and shown, so a tap gets past the first guard. */
  predicate Live(s: State)
    requires Wf(s)
  {
    s.activeModel.Some? && s.pages[s.activeModel.value].visible
  }

  /**
   * The state after start-up, given each model's number of animation clips:
   * every scene is added (and so visible), nothing plays, nothing is registered.
   */
  function Init(clips: seq<nat>): (s: State)
    requires |clips| == PageCount
    ensures Inv(s) && s.activeModel.None?
    ensures forall q: PageId :: s.pages[q].tapSound.Some? <==> q in PageTable.EagerTapSoundPages
    ensures forall q: PageId :: |s.pages[q].actions| == clips[q]
    ensures forall q: PageId :: !s.pages[q].narration.playing
  {
    State(seq(PageCount, q requires 0 <= q < PageCount =>
                Page(true, seq(clips[q], _ => Idle), Silent,
                     if q in PageTable.EagerTapSoundPages then Some(Silent) else None)),
          None, None)
  }

  /**
   * `onTargetFound` of page p: show the model, publish it and its mixer,
   * restart every clip action and the narration. No other page is touched,
   * so another page's narration keeps playing.
   */
  function Found(s: State, p: PageId): (t: State)
    requires Wf(s)
    ensures Wf(t) && SameShape(s, t) && Inv(t)
    ensures t.activeModel == Some(p) && t.activeMixer == Some(p)
    ensures t.pages[p].visible
    ensures forall i :: 0 <= i < |t.pages[p].actions| ==> Restarted(t.pages[p].actions[i])
    ensures t.pages[p].narration == Channel(true, 0.0)
    ensures t.pages[p].tapSound == s.pages[p].tapSound
    ensures forall q: PageId :: q != p ==> t.pages[q] == s.pages[q]
  {
    var pg := s.pages[p];
    State(s.pages[p := pg.(visible := true, actions := RestartAll(pg.actions),
                           narration := pg.narration.Rewind().Play())],
          Some(p), Some(p))
  }

  /**
   * `onTargetLost` of page p: hide the model, clear the registry only if it
   * holds p's model, stop every action, pause the narration (keeping its
   * position), and pause and rewind the tap sound if there is one.
   */
  function Lost(s: State, p: PageId): (t: State)
    requires Wf(s)
    ensures Wf(t) && SameShape(s, t)
    ensures !t.pages[p].visible
    ensures forall i :: 0 <= i < |t.pages[p].actions| ==> Halted(t.pages[p].actions[i])
    ensures !t.pages[p].narration.playing && t.pages[p].narration.time == s.pages[p].narration.time
    ensures s.pages[p].tapSound.Some? ==> t.pages[p].tapSound == Some(Channel(false, 0.0))
    ensures forall q: PageId :: q != p ==> t.pages[q] == s.pages[q]
    ensures s.activeModel == Some(p) ==> t.activeModel.None? && t.activeMixer.None?
    ensures s.activeModel != Some(p) ==> t.activeModel == s.activeModel && t.activeMixer == s.activeMixer
    ensures Inv(s) ==> Inv(t)
  {
    var pg := s.pages[p];
    var pg' := pg.(visible := false, actions := StopAll(pg.actions), narration := pg.narration.Pause(),
                   tapSound := if pg.tapSound.Some? then Some(pg.tapSound.value.Pause().Rewind()) else None);
    if s.activeModel == Some(p) then State(s.pages[p := pg'], None, None)
    else s.(pages := s.pages[p := pg'])
  }

  /**
   * The global pointer-down handler; `hit` is the ray test against the active
   * model's subtree. With no registered or no visible model, or without a hit,
   * nothing happens. On a hit the active model's tap sound restarts from 0 and
   * every action of the active mixer restarts; the registry and all narrations
   * are left as they are. (With a model but no mixer registered, reading the
   * mixer's actions would throw after the sound; that state is unreachable.)
   */
  function Tap(s: State, hit: bool): (t: State)
    requires Wf(s)
    ensures Wf(t) && SameShape(s, t)
    ensures t.activeModel == s.activeModel && t.activeMixer == s.activeMixer
    ensures !Live(s) || !hit ==> t == s
    ensures forall q: PageId :: t.pages[q].visible == s.pages[q].visible
                              && t.pages[q].narration == s.pages[q].narration
    ensures Live(s) && hit && s.pages[s.activeModel.value].tapSound.Some? ==>
              t.pages[s.activeModel.value].tapSound == Some(Channel(true, 0.0))
    ensures Live(s) && hit && s.activeMixer.Some? ==>
              forall i :: 0 <= i < |t.pages[s.activeMixer.value].actions| ==>
                            Restarted(t.pages[s.activeMixer.value].actions[i])
    ensures forall q: PageId :: Some(q) != s.activeModel && Some(q) != s.activeMixer ==> t.pages[q] == s.pages[q]
    ensures Inv(s) ==> Inv(t)
  {
    if !Live(s) || !hit then s
    else
      var a := s.activeModel.value;
      var pages1 := if s.pages[a].tapSound.Some?
                    then s.pages[a := s.pages[a].(tapSound := Some(s.pages[a].tapSound.value.Rewind().Play()))]
                    else s.pages;
      if s.activeMixer.None? then s.(pages := pages1)
      else
        var m := s.activeMixer.value;
        s.(pages := pages1[m := pages1[m].(actions := RestartAll(pages1[m].actions))])
  }

  /** A marker-tracking or pointer event. */
  datatype Event = TargetFound(page: PageId) | TargetLost(page: PageId) | PointerDown(hit: bool)

  function Step(s: State, e: Event): (t: State)
    requires Wf(s)
    ensures Wf(t) && SameShape(s, t)
    ensures Inv(s) ==> Inv(t)
  {
    match e
    case TargetFound(p) => Found(s, p)
    case TargetLost(p) => Lost(s, p)
    case PointerDown(hit) => Tap(s, hit)
  }

  /** The state after handling the events in order. */
  function Run(s: State, events: seq<Event>): (t: State)
    requires Wf(s)
    ensures Wf(t) && SameShape(s, t)
    decreases |events|
  {
    if events == [] then s else Run(Step(s, events[0]), events[1..])
  }

  /** Over any event sequence the registry slots agree and the registered model is shown. */
  lemma {:induction false} RunKeepsInv(s: State, events: seq<Event>)
    requires Inv(s)
    ensures Inv(Run(s, events))
    decreases |events|
  {
    if events != [] {
      RunKeepsInv(Step(s, events[0]), events[1..]);
    }
  }

  /**
   * The tap handler's visibility guard never fires in a reachable state: after
   * any events from start-up, a registered model is a shown one.
   */
  lemma RegisteredModelIsShown(clips: seq<nat>, events: seq<Event>)
    requires |clips| == PageCount
    ensures var t := Run(Init(clips), events);
            t.activeModel.Some? ==> Live(t) && t.activeMixer == t.activeModel
  {
    RunKeepsInv(Init(clips), events);
  }

  /** The pages that have a tap sound stay those chosen at start-up, over any events. */
  lemma TapSoundPagesFixed(clips: seq<nat>, events: seq<Event>)
    requires |clips| == PageCount
    ensures forall q: PageId :: Run(Init(clips), events).pages[q].tapSound.Some? <==> q in PageTable.EagerTapSoundPages
  {
  }

  /** A late `lost` of a superseded page leaves the newer page registered. */
  lemma StaleLostKeepsNewer(s: State, p: PageId, q: PageId)
    requires Wf(s) && p != q
    ensures var t := Lost(Found(Found(s, p), q), p);
            t.activeModel == Some(q) && t.activeMixer == Some(q) && t.pages[q].visible
  {
  }

  /** `found` never stops another page's narration: two narrations can play at once. */
  lemma NarrationsOverlap(s: State, p: PageId, q: PageId)
    requires Wf(s) && p != q
    ensures var t := Found(Found(s, p), q);
            t.pages[p].narration.playing && t.pages[q].narration.playing
  {
  }

  /**
   * A narration that has played up to time `tau` is paused by `lost` at `tau`,
   * not rewound; only the next `found` restarts it from 0.
   */
  lemma RefoundRestartsNarration(s: State, p: PageId, tau: real)
    requires Wf(s)
    ensures var u := s.(pages := s.pages[p := s.pages[p].(narration := Channel(true, tau))]);
            && Lost(u, p).pages[p].narration == Channel(false, tau)
            && Found(Lost(u, p), p).pages[p].narration == Channel(true, 0.0)
  {
  }

  /**
   * The module-level registry and the fifteen anchors' closure state, updated
   * in place by the handlers.
   */
  class Book {
    var pages: seq<Page>
    var activeModel: Option<PageId>
    var activeMixer: Option<PageId>

    function View(): State
      reads this
    {
      State(pages, activeModel, activeMixer)
    }

    ghost predicate Valid()
      reads this
    {
      Inv(View())
    }

    /** Start-up, given each model's number of animation clips. */
    constructor (clips: seq<nat>)
      requires |clips| == PageCount
      ensures Valid() && View() == Init(clips)
    {
      var s := Init(clips);
      pages, activeModel, activeMixer := s.pages, s.activeModel, s.activeMixer;
    }

    method OnTargetFound(p: PageId)
      requires Valid()
      modifies this
      ensures Valid() && View() == Found(old(View()), p)
    {
      var pg := pages[p].(visible := true);
      activeModel := Some(p);
      activeMixer := Some(p);
      var acts := ResetAndPlayEach(pg.actions);
      var narration := pg.narration.Rewind();
      narration := narration.Play();
      pages := pages[p := pg.(actions := acts, narration := narration)];
    }

    method OnTargetLost(p: PageId)
      requires Valid()
      modifies this
      ensures Valid() && View() == Lost(old(View()), p)
    {
      var pg := pages[p].(visible := false);
      if activeModel == Some(p) {
        activeModel := None;
        activeMixer := None;
      }
      var acts := StopEach(pg.actions);
      pg := pg.(actions := acts, narration := pg.narration.Pause());
      if pg.tapSound.Some? {
        pg := pg.(tapSound := Some(pg.tapSound.value.Pause().Rewind()));
      }
      pages := pages[p := pg];
    }

    method HandleInteraction(hit: bool)
      requires Valid()
      modifies this
      ensures Valid() && View() == Tap(old(View()), hit)
    {
      if activeModel.None? || !pages[activeModel.value].visible {
        return;
      }
      if hit {
        var a := activeModel.value;
        if pages[a].tapSound.Some? {
          pages := pages[a := pages[a].(tapSound := Some(pages[a].tapSound.value.Rewind().Play()))];
        }
        var m := activeMixer.value;
        var acts := ResetAndPlayEach(pages[m].actions);
        pages := pages[m := pages[m].(actions := acts)];
      }
    }
  }
}
