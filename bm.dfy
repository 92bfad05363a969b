/**
 * The lazy variant of the storybook: a model is loaded on its marker's first
 * detection and kept in a cache keyed by page id; each anchor builds a fresh
 * mixer on every detection; a process-wide registry holds the active model,
 * mixer, narration and tap sound.
 */
module BM {
  import opened Common
  import opened Media
  import PageTable

  /** What the loader resolves to, reduced to the model's number of animation clips. */
  datatype Asset = Asset(clips: nat)

  /** A loaded model: its clips, the transform set at load, its scene's placement and its tap sound. */
  datatype Model = Model(clips: nat, scale: Vec3, position: Vec3, attached: bool, visible: bool,
                         rotX: real, rotY: real, interactionAudio: bool)

  /** One anchor's closure variables: its page record, its current mixer (if any), narration and tap sound. */
  datatype Anchor = Anchor(config: PageTable.PageConfig, mixer: Option<seq<Action>>,
                           narration: Channel, sfx: Option<Channel>)

  /**
   * The cache, the anchors and the registry. A registry slot names the page
   * whose object it holds: `activeModel == Some(p)` means the slot holds the
   * cached model of p, `activeSFX == Some(p)` the tap sound of anchor p.
   */
  datatype State = State(cache: map<PageId, Model>, anchors: seq<Anchor>,
                         activeModel: Option<PageId>, activeMixer: Option<PageId>,
                         activeNarration: Option<PageId>, activeSFX: Option<PageId>)

  /** The slots name objects that exist: a cached model, an anchor that has a tap sound. */
  predicate Wf(s: State)
  {
    && |s.anchors| == PageCount
    && (s.activeModel.Some? ==> s.activeModel.value in s.cache)
    && (s.activeSFX.Some? ==> s.anchors[s.activeSFX.value].sfx.Some?)
    && (forall p :: p in s.cache && s.cache[p].interactionAudio ==> s.anchors[p].sfx.Some?)
  }

  /** Only the registered narration can be playing. */
  predicate NarrationExclusive(s: State)
    requires Wf(s)
  {
    forall q: PageId :: s.anchors[q].narration.playing ==> s.activeNarration == Some(q)
  }

  /** Anchor q has a tap sound and it is playing. */
  predicate SfxPlaying(s: State, q: PageId)
    requires |s.anchors| == PageCount
  {
    s.anchors[q].sfx.Some? && s.anchors[q].sfx.value.playing
  }

  /** Only the registered tap sound can be playing. */
  predicate SfxExclusive(s: State)
    requires Wf(s)
  {
    forall q: PageId :: SfxPlaying(s, q) ==> s.activeSFX == Some(q)
  }

  /** The invariant every handler keeps. */
  predicate Inv(s: State)
  {
    && Wf(s)
    && s.activeMixer == s.activeModel
    && s.activeNarration == s.activeModel
    && (s.activeModel.Some? ==>
          var a := s.activeModel.value;
          s.anchors[a].mixer.Some? && s.cache[a].attached && s.cache[a].visible)
    && (forall q: PageId :: s.anchors[q].sfx.Some? <==> s.anchors[q].config.sfxPath.Some?)
    && NarrationExclusive(s)
    && SfxExclusive(s)
  }

  /** At most one narration plays. */
  lemma OneNarration(s: State, p: PageId, q: PageId)
    requires Inv(s)
    requires s.anchors[p].narration.playing && s.anchors[q].narration.playing
    ensures p == q
  {
  }

  /** At most one tap sound plays. */
  lemma OneTapSound(s: State, p: PageId, q: PageId)
    requires Inv(s)
    requires SfxPlaying(s, p) && SfxPlaying(s, q)
    ensures p == q
  {
  }

  /** The anchor `setupLazyAnchor` builds for a page record: no mixer, a narration, a tap sound if configured. */
  function InitAnchor(cfg: PageTable.PageConfig): Anchor
  {
    Anchor(cfg, None, Silent, if cfg.sfxPath.Some? then Some(Silent) else None)
  }

  /** After every anchor is set up: empty cache, empty registry, nothing playing. */
  function Init(): (s: State)
    ensures Inv(s) && s.cache == map[]
    ensures s.activeModel.None? && s.activeNarration.None? && s.activeSFX.None?
    ensures forall q: PageId :: s.anchors[q].config == PageTable.Pages[q]
  {
    PageTable.IdsAreIndices();
    State(map[], seq(PageCount, q requires 0 <= q < PageCount => InitAnchor(PageTable.Pages[q])),
          None, None, None, None)
  }

  /** A model as `loadModel` builds it on a miss: the loaded clips, the page's scale and position. */
  function FreshModel(asset: Asset, scale: Vec3, position: Vec3): Model
  {
    Model(asset.clips, scale, position, false, true, 0.0, 0.0, false)
  }

  /**
   * The cache after `loadModel(id, ...)`: a hit keeps the cache, a miss adds the
   * freshly loaded model. Entries are never replaced or evicted.
   */
  function Load(cache: map<PageId, Model>, id: PageId, asset: Asset, scale: Vec3, position: Vec3)
    : (c: map<PageId, Model>)
    ensures c.Keys == cache.Keys + {id}
    ensures forall q :: q in cache ==> c[q] == cache[q]
    ensures id !in cache ==> c[id] == FreshModel(asset, scale, position)
  {
    if id in cache then cache else cache[id := FreshModel(asset, scale, position)]
  }

  /** Once a model is cached, later loads of its id return that same model, whatever they would load. */
  lemma LoadKeepsFirst(cache: map<PageId, Model>, id: PageId, a1: Asset, a2: Asset,
                       s1: Vec3, p1: Vec3, s2: Vec3, p2: Vec3)
    ensures var c := Load(cache, id, a1, s1, p1);
            Load(c, id, a2, s2, p2) == c
  {
  }

  /** Pause and rewind anchor q's narration. */
  function SilenceNarration(anchors: seq<Anchor>, q: PageId): (r: seq<Anchor>)
    requires |anchors| == PageCount
    ensures |r| == PageCount
    ensures r[q] == anchors[q].(narration := Channel(false, 0.0))
    ensures forall k: PageId :: k != q ==> r[k] == anchors[k]
  {
    anchors[q := anchors[q].(narration := anchors[q].narration.Pause().Rewind())]
  }

  /** Pause and rewind anchor q's tap sound, if it has one. */
  function SilenceSfx(anchors: seq<Anchor>, q: PageId): (r: seq<Anchor>)
    requires |anchors| == PageCount
    ensures |r| == PageCount
    ensures anchors[q].sfx.Some? ==> r[q] == anchors[q].(sfx := Some(Channel(false, 0.0)))
    ensures anchors[q].sfx.None? ==> r[q] == anchors[q]
    ensures forall k: PageId :: k != q ==> r[k] == anchors[k]
  {
    if anchors[q].sfx.Some?
    then anchors[q := anchors[q].(sfx := Some(anchors[q].sfx.value.Pause().Rewind()))]
    else anchors
  }

  /**
   * `onTargetFound` of page p once `loadModel` has resolved (the load result
   * `asset` is used only on a cache miss): stop and rewind the registered
   * narration, attach and show the model, give the anchor a new mixer with every
   * clip restarted, install the anchor's tap sound on the model, register the
   * model, mixer and narration and restart the narration from 0.
   */
  function Found(s: State, p: PageId, asset: Asset): (t: State)
    requires Wf(s)
    ensures Wf(t)
    ensures t.cache.Keys == s.cache.Keys + {p}
    ensures forall q :: q in s.cache && q != p ==> t.cache[q] == s.cache[q]
    ensures var m := t.cache[p];
            && m.attached && m.visible && m.interactionAudio == s.anchors[p].sfx.Some?
            && (p in s.cache ==> m.(attached := s.cache[p].attached, visible := s.cache[p].visible,
                                    interactionAudio := s.cache[p].interactionAudio) == s.cache[p])
            && (p !in s.cache ==> m.clips == asset.clips && m.scale == s.anchors[p].config.scale
                                  && m.position == s.anchors[p].config.position
                                  && m.rotX == 0.0 && m.rotY == 0.0)
    ensures t.anchors[p].mixer.Some? && |t.anchors[p].mixer.value| == t.cache[p].clips
    ensures forall i :: 0 <= i < |t.anchors[p].mixer.value| ==> Restarted(t.anchors[p].mixer.value[i])
    ensures t.anchors[p].narration == Channel(true, 0.0)
    ensures t.activeModel == Some(p) && t.activeMixer == Some(p) && t.activeNarration == Some(p)
    ensures t.activeSFX == s.activeSFX
    ensures s.activeNarration.Some? && s.activeNarration.value != p ==>
              t.anchors[s.activeNarration.value].narration == Channel(false, 0.0)
    ensures forall q: PageId :: t.anchors[q].sfx == s.anchors[q].sfx && t.anchors[q].config == s.anchors[q].config
    ensures forall q: PageId :: q != p ==>
              t.anchors[q] == (if Some(q) == s.activeNarration then s.anchors[q].(narration := Channel(false, 0.0))
                               else s.anchors[q])
  {
    var cfg := s.anchors[p].config;
    var cache1 := Load(s.cache, p, asset, cfg.scale, cfg.position);
    var model := cache1[p];
    var anchors1 := if s.activeNarration.Some? then SilenceNarration(s.anchors, s.activeNarration.value)
                    else s.anchors;
    var model' := model.(attached := true, visible := true, interactionAudio := anchors1[p].sfx.Some?);
    var anchors2 := anchors1[p := anchors1[p].(mixer := Some(StartedMixer(model.clips)),
                                               narration := anchors1[p].narration.Rewind().Play())];
    State(cache1[p := model'], anchors2, Some(p), Some(p), Some(p), s.activeSFX)
  }

  /**
   * `onTargetLost` of page p. Before p's model is cached it does nothing.
   * Otherwise it detaches and hides the model, drops the anchor's mixer,
   * pauses and rewinds p's narration, clears the model and mixer slots if they
   * hold p's, stops, rewinds and clears the registered tap sound whichever page
   * it belongs to, and clears the narration slot if it holds p's.
   */
  function Lost(s: State, p: PageId): (t: State)
    requires Wf(s)
    ensures Wf(t)
    ensures p !in s.cache ==> t == s
    ensures p in s.cache ==> t.cache == s.cache[p := s.cache[p].(attached := false, visible := false)]
    ensures p in s.cache ==> t.anchors[p].mixer.None? && t.anchors[p].narration == Channel(false, 0.0)
    ensures p in s.cache && s.activeModel == Some(p) ==> t.activeModel.None? && t.activeMixer.None?
    ensures p in s.cache && s.activeModel != Some(p) ==> t.activeModel == s.activeModel && t.activeMixer == s.activeMixer
    ensures p in s.cache && s.activeNarration == Some(p) ==> t.activeNarration.None?
    ensures p in s.cache && s.activeNarration != Some(p) ==> t.activeNarration == s.activeNarration
    ensures p in s.cache ==> t.activeSFX.None?
    ensures p in s.cache && s.activeSFX.Some? ==> t.anchors[s.activeSFX.value].sfx == Some(Channel(false, 0.0))
    ensures forall q: PageId :: t.anchors[q].sfx.Some? == s.anchors[q].sfx.Some? && t.anchors[q].config == s.anchors[q].config
    ensures p in s.cache && s.activeSFX != Some(p) ==> t.anchors[p].sfx == s.anchors[p].sfx
    ensures p in s.cache ==> forall q: PageId :: q != p ==>
              t.anchors[q] == (if Some(q) == s.activeSFX then s.anchors[q].(sfx := Some(Channel(false, 0.0)))
                               else s.anchors[q])
  {
    if p !in s.cache then s
    else
      var model := s.cache[p];
      var cache1 := s.cache[p := model.(attached := false, visible := false)];
      var anchors1 := s.anchors[p := s.anchors[p].(mixer := None)];
      var anchors2 := SilenceNarration(anchors1, p);
      var (am, amx) := if s.activeModel == Some(p) then (None, None) else (s.activeModel, s.activeMixer);
      var anchors3 := if s.activeSFX.Some? then SilenceSfx(anchors2, s.activeSFX.value) else anchors2;
      var (anchors4, an) := if s.activeNarration == Some(p) then (SilenceNarration(anchors3, p), None)
                            else (anchors3, s.activeNarration);
      State(cache1, anchors4, am, amx, an, None)
  }

  /** The tap would play a sound: a model is registered, the ray hits it, and it carries a tap sound. */
  predicate Fires(s: State, hit: bool)
    requires Wf(s)
  {
    s.activeModel.Some? && hit && s.cache[s.activeModel.value].interactionAudio
  }

  /**
   * The global pointer-down handler; `hit` is the ray test against the active
   * model's subtree. Without a registered model, without a hit or without a tap
   * sound on the model nothing happens. Otherwise the registered tap sound is
   * stopped and rewound, the model's tap sound is registered and played from 0.
   */
  function Tap(s: State, hit: bool): (t: State)
    requires Wf(s)
    ensures Wf(t)
    ensures t.cache == s.cache && t.activeModel == s.activeModel && t.activeMixer == s.activeMixer
    ensures t.activeNarration == s.activeNarration
    ensures forall q: PageId :: t.anchors[q].narration == s.anchors[q].narration
                              && t.anchors[q].mixer == s.anchors[q].mixer
                              && t.anchors[q].sfx.Some? == s.anchors[q].sfx.Some?
                              && t.anchors[q].config == s.anchors[q].config
    ensures !Fires(s, hit) ==> t == s
    ensures Fires(s, hit) ==> t.activeSFX == s.activeModel
                              && t.anchors[s.activeModel.value].sfx == Some(Channel(true, 0.0))
    ensures Fires(s, hit) && s.activeSFX.Some? && s.activeSFX != s.activeModel ==>
              t.anchors[s.activeSFX.value].sfx == Some(Channel(false, 0.0))
    ensures forall q: PageId :: Some(q) != s.activeModel && Some(q) != s.activeSFX ==> t.anchors[q] == s.anchors[q]
  {
    if !Fires(s, hit) then s
    else
      var a := s.activeModel.value;
      var anchors1 := if s.activeSFX.Some? then SilenceSfx(s.anchors, s.activeSFX.value) else s.anchors;
      var anchors2 := anchors1[a := anchors1[a].(sfx := Some(anchors1[a].sfx.value.Rewind().Play()))];
      s.(anchors := anchors2, activeSFX := Some(a))
  }

  /** Turn the registered model by the given angles (about y, then about x). */
  function Rotate(s: State, aboutY: real, aboutX: real): (t: State)
    requires Wf(s) && s.activeModel.Some?
    ensures Wf(t)
    ensures var a := s.activeModel.value;
            && t.cache.Keys == s.cache.Keys
            && t.cache[a].rotY == s.cache[a].rotY + aboutY && t.cache[a].rotX == s.cache[a].rotX + aboutX
            && t.cache[a].(rotX := s.cache[a].rotX, rotY := s.cache[a].rotY) == s.cache[a]
            && (forall q :: q in s.cache && q != a ==> t.cache[q] == s.cache[q])
    ensures t.anchors == s.anchors && t.activeModel == s.activeModel && t.activeMixer == s.activeMixer
    ensures t.activeNarration == s.activeNarration && t.activeSFX == s.activeSFX
  {
    var a := s.activeModel.value;
    var m := s.cache[a];
    s.(cache := s.cache[a := m.(rotY := m.rotY + aboutY, rotX := m.rotX + aboutX)])
  }

  /** A marker-tracking or pointer event; a found carries what its model load resolved to. */
  datatype Event = TargetFound(page: PageId, asset: Asset) | TargetLost(page: PageId) | PointerDown(hit: bool)

  function Step(s: State, e: Event): (t: State)
    requires Wf(s)
    ensures Wf(t)
  {
    match e
    case TargetFound(p, asset) => Found(s, p, asset)
    case TargetLost(p) => Lost(s, p)
    case PointerDown(hit) => Tap(s, hit)
  }

  lemma FoundKeepsInv(s: State, p: PageId, asset: Asset)
    requires Inv(s)
    ensures Inv(Found(s, p, asset))
  {
    var t := Found(s, p, asset);
    forall q: PageId | t.anchors[q].sfx.Some? && t.anchors[q].sfx.value.playing
      ensures t.activeSFX == Some(q)
    {
      assert t.anchors[q].sfx == s.anchors[q].sfx;
    }
  }

  lemma LostKeepsInv(s: State, p: PageId)
    requires Inv(s)
    ensures Inv(Lost(s, p))
  {
    var t := Lost(s, p);
    if p in s.cache {
      forall q: PageId | t.anchors[q].narration.playing
        ensures t.activeNarration == Some(q)
      {
        if q != p && Some(q) != s.activeSFX {
          assert t.anchors[q] == s.anchors[q];
        } else if q != p {
          assert t.anchors[q].narration == s.anchors[q].narration;
        }
      }
      forall q: PageId | t.anchors[q].sfx.Some?
        ensures !t.anchors[q].sfx.value.playing
      {
        if q != p && Some(q) != s.activeSFX {
          assert t.anchors[q] == s.anchors[q];
        }
      }
    }
  }

  lemma TapKeepsInv(s: State, hit: bool)
    requires Inv(s)
    ensures Inv(Tap(s, hit))
  {
    var t := Tap(s, hit);
    if Fires(s, hit) {
      forall q: PageId | t.anchors[q].sfx.Some? && Some(q) != s.activeModel
        ensures !t.anchors[q].sfx.value.playing
      {
        if Some(q) != s.activeSFX {
          assert t.anchors[q] == s.anchors[q];
        }
      }
    }
  }

  lemma RotateKeepsInv(s: State, aboutY: real, aboutX: real)
    requires Inv(s) && s.activeModel.Some?
    ensures Inv(Rotate(s, aboutY, aboutX))
  {
  }

  lemma StepKeepsInv(s: State, e: Event)
    requires Inv(s)
    ensures Inv(Step(s, e))
  {
    match e
    case TargetFound(p, asset) => FoundKeepsInv(s, p, asset);
    case TargetLost(p) => LostKeepsInv(s, p);
    case PointerDown(hit) => TapKeepsInv(s, hit);
  }

  /** The state after handling the events in order. */
  function Run(s: State, events: seq<Event>): (t: State)
    requires Wf(s)
    ensures Wf(t)
    decreases |events|
  {
    if events == [] then s else Run(Step(s, events[0]), events[1..])
  }

  lemma {:induction false} RunKeepsInv(s: State, events: seq<Event>)
    requires Inv(s)
    ensures Inv(Run(s, events))
    decreases |events|
  {
    if events != [] {
      StepKeepsInv(s, events[0]);
      RunKeepsInv(Step(s, events[0]), events[1..]);
    }
  }

  /** Over any event sequence from start-up, at most one narration and at most one tap sound play. */
  lemma ExclusivePlayback(events: seq<Event>, p: PageId, q: PageId)
    ensures (Run(Init(), events).anchors[p].narration.playing &&
             Run(Init(), events).anchors[q].narration.playing) ==> p == q
    ensures (SfxPlaying(Run(Init(), events), p) && SfxPlaying(Run(Init(), events), q)) ==> p == q
  {
    RunKeepsInv(Init(), events);
  }

  /** A late `lost` of a superseded page leaves the newer page's model, mixer and narration registered. */
  lemma StaleLostKeepsNewer(s: State, p: PageId, q: PageId, a1: Asset, a2: Asset)
    requires Wf(s) && p != q
    ensures var t := Lost(Found(Found(s, p, a1), q, a2), p);
            && t.activeModel == Some(q) && t.activeMixer == Some(q) && t.activeNarration == Some(q)
            && t.anchors[q].narration == Channel(true, 0.0) && t.cache[q].visible
  {
  }

  /**
   * Unlike the other slots, the tap-sound slot is cleared by any page's `lost`:
   * a late `lost` of a superseded page silences the active page's tap sound.
   */
  lemma StaleLostSilencesTapSound(s: State, p: PageId, q: PageId, a1: Asset, a2: Asset)
    requires Inv(s) && p != q && s.anchors[q].config.sfxPath.Some?
    ensures var u := Tap(Found(Found(s, p, a1), q, a2), true);
            u.anchors[q].sfx == Some(Channel(true, 0.0))
            && var t := Lost(u, p);
               t.activeModel == Some(q) && t.activeSFX.None? && t.anchors[q].sfx == Some(Channel(false, 0.0))
  {
    FoundKeepsInv(s, p, a1);
    var f := Found(Found(s, p, a1), q, a2);
    FoundKeepsInv(Found(s, p, a1), q, a2);
    assert Fires(f, true);
  }

  /** A `lost` that races ahead of the first load changes nothing. */
  lemma LostBeforeLoadIsNoop(p: PageId)
    ensures Lost(Init(), p) == Init()
  {
  }

  /**
   * The module-level cache and registry and the fifteen anchors' closure
   * state, updated in place by the handlers.
   */
  class Book {
    var cache: map<PageId, Model>
    var anchors: seq<Anchor>
    var activeModel: Option<PageId>
    var activeMixer: Option<PageId>
    var activeNarration: Option<PageId>
    var activeSFX: Option<PageId>

    function View(): State
      reads this
    {
      State(cache, anchors, activeModel, activeMixer, activeNarration, activeSFX)
    }

    ghost predicate Valid()
      reads this
    {
      Inv(View())
    }

    constructor ()
      ensures Valid() && View() == Init()
    {
      var s := Init();
      cache, anchors := s.cache, s.anchors;
      activeModel, activeMixer, activeNarration, activeSFX := s.activeModel, s.activeMixer, s.activeNarration, s.activeSFX;
    }

    /** `loadModel`: a cached model is returned as it is; otherwise the loaded one is placed and cached. */
    method LoadModel(id: PageId, asset: Asset, scale: Vec3, position: Vec3) returns (m: Model)
      modifies this`cache
      ensures cache == Load(old(cache), id, asset, scale, position)
      ensures m == cache[id]
      ensures id in old(cache) ==> m == old(cache)[id] && cache == old(cache)
    {
      if id in cache {
        return cache[id];
      }
      m := Model(asset.clips, Vec3(0.0, 0.0, 0.0), Vec3(0.0, 0.0, 0.0), false, true, 0.0, 0.0, false);
      m := m.(scale := scale);
      m := m.(position := position);
      cache := cache[id := m];
    }

    method OnTargetFound(p: PageId, asset: Asset)
      requires Valid()
      modifies this
      ensures Valid() && View() == Found(old(View()), p, asset)
    {
      ghost var s := View();
      var cfg := anchors[p].config;
      var model := LoadModel(p, asset, cfg.scale, cfg.position);
      if activeNarration.Some? {
        var q := activeNarration.value;
        anchors := anchors[q := anchors[q].(narration := anchors[q].narration.Pause())];
        anchors := anchors[q := anchors[q].(narration := anchors[q].narration.Rewind())];
      }
      assert anchors == if s.activeNarration.Some? then SilenceNarration(s.anchors, s.activeNarration.value)
                        else s.anchors;
      model := model.(attached := true, visible := true);
      var mixer := StartMixer(model.clips);
      anchors := anchors[p := anchors[p].(mixer := Some(mixer))];
      model := model.(interactionAudio := anchors[p].sfx.Some?);
      cache := cache[p := model];
      activeModel := Some(p);
      activeMixer := Some(p);
      activeNarration := Some(p);
      anchors := anchors[p := anchors[p].(narration := anchors[p].narration.Rewind().Play())];
      assert View() == Found(s, p, asset);
      FoundKeepsInv(s, p, asset);
    }

    method OnTargetLost(p: PageId)
      requires Valid()
      modifies this
      ensures Valid() && View() == Lost(old(View()), p)
    {
      ghost var s := View();
      if p !in cache {
        return;
      }
      var model := cache[p];
      cache := cache[p := model.(attached := false, visible := false)];
      if anchors[p].mixer.Some? {
        anchors := anchors[p := anchors[p].(mixer := None)];
      }
      anchors := anchors[p := anchors[p].(narration := anchors[p].narration.Pause().Rewind())];
      if activeModel == Some(p) {
        activeModel := None;
        activeMixer := None;
      }
      if activeSFX.Some? {
        var q := activeSFX.value;
        anchors := anchors[q := anchors[q].(sfx := Some(anchors[q].sfx.value.Pause().Rewind()))];
        activeSFX := None;
      }
      if activeNarration == Some(p) {
        anchors := anchors[p := anchors[p].(narration := anchors[p].narration.Pause().Rewind())];
        activeNarration := None;
      }
      assert View() == Lost(s, p);
      LostKeepsInv(s, p);
    }

    method HandlePointerDown(hit: bool)
      requires Valid()
      modifies this
      ensures Valid() && View() == Tap(old(View()), hit)
    {
      ghost var s := View();
      TapKeepsInv(s, hit);
      if activeModel.None? {
        return;
      }
      var a := activeModel.value;
      if hit && cache[a].interactionAudio {
        if activeSFX.Some? {
          var q := activeSFX.value;
          anchors := anchors[q := anchors[q].(sfx := Some(anchors[q].sfx.value.Pause().Rewind()))];
        }
        activeSFX := Some(a);
        anchors := anchors[a := anchors[a].(sfx := Some(anchors[a].sfx.value.Rewind().Play()))];
      }
      assert View() == Tap(s, hit);
    }
  }
}
