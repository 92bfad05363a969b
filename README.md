# Storybook marker-page lifecycle

An augmented-reality storybook shows a 3D model and plays a narration when the
camera detects one of fifteen printed pages (image markers 0..14). A tap on the
model plays its tap sound, and a drag rotates it. The repository has two
variants of the same machine, and this project models each on its own:

- **Dusun** (`storybook/coding/dusun/mainDusun.js`) is the eager variant. It
  loads all fifteen models at start-up and gives each anchor one mixer for
  good. A process-wide registry names the active model and mixer. `found`
  shows the page's model, registers it, restarts every clip and restarts the
  narration from 0. `lost` hides the model, stops the clips, pauses the
  narration (without rewinding it) and silences the tap sound. It clears the
  registry only if the registry still holds this page. A tap restarts the
  active model's tap sound and its animations. Each model has its own
  drag-to-rotate and pinch-to-zoom controller, and the zoom factor is clamped
  to [0.5, 2].
- **BM** (`coding/bm/mainBM.js`) is the lazy variant. It has a static table of
  fifteen page records. A model is loaded on its page's first `found` and
  kept in a cache keyed by page id. Each `found` builds a fresh mixer. The
  registry also names the active narration and the active tap sound. A
  `found` silences the previous narration. A tap silences the previous tap
  sound. So over any sequence of events at most one narration and at most one
  tap sound play. One global drag controller rotates whichever model is
  registered at that moment.

How the model is built:

- Every model, mixer, narration and tap sound is identified by its page id.
- An audio element is a `Channel` with a playing flag and a current time.
- A clip action is an `Action` with a running flag and a time.
- A ray hit is a boolean input.
- Pointer positions and pinch distances are exact reals.
- Each variant has:
  - a `State` datatype, with one pure function per handler and lemmas about
    them;
  - a class whose fields are the module and closure variables the source
    reassigns. Every method of that class promises `View() ==
    Handler(old(View()), ...)` and keeps the invariant.
- The `forEach` loops over clip actions are `while` loops checked against
  `Media.RestartAll` and `Media.StopAll`.

Observed behaviour: Dusun's zoom factor starts at 1.0 whatever scale the
model was loaded with, so the first pinch step sets the model to about that
factor, a jump from its configured scale (`DusunGesture.FirstPinchJumps`).

Modules:

| file | module | contents |
|---|---|---|
| common.dfy | Common | `Option`, page ids, points, vectors |
| media.dfy | Media | audio channels, clip actions, the loops over actions |
| pages.dfy | PageTable | BM's page records, Dusun's tap-sound pages |
| dusun.dfy | Dusun | Dusun lifecycle and tap handler |
| dusun_gesture.dfy | DusunGesture | Dusun drag / pinch controller |
| bm.dfy | BM | BM cache, lifecycle and tap handler |
| bm_rotation.dfy | BMRotation | BM drag controller |

## Model

| member | source | states |
|---|---|---|
| Media.RestartAll | storybook/coding/dusun/mainDusun.js:146-149 | every action is reset and played: it runs from time 0; the number of actions is kept |
| Media.StopAll | storybook/coding/dusun/mainDusun.js:163 | every action is stopped: halted and back at time 0 |
| Media.StartedMixer | coding/bm/mainBM.js:71-74 | a new mixer has one action per clip, each reset and running |
| Media.ResetAndPlayEach | storybook/coding/dusun/mainDusun.js:146-149 | the `forEach` loop computes exactly `RestartAll` of its input |
| Media.StopEach | storybook/coding/dusun/mainDusun.js:163 | the `forEach` loop computes exactly `StopAll` of its input |
| Media.StartMixer | coding/bm/mainBM.js:71-74 | the `forEach` over the clips builds exactly `StartedMixer` |
| PageTable.IdsAreIndices | coding/bm/mainBM.js:200-312 | the table has 15 records and record i has id i; so the ids are exactly 0..14 |
| PageTable.IdsDistinct | coding/bm/mainBM.js:200-312 | no two records share an id |
| PageTable.SfxPages | coding/bm/mainBM.js:200-312 | tap-sound paths exist exactly for ids 2, 7, 8, 9, 14; these are the pages Dusun gives an `interactionAudio` (storybook/coding/dusun/mainDusun.js:234-255) |
| Dusun.Init | storybook/coding/dusun/mainDusun.js:122-138 | after set-up each page has one action per clip of its model, no narration plays, a page has a tap sound iff it is 2, 7, 8, 9 or 14, and nothing is registered; the invariant holds |
| Dusun.Found | storybook/coding/dusun/mainDusun.js:140-153 | p's model is shown and p becomes both active model and active mixer, whatever was registered before; every action of p is restarted; p's narration plays from 0; its tap sound and every other page are untouched; the result satisfies the invariant |
| Dusun.Lost | storybook/coding/dusun/mainDusun.js:155-170 | p's model is hidden; every action of p is halted; p's narration is paused with its time kept; p's tap sound, if any, is paused and rewound; the registry is cleared only if it holds p; no other page changes; the invariant is kept |
| Dusun.Tap | storybook/coding/dusun/mainDusun.js:180-208 | with no active model, a hidden active model or no hit, nothing changes; on a hit the active tap sound, if any, plays from 0 and every action of the active mixer restarts; the registry, visibility and narrations stay; the invariant is kept |
| Dusun.RunKeepsInv | storybook/coding/dusun/mainDusun.js:140-208 | over any event sequence the model and mixer slots agree and a registered model is shown |
| Dusun.RegisteredModelIsShown | storybook/coding/dusun/mainDusun.js:181 | from start-up, a registered model is always visible, so the tap handler's visibility guard never fires |
| Dusun.TapSoundPagesFixed | storybook/coding/dusun/mainDusun.js:234-255 | over any events, pages with a tap sound are exactly 2, 7, 8, 9, 14 |
| Dusun.StaleLostKeepsNewer | storybook/coding/dusun/mainDusun.js:158-161 | after found(p), found(q), lost(p) the registry still holds q and q is shown |
| Dusun.NarrationsOverlap | storybook/coding/dusun/mainDusun.js:140-153 | found(p) then found(q) leaves both narrations playing: found does not stop other narrations |
| Dusun.RefoundRestartsNarration | storybook/coding/dusun/mainDusun.js:151-164 | a narration that has played up to any time tau is paused by lost at tau, not rewound; the next found plays it again from 0 |
| Dusun.Book.constructor | storybook/coding/dusun/mainDusun.js:122-138 | the fields start as `Init` |
| Dusun.Book.OnTargetFound | storybook/coding/dusun/mainDusun.js:140-153 | updates the fields in place to `Found` of the old state and keeps the invariant |
| Dusun.Book.OnTargetLost | storybook/coding/dusun/mainDusun.js:155-170 | updates the fields in place to `Lost` of the old state and keeps the invariant |
| Dusun.Book.HandleInteraction | storybook/coding/dusun/mainDusun.js:180-208 | updates the fields in place to `Tap` of the old state and keeps the invariant |
| DusunGesture.Clamp | storybook/coding/dusun/mainDusun.js:98 | the result is in [0.5, 2]; inside the range it is the input; below it is 0.5; above it is 2 |
| DusunGesture.Initial | storybook/coding/dusun/mainDusun.js:50-53 | the factor starts at 1.0, not dragging, no pinch baseline |
| DusunGesture.Start | storybook/coding/dusun/mainDusun.js:56-72 | one touch or a mouse press starts a drag at its position; two touches stop dragging and set the baseline to their distance; other touch counts change nothing |
| DusunGesture.Move | storybook/coding/dusun/mainDusun.js:75-103 | a drag turns the model by 0.01 rad per pixel (x about y, y about x) and advances the previous position; a pinch with a non-zero baseline sets the factor to the clamped `factor + (distance - baseline) * 0.005`, sets the model scale uniformly to it and moves the baseline; otherwise nothing changes; a factor in range stays in range |
| DusunGesture.End | storybook/coding/dusun/mainDusun.js:106-109 | dragging stops and the baseline is dropped; factor, position and model are kept |
| DusunGesture.NoStaleDeltaAfterEnd | storybook/coding/dusun/mainDusun.js:90-108 | after end, a two-finger move changes nothing until a new pinch starts |
| DusunGesture.RestartedPinchUsesNewBaseline | storybook/coding/dusun/mainDusun.js:66-101 | after end and a new pinch start, the first move scales by the change since the new start only |
| DusunGesture.FirstPinchJumps | storybook/coding/dusun/mainDusun.js:50-101 | a model loaded at scale 0.15 is set to scale 1.0 by the first pinch step, even with the fingers still |
| DusunGesture.ReplayKeepsScaleInRange | storybook/coding/dusun/mainDusun.js:98 | any sequence of down, move, up events keeps an in-range factor in [0.5, 2] |
| DusunGesture.ScaleAlwaysInRange | storybook/coding/dusun/mainDusun.js:50-98 | from the initial factor 1.0 the factor stays in [0.5, 2] over any sequence |
| DusunGesture.ZoomRotate.constructor | storybook/coding/dusun/mainDusun.js:49-53 | the fields start as `Initial` |
| DusunGesture.ZoomRotate.HandleStart | storybook/coding/dusun/mainDusun.js:56-72 | updates the fields to `Start` of the old state; the factor stays in range |
| DusunGesture.ZoomRotate.HandleMove | storybook/coding/dusun/mainDusun.js:75-103 | updates the fields and the model transform to `Move` of the old state; the factor stays in range |
| DusunGesture.ZoomRotate.HandleEnd | storybook/coding/dusun/mainDusun.js:106-109 | updates the fields to `End` of the old state |
| BM.Init | coding/bm/mainBM.js:46-58 | after set-up the cache and the registry are empty, nothing plays, anchor q holds page record q and has a tap sound iff its record has a path |
| BM.Load | coding/bm/mainBM.js:29-39 | the cache gains the id and keeps every entry it had; a hit returns the cached model unchanged; a miss stores the loaded model with the given scale and position |
| BM.LoadKeepsFirst | coding/bm/mainBM.js:30-38 | once an id is cached, a later load of it returns the same model, whatever it would have loaded |
| BM.Found | coding/bm/mainBM.js:61-84 | the previously registered narration is paused and rewound; p's model is cached, attached and shown, and carries p's tap sound; p gets a new mixer with every clip restarted; p's narration plays from 0; model, mixer and narration slots all name p; the tap-sound slot is kept; every other anchor is unchanged except that the previously registered narration is paused at 0 |
| BM.Lost | coding/bm/mainBM.js:87-121 | before p is cached nothing changes; otherwise p's model is detached and hidden; its mixer is dropped; its narration is paused at 0; the model, mixer and narration slots are cleared only if they hold p; the tap-sound slot is silenced and cleared whichever page owns it; p's own tap sound changes only if p owns the slot; every other anchor is unchanged except the slot owner's tap sound |
| BM.Tap | coding/bm/mainBM.js:128-150 | without an active model, a hit, or a tap sound on the model, nothing changes; otherwise the previous tap sound stops and rewinds and the model's tap sound is registered and plays from 0; narrations, mixers and the other slots are untouched |
| BM.Rotate | coding/bm/mainBM.js:172-173 | only the active model's rotation changes, by the given angles |
| BM.OneNarration | coding/bm/mainBM.js:63-84 | under the invariant no two narrations play at once |
| BM.OneTapSound | coding/bm/mainBM.js:140-147 | under the invariant no two tap sounds play at once |
| BM.FoundKeepsInv | coding/bm/mainBM.js:61-84 | `found` keeps the invariant: slots agree, the registered model is attached and shown with a mixer, only the registered narration and tap sound can play |
| BM.LostKeepsInv | coding/bm/mainBM.js:87-121 | `lost` keeps the invariant |
| BM.TapKeepsInv | coding/bm/mainBM.js:128-150 | a tap keeps the invariant |
| BM.RotateKeepsInv | coding/bm/mainBM.js:172-173 | a rotation keeps the invariant |
| BM.StepKeepsInv | coding/bm/mainBM.js:60-150 | every handler keeps the invariant |
| BM.RunKeepsInv | coding/bm/mainBM.js:60-150 | any event sequence keeps the invariant |
| BM.ExclusivePlayback | coding/bm/mainBM.js:63-147 | over any sequence of found, lost and tap events from start-up, at most one narration and at most one tap sound play |
| BM.StaleLostKeepsNewer | coding/bm/mainBM.js:102-118 | after found(p), found(q), lost(p) the model, mixer and narration slots still name q, q's narration still plays and q's model is shown |
| BM.StaleLostSilencesTapSound | coding/bm/mainBM.js:107-111 | after found(p), found(q) and a tap on q, a late lost(p) stops q's tap sound and clears the slot while q stays the active model |
| BM.LostBeforeLoadIsNoop | coding/bm/mainBM.js:88 | a lost before any load changes nothing |
| BM.Book.constructor | coding/bm/mainBM.js:27-58 | the fields start as `Init` |
| BM.Book.LoadModel | coding/bm/mainBM.js:29-39 | the cache field becomes `Load` of the old cache; the returned model is the cache entry; on a hit that is the old entry |
| BM.Book.OnTargetFound | coding/bm/mainBM.js:61-84 | updates the fields in place to `Found` of the old state and keeps the invariant |
| BM.Book.OnTargetLost | coding/bm/mainBM.js:87-121 | updates the fields in place to `Lost` of the old state and keeps the invariant |
| BM.Book.HandlePointerDown | coding/bm/mainBM.js:128-150 | updates the fields in place to `Tap` of the old state and keeps the invariant |
| BMRotation.Start | coding/bm/mainBM.js:157-161 | a press starts a drag at its position |
| BMRotation.Move | coding/bm/mainBM.js:163-176 | without a drag or an active model nothing changes; otherwise the active model turns by `dx * 0.01` about y and `dy * 0.01` about x, nothing else in the book changes and the previous position becomes the pointer |
| BMRotation.End | coding/bm/mainBM.js:178 | dragging stops; the previous position is kept |
| BMRotation.MoveKeepsInv | coding/bm/mainBM.js:163-176 | a drag move keeps the book's invariant |
| BMRotation.NoRotationAfterEnd | coding/bm/mainBM.js:164-178 | after end, moves change nothing |
| BMRotation.MovesAccumulate | coding/bm/mainBM.js:169-175 | two moves in one drag turn the model by the total pointer travel |
| BMRotation.Rotation.constructor | coding/bm/mainBM.js:154-155 | not dragging, previous position (0, 0) |
| BMRotation.Rotation.HandleStart | coding/bm/mainBM.js:157-161 | updates the fields to `Start` |
| BMRotation.Rotation.HandleMove | coding/bm/mainBM.js:163-176 | updates the drag fields and the book to `Move` of both and keeps the book's invariant |
| BMRotation.Rotation.HandleEnd | coding/bm/mainBM.js:178 | updates the fields to `End` |

## Left out

- Concurrent loads are not modelled. BM fills its cache only after the load's `await` (coding/bm/mainBM.js:30-37). Two `found`s of one page during a load therefore start two loads, and the second overwrites the first. A `lost` that arrives before the load completes is a no-op, and the `found` then still completes. `BM.Found` treats `found` as one atomic step whose input is the resolved load. So the model does not claim that in-flight loads are de-duplicated.
- BM `mixer.stopAllAction()` (coding/bm/mainBM.js:95) is folded into dropping the mixer. Nothing else references the mixer once the anchor drops it.
- Dusun creates one gesture controller per model, and all fifteen hear every window event (storybook/coding/dusun/mainDusun.js:273-287). The model has one controller bound to one model. It does not model the broadcast, so it does not model fifteen models turning at once.
- MindAR and renderer set-up, lighting, the render loop, `mixer.update(delta)` and clip timing are left out. The same goes for GLTF/Draco decoding. A loaded model is reduced to its number of clips.
- Raycasting and the pointer-to-NDC conversion are reduced to a boolean hit. Likewise, `Math.sqrt` of a pinch is reduced to a non-negative distance input.
- The rejection of `play()` promises is ignored: `play` just sets the playing flag. The `loop` flags of the audio elements and the progress of audio time are left out.
- The unused `sfx` local in Dusun (storybook/coding/dusun/mainDusun.js:134-138) is left out.
- Dusun's per-page model paths, scales and positions are left out (storybook/coding/dusun/mainDusun.js:231-255). Only which pages get a tap sound is kept.
- DusunGesture.Move: a touch event's count of touches and its points come as one input. Dusun's mouse-versus-touch test on the event type is reduced to whether touches are present.
- A Dusun tap whose registry holds a model but no mixer would throw after playing the sound. The invariant rules this case out, but `Dusun.Tap` still models it: the sound plays and the animations do not restart.
