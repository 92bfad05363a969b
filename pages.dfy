/**
 * The static configuration of the page-variant storybook: one record per marker,
 * and the set of markers whose model gets a tap sound in the eager variant.
 */
module PageTable {
  import opened Common

  /** One page: marker id, model file, scene scale and position, narration file, optional tap-sound file. */
  datatype PageConfig = PageConfig(id: nat, modelPath: string, scale: Vec3, position: Vec3,
                                   audioPath: string, sfxPath: Option<string>)

  /** The `pages` list handed to `setupLazyAnchor`, in order. */
  const Pages: seq<PageConfig> := [
      PageConfig(0, "../../assets/models/pg1/pg1.glb", Uniform(0.7), Vec3(0.0, -0.4, 0.0),
                 "../../assets/audio/bm/pg1.mp3", None),
      PageConfig(1, "../../assets/models/pg2/pg2.glb", Uniform(0.7), Vec3(0.0, -0.4, 0.0),
                 "../../assets/audio/bm/pg2.mp3", None),
      PageConfig(2, "../../assets/models/pg3/pg3.glb", Uniform(0.15), Vec3(0.0, -0.4, 0.0),
                 "../../assets/audio/bm/pg3.mp3", Some("../../assets/audio/sfx/thunder2.mpeg")),
      PageConfig(3, "../../assets/models/pg4/pg4.glb", Uniform(0.5), Vec3(-0.1, -0.7, -1.0),
                 "../../assets/audio/bm/pg4.mp3", None),
      PageConfig(4, "../../assets/models/pg5/pg5.glb", Uniform(0.3), Vec3(0.0, -0.6, 0.0),
                 "../../assets/audio/bm/pg5.mp3", None),
      PageConfig(5, "../../assets/models/pg6/pg6.glb", Uniform(0.2), Vec3(0.0, -0.4, 0.0),
                 "../../assets/audio/bm/pg6.mp3", None),
      PageConfig(6, "../../assets/models/pg7/pg7.glb", Uniform(1.2), Vec3(0.0, -0.6, 0.0),
                 "../../assets/audio/bm/pg7.mp3", None),
      PageConfig(7, "../../assets/models/pg8/pg8.glb", Uniform(0.1), Vec3(0.0, -0.5, 0.0),
                 "../../assets/audio/bm/pg8.mp3", Some("../../assets/audio/sfx/cheering.mp3")),
      PageConfig(8, "../../assets/models/pg9/pg9.glb", Uniform(0.1), Vec3(0.0, -0.3, 0.0),
                 "../../assets/audio/bm/pg9.mp3", Some("../../assets/audio/sfx/ghost.mp3")),
      PageConfig(9, "../../assets/models/pg10/pg10.glb", Uniform(0.04), Vec3(0.0, -0.4, 0.0),
                 "../../assets/audio/bm/pg10.mp3", Some("../../assets/audio/sfx/rain.mp3")),
      PageConfig(10, "../../assets/models/pg11/page11.glb", Uniform(0.06), Vec3(0.5, -0.5, -1.5),
                 "../../assets/audio/bm/pg11.mp3", None),
      PageConfig(11, "../../assets/models/pg12/pg12.glb", Uniform(0.1), Vec3(0.0, -0.8, 0.0),
                 "../../assets/audio/bm/pg12.mp3", None),
      PageConfig(12, "../../assets/models/pg13/pg13.glb", Uniform(0.1), Vec3(0.0, -0.8, 0.0),
                 "../../assets/audio/bm/pg13.mp3", None),
      PageConfig(13, "../../assets/models/pg14/pg14.glb", Uniform(0.1), Vec3(0.0, -0.4, 0.0),
                 "../../assets/audio/bm/pg14.mp3", None),
      PageConfig(14, "../../assets/models/pg15/pg15.glb", Uniform(0.12), Vec3(0.0, -0.4, 0.0),
                 "../../assets/audio/bm/pg15.mp3", Some("../../assets/audio/sfx/peace.mp3"))
    ]

  /** The ids of the pages that carry a tap-sound path. */
  function SfxIds(): set<nat>
  {
    set i | 0 <= i < |Pages| && Pages[i].sfxPath.Some? :: Pages[i].id
  }

  /**
   * The anchors to which the eager variant attaches an `interactionAudio`
   * (page3, page8, page9, page10 and page15 are set up on anchors 2, 7, 8, 9 and 14).
   */
  const EagerTapSoundPages: set<PageId> := {2, 7, 8, 9, 14}

  /** The table has one record per marker, and record i is marker i. */
  lemma IdsAreIndices()
    ensures |Pages| == PageCount
    ensures forall i :: 0 <= i < |Pages| ==> Pages[i].id == i
  {
  }

  /** Marker ids are pairwise distinct. */
  lemma IdsDistinct()
    ensures forall i, j :: 0 <= i < j < |Pages| ==> Pages[i].id != Pages[j].id
  {
    IdsAreIndices();
  }

  /** A tap sound exists exactly for ids 2, 7, 8, 9 and 14, the same pages as in the eager variant. */
  lemma SfxPages()
    ensures SfxIds() == {2, 7, 8, 9, 14}
    ensures forall p: PageId :: Pages[p].sfxPath.Some? <==> p in EagerTapSoundPages
  {
    IdsAreIndices();
    forall n | n in SfxIds() ensures n in {2, 7, 8, 9, 14} {
      var i :| 0 <= i < |Pages| && Pages[i].sfxPath.Some? && Pages[i].id == n;
    }
    forall n | n in {2, 7, 8, 9, 14} ensures n in SfxIds() {
      assert Pages[n].sfxPath.Some? && Pages[n].id == n;
    }
  }
}
