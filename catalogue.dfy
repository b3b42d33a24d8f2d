/** The catalogue page (`AudioList` component): the fixed list of lessons,
    the category filter, and which player is the active one. */
module Catalogue {
  import opened Common

  /** One lesson; its icon is presentation and is not modelled. */
  datatype Track = Track(id: string, title: string, fileName: string, category: string)

  const All := "الكل"
  const Basics := "أساسيات"
  const Skills := "مهارات"
  const Destinations := "وجهات"

  /** The category buttons, in display order. */
  const Categories: seq<string> := [All, Basics, Skills, Destinations]

  /** `audioTracks`, in catalogue order. */
  const Tracks: seq<Track> :=
    [
      Track("1", "مقدمة للباكجات السياحية", "مقدمة للباكدجات السياحية.m4a", Basics),
      Track("2", "شرح الباكج السياحي", "شرح الباكدج السياحي.m4a", Basics),
      Track("3", "التقفيل وهندلة العملاء", "التقفيل وهندلة العملاء.m4a", Skills),
      Track("4", "تركيا", "تركيا.m4a", Destinations),
      Track("5", "ماليزيا", "ماليزيا.m4a", Destinations),
      Track("6", "إندونيسيا", "إندونيسيا.m4a", Destinations),
      Track("7", "تايلاند", "تايلاند.m4a", Destinations),
      Track("8", "فيتنام", "فيتنام.m4a", Destinations),
      Track("9", "روسيا", "روسيا.m4a", Destinations),
      Track("10", "موريشوس", "موريشوس.m4a", Destinations)
    ]

  /** `ts.filter(track => track.category === category)`. */
  function Filter(ts: seq<Track>, category: string): (r: seq<Track>)
    ensures |r| <= |ts|
    ensures forall t :: t in r <==> t in ts && t.category == category
    decreases |ts|
  {
    if ts == [] then []
    else (if ts[0].category == category then [ts[0]] else []) + Filter(ts[1..], category)
  }

  /** Filtering distributes over concatenation; with the one-element case this
      says the filter keeps the matching tracks in their original order. */
  lemma {:induction false} FilterAppend(a: seq<Track>, b: seq<Track>, category: string)
    ensures Filter(a + b, category) == Filter(a, category) + Filter(b, category)
    decreases |a|
  {
    if a == [] {
      assert a + b == b;
    } else {
      assert (a + b)[0] == a[0] && (a + b)[1..] == a[1..] + b;
      FilterAppend(a[1..], b, category);
    }
  }

  /** `filteredTracks`: the whole catalogue for "الكل", else the tracks of the category. */
  function FilteredTracks(selected: string): (shown: seq<Track>)
    ensures selected == All ==> shown == Tracks
    ensures selected != All ==> forall t :: t in shown <==> t in Tracks && t.category == selected
  {
    if selected == All then Tracks else Filter(Tracks, selected)
  }

  /** No two tracks share an id. */
  predicate DistinctIds(ts: seq<Track>)
  {
    forall i, j :: 0 <= i < j < |ts| ==> ts[i].id != ts[j].id
  }

  lemma CatalogueIdsDistinct()
    ensures DistinctIds(Tracks)
  {
  }

  lemma {:induction false} FilterKeepsDistinctIds(ts: seq<Track>, category: string)
    requires DistinctIds(ts)
    ensures DistinctIds(Filter(ts, category))
    decreases |ts|
  {
    if ts != [] {
      var rest := Filter(ts[1..], category);
      FilterKeepsDistinctIds(ts[1..], category);
      forall t | t in rest
        ensures t.id != ts[0].id
      {
        var k :| 1 <= k < |ts| && ts[k] == t;
      }
    }
  }

  lemma {:induction false} FilterKeepsAll(ts: seq<Track>, category: string)
    requires forall i :: 0 <= i < |ts| ==> ts[i].category == category
    ensures Filter(ts, category) == ts
    decreases |ts|
  {
    if ts != [] {
      FilterKeepsAll(ts[1..], category);
    }
  }

  lemma FilterDropsAll(ts: seq<Track>, category: string)
    requires forall i :: 0 <= i < |ts| ==> ts[i].category != category
    ensures Filter(ts, category) == []
  {
  }

  /** Filtering a list made of a block of the category between two blocks of
      other categories keeps exactly the middle block. */
  lemma FilterBlock(before: seq<Track>, block: seq<Track>, after: seq<Track>, category: string)
    requires forall i :: 0 <= i < |before| ==> before[i].category != category
    requires forall i :: 0 <= i < |block| ==> block[i].category == category
    requires forall i :: 0 <= i < |after| ==> after[i].category != category
    ensures Filter(before + block + after, category) == block
  {
    FilterAppend(before + block, after, category);
    FilterAppend(before, block, category);
    FilterDropsAll(before, category);
    FilterKeepsAll(block, category);
    FilterDropsAll(after, category);
  }

  /** "الكل" shows the whole catalogue, ten lessons. */
  lemma AllShowsCatalogue()
    ensures FilteredTracks(All) == Tracks && |FilteredTracks(All)| == 10
  {
  }

  /** The basics are the first two lessons, in catalogue order. */
  lemma BasicsShown()
    ensures FilteredTracks(Basics) == Tracks[..2]
  {
    assert Tracks == [] + Tracks[..2] + Tracks[2..];
    FilterBlock([], Tracks[..2], Tracks[2..], Basics);
  }

  /** The skills category is the third lesson alone. */
  lemma SkillsShown()
    ensures FilteredTracks(Skills) == Tracks[2..3]
  {
    assert Tracks == Tracks[..2] + Tracks[2..3] + Tracks[3..];
    FilterBlock(Tracks[..2], Tracks[2..3], Tracks[3..], Skills);
  }

  /** The destinations are the last seven lessons, in catalogue order. */
  lemma DestinationsShown()
    ensures FilteredTracks(Destinations) == Tracks[3..]
  {
    assert Tracks == Tracks[..3] + Tracks[3..] + [];
    FilterBlock(Tracks[..3], Tracks[3..], [], Destinations);
  }

  /** `getLocalAudioUrl(fileName)`: the bundled asset's URL, or "" when the
      file is not among the bundled assets. */
  function LocalAudioUrl(assets: map<string, string>, fileName: string): (url: string)
    ensures ("./sounds/" + fileName) !in assets ==> url == ""
    ensures ("./sounds/" + fileName) in assets ==> url == assets["./sounds/" + fileName]
  {
    var key := "./sounds/" + fileName;
    if key in assets then assets[key] else ""
  }

  class AudioList {
    var activeTrackId: Option<string>
    var selectedCategory: string

    /** The initial state: no active track, every category shown. */
    constructor ()
      ensures activeTrackId == None && selectedCategory == All
    {
      activeTrackId, selectedCategory := None, All;
    }

    /** The tracks on screen. */
    function Shown(): seq<Track>
      reads this
    {
      FilteredTracks(selectedCategory)
    }

    /** The `isActive` prop a track's player receives. */
    predicate IsActive(t: Track)
      reads this
    {
      activeTrackId == Some(t.id)
    }

    /** A category button. */
    method SelectCategory(category: string)
      modifies this`selectedCategory
      ensures selectedCategory == category
    {
      selectedCategory := category;
    }

    /** `handlePlay(id)`, called by a player's `onPlay`: that track becomes the
        active one and no other track on screen is. */
    method HandlePlay(id: string)
      modifies this`activeTrackId
      ensures activeTrackId == Some(id)
      ensures forall t :: t in Shown() ==> (IsActive(t) <==> t.id == id)
    {
      activeTrackId := Some(id);
    }
  }

  /** Every lesson sits under one of the category buttons other than "الكل",
      so each lesson can be reached through a category filter. */
  lemma EveryLessonHasAButton()
    ensures forall t :: t in Tracks ==> t.category in Categories && t.category != All
  {
  }

  /** Whatever is selected and whichever id is active, at most one player on
      screen receives `isActive`. */
  lemma AtMostOneActive(selected: string, active: Option<string>)
    ensures var shown := FilteredTracks(selected);
            forall i, j :: 0 <= i < |shown| && 0 <= j < |shown| && active == Some(shown[i].id) && active == Some(shown[j].id) ==> i == j
  {
    CatalogueIdsDistinct();
    FilterKeepsDistinctIds(Tracks, selected);
  }
}
