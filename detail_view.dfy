/**
 * The detail screen of one catalog entry: whether the entry is the one
 * playing, its copy of the entry kept in step with the catalog, and the
 * favourite, delete and play actions. Layout, the edit sheet and the
 * confirmation alert are left out.
 */
module DetailView {
  import opened Optional
  import opened Models
  import opened DataStore
  import opened Player

  /** `isCurrentMeditationPlaying`: the player is on an entry with this identifier and playing. */
  predicate IsCurrentMeditationPlaying(current: Option<MeditationOption>, isPlaying: bool, m: MeditationOption) {
    current.Some? && current.value.id == m.id && isPlaying
  }

  /**
   * The playing indicator of the screen depends on the entry's identifier
   * only: it survives the screen's copy being refreshed from the catalog,
   * holds after the play button, and is off once the player pauses.
   */
  lemma PlayingIndicatorByIdentifier(current: Option<MeditationOption>, isPlaying: bool,
                                     m: MeditationOption, s: seq<MeditationOption>)
    ensures IsCurrentMeditationPlaying(current, isPlaying, Refreshed(s, m))
            == IsCurrentMeditationPlaying(current, isPlaying, m)
    ensures IsCurrentMeditationPlaying(Some(m), true, Refreshed(s, m))
    ensures !IsCurrentMeditationPlaying(current, false, m)
  {
  }

  /** The screen's copy after a catalog change: the first entry with its identifier, if there still is one. */
  function Refreshed(s: seq<MeditationOption>, m: MeditationOption): (r: MeditationOption)
    ensures r.id == m.id
    ensures FirstIndex(s, m.id).None? ==> r == m
    ensures FirstIndex(s, m.id).Some? ==> r == s[FirstIndex(s, m.id).value]
  {
    match FirstIndex(s, m.id)
    case None => m
    case Some(i) => s[i]
  }

  /** The favourite action's record: the screen's copy with only the favourite mark flipped. */
  function FavoriteToggled(m: MeditationOption): (r: MeditationOption)
    ensures r.isFavorite == !m.isFavorite
    ensures r.(isFavorite := m.isFavorite) == m
  {
    m.(isFavorite := !m.isFavorite)
  }

  /**
   * Marking an entry as favourite and unmarking it again, with the screen's
   * copy refreshed from the catalog in between, restores the catalog. The
   * first toggle changes exactly the entry's favourite mark.
   */
  lemma {:induction false} FavoriteTwiceRestores(s: seq<MeditationOption>, m: MeditationOption)
    requires FirstIndex(s, m.id).Some? && s[FirstIndex(s, m.id).value] == m
    ensures var s1 := Replaced(s, FavoriteToggled(m));
      && s1[FirstIndex(s, m.id).value].isFavorite == !m.isFavorite
      && Refreshed(s1, m) == FavoriteToggled(m)
      && Replaced(s1, FavoriteToggled(Refreshed(s1, m))) == s
  {
    var s1 := Replaced(s, FavoriteToggled(m));
    var i := FirstIndex(s, m.id).value;
    FirstIndexSameIds(s, s1, m.id);
    assert Refreshed(s1, m) == FavoriteToggled(m);
    var s2 := Replaced(s1, FavoriteToggled(Refreshed(s1, m)));
    assert FavoriteToggled(FavoriteToggled(m)) == m;
    assert forall j :: 0 <= j < |s| ==> s2[j] == s[j];
  }

  /**
   * The position the delete action removes: that of the first entry with
   * the identifier, or position 0 when there is none, which then removes
   * an unrelated entry.
   */
  function DeleteTarget(s: seq<MeditationOption>, id: Uuid): (r: nat)
    ensures FirstIndex(s, id).Some? ==> r == FirstIndex(s, id).value && s[r].id == id
    ensures FirstIndex(s, id).None? ==> r == 0
  {
    match FirstIndex(s, id)
    case None => 0
    case Some(i) => i
  }

  class DetailScreen {
    var meditation: MeditationOption
    const store: Store
    const player: PlayerViewModel

    constructor (meditation: MeditationOption, store: Store, player: PlayerViewModel)
      ensures this.meditation == meditation && this.store == store && this.player == player
    {
      this.meditation := meditation;
      this.store := store;
      this.player := player;
    }

    /** `onReceive` of the catalog: the screen's copy follows the catalog while its entry is in it. */
    method OnCatalogChanged()
      modifies this`meditation
      ensures meditation == Refreshed(store.meditationOptions, old(meditation))
    {
      var index := store.FindFirst(meditation.id);
      if index.Some? {
        meditation := store.meditationOptions[index.value];
      }
    }

    /** The favourite action: the catalog entry becomes the screen's copy with the mark flipped. */
    method ToggleFavorite()
      modifies store
      ensures store.meditationOptions == Replaced(old(store.meditationOptions), FavoriteToggled(meditation))
      ensures store.userData == old(store.userData) && store.userPreferences == old(store.userPreferences)
    {
      var updated := meditation.(isFavorite := !meditation.isFavorite);
      store.UpdateMeditation(updated);
    }

    /**
     * The delete action: one entry is removed, the first with the screen's
     * identifier, or the first of the catalog when none has it. An empty
     * catalog is out of range and cannot be deleted from.
     */
    method DeleteMeditation()
      requires |store.meditationOptions| > 0
      modifies store
      ensures var s, i := old(store.meditationOptions), DeleteTarget(old(store.meditationOptions), meditation.id);
        i < |s| && store.meditationOptions == s[..i] + s[i + 1..]
      ensures |store.meditationOptions| == |old(store.meditationOptions)| - 1
      ensures store.userData == old(store.userData) && store.userPreferences == old(store.userPreferences)
    {
      var found := store.FindFirst(meditation.id);
      var index := found.GetOr(0);
      RemoveOne(store.meditationOptions, index);
      store.DeleteMeditation({index});
    }

    /**
     * The play button: the player is given this entry when it has none,
     * then the entry's session starts; afterwards this entry is the one
     * playing.
     */
    method PlayTapped(now: Instant)
      requires player.music.Valid()
      modifies player, player.music
      ensures player.Valid()
      ensures player.currentMeditation == Some(meditation) && player.startTime == Some(now)
      ensures player.timeRemaining == meditation.duration && player.totalDuration == meditation.duration
      ensures IsCurrentMeditationPlaying(player.currentMeditation, player.isPlaying, meditation)
    {
      if player.currentMeditation.None? {
        player.currentMeditation := Some(meditation);
      }
      player.StartMeditation(meditation, now);
    }
  }
}
