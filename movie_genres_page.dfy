/** The movie-genres page: the selected genres, toggled one click at a time. */
module MovieGenres {
  import opened Wrappers
  import opened Selection
  import opened Survey

  class MovieGenresPage {
    var selected: seq<string>

    constructor()
      ensures selected == []
    {
      selected := [];
    }

    /** toggleGenre */
    method ToggleGenre(genre: string)
      modifies this
      ensures selected == Toggle(old(selected), genre)
      ensures NoDuplicates(old(selected)) ==> NoDuplicates(selected)
    {
      if NoDuplicates(selected) {
        ToggleKeepsNoDuplicates(selected, genre);
      }
      selected := Toggle(selected, genre);
    }

    /** The "Next" button is disabled exactly when no genre is selected. */
    predicate NextDisabled(): (d: bool)
      reads this
      ensures d <==> forall g :: g !in selected
    {
      assert |selected| > 0 ==> selected[0] in selected;
      |selected| == 0
    }

    /**
     * handleNext: with no genre selected it does nothing (None); otherwise
     * the selection is written under `movieGenres` and nothing else changes.
     */
    method HandleNext(survey: Record) returns (saved: Option<Record>)
      ensures saved.None? <==> NextDisabled()
      ensures saved.Some? ==> saved.value == Put(survey, MovieGenresKey, Names(selected))
      ensures saved.Some? ==> forall k :: k in survey && k != MovieGenresKey ==> saved.value[k] == survey[k]
    {
      if |selected| == 0 {
        return None;
      }
      saved := Some(Put(survey, MovieGenresKey, Names(selected)));
    }
  }
}
