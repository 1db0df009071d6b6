/**
 * PreferenceForm: the one-page preference form.  Its two multi-select
 * fields are toggled one option at a time, and the self-description has a
 * required, minimum-length rule.
 */
module PreferenceForm {
  import opened Wrappers
  import opened Selection

  /** The fields `toggleSelection` is called with. */
  datatype ListField = MovieGenres | FragrancePreferences

  const DescriptionRequired: string := "자신을 표현하는 문장을 입력해주세요"
  const DescriptionTooShort: string := "최소 10자 이상 입력해주세요"
  const MinDescriptionLength: nat := 10

  /** The form's values. */
  class Form {
    var movieGenres: seq<string>
    var musicTitle: string
    var musicArtist: string
    var youtubeLink: string
    var musicRecommendations: string
    var fragrancePreferences: seq<string>
    var personalDescription: string

    /** The form's default values. */
    constructor()
      ensures movieGenres == [] && fragrancePreferences == []
      ensures musicTitle == "" && musicArtist == "" && youtubeLink == ""
      ensures musicRecommendations == "" && personalDescription == ""
    {
      movieGenres, fragrancePreferences := [], [];
      musicTitle, musicArtist, youtubeLink, musicRecommendations, personalDescription := "", "", "", "", "";
    }

    /**
     * toggleSelection: the watched list with `value` toggled is written to
     * the named field, and to no other.
     */
    method ToggleSelection(value: string, currentArray: seq<string>, fieldName: ListField)
      modifies this
      ensures fieldName == MovieGenres ==> movieGenres == Toggle(currentArray, value) && fragrancePreferences == old(fragrancePreferences)
      ensures fieldName == FragrancePreferences ==> fragrancePreferences == Toggle(currentArray, value) && movieGenres == old(movieGenres)
      ensures musicTitle == old(musicTitle) && musicArtist == old(musicArtist) && youtubeLink == old(youtubeLink)
      ensures musicRecommendations == old(musicRecommendations) && personalDescription == old(personalDescription)
    {
      var newArray := Toggle(currentArray, value);
      match fieldName
      case MovieGenres => movieGenres := newArray;
      case FragrancePreferences => fragrancePreferences := newArray;
    }
  }

  /** The validation message for `personalDescription`, None when it is accepted. */
  function DescriptionError(text: string): (r: Option<string>)
    ensures r.None? <==> |text| >= MinDescriptionLength
    ensures text == "" ==> r == Some(DescriptionRequired)
    ensures text != "" && |text| < MinDescriptionLength ==> r == Some(DescriptionTooShort)
  {
    if text == "" then Some(DescriptionRequired)
    else if |text| < MinDescriptionLength then Some(DescriptionTooShort)
    else None
  }
}
