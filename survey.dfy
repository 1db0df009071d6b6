/**
 * The survey record the pages keep in local storage under `surveyData`:
 * a JSON object from answer keys to values.
 */
module Survey {
  /** A stored answer: a string, a list of names, or anything else. */
  datatype Value = Text(text: string) | Names(names: seq<string>) | OtherValue

  type Record = map<string, Value>

  const MovieGenresKey: string := "movieGenres"
  const LikedFragrancesKey: string := "likedFragrances"
  const DislikedFragrancesKey: string := "dislikedFragrances"

  /** `surveyData[key] = v`: the key is set, every other key keeps its value. */
  function Put(survey: Record, key: string, v: Value): (r: Record)
    ensures key in r && r[key] == v
    ensures r.Keys == survey.Keys + {key}
    ensures forall k :: k in survey && k != key ==> r[k] == survey[k]
  {
    survey[key := v]
  }
}
