/**
 * The fragrance-preferences page: each fragrance family is liked,
 * disliked or neither, kept as two lists that each click updates.
 */
module FragrancePreferences {
  import opened Selection
  import opened Survey

  /** Where a fragrance stands; a click moves it one step round. */
  datatype Choice = Unselected | Liked | Disliked

  /** none → liked → disliked → none */
  function Cycle(c: Choice): (d: Choice)
    ensures d != c
  {
    match c
    case Unselected => Liked
    case Liked => Disliked
    case Disliked => Unselected
  }

  /** Three clicks bring a fragrance back to where it was. */
  lemma ThreeClicksReturn(c: Choice)
    ensures Cycle(Cycle(Cycle(c))) == c
  {
  }

  predicate Disjoint(a: seq<string>, b: seq<string>) {
    forall x :: x in a ==> x !in b
  }

  class FragrancePage {
    var liked: seq<string>
    var disliked: seq<string>

    constructor()
      ensures liked == [] && disliked == []
    {
      liked, disliked := [], [];
    }

    /** The two lists share no name and repeat none. */
    predicate Valid()
      reads this
    {
      Disjoint(liked, disliked) && NoDuplicates(liked) && NoDuplicates(disliked)
    }

    function ChoiceOf(f: string): Choice
      reads this
    {
      if f in liked then Liked else if f in disliked then Disliked else Unselected
    }

    /** The stored lists, when there are any, replace the empty ones. */
    method Load(survey: Record)
      modifies this
      ensures liked == if LikedFragrancesKey in survey && survey[LikedFragrancesKey].Names? then survey[LikedFragrancesKey].names else old(liked)
      ensures disliked == if DislikedFragrancesKey in survey && survey[DislikedFragrancesKey].Names? then survey[DislikedFragrancesKey].names else old(disliked)
    {
      if LikedFragrancesKey in survey && survey[LikedFragrancesKey].Names? {
        liked := survey[LikedFragrancesKey].names;
      }
      if DislikedFragrancesKey in survey && survey[DislikedFragrancesKey].Names? {
        disliked := survey[DislikedFragrancesKey].names;
      }
    }

    /** toggleLikedFragrance: liking a fragrance also takes it off the disliked list. */
    method ToggleLiked(f: string)
      modifies this
      ensures liked == Toggle(old(liked), f)
      ensures disliked == if f in old(liked) then old(disliked) else Remove(old(disliked), f)
      ensures old(Valid()) ==> Valid()
    {
      var wasLiked := f in liked;
      ghost var before := liked;
      if !wasLiked {
        if NoDuplicates(disliked) {
          RemoveKeepsNoDuplicates(disliked, f);
        }
        disliked := Remove(disliked, f);
      }
      if NoDuplicates(before) {
        ToggleKeepsNoDuplicates(before, f);
      }
      liked := Toggle(liked, f);
    }

    /** toggleDislikedFragrance: disliking a fragrance also takes it off the liked list. */
    method ToggleDisliked(f: string)
      modifies this
      ensures disliked == Toggle(old(disliked), f)
      ensures liked == if f in old(disliked) then old(liked) else Remove(old(liked), f)
      ensures old(Valid()) ==> Valid()
    {
      var wasDisliked := f in disliked;
      ghost var before := disliked;
      if !wasDisliked {
        if NoDuplicates(liked) {
          RemoveKeepsNoDuplicates(liked, f);
        }
        liked := Remove(liked, f);
      }
      if NoDuplicates(before) {
        ToggleKeepsNoDuplicates(before, f);
      }
      disliked := Toggle(disliked, f);
    }

    /**
     * The click handler of a fragrance button.  From a valid state it moves
     * the clicked fragrance one step round and leaves every other one as it
     * was.
     */
    method Click(f: string)
      modifies this
      ensures old(Valid()) ==> Valid()
      ensures old(Valid()) ==> ChoiceOf(f) == Cycle(old(ChoiceOf(f)))
      ensures forall g :: g != f ==> (g in liked <==> g in old(liked)) && (g in disliked <==> g in old(disliked))
    {
      var isLiked := f in liked;
      var isDisliked := f in disliked;
      if !isLiked && !isDisliked {
        ToggleLiked(f);
      } else if isLiked {
        ToggleLiked(f);
        ToggleDisliked(f);
      } else if isDisliked {
        ToggleDisliked(f);
      }
    }

    /** The "Next" button is disabled exactly when nothing is liked or disliked. */
    predicate NextDisabled(): (d: bool)
      reads this
      ensures d <==> forall n :: n !in liked && n !in disliked
    {
      assert |liked| > 0 ==> liked[0] in liked;
      assert |disliked| > 0 ==> disliked[0] in disliked;
      |liked| == 0 && |disliked| == 0
    }

    /** handleNext: the two lists are written into the survey record; nothing else in it changes. */
    method HandleNext(survey: Record) returns (saved: Record)
      ensures saved == Put(Put(survey, LikedFragrancesKey, Names(liked)), DislikedFragrancesKey, Names(disliked))
      ensures saved.Keys == survey.Keys + {LikedFragrancesKey, DislikedFragrancesKey}
      ensures saved[LikedFragrancesKey] == Names(liked) && saved[DislikedFragrancesKey] == Names(disliked)
      ensures forall k :: k in survey && k != LikedFragrancesKey && k != DislikedFragrancesKey ==> saved[k] == survey[k]
    {
      saved := Put(survey, LikedFragrancesKey, Names(liked));
      saved := Put(saved, DislikedFragrancesKey, Names(disliked));
    }
  }
}
