/**
 * Multi-select lists of the survey pages: `filter` to deselect, spread-append
 * to select.  Shared by the movie-genre page, the fragrance page and the
 * preference form.
 */
module Selection {

  /** `s.filter(y => y !== x)` */
  function Remove(s: seq<string>, x: string): (r: seq<string>)
    ensures forall y :: y in r <==> y in s && y != x
    ensures |r| <= |s|
    ensures x !in s ==> r == s
  {
    if s == [] then []
    else if s[0] == x then Remove(s[1..], x)
    else [s[0]] + Remove(s[1..], x)
  }

  predicate NoDuplicates(s: seq<string>) {
    forall i, j :: 0 <= i < j < |s| ==> s[i] != s[j]
  }

  lemma {:induction false} RemoveAppend(a: seq<string>, b: seq<string>, x: string)
    ensures Remove(a + b, x) == Remove(a, x) + Remove(b, x)
  {
    if a == [] {
      assert a + b == b;
    } else {
      assert (a + b)[1..] == a[1..] + b;
      RemoveAppend(a[1..], b, x);
    }
  }

  lemma {:induction false} RemoveTwice(s: seq<string>, x: string)
    ensures Remove(Remove(s, x), x) == Remove(s, x)
  {
  }

  lemma {:induction false} RemoveKeepsNoDuplicates(s: seq<string>, x: string)
    requires NoDuplicates(s)
    ensures NoDuplicates(Remove(s, x))
  {
    if s != [] {
      RemoveKeepsNoDuplicates(s[1..], x);
      var t := Remove(s[1..], x);
      if s[0] != x {
        assert s[0] !in s[1..];
        var r := [s[0]] + t;
        forall i, j | 0 <= i < j < |r| ensures r[i] != r[j] {
          if i == 0 {
            assert r[j] in t;
          } else {
            assert r[i] == t[i - 1] && r[j] == t[j - 1];
          }
        }
      }
    }
  }

  /** `s.includes(x) ? s.filter(y => y !== x) : [...s, x]` */
  function Toggle(s: seq<string>, x: string): (r: seq<string>)
    ensures forall y :: y in r <==> (if y == x then x !in s else y in s)
    ensures x !in s ==> r == s + [x]
    ensures Remove(r, x) == Remove(s, x)
  {
    if x in s then
      RemoveTwice(s, x);
      Remove(s, x)
    else
      RemoveAppend(s, [x], x);
      s + [x]
  }

  /** Toggling never introduces a duplicate. */
  lemma ToggleKeepsNoDuplicates(s: seq<string>, x: string)
    requires NoDuplicates(s)
    ensures NoDuplicates(Toggle(s, x))
  {
    if x in s {
      RemoveKeepsNoDuplicates(s, x);
    } else {
      var r := s + [x];
      forall i, j | 0 <= i < j < |r| ensures r[i] != r[j] {
        if j == |s| {
          assert r[i] in s;
        }
      }
    }
  }

  /** Toggling the same value twice restores the members; from an absent value, the list itself. */
  lemma {:induction false} ToggleTwice(s: seq<string>, x: string)
    ensures forall y :: y in Toggle(Toggle(s, x), x) <==> y in s
    ensures x !in s ==> Toggle(Toggle(s, x), x) == s
  {
    if x !in s {
      RemoveAppend(s, [x], x);
      assert Remove([x], x) == [];
      assert s + [] == s;
    }
  }
}
