/** The like toggle of the social feed: a post's `liked_by` list gains the liker when absent and
    loses every occurrence of the liker when present. */
module Feed {
  import opened Schema

  /** `s` with every occurrence of `x` removed, the other elements kept in order
      (`liked_by.filter(id => id !== x)`). */
  function Without(s: seq<ObjectId>, x: ObjectId): (r: seq<ObjectId>)
    ensures x !in r
    ensures forall y :: y != x ==> (y in r <==> y in s)
    ensures |r| <= |s|
  {
    if s == [] then []
    else (if s[0] == x then [] else [s[0]]) + Without(s[1..], x)
  }

  /** Removing an identity that is not there changes nothing. */
  lemma {:induction false} WithoutAbsent(s: seq<ObjectId>, x: ObjectId)
    requires x !in s
    ensures Without(s, x) == s
    decreases |s|
  {
    if s != [] {
      WithoutAbsent(s[1..], x);
    }
  }

  /** An occurrence of `x` appended at the end is removed with the others. */
  lemma {:induction false} WithoutAppended(s: seq<ObjectId>, x: ObjectId)
    ensures Without(s + [x], x) == Without(s, x)
    decreases |s|
  {
    if s == [] {
      assert [x][1..] == [];
    } else {
      assert (s + [x])[1..] == s[1..] + [x];
      WithoutAppended(s[1..], x);
    }
  }

  /** The `liked_by` list after user `x` presses like: `x` appended when absent, removed (every
      occurrence) when present; nobody else's like is touched. */
  function Toggled(s: seq<ObjectId>, x: ObjectId): (r: seq<ObjectId>)
    ensures x in r <==> x !in s
    ensures forall y :: y != x ==> (y in r <==> y in s)
    ensures x !in s ==> |r| == |s| + 1 && r[..|s|] == s && r[|s|] == x
    ensures x in s ==> |r| < |s|
  {
    if x in s then
      assert s[0] == x || x in s[1..];
      WithoutShrinks(s, x);
      Without(s, x)
    else s + [x]
  }

  /** Removing an identity that occurs shortens the list. */
  lemma {:induction false} WithoutShrinks(s: seq<ObjectId>, x: ObjectId)
    requires x in s
    ensures |Without(s, x)| < |s|
    decreases |s|
  {
    if s[0] != x {
      assert x in s[1..];
      WithoutShrinks(s[1..], x);
    }
  }

  /** Two presses of like by the same user restore the set of likers; starting from "not liked"
      they restore the list exactly, and starting from "liked" they leave the liker once, at the end. */
  lemma ToggleTwice(s: seq<ObjectId>, x: ObjectId)
    ensures forall y :: y in Toggled(Toggled(s, x), x) <==> y in s
    ensures x !in s ==> Toggled(Toggled(s, x), x) == s
    ensures x in s ==> Toggled(Toggled(s, x), x) == Without(s, x) + [x]
  {
    if x !in s {
      WithoutAppended(s, x);
      WithoutAbsent(s, x);
    }
  }

  /** The text of the notification a like sends to the post's author. */
  function LikeNotice(likerName: string): (text: string)
    ensures |text| > |likerName| && text[..|likerName|] == likerName
  {
    likerName + " liked your post"
  }
}
