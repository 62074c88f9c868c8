/** The spoken-languages section (src/components/Languages.tsx) over the
    language table (src/data/languages.ts): a five-star rating per
    language. */
module Languages {
  import opened Seqs
  import opened Text

  /** A rating, as the table's type allows. */
  type Rating = r: nat | 1 <= r <= 5 witness 1

  /** The ratings of Armenian, Russian and English, in table order. */
  const Ratings: seq<Rating> := [5, 4, 4]

  /** The stars `[1, 2, 3, 4, 5]` from `k` on. */
  function StarsFrom(k: nat): (stars: seq<nat>)
    requires 1 <= k <= 6
    ensures |stars| == 6 - k
    ensures forall i :: 0 <= i < |stars| ==> stars[i] == k + i
    decreases 6 - k
  {
    if k == 6 then [] else [k] + StarsFrom(k + 1)
  }

  const Stars: seq<nat> := StarsFrom(1)

  /** A star is filled when its number is at most the rating. */
  predicate Filled(star: nat, rating: nat) {
    star <= rating
  }

  /** Of the stars `k..5`, exactly those up to the rating are filled. */
  lemma {:induction false} FilledCountFrom(k: nat, rating: nat)
    requires 1 <= k <= 6 && rating <= 5
    ensures Count(StarsFrom(k), s => Filled(s, rating)) == if rating >= k then rating - k + 1 else 0
    decreases 6 - k
  {
    if k < 6 {
      FilledCountFrom(k + 1, rating);
      assert StarsFrom(k)[1..] == StarsFrom(k + 1);
    }
  }

  /** Five stars are drawn, the filled ones form a prefix, and exactly
      `rating` of them are filled. */
  lemma StarRow(rating: Rating)
    ensures |Stars| == 5
    ensures forall i :: 0 <= i < 5 ==> (Filled(Stars[i], rating) <==> i < rating)
    ensures Count(Stars, s => Filled(s, rating)) == rating
  {
    FilledCountFrom(1, rating);
  }

  /** The translation key of a rating's level label. */
  function LevelKey(rating: Rating): (key: string)
    ensures "languages.level." <= key
    ensures key[|"languages.level."|..] == NatToString(rating)
  {
    "languages.level." + NatToString(rating)
  }

  /** Different ratings get different level labels. */
  lemma LevelKeysDistinct(r: Rating, s: Rating)
    requires r != s
    ensures LevelKey(r) != LevelKey(s)
  {
    if LevelKey(r) == LevelKey(s) {
      NatToStringInjective(r, s);
    }
  }

  /** The entrance delay of star `star` of the `index`-th card: none under
      reduced motion, staggered otherwise. */
  function StarDelay(reducedMotion: bool, index: nat, star: nat): (d: real)
    requires 1 <= star
    ensures reducedMotion ==> d == 0.0
    ensures !reducedMotion ==> d >= 0.1
  {
    if reducedMotion then 0.0 else (index as real) * 0.15 + (star as real) * 0.1
  }

  /** In the table, Armenian shows five filled stars and the other two
      languages four. */
  lemma TableStars()
    ensures Count(Stars, s => Filled(s, Ratings[0])) == 5
    ensures Count(Stars, s => Filled(s, Ratings[1])) == 4
    ensures Count(Stars, s => Filled(s, Ratings[2])) == 4
  {
    StarRow(Ratings[0]);
    StarRow(Ratings[1]);
    StarRow(Ratings[2]);
  }
}
