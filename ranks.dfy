// chess/Rank.h: the rank enumeration and the character decoder `charRank`.
module Ranks {

  /** `enum Rank { One, Two, Three, Four, Five, Six, Seven, Eight }`. */
  datatype Rank = One | Two | Three | Four | Five | Six | Seven | Eight

  /** The underlying value of a rank enumerator. */
  function RankValue(r: Rank): (v: int)
    ensures 0 <= v < 8
  {
    match r
    case One => 0
    case Two => 1
    case Three => 2
    case Four => 3
    case Five => 4
    case Six => 5
    case Seven => 6
    case Eight => 7
  }

  /** The enumerator with a given value: the conversion `Rank(v)` for an
      in-range `v`. */
  function RankOf(v: int): (r: Rank)
    requires 0 <= v < 8
    ensures RankValue(r) == v
  {
    [One, Two, Three, Four, Five, Six, Seven, Eight][v]
  }

  /** `charRank(c)`: the distance of `c` from '1'. No range check is made. */
  function CharRank(c: char): (v: int)
    ensures '1' <= c <= '8' <==> 0 <= v < 8
  {
    c as int - '1' as int
  }

  /** The enumerators One..Eight take exactly the values 0..7, one each. */
  lemma RankValueBijective(r: Rank, q: Rank, v: int)
    ensures RankValue(r) == RankValue(q) ==> r == q
    ensures 0 <= v < 8 ==> RankValue(RankOf(v)) == v
    ensures RankOf(RankValue(r)) == r
  {
  }

  /** '1'..'8' decode to the enumerators One..Eight in order. */
  lemma CharRankLetters(r: Rank)
    ensures CharRank("12345678"[RankValue(r)]) == RankValue(r)
  {
  }

  /** `charRank` is strictly increasing, hence injective. */
  lemma CharRankIncreasing(c: char, d: char)
    requires c < d
    ensures CharRank(c) < CharRank(d)
  {
  }

  /** A character outside '1'..'8', such as a file letter, decodes to a value
      outside the enumeration. */
  lemma CharRankOutOfRange(c: char)
    requires c < '1' || '8' < c
    ensures CharRank(c) < 0 || 7 < CharRank(c)
  {
  }
}
