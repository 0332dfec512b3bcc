// chess/File.h: the file enumeration and the character decoder `charFile`.
module Files {

  /** `enum File { A, B, C, D, E, F, G, H }`. */
  datatype File = A | B | C | D | E | F | G | H

  /** The underlying value of a file enumerator. */
  function FileValue(f: File): (v: int)
    ensures 0 <= v < 8
  {
    match f
    case A => 0
    case B => 1
    case C => 2
    case D => 3
    case E => 4
    case F => 5
    case G => 6
    case H => 7
  }

  /** The enumerator with a given value: the conversion `File(v)` for an
      in-range `v`. */
  function FileOf(v: int): (f: File)
    requires 0 <= v < 8
    ensures FileValue(f) == v
  {
    [A, B, C, D, E, F, G, H][v]
  }

  /** `charFile(c)`: the distance of `c` from 'A'. No range check is made. */
  function CharFile(c: char): (v: int)
    ensures 'A' <= c <= 'H' <==> 0 <= v < 8
  {
    c as int - 'A' as int
  }

  /** The enumerators A..H take exactly the values 0..7, one each. */
  lemma FileValueBijective(f: File, g: File, v: int)
    ensures FileValue(f) == FileValue(g) ==> f == g
    ensures 0 <= v < 8 ==> FileValue(FileOf(v)) == v
    ensures FileOf(FileValue(f)) == f
  {
  }

  /** 'A'..'H' decode to the enumerators A..H in order. */
  lemma CharFileLetters(f: File)
    ensures CharFile("ABCDEFGH"[FileValue(f)]) == FileValue(f)
  {
  }

  /** `charFile` is strictly increasing, hence injective. */
  lemma CharFileIncreasing(c: char, d: char)
    requires c < d
    ensures CharFile(c) < CharFile(d)
  {
  }

  /** Lower-case file letters decode to 32..39, outside the enumeration. */
  lemma CharFileLowerCase(c: char)
    requires 'a' <= c <= 'h'
    ensures 32 <= CharFile(c) <= 39
  {
  }
}
