/** 32-bit unsigned time and its wrap-around comparisons. */
module Words {
  const WORD: int := 0x1_0000_0000
  const HALF: int := 0x8000_0000

  type Word = x: int | 0 <= x < 0x1_0000_0000

  const INFINITE_TIME: Word := 0xFFFF_FFFF

  /** Unsigned addition with wrap-around. */
  function Add(a: Word, b: int): (r: Word) {
    (a + b) % WORD
  }

  /** `(long)(a - b)`: the unsigned difference read as a signed number. */
  function Diff(a: Word, b: Word): (d: int)
    ensures -HALF <= d < HALF
    ensures d == a - b || d == a - b + WORD || d == a - b - WORD
  {
    if a - b >= HALF then a - b - WORD
    else if a - b < -HALF then a - b + WORD
    else a - b
  }

  predicate TimeGt(a: Word, b: Word) { Diff(a, b) > 0 }
  predicate TimeLt(a: Word, b: Word) { Diff(a, b) < 0 }
}
