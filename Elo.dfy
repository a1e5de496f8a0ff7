/**
  The Elo rating function of the name engine (`calculateElo`).

  `Math.pow(10, x)` cannot be written in Dafny for real exponents, so it is a
  parameter of type `Pow10`: a function that returns positive reals, gives
  1 at exponent 0 (10^0 == 1) and gives reciprocals at opposite exponents
  (10^x * 10^-x == 1).  Those are the only facts the model uses.
*/
module Elo {

  type PosReal = r: real | r > 0.0 witness 1.0

  /** The platform's `Math.pow(10, ·)`. */
  type Pow10 = f: real -> PosReal | f(0.0) == 1.0 && Reciprocal(f) witness (x: real) => 1.0 as PosReal

  ghost predicate Reciprocal(f: real -> PosReal) {
    forall x :: f(x) * f(-x) == 1.0
  }

  /** Every name starts at this rating (`START_ELO`). */
  const StartElo: real := 1200.0

  /** The update step (`K_FACTOR`). */
  const KFactor: real := 32.0

  /** Expected score of a player rated `ratingA` against one rated `ratingB`. */
  function Expected(pow: Pow10, ratingA: real, ratingB: real): (e: real)
    ensures 0.0 < e < 1.0
    ensures ratingA == ratingB ==> e == 0.5
  {
    1.0 / (1.0 + pow((ratingB - ratingA) / 400.0))
  }

  /**
    The scores of the two sides for a result: 0 means the first (left) name
    won, 1 the second (right) name; anything else counts as a tie.
  */
  function Scores(resultA: int): (s: (real, real))
    ensures s.0 + s.1 == 1.0
    ensures resultA == 0 ==> s == (1.0, 0.0)
    ensures resultA == 1 ==> s == (0.0, 1.0)
    ensures resultA != 0 && resultA != 1 ==> s == (0.5, 0.5)
  {
    if resultA == 0 then (1.0, 0.0)
    else if resultA == 1 then (0.0, 1.0)
    else (0.5, 0.5)
  }

  /**
    New ratings of two names after one comparison.  Each expected score is
    computed on its own, as the code does, with its own exponentiation.
  */
  function CalculateElo(pow: Pow10, ratingA: real, ratingB: real, resultA: int): (r: (real, real))
    ensures resultA == 0 ==> r.0 > ratingA && r.1 < ratingB
    ensures resultA == 1 ==> r.0 < ratingA && r.1 > ratingB
    ensures resultA != 0 && resultA != 1 && ratingA == ratingB ==> r == (ratingA, ratingB)
    ensures r.0 - ratingA == KFactor * (Scores(resultA).0 - Expected(pow, ratingA, ratingB))
    ensures r.1 - ratingB == KFactor * (Scores(resultA).1 - Expected(pow, ratingB, ratingA))
  {
    var expectedA := Expected(pow, ratingA, ratingB);
    var expectedB := Expected(pow, ratingB, ratingA);
    var (scoreA, scoreB) := Scores(resultA);
    (ratingA + KFactor * (scoreA - expectedA), ratingB + KFactor * (scoreB - expectedB))
  }

  /** The result seen from the other side of the comparison. */
  function Mirror(resultA: int): int {
    if resultA == 0 then 1 else if resultA == 1 then 0 else resultA
  }

  /** Swapping the two names and mirroring the result swaps the new ratings. */
  lemma EloSymmetric(pow: Pow10, ratingA: real, ratingB: real, resultA: int)
    ensures var (a, b) := CalculateElo(pow, ratingA, ratingB, resultA);
            CalculateElo(pow, ratingB, ratingA, Mirror(resultA)) == (b, a)
  {
  }

  /** A tie between equally rated names changes neither rating. */
  lemma EloTieAtEqual(pow: Pow10, rating: real)
    ensures CalculateElo(pow, rating, rating, 2) == (rating, rating)
  {
  }

  /** The update is zero-sum: what one name gains, the other loses. */
  lemma EloZeroSum(pow: Pow10, ratingA: real, ratingB: real, resultA: int)
    ensures var (a, b) := CalculateElo(pow, ratingA, ratingB, resultA);
            a - ratingA == -(b - ratingB)
  {
    var d := (ratingB - ratingA) / 400.0;
    assert Reciprocal(pow);
    assert pow(d) * pow(-d) == 1.0;
    assert (ratingA - ratingB) / 400.0 == -d;
    var p := pow(d);
    var q := pow(-d);
    var eA := Expected(pow, ratingA, ratingB);
    var eB := Expected(pow, ratingB, ratingA);
    assert eA == 1.0 / (1.0 + p);
    assert eB == 1.0 / (1.0 + q);
    assert q == 1.0 / p;
    assert 1.0 + q == (p + 1.0) / p;
    assert eB == p / (p + 1.0);
    assert eA + eB == (1.0 + p) / (1.0 + p) == 1.0;
  }

  /** Two names at the start rating: a win moves them to 1216 and 1184. */
  lemma EloFirstVote(pow: Pow10)
    ensures CalculateElo(pow, StartElo, StartElo, 0) == (1216.0, 1184.0)
  {
  }
}
