/** Café ratings: the overall score a rating stores when saved, and the
    averages the reviews page shows. Scores are stars from 1 to 5; the
    averages are exact rationals. */
module Ratings {
  import opened Wrappers

  /** The four starred criteria of one rating. */
  datatype Scores = Scores(food: int, service: int, atmosphere: int, cleanliness: int)

  predicate InRange(s: Scores) {
    1 <= s.food <= 5 && 1 <= s.service <= 5 && 1 <= s.atmosphere <= 5 && 1 <= s.cleanliness <= 5
  }

  function Sum4(s: Scores): int {
    s.food + s.service + s.atmosphere + s.cleanliness
  }

  /** The mean of the four criteria. */
  function OverallRating(s: Scores): (r: real)
    ensures 4.0 * r == Sum4(s) as real
    ensures InRange(s) ==> 1.0 <= r <= 5.0
  {
    Sum4(s) as real / 4.0
  }

  /** The rating the tests make: food 5, service 4, atmosphere 5,
      cleanliness 4 gives 4.5. */
  lemma OverallRatingExample()
    ensures OverallRating(Scores(5, 4, 5, 4)) == 4.5
  {
  }

  /** A stored rating; only the fields the computation reads are kept.
      The overall rating has no value until the rating is first saved. */
  class CafeRating {
    var scores: Scores
    var overallRating: Option<real>

    /** A new, unsaved rating with its four scores and no overall figure. */
    constructor (scores: Scores)
      ensures this.scores == scores && overallRating == None
    {
      this.scores := scores;
      overallRating := None;
    }

    /** `CafeRating.save`: the overall rating is recomputed from the four
        criteria on every save. */
    method Save()
      modifies this
      ensures scores == old(scores)
      ensures overallRating == Some(OverallRating(scores))
    {
      overallRating := Some((scores.food + scores.service + scores.atmosphere + scores.cleanliness) as real / 4.0);
    }
  }

  // ---------------------------------------------------------------------
  // The reviews page
  // ---------------------------------------------------------------------

  /** `sum(criterion(r) for r in ratings)`. */
  function Total(ratings: seq<Scores>, criterion: Scores -> int): int {
    if ratings == [] then 0 else Total(ratings[..|ratings| - 1], criterion) + criterion(ratings[|ratings| - 1])
  }

  /** The sum of the stored overall ratings. */
  function TotalOverall(ratings: seq<Scores>): real {
    if ratings == [] then 0.0 else TotalOverall(ratings[..|ratings| - 1]) + OverallRating(ratings[|ratings| - 1])
  }

  function Food(s: Scores): int { s.food }
  function Service(s: Scores): int { s.service }
  function Atmosphere(s: Scores): int { s.atmosphere }
  function Cleanliness(s: Scores): int { s.cleanliness }

  datatype Averages = Averages(food: real, service: real, atmosphere: real, cleanliness: real, overall: real)

  /** `reviews`: nothing to show without ratings; otherwise each criterion
      total divided by the number of ratings, and the overall figure as the
      four totals over four times that number. */
  function ReviewAverages(ratings: seq<Scores>): (r: Option<Averages>)
    ensures r.None? <==> ratings == []
    ensures r.Some? ==>
      var n := |ratings| as real;
      && r.value.food == Total(ratings, Food) as real / n
      && r.value.service == Total(ratings, Service) as real / n
      && r.value.atmosphere == Total(ratings, Atmosphere) as real / n
      && r.value.cleanliness == Total(ratings, Cleanliness) as real / n
      && r.value.overall * 4.0 * n
         == (Total(ratings, Food) + Total(ratings, Service) + Total(ratings, Atmosphere) + Total(ratings, Cleanliness)) as real
  {
    if ratings == [] then None
    else
      var n := |ratings|;
      var food, service := Total(ratings, Food), Total(ratings, Service);
      var atmosphere, cleanliness := Total(ratings, Atmosphere), Total(ratings, Cleanliness);
      Some(Averages(food as real / n as real, service as real / n as real,
                    atmosphere as real / n as real, cleanliness as real / n as real,
                    (food + service + atmosphere + cleanliness) as real / (n * 4) as real))
  }

  /** Four times the summed overall ratings is the sum of the four criterion
      totals. */
  lemma {:induction false} TotalOverallIsTotals(ratings: seq<Scores>)
    ensures 4.0 * TotalOverall(ratings)
      == (Total(ratings, Food) + Total(ratings, Service) + Total(ratings, Atmosphere) + Total(ratings, Cleanliness)) as real
  {
    if ratings != [] {
      TotalOverallIsTotals(ratings[..|ratings| - 1]);
    }
  }

  /** The page's overall figure is the mean of the stored overall
      ratings. */
  lemma OverallIsMeanOfRatings(ratings: seq<Scores>)
    requires ratings != []
    ensures ReviewAverages(ratings).value.overall == TotalOverall(ratings) / |ratings| as real
  {
    var sum := Total(ratings, Food) + Total(ratings, Service) + Total(ratings, Atmosphere) + Total(ratings, Cleanliness);
    var n := |ratings|;
    assert ReviewAverages(ratings).value.overall == sum as real / (n * 4) as real;
    TotalOverallIsTotals(ratings);
    QuarterMean(sum as real, TotalOverall(ratings), n as real);
  }

  /** A sum over `4n` is a quarter of that sum over `n`. */
  lemma QuarterMean(sum: real, quarter: real, n: real)
    requires n > 0.0 && 4.0 * quarter == sum
    ensures sum / (n * 4.0) == quarter / n
  {
  }

  /** The page's overall figure is also the mean of its four criterion
      averages. */
  lemma OverallIsMeanOfAverages(ratings: seq<Scores>)
    requires ratings != []
    ensures var a := ReviewAverages(ratings).value;
      4.0 * a.overall == a.food + a.service + a.atmosphere + a.cleanliness
  {
    var a := ReviewAverages(ratings).value;
    var f, s, t, c := Total(ratings, Food) as real, Total(ratings, Service) as real,
                      Total(ratings, Atmosphere) as real, Total(ratings, Cleanliness) as real;
    SumOfMeans(a.overall, f, s, t, c, |ratings| as real);
  }

  /** Four sums over `4n` put together are the four means over `n` put
      together, divided by four. */
  lemma SumOfMeans(overall: real, f: real, s: real, t: real, c: real, n: real)
    requires n > 0.0 && overall * 4.0 * n == f + s + t + c
    ensures 4.0 * overall == f / n + s / n + t / n + c / n
  {
    var sum := f + s + t + c;
    assert (4.0 * overall) * n == sum;
    assert f / n + s / n + t / n + c / n == sum / n;
  }

  /** One to five stars per criterion keep a total between one and five
      times the number of ratings. */
  lemma {:induction false} TotalBounds(ratings: seq<Scores>, criterion: Scores -> int)
    requires forall i :: 0 <= i < |ratings| ==> 1 <= criterion(ratings[i]) <= 5
    ensures |ratings| <= Total(ratings, criterion) <= 5 * |ratings|
  {
    if ratings != [] {
      var init := ratings[..|ratings| - 1];
      assert forall i :: 0 <= i < |init| ==> init[i] == ratings[i];
      TotalBounds(init, criterion);
    }
  }

  /** With every score between 1 and 5 each average is between 1 and 5. */
  lemma AveragesInRange(ratings: seq<Scores>)
    requires ratings != []
    requires forall i :: 0 <= i < |ratings| ==> InRange(ratings[i])
    ensures var a := ReviewAverages(ratings).value;
      1.0 <= a.food <= 5.0 && 1.0 <= a.service <= 5.0
      && 1.0 <= a.atmosphere <= 5.0 && 1.0 <= a.cleanliness <= 5.0
      && 1.0 <= a.overall <= 5.0
  {
    var n := |ratings| as real;
    var a := ReviewAverages(ratings).value;
    TotalBounds(ratings, Food);
    TotalBounds(ratings, Service);
    TotalBounds(ratings, Atmosphere);
    TotalBounds(ratings, Cleanliness);
    BetweenOneAndFive(Total(ratings, Food) as real, n);
    BetweenOneAndFive(Total(ratings, Service) as real, n);
    BetweenOneAndFive(Total(ratings, Atmosphere) as real, n);
    BetweenOneAndFive(Total(ratings, Cleanliness) as real, n);
    OverallIsMeanOfAverages(ratings);
  }

  lemma BetweenOneAndFive(t: real, n: real)
    requires n > 0.0 && n <= t <= 5.0 * n
    ensures 1.0 <= t / n <= 5.0
  {
    assert t / n * n == t;
  }
}
