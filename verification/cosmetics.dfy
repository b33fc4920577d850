/**
 * The cosmetics recommendations card: a colour band per confidence, an icon per product
 * category, and a summary of the list (rounded mean confidence, product count, number of
 * distinct categories, and the total of the prices read as whole dollars). An empty list
 * renders nothing.
 */
module Cosmetics {
  import opened Wrappers
  import Text
  import Numbers
  import Decimal

  datatype Recommendation = Recommendation(
    id: string, category: string, product: string, shade: string, confidence: int,
    reason: string, price: string, brand: string, image: string)

  // ---------------------------------------------------------------------------------------
  // Lookups

  /** The colour classes of `getConfidenceColor`, by the colour they use. */
  datatype ConfidenceColor = Red | Yellow | Blue | Green

  /** Green from 90, blue from 80, yellow from 70, red below. */
  function ConfidenceColorOf(confidence: int): (c: ConfidenceColor)
    ensures c == Green <==> confidence >= 90
    ensures c == Blue <==> 80 <= confidence < 90
    ensures c == Yellow <==> 70 <= confidence < 80
    ensures c == Red <==> confidence < 70
  {
    if confidence >= 90 then Green
    else if confidence >= 80 then Blue
    else if confidence >= 70 then Yellow
    else Red
  }

  function ColorRank(c: ConfidenceColor): nat
  {
    match c
    case Red => 0
    case Yellow => 1
    case Blue => 2
    case Green => 3
  }

  /** A higher confidence never gets a lower band. */
  lemma ConfidenceColorMonotone(a: int, b: int)
    requires a <= b
    ensures ColorRank(ConfidenceColorOf(a)) <= ColorRank(ConfidenceColorOf(b))
  {
  }

  const DefaultIcon := "\U{1F484}"

  /** The icon table of `getCategoryIcon`. */
  const CategoryIcons: map<string, string> := map[
    "Foundation" := "\U{1F9F4}",
    "Lipstick" := "\U{1F484}",
    "Eyeshadow" := "\U{1F3A8}",
    "Blush" := "\U{1F338}",
    "Concealer" := "\U{2728}",
    "Mascara" := "\U{1F441}\U{FE0F}",
    "Eyeliner" := "\U{270F}\U{FE0F}",
    "Bronzer" := "\U{2600}\U{FE0F}"]

  /** `icons[category] || '💄'`: the table entry, or the lipstick icon for any other category. */
  function CategoryIconOf(category: string): (icon: string)
    ensures category in CategoryIcons ==> icon == CategoryIcons[category]
    ensures category !in CategoryIcons ==> icon == DefaultIcon
  {
    if category in CategoryIcons && CategoryIcons[category] != "" then CategoryIcons[category] else DefaultIcon
  }

  /** Every category gets a non-empty icon; only "Lipstick" shares the default icon. */
  lemma CategoryIconsDistinct(a: string, b: string)
    ensures CategoryIconOf(a) != ""
    ensures a in CategoryIcons && b in CategoryIcons && a != b ==> CategoryIconOf(a) != CategoryIconOf(b)
    ensures a in CategoryIcons && CategoryIconOf(a) == DefaultIcon ==> a == "Lipstick"
  {
  }

  // ---------------------------------------------------------------------------------------
  // The summary

  function Confidence(r: Recommendation): int
  {
    r.confidence
  }

  /** The set of categories, `new Set(recommendations.map(r => r.category))`. */
  function Categories(recs: seq<Recommendation>): (cats: set<string>)
    ensures forall c :: c in cats <==> exists i :: 0 <= i < |recs| && recs[i].category == c
    ensures |cats| <= |recs|
    ensures recs != [] ==> |cats| >= 1
  {
    if recs == [] then {}
    else
      var rest := Categories(recs[1..]);
      assert forall i :: 1 <= i < |recs| ==> recs[1..][i - 1] == recs[i];
      {recs[0].category} + rest
  }

  /** When no two recommendations share a category, there are as many categories as products. */
  lemma {:induction false} DistinctCategoriesCount(recs: seq<Recommendation>)
    requires forall i, j :: 0 <= i < j < |recs| ==> recs[i].category != recs[j].category
    ensures |Categories(recs)| == |recs|
  {
    if recs != [] {
      DistinctCategoriesCount(recs[1..]);
      assert recs[0].category !in Categories(recs[1..]);
    }
  }

  /** `parseInt(price.replace('$', ''))`; None is NaN. */
  function PriceValue(price: string): (r: Option<int>)
    ensures '$' !in price ==> r == Decimal.ParseInt(price)
    ensures price != [] && price[0] == '$' ==> r == Decimal.ParseInt(price[1..])
    ensures Text.IsBlank(price) || price == "$" ==> r.None?
  {
    Decimal.ParseInt(Text.RemoveFirst(price, '$'))
  }

  /**
   * A price written as "$" and a whole number of dollars is read back exactly, and reading
   * stops at the first character that is neither a digit nor a letter: "$1,299" counts as 1.
   */
  lemma PriceValueOfDollars(n: nat, rest: string)
    requires rest == [] || Decimal.DigitValue(rest[0]) == 36
    ensures PriceValue("$" + Decimal.NatToString(n) + rest) == Some(n)
  {
    var digits := Decimal.NatToString(n);
    var price := "$" + digits + rest;
    assert price[0] == '$' && price[1..] == digits + rest;
    assert PriceValue(price) == Decimal.ParseInt(digits + rest);
    Decimal.ParseIntOfNumeral(n, rest);
  }

  lemma PriceValueOfWholeDollars(n: nat)
    ensures PriceValue("$" + Decimal.NatToString(n)) == Some(n)
  {
    PriceValueOfDollars(n, []);
    assert "$" + Decimal.NatToString(n) + [] == "$" + Decimal.NatToString(n);
  }

  /** Each recommendation's price as `parseInt` reads it, in list order. */
  function PriceValues(recs: seq<Recommendation>): (values: seq<Option<int>>)
    ensures |values| == |recs|
    ensures forall i :: 0 <= i < |recs| ==> values[i] == PriceValue(recs[i].price)
  {
    seq(|recs|, i requires 0 <= i < |recs| => PriceValue(recs[i].price))
  }

  /** Addition over numbers that may be NaN (None): one NaN makes the whole sum NaN. */
  function SumOrNaN(values: seq<Option<int>>): (total: Option<int>)
    ensures total.None? <==> exists i :: 0 <= i < |values| && values[i].None?
  {
    if values == [] then Some(0)
    else
      var rest := SumOrNaN(values[1..]);
      assert forall i :: 1 <= i < |values| ==> values[1..][i - 1] == values[i];
      if values[0].Some? && rest.Some? then Some(values[0].value + rest.value) else None
  }

  /** The sum of the prices; NaN (None) as soon as one of them is not a number. */
  function TotalValue(recs: seq<Recommendation>): (total: Option<int>)
    ensures total.None? <==> exists i :: 0 <= i < |recs| && PriceValue(recs[i].price).None?
  {
    var values := PriceValues(recs);
    assert forall i :: 0 <= i < |recs| ==> values[i] == PriceValue(recs[i].price);
    SumOrNaN(values)
  }

  /** What the summary row shows. */
  datatype Summary = Summary(averageConfidence: int, products: nat, categories: nat, totalValue: Option<int>)

  /** The card's summary; None (renders nothing) for an empty list. */
  function SummaryOf(recs: seq<Recommendation>): (s: Option<Summary>)
    ensures s.None? <==> recs == []
    ensures s.Some? ==>
      && s.value.products == |recs|
      && s.value.categories == |Categories(recs)| && 1 <= s.value.categories <= |recs|
      && s.value.averageConfidence == Numbers.Round(Numbers.SumOf(recs, Confidence) as real / |recs| as real)
      && s.value.totalValue == TotalValue(recs)
  {
    if recs == [] then None
    else
      Some(Summary(
        Numbers.Round(Numbers.SumOf(recs, Confidence) as real / |recs| as real),
        |recs|, |Categories(recs)|, TotalValue(recs)))
  }

  /** The average confidence lies between the lowest and highest confidence. */
  lemma AverageConfidenceBetween(recs: seq<Recommendation>, lo: int, hi: int)
    requires recs != []
    requires forall i :: 0 <= i < |recs| ==> lo <= recs[i].confidence <= hi
    ensures lo <= SummaryOf(recs).value.averageConfidence <= hi
  {
    Numbers.MeanBetween(recs, Confidence, lo, hi);
    Numbers.RoundBetween(Numbers.SumOf(recs, Confidence) as real / |recs| as real, lo, hi);
  }

  function Dollars(n: nat): int
  {
    n
  }

  /** A sum with no NaN term is the sum of the numbers. */
  lemma {:induction false} SumOfNumbers(values: seq<Option<int>>, amounts: seq<nat>)
    requires |values| == |amounts|
    requires forall i :: 0 <= i < |values| ==> values[i] == Some(amounts[i] as int)
    ensures SumOrNaN(values) == Some(Numbers.SumOf(amounts, Dollars))
  {
    if values != [] {
      assert forall i :: 0 <= i < |values| - 1 ==> values[1..][i] == values[i + 1] && amounts[1..][i] == amounts[i + 1];
      SumOfNumbers(values[1..], amounts[1..]);
    }
  }

  /** When every price is "$" and a whole number of dollars, the total is the sum of those numbers. */
  lemma TotalOfDollarPrices(recs: seq<Recommendation>, amounts: seq<nat>)
    requires |recs| == |amounts|
    requires forall i :: 0 <= i < |recs| ==> recs[i].price == "$" + Decimal.NatToString(amounts[i])
    ensures TotalValue(recs) == Some(Numbers.SumOf(amounts, Dollars))
  {
    forall i | 0 <= i < |recs|
      ensures PriceValue(recs[i].price) == Some(amounts[i] as int)
    {
      PriceValueOfWholeDollars(amounts[i]);
    }
    SumOfNumbers(PriceValues(recs), amounts);
  }
}
