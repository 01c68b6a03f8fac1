// The season and weather rules of `MarketEngine.update_season_and_weather`:
// the month -> season bands, the per-season weather pick lists, and which
// headline the season/weather change leaves behind.

module Climate {

  import opened Catalog

  /** The season of a month. The four bands partition 1..12: March-May is
      Summer, June-September Monsoon, October-December Post-Monsoon and
      everything else (January, February) Winter. */
  function SeasonOf(month: int): (s: Season)
    ensures s == Summer <==> 3 <= month <= 5
    ensures s == Monsoon <==> 6 <= month <= 9
    ensures s == PostMonsoon <==> 10 <= month <= 12
    ensures s == Winter <==> month < 3 || 12 < month
  {
    if 3 <= month <= 5 then Summer
    else if 6 <= month <= 9 then Monsoon
    else if 10 <= month <= 12 then PostMonsoon
    else Winter
  }

  /** `[w] * n` */
  function Repeat(w: Weather, n: nat): (ws: seq<Weather>)
    ensures |ws| == n && forall i :: 0 <= i < n ==> ws[i] == w
  {
    seq(n, _ => w)
  }

  /** `[a] * na + [b] * nb + [c] * nc`: a weighted pick list over three tags. */
  function Weighted(a: Weather, na: nat, b: Weather, nb: nat, c: Weather, nc: nat): (ws: seq<Weather>)
    ensures |ws| == na + nb + nc
    ensures forall w :: w in ws <==> (w == a && na > 0) || (w == b && nb > 0) || (w == c && nc > 0)
  {
    var ws := Repeat(a, na) + Repeat(b, nb) + Repeat(c, nc);
    assert na > 0 ==> ws[0] == a;
    assert nb > 0 ==> ws[na] == b;
    assert nc > 0 ==> ws[na + nb] == c;
    ws
  }

  /** The pick list `random.choice` draws the weather from: integer
      percentage weights, one list of exactly 100 entries per season.
      Drought is on Summer's list and on no other. */
  function WeatherChoices(s: Season): (ws: seq<Weather>)
    ensures |ws| == 100
    ensures Drought in ws <==> s == Summer
    ensures Sunny in ws && Rainy in ws
  {
    match s
    case Monsoon => Weighted(Rainy, 70, Cloudy, 20, Sunny, 10)
    case Summer => Weighted(Sunny, 80, Drought, 15, Rainy, 5)
    case Winter => Weighted(Sunny, 60, Cloudy, 30, Rainy, 10)
    case PostMonsoon => Weighted(Cloudy, 40, Sunny, 40, Rainy, 20)
  }

  /** `random.choice(weights)` with the chosen index `pick` passed in. A
      drought can only be drawn in Summer. */
  function DrawWeather(s: Season, pick: int): (w: Weather)
    requires 0 <= pick < 100
    ensures w in WeatherChoices(s)
    ensures w == Drought ==> s == Summer
  {
    WeatherChoices(s)[pick]
  }

  /** The headline after the season and weather update: a newly started
      drought overrides everything, then rain outside the Monsoon, then the
      announcement of a new season; with none of these the old headline
      stays. */
  function ClimateHeadline(oldSeason: Season, newSeason: Season, oldWeather: Weather,
                           newWeather: Weather, headline: Headline): (h: Headline)
    ensures newWeather == Drought && oldWeather != Drought ==> h == DroughtAlert
    ensures newWeather == Rainy && newSeason != Monsoon ==> h == UnexpectedRain
    ensures h != headline ==> h in {DroughtAlert, UnexpectedRain, SeasonChange(newSeason)}
    ensures h == SeasonChange(newSeason) && h != headline ==> newSeason != oldSeason
    ensures h == DroughtAlert && headline != DroughtAlert ==> newWeather == Drought && oldWeather != Drought
    ensures h == UnexpectedRain && headline != UnexpectedRain ==> newWeather == Rainy && newSeason != Monsoon
    ensures oldSeason == newSeason && newWeather != Drought && newWeather != Rainy ==> h == headline
    ensures !(newWeather == Drought && oldWeather != Drought) && !(newWeather == Rainy && newSeason != Monsoon)
            ==> h == (if newSeason != oldSeason then SeasonChange(newSeason) else headline)
  {
    var announced := if newSeason != oldSeason then SeasonChange(newSeason) else headline;
    if newWeather != oldWeather && newWeather == Drought then DroughtAlert
    else if newWeather == Rainy && newSeason != Monsoon then UnexpectedRain
    else announced
  }
}
