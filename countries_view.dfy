/**
 * The `Countries` and `Country` components of the countries app: which of
 * three views a list of countries gets, and what the detail view shows.
 */
module CountriesView {

  /**
   * A country as the REST countries service returns it, reduced to the
   * fields the views read. `languages` is an object from language code to
   * language name, kept as its entries in the object's own order.
   */
  datatype Country = Country(commonName: string, capital: seq<string>, area: int,
                             languages: seq<(string, string)>, flagPng: string)

  /** What `Country` renders. */
  datatype CountryDetail = CountryDetail(heading: string, capital: seq<string>, area: int,
                                         languages: seq<string>, flagSrc: string, flagAlt: string)

  /** What `Countries` renders. */
  datatype View =
    | TooMany(message: string)
    | Detail(detail: CountryDetail)
    | NameList(names: seq<string>)

  const TooManyMessage: string := "Too many countries, specify another filter"

  /** `Object.values(country.languages)`, in the object's order. */
  function LanguageNames(languages: seq<(string, string)>): (r: seq<string>)
    ensures |r| == |languages|
    ensures forall i :: 0 <= i < |languages| ==> r[i] == languages[i].1
  {
    seq(|languages|, i requires 0 <= i < |languages| => languages[i].1)
  }

  /** `Country`: name as heading and flag text, capital, area, the language names, the flag image. */
  function Detailed(c: Country): (d: CountryDetail)
    ensures d.heading == c.commonName && d.flagAlt == c.commonName && d.flagSrc == c.flagPng
    ensures d.capital == c.capital && d.area == c.area
    ensures |d.languages| == |c.languages|
    ensures forall i :: 0 <= i < |c.languages| ==> d.languages[i] == c.languages[i].1
  {
    CountryDetail(c.commonName, c.capital, c.area, LanguageNames(c.languages), c.flagPng, c.commonName)
  }

  /** `Countries`: more than ten is the message, exactly one is its detail, otherwise the names in order. */
  function Countries(countries: seq<Country>): (v: View)
    ensures v.TooMany? <==> |countries| > 10
    ensures v.TooMany? ==> v.message == TooManyMessage
    ensures v.Detail? <==> |countries| == 1
    ensures v.Detail? ==> v.detail == Detailed(countries[0])
    ensures v.NameList? <==> |countries| == 0 || 2 <= |countries| <= 10
    ensures v.NameList? ==> |v.names| == |countries| &&
                            forall i :: 0 <= i < |countries| ==> v.names[i] == countries[i].commonName
  {
    if |countries| > 10 then TooMany(TooManyMessage)
    else if |countries| == 1 then Detail(Detailed(countries[0]))
    else NameList(seq(|countries|, i requires 0 <= i < |countries| => countries[i].commonName))
  }

  /** Two lists with the same names in the same order and no single country look the same. */
  lemma ListViewDependsOnNamesOnly(a: seq<Country>, b: seq<Country>)
    requires |a| == |b| && |a| != 1
    requires forall i :: 0 <= i < |a| ==> a[i].commonName == b[i].commonName
    ensures Countries(a) == Countries(b)
  {
    if |a| <= 10 {
      assert Countries(a).names == Countries(b).names;
    }
  }
}
