/**
 * The countries app: the fetched list of countries, the search text and
 * the list handed to `Countries`. Every keystroke filters the full list
 * afresh. `showCountryHandler` would show one country alone, but the
 * `Countries` component it is handed to never calls it.
 */
module CountriesApp {
  import opened Seqs
  import opened Text
  import opened CountriesView

  /** The filter's callback for a lower-cased query. */
  function NameContains(query: string): Country -> bool {
    (c: Country) => Contains(ToLower(c.commonName), query)
  }

  /** `countries.filter(country => country.name.common.toLowerCase().includes(query.toLowerCase()))` */
  function Matching(countries: seq<Country>, search: string): seq<Country> {
    Filter(countries, NameContains(ToLower(search)))
  }

  /** A country matches exactly when it is in the list and its name contains the query, ignoring case. */
  lemma MatchingCharacterized(countries: seq<Country>, search: string)
    ensures forall c :: c in Matching(countries, search) <==>
              c in countries && Contains(ToLower(c.commonName), ToLower(search))
  {
    forall c | c in countries && Contains(ToLower(c.commonName), ToLower(search))
      ensures c in Matching(countries, search)
    {
      var i :| 0 <= i < |countries| && countries[i] == c;
    }
  }

  /** An empty search box shows every country. */
  lemma EmptySearchMatchesAll(countries: seq<Country>)
    ensures Matching(countries, "") == countries
  {
    forall i | 0 <= i < |countries| ensures NameContains(ToLower(""))(countries[i]) {
      ContainsEmpty(ToLower(countries[i].commonName));
    }
    FilterAll(countries, NameContains(ToLower("")));
  }

  /** Typing more of a name can only narrow the result. */
  lemma LongerSearchNarrows(countries: seq<Country>, search: string, longer: string)
    requires Contains(ToLower(longer), ToLower(search))
    ensures forall c :: c in Matching(countries, longer) ==> c in Matching(countries, search)
  {
    MatchingCharacterized(countries, search);
    MatchingCharacterized(countries, longer);
    forall c | c in Matching(countries, longer) ensures c in Matching(countries, search) {
      ContainsTransitive(ToLower(c.commonName), ToLower(longer), ToLower(search));
    }
  }

  class App {
    var searchCountry: string
    var countries: seq<Country>
    var countriesToShow: seq<Country>

    constructor ()
      ensures searchCountry == "" && countries == [] && countriesToShow == []
    {
      searchCountry, countries, countriesToShow := "", [], [];
    }

    /** The effect hook: the fetched list becomes both the full list and the shown list. */
    method Load(initialCountries: seq<Country>)
      modifies this
      ensures countries == initialCountries && countriesToShow == initialCountries
      ensures searchCountry == old(searchCountry)
    {
      countries := initialCountries;
      countriesToShow := initialCountries;
    }

    /** `handleSearchCountryChange`: filters the full list, never the previous result, and keeps it. */
    method HandleSearchCountryChange(value: string)
      modifies this
      ensures searchCountry == value
      ensures countriesToShow == Matching(old(countries), value)
      ensures countries == old(countries)
    {
      searchCountry := value;
      var searchCountryLower := ToLower(value);
      countriesToShow := Filter(countries, NameContains(searchCountryLower));
    }

    /**
     * `showCountryHandler`: the chosen country alone. The app passes it to
     * `Countries` as a prop, but that component never calls it.
     */
    method ShowCountryHandler(country: Country)
      modifies this
      ensures countriesToShow == [country]
      ensures countries == old(countries) && searchCountry == old(searchCountry)
    {
      countriesToShow := [country];
    }

    /** What the page renders below the search box. */
    function Shown(): (v: View)
      reads this
      ensures |countriesToShow| == 1 ==> v == Detail(Detailed(countriesToShow[0]))
    {
      Countries(countriesToShow)
    }
  }
}
