/** The country helpers of data_processing.py: translating an English country name to Dutch
    (vertaal_land) and guessing a country from an exchange name (bepaal_land_uit_markt). Both
    are linear searches, with an early return, over a constant table kept in its source order.
 */
module Countries {
  import opened Common

  /** engels_naar_nederlands_land, in insertion order. */
  const CountryNames: seq<(string, string)> := [
    ("Netherlands", "Nederland"),
    ("Belgium", "België"),
    ("Germany", "Duitsland"),
    ("United States", "Verenigde Staten"),
    ("Norway", "Noorwegen"),
    ("France", "Frankrijk"),
    ("United Kingdom", "Verenigd Koninkrijk"),
    ("Switzerland", "Zwitserland"),
    ("Ireland", "Ierland"),
    ("Canada", "Canada"),
    ("Japan", "Japan"),
    ("China", "China")
  ]

  /** markt_naar_land_mapping, in insertion order. */
  const MarketCountries: seq<(string, string)> := [
    ("BRU", "België"),
    ("AMS", "Nederland"),
    ("ETR", "Duitsland"),
    ("XETRA", "Duitsland"),
    ("NAS", "Verenigde Staten"),
    ("NYS", "Verenigde Staten"),
    ("ARC", "Verenigde Staten"),
    ("OSL", "Noorwegen")
  ]

  // ---------------------------------------------------------------------------
  // vertaal_land
  // ---------------------------------------------------------------------------

  /** The first entry of `table` from i on whose key, lower-cased, equals `lowered`. */
  function FindName(table: seq<(string, string)>, lowered: string, i: nat): (r: Option<nat>)
    requires i <= |table|
    ensures r.Some? ==> i <= r.value < |table| && Lower(table[r.value].0) == lowered
    ensures r.Some? ==> forall j :: i <= j < r.value ==> Lower(table[j].0) != lowered
    ensures r.None? <==> forall j :: i <= j < |table| ==> Lower(table[j].0) != lowered
    decreases |table| - i
  {
    if i == |table| then None
    else if Lower(table[i].0) == lowered then Some(i)
    else FindName(table, lowered, i + 1)
  }

  /** vertaal_land over a translation table: None for a missing or empty name, the value of
      the first key equal to the name up to case, and None when no key is. */
  function Translate(table: seq<(string, string)>, name: Option<string>): (r: Option<string>)
    ensures r.None? <==>
              name.None? || name.value == ""
              || forall j :: 0 <= j < |table| ==> Lower(table[j].0) != Lower(name.value)
    ensures r.Some? ==>
              exists j :: 0 <= j < |table| && Lower(table[j].0) == Lower(name.value) && r.value == table[j].1
  {
    if name.None? || name.value == "" then None
    else
      match FindName(table, Lower(name.value), 0)
      case None => None
      case Some(j) => Some(table[j].1)
  }

  /** vertaal_land itself. */
  function TranslateCountry(name: Option<string>): (r: Option<string>)
    ensures r.None? <==>
              name.None? || name.value == ""
              || forall j :: 0 <= j < |CountryNames| ==> Lower(CountryNames[j].0) != Lower(name.value)
    ensures r.Some? ==>
              exists j :: 0 <= j < |CountryNames| && Lower(CountryNames[j].0) == Lower(name.value)
                          && r.value == CountryNames[j].1
  {
    Translate(CountryNames, name)
  }

  /** Strings of different lengths, or with different first letters up to case, differ up
      to case. */
  lemma LowerDiffers(a: string, b: string)
    requires |a| != |b| || (|a| > 0 && |b| > 0 && LowerChar(a[0]) != LowerChar(b[0]))
    ensures Lower(a) != Lower(b)
  {
    if |a| == |b| {
      assert Lower(a)[0] != Lower(b)[0];
    }
  }

  ghost predicate KeysDistinct(table: seq<(string, string)>)
  {
    forall a, b :: 0 <= a < b < |table| ==> Lower(table[a].0) != Lower(table[b].0)
  }

  /** No two keys of the table are equal up to case. */
  lemma DistinctKeys()
    ensures KeysDistinct(CountryNames)
  {
    forall i, j | 0 <= i < j < |CountryNames|
      ensures Lower(CountryNames[i].0) != Lower(CountryNames[j].0)
    {
      LowerDiffers(CountryNames[i].0, CountryNames[j].0);
    }
  }

  ghost predicate KeysNonEmpty(table: seq<(string, string)>)
  {
    forall a :: 0 <= a < |table| ==> |table[a].0| > 0
  }

  lemma NonEmptyKeys()
    ensures KeysNonEmpty(CountryNames)
  {
  }

  /** In a table whose keys differ up to case, a name equal to key i up to case finds i. */
  lemma FindDistinct(table: seq<(string, string)>, name: string, i: nat)
    requires i < |table| && Lower(name) == Lower(table[i].0)
    requires KeysDistinct(table)
    ensures FindName(table, Lower(name), 0) == Some(i)
  {
  }

  lemma TranslateAnyCasing(table: seq<(string, string)>, name: string, i: nat)
    requires i < |table| && Lower(name) == Lower(table[i].0)
    requires KeysDistinct(table) && KeysNonEmpty(table)
    ensures Translate(table, Some(name)) == Some(table[i].1)
  {
    FindDistinct(table, name, i);
    assert |name| == |Lower(table[i].0)| > 0;
  }

  /** Any spelling of a key that differs only in case translates to that key's Dutch name. */
  lemma AnyCasingTranslates(name: string, i: nat)
    requires i < |CountryNames| && Lower(name) == Lower(CountryNames[i].0)
    ensures TranslateCountry(Some(name)) == Some(CountryNames[i].1)
  {
    DistinctKeys();
    NonEmptyKeys();
    TranslateAnyCasing(CountryNames, name, i);
  }

  lemma ShoutedGermany()
    ensures Lower("GERMANY") == Lower("Germany")
  {
    var a, b := Lower("GERMANY"), Lower("Germany");
    assert a[0] == b[0] && a[1] == b[1] && a[2] == b[2] && a[3] == b[3];
    assert a[4] == b[4] && a[5] == b[5] && a[6] == b[6];
  }

  lemma ShoutedGermanyTranslates()
    ensures TranslateCountry(Some("GERMANY")) == Some("Duitsland")
  {
    ShoutedGermany();
    AnyCasingTranslates("GERMANY", 2);
  }

  // ---------------------------------------------------------------------------
  // bepaal_land_uit_markt
  // ---------------------------------------------------------------------------

  /** The first entry of `table` from i on whose code occurs in `upper`. */
  function FindCode(table: seq<(string, string)>, upper: string, i: nat): (r: Option<nat>)
    requires i <= |table|
    ensures r.Some? ==> i <= r.value < |table| && Contains(upper, table[r.value].0)
    ensures r.Some? ==> forall j :: i <= j < r.value ==> !Contains(upper, table[j].0)
    ensures r.None? <==> forall j :: i <= j < |table| ==> !Contains(upper, table[j].0)
    decreases |table| - i
  {
    if i == |table| then None
    else if Contains(upper, table[i].0) then Some(i)
    else FindCode(table, upper, i + 1)
  }

  /** bepaal_land_uit_markt over a code table: the country of the first code, in table
      order, that occurs in the upper-cased exchange name; the name itself, as given, when none
      does. */
  function CountryOfMarket(table: seq<(string, string)>, market: string): (r: string)
    ensures (forall j :: 0 <= j < |table| ==> !Contains(Upper(market), table[j].0)) ==> r == market
    ensures (exists j :: 0 <= j < |table| && Contains(Upper(market), table[j].0))
            ==> exists j :: 0 <= j < |table| && Contains(Upper(market), table[j].0) && r == table[j].1
                            && forall k :: 0 <= k < j ==> !Contains(Upper(market), table[k].0)
  {
    match FindCode(table, Upper(market), 0)
    case None => market
    case Some(j) => table[j].1
  }

  /** bepaal_land_uit_markt itself. */
  function MarketCountry(market: string): (r: string)
    ensures (forall j :: 0 <= j < |MarketCountries| ==> !Contains(Upper(market), MarketCountries[j].0))
            ==> r == market
    ensures (exists j :: 0 <= j < |MarketCountries| && Contains(Upper(market), MarketCountries[j].0))
            ==> exists j :: 0 <= j < |MarketCountries| && Contains(Upper(market), MarketCountries[j].0)
                            && r == MarketCountries[j].1
                            && forall k :: 0 <= k < j ==> !Contains(Upper(market), MarketCountries[k].0)
  {
    CountryOfMarket(MarketCountries, market)
  }

  /** Every name containing "XETRA" contains "ETR", which comes first in the table. */
  lemma XetraHasEtr(s: string)
    requires Contains(s, "XETRA")
    ensures Contains(s, "ETR")
  {
    var i :| OccursAt(s, "XETRA", i);
    OccursInside(s, "XETRA", i, "ETR", 1);
  }

  /** An entry whose code contains an earlier entry's code is never the first match. */
  lemma Shadowed(table: seq<(string, string)>, upper: string, i: nat, j: nat)
    requires i < j < |table|
    requires Contains(upper, table[j].0) ==> Contains(upper, table[i].0)
    ensures FindCode(table, upper, 0) != Some(j)
  {
  }

  /** So the 'XETRA' entry never decides the country. */
  lemma XetraEntryShadowed(market: string)
    ensures FindCode(MarketCountries, Upper(market), 0) != Some(3)
  {
    var upper := Upper(market);
    if Contains(upper, "XETRA") {
      XetraHasEtr(upper);
    }
    assert MarketCountries[2].0 == "ETR" && MarketCountries[3].0 == "XETRA";
    Shadowed(MarketCountries, upper, 2, 3);
  }

  lemma UpperXetra()
    ensures Upper("xetra") == "XETRA"
  {
    var u := Upper("xetra");
    assert u[0] == 'X' && u[1] == 'E' && u[2] == 'T' && u[3] == 'R' && u[4] == 'A';
  }

  lemma XetraCodes()
    ensures !Contains("XETRA", "BRU") && !Contains("XETRA", "AMS") && Contains("XETRA", "ETR")
  {
    assert OccursAt("XETRA", "ETR", 1);
    NoPairNotContains("XETRA", "BRU");
    NoPairNotContains("XETRA", "AMS");
  }

  lemma FirstMatchAt(table: seq<(string, string)>, upper: string, j: nat)
    requires j < |table| && Contains(upper, table[j].0)
    requires forall k :: 0 <= k < j ==> !Contains(upper, table[k].0)
    ensures FindCode(table, upper, 0) == Some(j)
  {
  }

  /** "xetra" is upper-cased, skips 'BRU' and 'AMS', and matches 'ETR': Duitsland. */
  lemma XetraIsGermany()
    ensures MarketCountry("xetra") == "Duitsland"
  {
    UpperXetra();
    XetraCodes();
    assert MarketCountries[0].0 == "BRU" && MarketCountries[1].0 == "AMS" && MarketCountries[2].0 == "ETR";
    FirstMatchAt(MarketCountries, "XETRA", 2);
  }
}
