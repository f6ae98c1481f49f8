/**
 The location line of the main page: city, region and country, each dropped when it is
 `null`, `undefined` or empty, joined with ", ".
 */
module Location {
  import opened JsValues
  import opened Strings

  const Separator: string := ", "

  /** The one-element list holding `v`'s text when the filter keeps `v`, else the empty list. */
  function Keep(v: JsValue): (kept: seq<string>) {
    if IsPresent(v) then [v.s] else []
  }

  /** The values the filter keeps, in their original order, as strings. */
  function Survivors(vs: seq<JsValue>): (r: seq<string>)
    ensures |r| <= |vs|
    ensures forall k :: 0 <= k < |r| ==> r[k] != ""
    ensures r == [] <==> forall i :: 0 <= i < |vs| ==> !IsPresent(vs[i])
  {
    if |vs| == 0 then [] else Keep(vs[0]) + Survivors(vs[1..])
  }

  /** Every present value survives the filter. */
  lemma {:induction false} SurvivorsKeepPresent(vs: seq<JsValue>, i: nat)
    requires i < |vs| && IsPresent(vs[i])
    ensures vs[i].s in Survivors(vs)
    decreases i
  {
    if i > 0 {
      SurvivorsKeepPresent(vs[1..], i - 1);
    }
  }

  /** Filtering distributes over concatenation, so the survivors keep their relative order. */
  lemma {:induction false} SurvivorsAppend(xs: seq<JsValue>, ys: seq<JsValue>)
    ensures Survivors(xs + ys) == Survivors(xs) + Survivors(ys)
    decreases |xs|
  {
    if |xs| == 0 {
      assert xs + ys == ys;
    } else {
      assert (xs + ys)[0] == xs[0];
      assert (xs + ys)[1..] == xs[1..] + ys;
      SurvivorsAppend(xs[1..], ys);
      calc {
        Survivors(xs + ys);
        Keep(xs[0]) + Survivors(xs[1..] + ys);
        Keep(xs[0]) + (Survivors(xs[1..]) + Survivors(ys));
      }
    }
  }

  /** The survivors of the three location fields, field by field. */
  lemma SurvivorsOfThree(city: JsValue, region: JsValue, country: JsValue)
    ensures Survivors([city, region, country]) == Keep(city) + Keep(region) + Keep(country)
  {
    assert [city, region, country][1..] == [region, country];
    assert [region, country][1..] == [country];
    assert [country][1..] == [];
    calc {
      Survivors([city, region, country]);
      Keep(city) + Survivors([region, country]);
      Keep(city) + (Keep(region) + Survivors([country]));
      Keep(city) + (Keep(region) + (Keep(country) + Survivors([])));
    }
  }

  /** The composed location string. */
  function Compose(city: JsValue, region: JsValue, country: JsValue): (r: string)
    ensures r == Join(Keep(city) + Keep(region) + Keep(country), Separator)
    ensures r == "" <==> !IsPresent(city) && !IsPresent(region) && !IsPresent(country)
  {
    SurvivorsOfThree(city, region, country);
    var parts := Survivors([city, region, country]);
    if |parts| == 0 then Join(parts, Separator)
    else
      JoinEnds(parts, Separator);
      Join(parts, Separator)
  }

  /** When exactly one field survives, the location is that field's text, with no separator. */
  lemma ComposeSingle(city: JsValue, region: JsValue, country: JsValue)
    ensures IsPresent(city) && !IsPresent(region) && !IsPresent(country) ==>
              Compose(city, region, country) == city.s
    ensures !IsPresent(city) && IsPresent(region) && !IsPresent(country) ==>
              Compose(city, region, country) == region.s
    ensures !IsPresent(city) && !IsPresent(region) && IsPresent(country) ==>
              Compose(city, region, country) == country.s
  {
  }

  /** With all three present they appear in the order city, region, country. */
  lemma ComposeAll(city: JsValue, region: JsValue, country: JsValue)
    requires IsPresent(city) && IsPresent(region) && IsPresent(country)
    ensures Compose(city, region, country) == city.s + ", " + region.s + ", " + country.s
  {
    var parts := [city.s, region.s, country.s];
    assert Keep(city) + Keep(region) + Keep(country) == parts;
    assert parts[1..] == [region.s, country.s];
    assert [region.s, country.s][1..] == [country.s];
    assert Join([region.s, country.s], Separator) == region.s + Separator + country.s;
    assert Join(parts, Separator) == city.s + Separator + (region.s + Separator + country.s);
  }

  /**
   The location's length is the survivors' total length plus one separator between each
   pair of neighbours: `n` survivors are joined by exactly `n - 1` separators.
   */
  lemma ComposeLength(city: JsValue, region: JsValue, country: JsValue)
    ensures var parts := Keep(city) + Keep(region) + Keep(country);
            |parts| > 0 ==>
              |Compose(city, region, country)| == TotalLength(parts) + (|parts| - 1) * |Separator|
  {
    var parts := Keep(city) + Keep(region) + Keep(country);
    if |parts| > 0 {
      JoinLength(parts, Separator);
    }
  }

  /**
   The location starts with the first surviving field and ends with the last one, so it
   never begins or ends with a separator that no field supplied.
   */
  lemma ComposeEnds(city: JsValue, region: JsValue, country: JsValue)
    ensures var parts := Keep(city) + Keep(region) + Keep(country);
            var r := Compose(city, region, country);
            |parts| > 0 ==>
              |parts[0]| <= |r| && r[..|parts[0]|] == parts[0] &&
              |parts[|parts| - 1]| <= |r| && r[|r| - |parts[|parts| - 1]|..] == parts[|parts| - 1]
  {
    var parts := Keep(city) + Keep(region) + Keep(country);
    if |parts| > 0 {
      JoinEnds(parts, Separator);
    }
  }

  /** City "Tokyo", region `null`, country "JP" gives "Tokyo, JP". */
  lemma ComposeTokyoExample()
    ensures Compose(Str("Tokyo"), Null, Str("JP")) == "Tokyo, JP"
  {
    assert Keep(Str("Tokyo")) + Keep(Null) + Keep(Str("JP")) == ["Tokyo", "JP"];
    assert ["Tokyo", "JP"][1..] == ["JP"];
  }
}
