/**
 * The two configuration tables of the fetcher and the lookups on them:
 * the country table (ISO 3166-1 code to display name) and the
 * location-type table (type name to query descriptor).
 */
module Config {
  import opened Wrappers
  import opened Text

  /** One `{"key": k, "value": v}` equality condition of a tag group. */
  datatype Condition = Condition(key: string, value: string)

  /** A tag group: conditions that must all hold, in their declared order. */
  datatype TagGroup = TagGroup(conditions: seq<Condition>)

  /**
   * A location-type descriptor, i.e. the JSON object stored under a type
   * name; each field is absent (`None`) when the object lacks that key.
   */
  datatype Descriptor = Descriptor(
    description: Option<string>,
    queryType: Option<string>,
    tags: Option<seq<TagGroup>>)

  /** The country table as `dict.items()`: (code, display name) in insertion order. */
  type CountryTable = seq<(string, string)>

  /** The descriptor is Python-falsy: the empty JSON object. */
  predicate IsEmpty(d: Descriptor)
    ensures IsEmpty(d) <==> d == Descriptor(None, None, None)
  {
    d.description.None? && d.queryType.None? && d.tags.None?
  }

  /**
   * The reverse map `{name.lower(): code for code, name in table.items()}`;
   * a later entry overwrites an earlier one with the same lower-cased name.
   */
  function NameIndex(table: CountryTable): (r: map<string, string>)
    ensures forall i :: 0 <= i < |table| ==> Lower(table[i].1) in r
    ensures forall k :: k in r ==>
              exists i :: 0 <= i < |table| && Lower(table[i].1) == k && table[i].0 == r[k]
  {
    if table == [] then map[]
    else
      var init, last := table[..|table| - 1], table[|table| - 1];
      assert forall i :: 0 <= i < |init| ==> init[i] == table[i];
      NameIndex(init)[Lower(last.1) := last.0]
  }

  /**
   * `get_country_code`: `None` exactly when no display name equals `name`
   * ignoring case, and otherwise the code of an entry whose name does.
   */
  function CountryCode(table: CountryTable, name: string): (r: Option<string>)
    ensures r.None? <==> forall i :: 0 <= i < |table| ==> Lower(table[i].1) != Lower(name)
    ensures r.Some? ==>
              exists i :: 0 <= i < |table| && Lower(table[i].1) == Lower(name) && table[i].0 == r.value
  {
    var index := NameIndex(table);
    if Lower(name) in index then Some(index[Lower(name)]) else None
  }

  /** The entries of `table` whose display name matches `name` ignoring case. */
  predicate NameMatches(table: CountryTable, i: int, name: string)
  {
    0 <= i < |table| && Lower(table[i].1) == Lower(name)
  }

  /** The reverse map gives the code of the LAST entry whose name matches. */
  lemma {:induction false} NameIndexLast(table: CountryTable, name: string, i: int)
    requires NameMatches(table, i, name)
    requires forall j :: i < j < |table| ==> !NameMatches(table, j, name)
    ensures Lower(name) in NameIndex(table) && NameIndex(table)[Lower(name)] == table[i].0
  {
    var init := table[..|table| - 1];
    if i < |table| - 1 {
      assert !NameMatches(table, |table| - 1, name);
      forall j | i < j < |init|
        ensures !NameMatches(init, j, name)
      {
        assert !NameMatches(table, j, name);
      }
      NameIndexLast(init, name, i);
    }
  }

  /**
   * Any casing of a configured display name resolves to that entry's code
   * (the last such entry when several names agree ignoring case).
   */
  lemma CountryCodeFound(table: CountryTable, name: string, i: int)
    requires NameMatches(table, i, name)
    requires forall j :: i < j < |table| ==> !NameMatches(table, j, name)
    ensures CountryCode(table, name) == Some(table[i].0)
  {
    NameIndexLast(table, name, i);
  }

  /** A name whose length no display name shares is unresolved. */
  lemma NoNameOfThatLength(table: CountryTable, name: string)
    requires forall i :: 0 <= i < |table| ==> |table[i].1| != |name|
    ensures CountryCode(table, name) == None
  {
    forall i | 0 <= i < |table|
      ensures Lower(table[i].1) != Lower(name)
    {
      assert |Lower(table[i].1)| != |Lower(name)|;
    }
  }

  /** The country table used by the fetcher's tests. */
  const SampleCountries: CountryTable :=
    [("NL", "Netherlands"), ("VA", "Vatican City"), ("US", "United States")]

  lemma NetherlandsCasings()
    ensures Lower("Netherlands") == Lower("netherlands")
  {
    var name, lower := "Netherlands", "netherlands";
    assert forall i :: 1 <= i < |name| ==> name[i] == lower[i];
    assert LowerChar(name[0]) == LowerChar(lower[0]);
  }

  // The later display names differ in length, so no casing of "Netherlands" matches them.
  lemma NetherlandsOnlyFirst(name: string)
    requires Lower(name) == Lower("Netherlands")
    ensures NameMatches(SampleCountries, 0, name)
    ensures forall j :: 0 < j < |SampleCountries| ==> !NameMatches(SampleCountries, j, name)
  {
    assert SampleCountries[0].1 == "Netherlands";
    var lengths := [11, 12, 13];
    forall j | 0 < j < |SampleCountries|
      ensures !NameMatches(SampleCountries, j, name)
    {
      assert |SampleCountries[j].1| == lengths[j];
      assert |Lower(SampleCountries[j].1)| != |Lower(name)|;
    }
  }

  /** "Netherlands" and "netherlands" both resolve to "NL". */
  lemma SampleCountryLookups()
    ensures CountryCode(SampleCountries, "Netherlands") == Some("NL")
    ensures CountryCode(SampleCountries, "netherlands") == Some("NL")
  {
    NetherlandsCasings();
    NetherlandsOnlyFirst("Netherlands");
    NetherlandsOnlyFirst("netherlands");
    CountryCodeFound(SampleCountries, "Netherlands", 0);
    CountryCodeFound(SampleCountries, "netherlands", 0);
  }

  /** A name that is not in the table resolves to `None` rather than failing. */
  lemma SampleUnknownCountry()
    ensures CountryCode(SampleCountries, "Nonexistent Country") == None
  {
    var name := "Nonexistent Country";
    var lengths := [11, 12, 13];
    forall i | 0 <= i < |SampleCountries|
      ensures |SampleCountries[i].1| != |name|
    {
      assert |SampleCountries[i].1| == lengths[i];
    }
    NoNameOfThatLength(SampleCountries, name);
  }

  /**
   * `get_location_type_config`: the stored descriptor, or `None` when the
   * type name is absent or its descriptor is empty.
   */
  function LocationTypeConfig(types: map<string, Descriptor>, locationType: string): (r: Option<Descriptor>)
    ensures r.Some? <==> locationType in types && !IsEmpty(types[locationType])
    ensures r.Some? ==> r.value == types[locationType]
  {
    if locationType in types && !IsEmpty(types[locationType]) then Some(types[locationType]) else None
  }
}
