/**
 * The catalog listing: the plants shown on the front page, narrowed by an
 * optional category and an optional search text.
 */
module Catalog {
  import opened Results
  import opened Models

  /** ASCII case folding, as the database's case-insensitive LIKE applies it. */
  function Fold(c: char): char
  {
    if 'A' <= c <= 'Z' then (c as int + 32) as char else c
  }

  /** `query` occurs in `text` at offset `i`, ignoring case. */
  predicate MatchesAt(text: string, query: string, i: nat)
    requires i + |query| <= |text|
  {
    forall j :: 0 <= j < |query| ==> Fold(text[i + j]) == Fold(query[j])
  }

  /** Case-insensitive substring: some offset of `text` holds `query`. */
  ghost predicate ContainsIgnoringCase(text: string, query: string)
  {
    exists i: nat :: i + |query| <= |text| && MatchesAt(text, query, i)
  }

  /** The `icontains` lookup: tries each offset of `text` in turn. */
  function IContains(text: string, query: string): (b: bool)
    ensures b <==> ContainsIgnoringCase(text, query)
    decreases |text|
  {
    if |query| > |text| then false
    else if MatchesAt(text, query, 0) then true
    else
      var rest := IContains(text[1..], query);
      assert rest <==> ContainsIgnoringCase(text, query) by {
        if rest {
          var i: nat :| i + |query| <= |text| - 1 && MatchesAt(text[1..], query, i);
          assert MatchesAt(text, query, i + 1);
        }
        if ContainsIgnoringCase(text, query) {
          var i: nat :| i + |query| <= |text| && MatchesAt(text, query, i);
          assert i != 0;
          assert MatchesAt(text[1..], query, i - 1);
        }
      }
      rest
  }

  /**
   * Whether the listing shows a plant: it is available, it is in the chosen
   * category if one is chosen, and its name or its description contains the
   * search text if one is given. An empty search text is no search at all.
   */
  predicate Listed(p: Plant, category: Option<CategoryId>, query: string)
  {
    && p.available
    && (category.Some? ==> p.category == category.value)
    && (query != "" ==> IContains(p.name, query) || IContains(p.description, query))
  }

  /** The ids of the plants the catalog page shows. */
  function PlantList(plants: map<PlantId, Plant>, category: Option<CategoryId>, query: string): (shown: set<PlantId>)
    ensures shown <= plants.Keys
    ensures forall id :: id in shown ==> plants[id].available
    ensures forall id :: id in shown && category.Some? ==> plants[id].category == category.value
    ensures forall id :: id in shown && query != "" ==>
              ContainsIgnoringCase(plants[id].name, query) || ContainsIgnoringCase(plants[id].description, query)
    ensures forall id :: id in plants && plants[id].available && category.None? && query == "" ==> id in shown
    ensures forall id :: id in plants && plants[id].available
              && (category.Some? ==> plants[id].category == category.value)
              && (query != "" ==> ContainsIgnoringCase(plants[id].name, query) || ContainsIgnoringCase(plants[id].description, query))
              ==> id in shown
  {
    set id | id in plants && Listed(plants[id], category, query)
  }

  /** The example of a mixed-case search: "ros" finds "Red Rose" and "ROSEMARY" alike. */
  lemma SearchIgnoresCase()
    ensures IContains("Red Rose", "ros") && IContains("ROSEMARY", "ros")
    ensures !IContains("Tulip", "ros")
  {
    assert MatchesAt("Red Rose", "ros", 4);
    assert MatchesAt("ROSEMARY", "ros", 0);
    var t := "Tulip";
    var q := "ros";
    assert !MatchesAt(t, q, 0) by { assert Fold(t[0 + 0]) == 't' != Fold(q[0]); }
    assert !MatchesAt(t, q, 1) by { assert Fold(t[1 + 0]) == 'u' != Fold(q[0]); }
    assert !MatchesAt(t, q, 2) by { assert Fold(t[2 + 0]) == 'l' != Fold(q[0]); }
    assert !IContains(t[1..], "ros");
  }
}
