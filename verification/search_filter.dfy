/**
 * The page's search: a record is kept when the term is empty, or when some
 * present field, lower-cased, contains the lower-cased term. Every field of
 * the record is scanned, whatever its name.
 */
module SearchFilter {
  import opened Wrappers
  import opened Ascii
  import opened InventoryData

  /** A field value matches when it is present and its lower-cased text contains `needle`. */
  predicate ValueMatches(v: Option<string>, needle: string)
    ensures v.None? ==> !ValueMatches(v, needle)
    ensures v.Some? && needle == Lower(v.value) ==> ValueMatches(v, needle)
  {
    ContainsItself(needle);
    v.Some? && Contains(Lower(v.value), needle)
  }

  /** `Object.values(item).some(...)`: some field of the record matches the term. */
  predicate Matches(r: Record, term: string)
    ensures (forall k | k in r :: r[k].None?) ==> !Matches(r, term)
    ensures Matches(r, term) ==> exists k | k in r :: r[k].Some? && |term| <= |r[k].value|
  {
    exists k | k in r :: ValueMatches(r[k], Lower(term))
  }

  /** The filter callback: an empty term keeps everything. */
  predicate Keep(r: Record, term: string)
    ensures term == "" ==> Keep(r, term)
    ensures term != "" ==> (Keep(r, term) <==> Matches(r, term))
  {
    term == "" || Matches(r, term)
  }

  /** `filteredItems`: the records kept by the search, in their original order. */
  function Filter(items: seq<Record>, term: string): (r: seq<Record>)
    ensures |r| <= |items|
    ensures forall i :: 0 <= i < |r| ==> r[i] in items && Keep(r[i], term)
  {
    if items == [] then []
    else
      var init := items[..|items| - 1];
      var last := items[|items| - 1];
      Filter(init, term) + (if Keep(last, term) then [last] else [])
  }

  /** The positions of the records the search keeps, in increasing order. */
  ghost function KeptIndices(items: seq<Record>, term: string): seq<nat>
  {
    if items == [] then []
    else
      var n := |items| - 1;
      KeptIndices(items[..n], term) + (if Keep(items[n], term) then [n] else [])
  }

  /** Kept positions are in range and strictly increasing. */
  lemma {:induction false} KeptIndicesIncreasing(items: seq<Record>, term: string)
    ensures forall i :: 0 <= i < |KeptIndices(items, term)| ==> KeptIndices(items, term)[i] < |items|
    ensures forall i, j :: 0 <= i < j < |KeptIndices(items, term)| ==>
      KeptIndices(items, term)[i] < KeptIndices(items, term)[j]
  {
    if items != [] {
      KeptIndicesIncreasing(items[..|items| - 1], term);
    }
  }

  /** A position is listed if and only if the record there is kept. */
  lemma {:induction false} KeptIndicesComplete(items: seq<Record>, term: string)
    ensures forall j :: 0 <= j < |items| ==> (j in KeptIndices(items, term) <==> Keep(items[j], term))
  {
    if items != [] {
      var n := |items| - 1;
      var init := items[..n];
      KeptIndicesComplete(init, term);
      KeptIndicesIncreasing(init, term);
      var prev := KeptIndices(init, term);
      forall j | 0 <= j < |items|
        ensures j in KeptIndices(items, term) <==> Keep(items[j], term)
      {
        if j < n {
          assert init[j] == items[j];
        } else {
          assert n !in prev;
        }
      }
    }
  }

  /**
   * The filter result is exactly the records at the kept positions: with
   * the two lemmas above, the result is the order-preserving subsequence
   * of the kept records.
   */
  lemma {:induction false} FilterSelectsKept(items: seq<Record>, term: string)
    ensures |KeptIndices(items, term)| == |Filter(items, term)|
    ensures forall i :: 0 <= i < |Filter(items, term)| ==>
      KeptIndices(items, term)[i] < |items| && Filter(items, term)[i] == items[KeptIndices(items, term)[i]]
  {
    KeptIndicesIncreasing(items, term);
    if items != [] {
      var n := |items| - 1;
      var init := items[..n];
      FilterSelectsKept(init, term);
      var prev := KeptIndices(init, term);
      var r := Filter(items, term);
      forall i | 0 <= i < |r|
        ensures r[i] == items[KeptIndices(items, term)[i]]
      {
        if i < |prev| {
          assert r[i] == Filter(init, term)[i];
          assert KeptIndices(items, term)[i] == prev[i];
        }
      }
    }
  }

  /** When every record is kept, the filter returns its input unchanged. */
  lemma {:induction false} FilterKeepsAll(items: seq<Record>, term: string)
    requires forall i :: 0 <= i < |items| ==> Keep(items[i], term)
    ensures Filter(items, term) == items
  {
    if items != [] {
      var init := items[..|items| - 1];
      FilterKeepsAll(init, term);
      assert init + [items[|items| - 1]] == items;
    }
  }

  /** An empty search term leaves the list as it is, in the same order. */
  lemma {:induction false} FilterEmptyTerm(items: seq<Record>)
    ensures Filter(items, "") == items
  {
    FilterKeepsAll(items, "");
  }

  /** A record is in the result if and only if it is in the input and is kept. */
  lemma {:induction false} FilterMembership(items: seq<Record>, term: string, x: Record)
    ensures x in Filter(items, term) <==> x in items && Keep(x, term)
  {
    if items != [] {
      var init := items[..|items| - 1];
      FilterMembership(init, term, x);
      assert items == init + [items[|items| - 1]];
    }
  }

  /** Filtering twice with the same term is the same as filtering once. */
  lemma {:induction false} FilterIdempotent(items: seq<Record>, term: string)
    ensures Filter(Filter(items, term), term) == Filter(items, term)
  {
    FilterKeepsAll(Filter(items, term), term);
  }

  /** The filter sees the term only through its lower-cased form. */
  lemma {:induction false} FilterDependsOnLowerTerm(items: seq<Record>, t1: string, t2: string)
    requires Lower(t1) == Lower(t2)
    ensures Filter(items, t1) == Filter(items, t2)
  {
    assert |t1| == |t2|;
    if items != [] {
      FilterDependsOnLowerTerm(items[..|items| - 1], t1, t2);
      var last := items[|items| - 1];
      assert Keep(last, t1) == Keep(last, t2);
    }
  }

  /** The search is case-insensitive: an upper-cased term finds the same records. */
  lemma FilterCaseInsensitive(items: seq<Record>, term: string)
    ensures Filter(items, Upper(term)) == Filter(items, term)
  {
    LowerOfUpper(term);
    FilterDependsOnLowerTerm(items, Upper(term), term);
  }

  /** Absent (null or undefined) values never match, so a record with no present value is dropped by any non-empty term. */
  lemma AbsentFieldsNeverMatch(items: seq<Record>, term: string, r: Record)
    requires term != ""
    requires forall k | k in r :: r[k] == None
    ensures r !in Filter(items, term)
  {
    FilterMembership(items, term, r);
  }

  /** A record with a field whose value is exactly the term is always found. */
  lemma FieldEqualToTermMatches(r: Record, k: string, term: string)
    requires k in r && r[k] == Some(term)
    ensures Matches(r, term)
  {
    ContainsItself(Lower(term));
    assert ValueMatches(r[k], Lower(term));
  }

  /** When no record is kept, the result is empty. */
  lemma FilterNoneKept(items: seq<Record>, term: string)
    requires forall i :: 0 <= i < |items| ==> !Keep(items[i], term)
    ensures Filter(items, term) == []
  {
  }

  /** When exactly one record matches a non-empty term, the result is that record alone. */
  lemma {:induction false} SingleMatch(items: seq<Record>, term: string, j: nat)
    requires term != ""
    requires j < |items| && Matches(items[j], term)
    requires forall i :: 0 <= i < |items| && i != j ==> !Matches(items[i], term)
    ensures Filter(items, term) == [items[j]]
  {
    var n := |items| - 1;
    var init := items[..n];
    if j == n {
      FilterNoneKept(init, term);
    } else {
      SingleMatch(init, term, j);
    }
  }

  /** A text lacking one of the needle's characters does not contain the needle. */
  lemma MissingCharNotContained(hay: string, needle: string, c: char)
    requires c in needle && c !in hay
    ensures !Contains(hay, needle)
  {
  }

  /** A present value whose lower-cased text lacks a letter of "toyota" does not match "Toyota". */
  lemma LacksToyotaLetter(v: string, c: char)
    requires c in "toyota" && c !in Lower(v)
    ensures !ValueMatches(Some(v), Lower("Toyota"))
  {
    assert Lower("Toyota") == "toyota";
    MissingCharNotContained(Lower(v), "toyota", c);
  }

  /** The fallback Chevrolet does not match "Toyota". */
  lemma ChevroletMissesToyota()
    ensures !Matches(FallbackData[0], "Toyota")
  {
    var r := FallbackData[0];
    LacksToyotaLetter("2023 Chevrolet Silverado 1500 LT", 'y');
    LacksToyotaLetter("6.6L V8 Turbo Diesel", 'y');
    LacksToyotaLetter("https://example.com/vehicle/1", 'y');
    LacksToyotaLetter("45000", 't');
    LacksToyotaLetter("CK20743", 't');
    assert forall k | k in r :: !ValueMatches(r[k], Lower("Toyota"));
  }

  /** The fallback Ford does not match "Toyota". */
  lemma FordMissesToyota()
    ensures !Matches(FallbackData[1], "Toyota")
  {
    var r := FallbackData[1];
    LacksToyotaLetter("2022 Ford F-150 XLT", 'y');
    LacksToyotaLetter("5.0L V8 Coyote", 'a');
    LacksToyotaLetter("https://example.com/vehicle/2", 'y');
    LacksToyotaLetter("38000", 't');
    LacksToyotaLetter("FD15892", 't');
    assert forall k | k in r :: !ValueMatches(r[k], Lower("Toyota"));
  }

  /** Searching the fallback records for "Toyota" finds exactly the Highlander, through its title. */
  lemma FallbackToyotaFound()
    ensures Matches(FallbackData[2], "Toyota")
    ensures Filter(FallbackData, "Toyota") == [FallbackData[2]]
  {
    var t := "2024 Toyota Highlander Limited";
    assert Lower("Toyota") == "toyota";
    assert t[5] == 'T' && t[6] == 'o' && t[7] == 'y' && t[8] == 'o' && t[9] == 't' && t[10] == 'a';
    assert t[5..11] == "Toyota";
    assert Lower(t)[5..11] == Lower(t[5..11]);
    assert OccursAt(Lower(t), "toyota", 5);
    assert ValueMatches(FallbackData[2]["homenet_vehicle_title"], "toyota");
    ChevroletMissesToyota();
    FordMissesToyota();
    SingleMatch(FallbackData, "Toyota", 2);
  }
}
