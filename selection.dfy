/**
 * How both charts classify an item against the shared filter set.  The
 * base mixin's `hasFilter()` (is any filter active?) and `hasFilter(k)`
 * (is `k` filtered?) are modelled by the set of filtered keys.
 */
module Selection {

  /** `isSelected`: some filter is active and the key is one of them. */
  predicate IsSelected<K>(filters: set<K>, key: K)
    ensures IsSelected(filters, key) <==> key in filters
  {
    filters != {} && key in filters
  }

  /** `isDeselected`: some filter is active and the key is not one of them. */
  predicate IsDeselected<K>(filters: set<K>, key: K)
    ensures IsDeselected(filters, key) <==> filters != {} && !IsSelected(filters, key)
  {
    filters != {} && key !in filters
  }

  /** With no filter active an item is neither selected nor deselected; otherwise it is exactly one of the two, selected iff filtered. */
  lemma ClassificationIsThreeWay<K>(filters: set<K>, key: K)
    ensures filters == {} ==> !IsSelected(filters, key) && !IsDeselected(filters, key)
    ensures filters != {} ==> (IsSelected(filters, key) != IsDeselected(filters, key))
    ensures filters != {} ==> (IsSelected(filters, key) <==> key in filters)
  {
  }

  /**
   * The class attribute `renderRegionG` gives a region of a data layer:
   * the layer name, the region's id-safe key (`dc.utils.nameToId`, an
   * outside helper, so given here) and each suffix whose test holds,
   * appended in turn.
   */
  function RegionClass<K>(layerName: string, regionId: string, filters: set<K>, key: K): (r: string)
    ensures filters == {} ==> r == layerName + " " + regionId
    ensures filters != {} && key in filters ==> r == layerName + " " + regionId + " selected"
    ensures filters != {} && key !in filters ==> r == layerName + " " + regionId + " deselected"
  {
    var base := layerName + " " + regionId;
    var withSelected := if IsSelected(filters, key) then base + " selected" else base;
    if IsDeselected(filters, key) then withSelected + " deselected" else withSelected
  }

  /**
   * The class attribute the word cloud gives a word: `selectClass` starts
   * empty and each test that holds overwrites it, so at most one suffix
   * survives.
   */
  function WordClass<K>(filters: set<K>, key: K): (r: string)
    ensures filters == {} ==> r == "dc-word"
    ensures filters != {} && key in filters ==> r == "dc-word selected"
    ensures filters != {} && key !in filters ==> r == "dc-word deselected"
  {
    var selectClass := if IsSelected(filters, key) then " selected" else "";
    var selectClass' := if IsDeselected(filters, key) then " deselected" else selectClass;
    "dc-word" + selectClass'
  }

  /** The word class is one of exactly three strings and never carries both suffixes. */
  lemma WordClassOneOfThree<K>(filters: set<K>, key: K)
    ensures WordClass(filters, key) in {"dc-word", "dc-word selected", "dc-word deselected"}
    ensures WordClass(filters, key) != "dc-word selected deselected"
  {
  }
}
