/**
 * The department -> province -> district tree behind the checkout's
 * cascading address selectors, and the option list each selector offers.
 * The tree is `None` until it has been loaded.
 */
module Geography {
  import opened Options
  import opened Strings

  datatype DistrictInfo = DistrictInfo(ubigeo: string, id: int, inei: Option<string>)

  type Districts = map<string, DistrictInfo>
  type Provinces = map<string, Districts>
  type Tree = map<string, Provinces>

  /** The department selector: every department once, in sort order; nothing before loading. */
  function DepartmentOptions(tree: Option<Tree>): (r: seq<string>)
    ensures StrictlySorted(r)
    ensures forall d :: d in r <==> tree.Some? && d in tree.value
  {
    if tree.None? then [] else SortedKeys(tree.value.Keys)
  }

  /**
   * The province selector: the provinces of the selected department, sorted;
   * nothing when no department is selected or it is not in the tree.
   */
  function ProvinceOptions(tree: Option<Tree>, region: string): (r: seq<string>)
    ensures StrictlySorted(r)
    ensures forall p :: p in r <==>
      tree.Some? && region != "" && region in tree.value && p in tree.value[region]
  {
    if tree.None? || region == "" then []
    else
      var provinces: Provinces := if region in tree.value then tree.value[region] else map[];
      SortedKeys(provinces.Keys)
  }

  /**
   * The district selector: the districts of the selected province, sorted;
   * nothing unless both a department and a province are selected and present.
   */
  function DistrictOptions(tree: Option<Tree>, region: string, province: string): (r: seq<string>)
    ensures StrictlySorted(r)
    ensures forall d :: d in r <==>
      tree.Some? && region != "" && province != "" && region in tree.value
      && province in tree.value[region] && d in tree.value[region][province]
  {
    if tree.None? || region == "" || province == "" then []
    else
      var districts: Districts :=
        if region in tree.value && province in tree.value[region] then tree.value[region][province] else map[];
      SortedKeys(districts.Keys)
  }

  /** No province is offered exactly when no department is chosen, it is unknown, or it has no provinces. */
  lemma NoProvincesIff(tree: Option<Tree>, region: string)
    ensures ProvinceOptions(tree, region) == [] <==>
      tree.None? || region == "" || region !in tree.value || tree.value[region] == map[]
  {
    var r := ProvinceOptions(tree, region);
    if r != [] {
      assert r[0] in r;
    }
  }

  /** No district is offered exactly when the selection does not reach a province that has districts. */
  lemma NoDistrictsIff(tree: Option<Tree>, region: string, province: string)
    ensures DistrictOptions(tree, region, province) == [] <==>
      tree.None? || region == "" || province == "" || region !in tree.value
      || province !in tree.value[region] || tree.value[region][province] == map[]
  {
    var r := DistrictOptions(tree, region, province);
    if r != [] {
      assert r[0] in r;
    }
  }
}
