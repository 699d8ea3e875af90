/** The seed snapshot of the store (constants.ts). Each expiry is written as
    an offset in days from the day the seed is built, `loadDay`. */
module Constants {
  import opened Types

  /** The seven seed materials in store order. */
  function MockMaterials(loadDay: int): (r: seq<Material>)
    ensures |r| == 7
    ensures forall i :: 0 <= i < 7 ==> r[i].materialId == 101 + i
    ensures forall i :: 0 <= i < 7 ==>
      r[i].agentStatus == (if r[i].materialId == 106 then WARNING else SAFE)
  {
    [ Material(101, 12, "Chicken Breast (Frozen)", "Ahmad Food Supplies", "Meat", true, SAFE,
               "JAKIM/MH/2023/101", loadDay + 45),
      Material(102, 12, "Ground Beef Grade A", "Premium Meats Sdn Bhd", "Meat", true, SAFE,
               "JAKIM/MH/2023/102", loadDay + 8),
      Material(103, 5, "Dark Chocolate Compound", "Cocoa World", "Dry Goods", false, SAFE,
               "JAKIM/MH/2023/103", loadDay + 20),
      Material(104, 5, "Heavy Cream", "Dairy Best", "Dairy", true, SAFE,
               "JAKIM/MH/2023/104", loadDay - 2),
      Material(105, 8, "Gelatin Powder", "Halal Gelatin Co", "Additives", true, SAFE,
               "JAKIM/MH/2023/105", loadDay + 120),
      Material(106, 8, "Soy Sauce", "Taste Master", "Condiments", false, WARNING,
               "JAKIM/MH/2023/106", loadDay + 5),
      Material(107, 12, "Mozzarella Cheese", "Dairy Best", "Dairy", true, SAFE,
               "JAKIM/MH/2023/107", loadDay + 28) ]
  }

  /** Seed ids are pairwise distinct. */
  lemma SeedIdsDistinct(loadDay: int)
    ensures var r := MockMaterials(loadDay);
      forall i, j :: 0 <= i < j < |r| ==> r[i].materialId != r[j].materialId
  {
  }
}
