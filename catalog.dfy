/** The cell-type catalogue behind the viewer: which sample image to show
    for the selected cell type, and which style class to give the image. */
module Catalog {

  /** One row of a count table. */
  datatype CellEntry = CellEntry(count: nat, percentage: string, image: string)

  /** The red and white cell tables, keyed by cell-type name. */
  datatype BloodCounts = BloodCounts(rbc: map<string, CellEntry>, wbc: map<string, CellEntry>)

  const DefaultImage := "normal-peripheral-blood.jpg"

  /** The tables the viewer starts with. */
  const SampleCounts := BloodCounts(
    map[
      "Angled Cells" := CellEntry(222, "67%", "normal-peripheral-blood.jpg"),
      "Borderline Ovalocytes" := CellEntry(50, "20%", "autoimmune-hemolytic-anemia.jpg"),
      "Burr Cells" := CellEntry(87, "34%", "sickle-cell-anemia.jpg"),
      "Fragmented Cells" := CellEntry(2, "0.12%", "myelodysplastic-syndrome.jpg"),
      "Ovalocytes" := CellEntry(0, "0%", "malaria.jpg"),
      "Rounded RBC" := CellEntry(0, "0%", "essential-thrombocythemia.jpg"),
      "Teardrops" := CellEntry(0, "0%", "chronic-myeloid-leukemia.jpg")
    ],
    map[
      "Basophil" := CellEntry(222, "67%", "plasma-cell-leukemia.jpg"),
      "Eosinophil" := CellEntry(50, "20%", "marginal-zone-lymphoma.jpg"),
      "Lymphocyte" := CellEntry(87, "34%", "chronic-lymphocytic-leukemia.jpg"),
      "Monocyte" := CellEntry(2, "0.12%", "acute-lymphoblastic-leukemia.jpg")
    ])

  /** The table a category selects, if any. */
  function TableOf(category: string, counts: BloodCounts): map<string, CellEntry> {
    if category == "rbc" then counts.rbc
    else if category == "wbc" then counts.wbc
    else map[]
  }

  /** The image for a selection: the image of its row in its category's
      table, or the default image when there is no such row. */
  function CurrentImage(category: string, cellType: string, counts: BloodCounts): (image: string)
    ensures cellType in TableOf(category, counts) ==> image == TableOf(category, counts)[cellType].image
    ensures cellType !in TableOf(category, counts) ==> image == DefaultImage
  {
    if category == "rbc" && cellType in counts.rbc then counts.rbc[cellType].image
    else if category == "wbc" && cellType in counts.wbc then counts.wbc[cellType].image
    else DefaultImage
  }

  /** Every image the viewer can show is the default or one that a table
      names. */
  lemma CurrentImageIsListed(category: string, cellType: string, counts: BloodCounts)
    ensures var image := CurrentImage(category, cellType, counts);
      image == DefaultImage ||
      (exists t :: t in counts.rbc && counts.rbc[t].image == image) ||
      (exists t :: t in counts.wbc && counts.wbc[t].image == image)
  {
    if category == "rbc" && cellType in counts.rbc {
      assert counts.rbc[cellType].image == CurrentImage(category, cellType, counts);
    } else if category == "wbc" && cellType in counts.wbc {
      assert counts.wbc[cellType].image == CurrentImage(category, cellType, counts);
    }
  }

  /** The starting tables list seven red and four white cell types. */
  lemma SampleCountsRows()
    ensures SampleCounts.rbc.Keys == {"Angled Cells", "Borderline Ovalocytes", "Burr Cells",
      "Fragmented Cells", "Ovalocytes", "Rounded RBC", "Teardrops"}
    ensures SampleCounts.wbc.Keys == {"Basophil", "Eosinophil", "Lymphocyte", "Monocyte"}
  {
  }

  /** Within each starting table no two rows show the same image, so each
      selection of a listed cell type shows its own picture. */
  lemma SampleImagesDistinct(category: string, a: string, b: string)
    requires a in TableOf(category, SampleCounts) && b in TableOf(category, SampleCounts)
    requires CurrentImage(category, a, SampleCounts) == CurrentImage(category, b, SampleCounts)
    ensures a == b
  {
    SampleCountsRows();
  }

  /** Worked examples on the starting tables. */
  lemma CurrentImageExamples()
    ensures CurrentImage("rbc", "Ovalocytes", SampleCounts) == "malaria.jpg"
    ensures CurrentImage("wbc", "Monocyte", SampleCounts) == "acute-lymphoblastic-leukemia.jpg"
    ensures CurrentImage("wbc", "Ovalocytes", SampleCounts) == DefaultImage
  {
    assert "Ovalocytes" !in SampleCounts.wbc;
  }

  // ---------------------------------------------------------------------
  // Style classes
  // ---------------------------------------------------------------------

  const Normal := "blood-normal"
  const SickleCell := "blood-sickle-cell"
  const Anemia := "blood-anemia"
  const Leukemia := "blood-leukemia"
  const Malaria := "blood-malaria"

  /** `sub` occurs in `s` starting at index `i`. */
  predicate OccursAt(s: string, sub: string, i: int) {
    0 <= i && i + |sub| <= |s| && s[i..i + |sub|] == sub
  }

  /** `s.includes(sub)`: `sub` occurs in `s` at some index; the empty string
      occurs in every string. */
  predicate Contains(s: string, sub: string)
    ensures Contains(s, sub) <==> exists i :: OccursAt(s, sub, i)
    decreases |s|
  {
    ContainsAt0(s, sub);
    if |s| > 0 then
      ShiftOccurrences(s, sub);
      |sub| <= |s| && (s[..|sub|] == sub || Contains(s[1..], sub))
    else
      |sub| <= |s| && s[..|sub|] == sub
  }

  /** An occurrence at index 0 is a matching prefix. */
  lemma ContainsAt0(s: string, sub: string)
    ensures OccursAt(s, sub, 0) <==> |sub| <= |s| && s[..|sub|] == sub
  {
  }

  /** The occurrences in the tail of `s` are those in `s` past index 0. */
  lemma ShiftOccurrences(s: string, sub: string)
    requires |s| > 0
    ensures (exists i :: OccursAt(s[1..], sub, i)) <==> (exists i :: 1 <= i && OccursAt(s, sub, i))
  {
    forall i | 0 <= i
      ensures OccursAt(s[1..], sub, i) <==> OccursAt(s, sub, i + 1)
    {
      if i + |sub| <= |s| - 1 {
        assert s[1..][i..i + |sub|] == s[i + 1..i + 1 + |sub|];
      }
    }
    if exists i :: 1 <= i && OccursAt(s, sub, i) {
      var i :| 1 <= i && OccursAt(s, sub, i);
      assert OccursAt(s[1..], sub, i - 1);
    }
  }

  /** The style class of the selected cell type. The second test for
      "Ovalocytes" can never fire, since the anemia test before it already
      matches that name. */
  function BloodCellClass(category: string, cellType: string): (cls: string)
    ensures cls in {Normal, SickleCell, Anemia, Leukemia}
    ensures category == "wbc" ==> (cls == Leukemia <==> Contains(cellType, "leukemia"))
    ensures category == "wbc" ==> cls == Normal || cls == Leukemia
    ensures category != "rbc" && category != "wbc" ==> cls == Normal
  {
    if category == "rbc" then
      if cellType == "Angled Cells" then Normal
      else if cellType == "Sickle Cells" || cellType == "Burr Cells" then SickleCell
      else if cellType == "Ovalocytes" || cellType == "Teardrops" then Anemia
      else if cellType == "Fragmented Cells" then Leukemia
      else if cellType == "Ovalocytes" then Malaria
      else Normal
    else if category == "wbc" then
      if Contains(cellType, "leukemia") then Leukemia else Normal
    else Normal
  }

  /** The red-cell classes as a table: a name it does not list is shown as
      normal. */
  const RbcClasses := map[
    "Angled Cells" := Normal,
    "Sickle Cells" := SickleCell,
    "Burr Cells" := SickleCell,
    "Ovalocytes" := Anemia,
    "Teardrops" := Anemia,
    "Fragmented Cells" := Leukemia
  ]

  /** The class of a red cell type is the one the table gives it. */
  lemma RbcClassMatchesTable(cellType: string)
    ensures BloodCellClass("rbc", cellType)
         == if cellType in RbcClasses then RbcClasses[cellType] else Normal
  {
  }

  /** The malaria class is never chosen; "Ovalocytes" is shown as anemia. */
  lemma MalariaUnreachable(category: string, cellType: string)
    ensures BloodCellClass(category, cellType) != Malaria
    ensures BloodCellClass("rbc", "Ovalocytes") == Anemia
  {
  }

  /** No white-cell name of the starting table contains "leukemia", so every
      white-cell row is shown as normal. */
  lemma SampleWbcAreNormal(cellType: string)
    requires cellType in SampleCounts.wbc
    ensures BloodCellClass("wbc", cellType) == Normal
  {
    var key := "leukemia";
    assert cellType == "Basophil" || cellType == "Eosinophil" || cellType == "Lymphocyte" || cellType == "Monocyte";
    if |cellType| == 8 {
      assert cellType[..8] != key by { assert cellType[0] != key[0]; }
      assert !Contains(cellType[1..], key);
    } else {
      assert |cellType| == 10;
      assert cellType[..8] != key by { assert cellType[0] != key[0]; }
      assert cellType[1..][..8] != key by { assert cellType[1] != key[0]; }
      assert cellType[2..][..8] != key by { assert cellType[2] != key[0]; }
      assert cellType[1..][1..] == cellType[2..];
      assert !Contains(cellType[2..][1..], key);
    }
  }
}
