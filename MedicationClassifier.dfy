/**
 * `get_medications`: active medication orders split into home and inpatient lists by the
 * code of the last category coding seen ("community" means home).
 */
module MedicationClassifier {
  import opened Json
  import opened Records

  const UnknownMedication := "Unknown medication"
  const Community: Json := JStr("community")

  /** `r.get("category", [])`. */
  function Categories(r: Json): seq<Json>
    requires ListAt(r, "category")
  {
    GetList(r, "category", [])
  }

  /** `cat.get("coding", [])`. */
  function CategoryCodings(cat: Json): seq<Json>
    requires ListAt(cat, "coding")
  {
    GetList(cat, "coding", [])
  }

  predicate CategoryShaped(cat: Json) {
    ListAt(cat, "coding") && AllObjects(CategoryCodings(cat))
  }

  predicate AllCategoriesShaped(cats: seq<Json>) {
    forall k | 0 <= k < |cats| :: CategoryShaped(cats[k])
  }

  /**
   * The fields `get_medications` reads hold the JSON kinds FHIR R4 gives them; a coding's
   * `code` may hold anything, since it is only compared.
   */
  predicate MedicationShaped(r: Json) {
    && ObjAt(r, "medicationCodeableConcept")
    && StrAt(GetObj(r, "medicationCodeableConcept"), "text")
    && ListAt(r, "category")
    && AllCategoriesShaped(Categories(r))
  }

  predicate AllMedicationsShaped(rs: seq<Json>) {
    forall i | 0 <= i < |rs| :: MedicationShaped(rs[i])
  }

  function MedicationText(r: Json): string
    requires MedicationShaped(r)
  {
    GetStr(GetObj(r, "medicationCodeableConcept"), "text", UnknownMedication)
  }

  /** Every coding of every category, in order. */
  function AllCodings(cats: seq<Json>): (r: seq<Json>)
    requires AllCategoriesShaped(cats)
    ensures AllObjects(r)
  {
    if cats == [] then []
    else AllCodings(cats[..|cats| - 1]) + CategoryCodings(cats[|cats| - 1])
  }

  /** `coding.get("code", "")` of the last coding, "" when there is none. */
  function LastCode(codings: seq<Json>): Json
    requires AllObjects(codings)
  {
    if codings == [] then JStr("") else Get(codings[|codings| - 1], "code", JStr(""))
  }

  /** The category code of an order: the last code seen across all its categories. */
  function Category(r: Json): Json
    requires MedicationShaped(r)
  {
    LastCode(AllCodings(Categories(r)))
  }

  predicate IsHome(r: Json)
    requires MedicationShaped(r)
  {
    Category(r) == Community
  }

  /** The home and inpatient lists of `rs`: each order's text, on the side its category selects. */
  function Classify(rs: seq<Json>): (m: Meds)
    requires AllMedicationsShaped(rs)
  {
    if rs == [] then Meds([], [])
    else
      var init := Classify(rs[..|rs| - 1]);
      var last := rs[|rs| - 1];
      if IsHome(last) then Meds(init.home + [MedicationText(last)], init.inpatient)
      else Meds(init.home, init.inpatient + [MedicationText(last)])
  }

  /** The nested `for cat ... for coding ...` loop of `get_medications`, where each coding overwrites `category`. */
  method CategoryOf(r: Json) returns (category: Json)
    requires MedicationShaped(r)
    ensures category == Category(r)
  {
    category := JStr("");
    var cats := GetList(r, "category", []);
    var i := 0;
    while i < |cats|
      invariant 0 <= i <= |cats|
      invariant category == LastCode(AllCodings(cats[..i]))
    {
      var codings := GetList(cats[i], "coding", []);
      assert cats[..i + 1][..i] == cats[..i];
      assert AllCodings(cats[..i]) + codings[..0] == AllCodings(cats[..i]);
      var j := 0;
      while j < |codings|
        invariant 0 <= j <= |codings|
        invariant category == LastCode(AllCodings(cats[..i]) + codings[..j])
      {
        category := Get(codings[j], "code", JStr(""));
        assert (AllCodings(cats[..i]) + codings[..j + 1])[|AllCodings(cats[..i]) + codings[..j + 1]| - 1] == codings[j];
        j := j + 1;
      }
      assert codings[..j] == codings;
      i := i + 1;
    }
    assert cats[..i] == cats;
  }

  /** `get_medications` after the fetch. */
  method GetMedications(resources: seq<Json>) returns (meds: Meds)
    requires AllMedicationsShaped(resources)
    ensures meds == Classify(resources)
  {
    var homeMeds: seq<string> := [];
    var inpatientMeds: seq<string> := [];
    var i := 0;
    while i < |resources|
      invariant 0 <= i <= |resources|
      invariant Meds(homeMeds, inpatientMeds) == Classify(resources[..i])
    {
      var r := resources[i];
      var medText := GetStr(GetObj(r, "medicationCodeableConcept"), "text", UnknownMedication);
      var category := CategoryOf(r);
      if category == Community {
        homeMeds := homeMeds + [medText];
      } else {
        inpatientMeds := inpatientMeds + [medText];
      }
      assert resources[..i + 1][..i] == resources[..i];
      i := i + 1;
    }
    assert resources[..i] == resources;
    meds := Meds(homeMeds, inpatientMeds);
  }

  /** Every order lands in exactly one list: the two lengths add up to the number of orders. */
  lemma {:induction false} ClassifySizes(rs: seq<Json>)
    requires AllMedicationsShaped(rs)
    ensures |Classify(rs).home| + |Classify(rs).inpatient| == |rs|
  {
    if rs != [] {
      ClassifySizes(rs[..|rs| - 1]);
    }
  }

  /** Classification keeps order: classifying a concatenation concatenates the lists side by side. */
  lemma {:induction false} ClassifyAppend(a: seq<Json>, b: seq<Json>)
    requires AllMedicationsShaped(a) && AllMedicationsShaped(b)
    ensures AllMedicationsShaped(a + b)
    ensures Classify(a + b).home == Classify(a).home + Classify(b).home
    ensures Classify(a + b).inpatient == Classify(a).inpatient + Classify(b).inpatient
  {
    if b == [] {
      assert a + b == a;
    } else {
      var b' := b[..|b| - 1];
      assert (a + b)[..|a + b| - 1] == a + b';
      assert (a + b)[|a + b| - 1] == b[|b| - 1];
      ClassifyAppend(a, b');
    }
  }

  /**
   * Where the i-th order goes: into home exactly when its category is "community", right after
   * the home orders before it; otherwise into inpatient, right after the inpatient orders before it.
   */
  lemma ClassifyRoutes(rs: seq<Json>, i: nat)
    requires AllMedicationsShaped(rs)
    requires i < |rs|
    ensures var before := Classify(rs[..i]); var after := Classify(rs);
      if IsHome(rs[i]) then
        |before.home| < |after.home| && after.home[|before.home|] == MedicationText(rs[i])
      else
        |before.inpatient| < |after.inpatient| && after.inpatient[|before.inpatient|] == MedicationText(rs[i])
  {
    var a, b := rs[..i + 1], rs[i + 1..];
    assert rs == a + b;
    assert a[..i] == rs[..i] && a[i] == rs[i];
    ClassifyAppend(a, b);
  }

  /** The category comes from the last category entry that has codings; later entries without codings change nothing. */
  lemma {:induction false} CategoryFromLastCoded(cats: seq<Json>, k: nat)
    requires AllCategoriesShaped(cats)
    requires k < |cats| && CategoryCodings(cats[k]) != []
    requires forall m | k < m < |cats| :: CategoryCodings(cats[m]) == []
    ensures LastCode(AllCodings(cats)) == LastCode(CategoryCodings(cats[k]))
  {
    if k < |cats| - 1 {
      CategoryFromLastCoded(cats[..|cats| - 1], k);
      assert AllCodings(cats) == AllCodings(cats[..|cats| - 1]);
    } else {
      var all := AllCodings(cats);
      assert all[|all| - 1] == CategoryCodings(cats[k])[|CategoryCodings(cats[k])| - 1];
    }
  }

  function CategoryEntry(code: string): Json {
    JObj(map["coding" := JList([JObj(map["code" := JStr(code)])])])
  }

  function Order(text: string, codes: seq<string>): Json {
    JObj(map[
      "medicationCodeableConcept" := JObj(map["text" := JStr(text)]),
      "category" := JList(seq(|codes|, k requires 0 <= k < |codes| => CategoryEntry(codes[k])))])
  }

  /** Last coding wins: "community" then "inpatient" is inpatient, the reverse order is home; no category is inpatient. */
  lemma LastCodingWins()
    ensures MedicationShaped(Order("Aspirin 81 mg daily", ["community", "inpatient"]))
    ensures !IsHome(Order("Aspirin 81 mg daily", ["community", "inpatient"]))
    ensures MedicationShaped(Order("Aspirin 81 mg daily", ["inpatient", "community"]))
    ensures IsHome(Order("Aspirin 81 mg daily", ["inpatient", "community"]))
    ensures MedicationShaped(Order("Aspirin 81 mg daily", []))
    ensures !IsHome(Order("Aspirin 81 mg daily", []))
  {
    var cats1 := Categories(Order("Aspirin 81 mg daily", ["community", "inpatient"]));
    assert cats1 == [CategoryEntry("community"), CategoryEntry("inpatient")];
    CategoryFromLastCoded(cats1, 1);
    var cats2 := Categories(Order("Aspirin 81 mg daily", ["inpatient", "community"]));
    assert cats2 == [CategoryEntry("inpatient"), CategoryEntry("community")];
    CategoryFromLastCoded(cats2, 1);
    assert JStr("inpatient") != Community;
  }
}
