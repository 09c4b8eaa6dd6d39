/** `get_allergies`: the allergy list, which is never empty. */
module AllergyList {
  import opened Json

  const NoAllergies := "No allergies listed"

  predicate AllergyShaped(r: Json) {
    ObjAt(r, "code") && StrAt(GetObj(r, "code"), "text")
  }

  predicate AllAllergiesShaped(rs: seq<Json>) {
    forall i | 0 <= i < |rs| :: AllergyShaped(rs[i])
  }

  function AllergyText(r: Json): string
    requires AllergyShaped(r)
  {
    GetStr(GetObj(r, "code"), "text", "")
  }

  /** The non-empty allergy texts, in order. */
  function Texts(rs: seq<Json>): (r: seq<string>)
    requires AllAllergiesShaped(rs)
    ensures |r| <= |rs|
    ensures forall k | 0 <= k < |r| :: r[k] != ""
  {
    if rs == [] then []
    else
      var text := AllergyText(rs[|rs| - 1]);
      Texts(rs[..|rs| - 1]) + (if text != "" then [text] else [])
  }

  /** The allergy list of a chart: the texts, or the sentinel when there are none. */
  function Allergies(rs: seq<Json>): (r: seq<string>)
    requires AllAllergiesShaped(rs)
    ensures r != []
    ensures forall k | 0 <= k < |r| :: r[k] != ""
    ensures Texts(rs) == [] ==> r == [NoAllergies]
    ensures Texts(rs) != [] ==> r == Texts(rs)
  {
    if Texts(rs) == [] then [NoAllergies] else Texts(rs)
  }

  /** `get_allergies` after the fetch. */
  method GetAllergies(resources: seq<Json>) returns (allergies: seq<string>)
    requires AllAllergiesShaped(resources)
    ensures allergies == Allergies(resources)
  {
    if resources == [] {
      return [NoAllergies];
    }
    allergies := [];
    var i := 0;
    while i < |resources|
      invariant 0 <= i <= |resources|
      invariant allergies == Texts(resources[..i])
    {
      var text := GetStr(GetObj(resources[i], "code"), "text", "");
      if text != "" {
        allergies := allergies + [text];
      }
      assert resources[..i + 1][..i] == resources[..i];
      i := i + 1;
    }
    assert resources[..i] == resources;
    if allergies == [] {
      allergies := [NoAllergies];
    }
  }

  /** The texts of a concatenation are the concatenation of the texts: input order is kept. */
  lemma {:induction false} TextsAppend(a: seq<Json>, b: seq<Json>)
    requires AllAllergiesShaped(a) && AllAllergiesShaped(b)
    ensures AllAllergiesShaped(a + b)
    ensures Texts(a + b) == Texts(a) + Texts(b)
  {
    if b == [] {
      assert a + b == a;
    } else {
      var b' := b[..|b| - 1];
      assert (a + b)[..|a + b| - 1] == a + b';
      assert (a + b)[|a + b| - 1] == b[|b| - 1];
      TextsAppend(a, b');
    }
  }

  /** The sentinel appears exactly when no resource carries a non-empty text. */
  lemma {:induction false} SentinelIffNoText(rs: seq<Json>)
    requires AllAllergiesShaped(rs)
    ensures Texts(rs) == [] <==> forall i | 0 <= i < |rs| :: AllergyText(rs[i]) == ""
  {
    if rs != [] {
      var init := rs[..|rs| - 1];
      SentinelIffNoText(init);
      assert forall i | 0 <= i < |init| :: init[i] == rs[i];
    }
  }

  const NoKnownDrugAllergies: Json := JObj(map[
    "clinicalStatus" := JObj(map["coding" := JList([JObj(map["code" := JStr("active")])])]),
    "code" := JObj(map["text" := JStr("No Known Drug Allergies")])])

  /** The seeded NKDA record (setup_demo_patient.py) is listed as its text; an empty search gives the sentinel. */
  lemma DemoAllergies()
    ensures AllergyShaped(NoKnownDrugAllergies)
    ensures Allergies([NoKnownDrugAllergies]) == ["No Known Drug Allergies"]
    ensures Allergies([]) == ["No allergies listed"]
  {
    assert [NoKnownDrugAllergies][..0] == [];
  }
}
