/**
 * `_get_bundle`: one search request and the unwrapping of its Bundle into the list of
 * resources. The HTTP exchange itself is an input: a status code and the decoded body.
 */
module Bundle {
  import opened Wrappers
  import opened Json
  import opened Records

  datatype Response = Response(status: int, body: Json)

  /** `raise_for_status` raises for client (4xx) and server (5xx) errors. */
  predicate Failed(resp: Response) {
    400 <= resp.status < 600
  }

  /** A Bundle body whose `entry` list, when present, holds objects. */
  predicate BundleShaped(bundle: Json) {
    ListAt(bundle, "entry") && AllObjects(GetList(bundle, "entry", []))
  }

  /** `bundle.get("entry", [])`. */
  function Entries(bundle: Json): seq<Json>
    requires BundleShaped(bundle)
  {
    GetList(bundle, "entry", [])
  }

  /** `[e["resource"] for e in entries]`: every entry's resource in order, or the KeyError of an entry without one. */
  function Resources(entries: seq<Json>): (r: Result<seq<Json>, Error>)
    requires AllObjects(entries)
    ensures r.Ok? <==> forall i | 0 <= i < |entries| :: Has(entries[i], "resource")
    ensures r.Err? ==> r.error == KeyError("resource")
    ensures r.Ok? ==> |r.value| == |entries|
    ensures r.Ok? ==> forall i | 0 <= i < |entries| :: r.value[i] == entries[i].fields["resource"]
  {
    if entries == [] then Ok([])
    else
      var last := entries[|entries| - 1];
      var init :- Resources(entries[..|entries| - 1]);
      if "resource" in last.fields then Ok(init + [last.fields["resource"]]) else Err(KeyError("resource"))
  }

  /** The resources of a Bundle body; a missing `entry` gives []. */
  function Unwrap(bundle: Json): (r: Result<seq<Json>, Error>)
    requires BundleShaped(bundle)
    ensures !Has(bundle, "entry") ==> r == Ok([])
  {
    Resources(Entries(bundle))
  }

  /** `_get_bundle(resource_type, params)` given the response to its request. */
  function GetBundle(resourceType: string, resp: Response): (r: Result<seq<Json>, Error>)
    requires !Failed(resp) ==> BundleShaped(resp.body)
    ensures Failed(resp) ==> r == Err(HttpError(resourceType, resp.status))
    ensures !Failed(resp) ==> r == Unwrap(resp.body)
  {
    if Failed(resp) then Err(HttpError(resourceType, resp.status)) else Unwrap(resp.body)
  }

  /**
   * A response that failed, or whose Bundle's resources (those present) all satisfy
   * `shaped`. This is what each extractor asks of the resources it reads.
   */
  predicate ResourcesSatisfy(resp: Response, shaped: Json -> bool) {
    !Failed(resp) ==>
      && BundleShaped(resp.body)
      && forall i | 0 <= i < |Entries(resp.body)| ::
           Has(Entries(resp.body)[i], "resource") ==> shaped(Entries(resp.body)[i].fields["resource"])
  }

  /** The resources `GetBundle` returns are the ones `ResourcesSatisfy` constrains. */
  lemma BundleResourcesSatisfy(resourceType: string, resp: Response, shaped: Json -> bool)
    requires ResourcesSatisfy(resp, shaped)
    requires GetBundle(resourceType, resp).Ok?
    ensures forall i | 0 <= i < |GetBundle(resourceType, resp).value| :: shaped(GetBundle(resourceType, resp).value[i])
  {
  }

  /** A response that failed, or whose Bundle's first resource (if any) satisfies `shaped`. */
  predicate FirstResourceSatisfies(resp: Response, shaped: Json -> bool) {
    !Failed(resp) ==>
      && BundleShaped(resp.body)
      && (|Entries(resp.body)| > 0 && Has(Entries(resp.body)[0], "resource") ==>
            shaped(Entries(resp.body)[0].fields["resource"]))
  }

  /** The first resource `GetBundle` returns is the one `FirstResourceSatisfies` constrains. */
  lemma BundleFirstSatisfies(resourceType: string, resp: Response, shaped: Json -> bool)
    requires FirstResourceSatisfies(resp, shaped)
    requires GetBundle(resourceType, resp).Ok?
    ensures GetBundle(resourceType, resp).value != [] ==> shaped(GetBundle(resourceType, resp).value[0])
  {
  }
}
