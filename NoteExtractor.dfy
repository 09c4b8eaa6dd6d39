/**
 * `get_notes`: one type/text pair per DocumentReference. The text is the decoding of the
 * last attachment with non-empty data. Decoding (base64, then UTF-8 with replacement) is
 * the `decode` parameter.
 */
module NoteExtractor {
  import opened Wrappers
  import opened Json
  import opened Records

  const DefaultNoteType := "Clinical Note"

  /** `r.get("content", [])`. */
  function Contents(r: Json): seq<Json>
    requires ListAt(r, "content")
  {
    GetList(r, "content", [])
  }

  /** `c.get("attachment", {})`. */
  function Attachment(c: Json): Json
    requires ObjAt(c, "attachment")
  {
    GetObj(c, "attachment")
  }

  predicate ContentShaped(c: Json) {
    ObjAt(c, "attachment") && StrAt(Attachment(c), "data")
  }

  predicate AllContentsShaped(cs: seq<Json>) {
    forall k | 0 <= k < |cs| :: ContentShaped(cs[k])
  }

  /** The fields `get_notes` reads hold the JSON kinds FHIR R4 gives them. */
  predicate NoteShaped(r: Json) {
    && ObjAt(r, "type")
    && StrAt(GetObj(r, "type"), "text")
    && ListAt(r, "content")
    && AllContentsShaped(Contents(r))
  }

  predicate AllNotesShaped(rs: seq<Json>) {
    forall i | 0 <= i < |rs| :: NoteShaped(rs[i])
  }

  /** An attachment's `data`, "" when absent. */
  function Data(c: Json): string
    requires ContentShaped(c)
  {
    GetStr(Attachment(c), "data", "")
  }

  /** The data of the last attachment whose data is non-empty, searched from the end. */
  function LastPayload(cs: seq<Json>): (p: Option<string>)
    requires AllContentsShaped(cs)
    ensures p.None? <==> forall k | 0 <= k < |cs| :: Data(cs[k]) == ""
    ensures p.Some? ==> p.value != ""
    ensures p.Some? ==> exists k | 0 <= k < |cs| :: Data(cs[k]) == p.value && forall m | k < m < |cs| :: Data(cs[m]) == ""
  {
    if cs == [] then None
    else if Data(cs[|cs| - 1]) != "" then Some(Data(cs[|cs| - 1]))
    else
      var p := LastPayload(cs[..|cs| - 1]);
      assert forall k | 0 <= k < |cs| - 1 :: cs[..|cs| - 1][k] == cs[k];
      p
  }

  function NoteType(r: Json): string
    requires NoteShaped(r)
  {
    GetStr(GetObj(r, "type"), "text", DefaultNoteType)
  }

  /** A decoded payload, "" when there is none. */
  function Decoded(payload: Option<string>, decode: string -> string): string {
    match payload
    case None => ""
    case Some(data) => decode(data)
  }

  /** The note text: the decoded last payload, "" when no attachment carries data. */
  function NoteText(r: Json, decode: string -> string): string
    requires NoteShaped(r)
  {
    Decoded(LastPayload(Contents(r)), decode)
  }

  /** One note per document, in order. */
  function Notes(rs: seq<Json>, decode: string -> string): (ns: seq<Note>)
    requires AllNotesShaped(rs)
    ensures |ns| == |rs|
    ensures forall i | 0 <= i < |rs| :: ns[i] == Note(NoteType(rs[i]), NoteText(rs[i], decode))
  {
    if rs == [] then []
    else
      var last := rs[|rs| - 1];
      Notes(rs[..|rs| - 1], decode) + [Note(NoteType(last), NoteText(last, decode))]
  }

  /** The attachment loop of `get_notes`: every attachment with data overwrites `text`. */
  method DecodeAttachments(r: Json, decode: string -> string) returns (text: string)
    requires NoteShaped(r)
    ensures text == NoteText(r, decode)
  {
    var contentList := GetList(r, "content", []);
    assert contentList == Contents(r);
    text := "";
    var k := 0;
    while k < |contentList|
      invariant 0 <= k <= |contentList|
      invariant text == Decoded(LastPayload(contentList[..k]), decode)
    {
      var attachment := GetObj(contentList[k], "attachment");
      var data := GetStr(attachment, "data", "");
      assert contentList[..k + 1][..k] == contentList[..k];
      assert data == Data(contentList[..k + 1][k]);
      assert LastPayload(contentList[..k + 1]) == if data != "" then Some(data) else LastPayload(contentList[..k]);
      if data != "" {
        text := decode(data);
      }
      k := k + 1;
    }
    assert contentList[..k] == contentList;
  }

  /** `get_notes` after the fetch. */
  method GetNotes(resources: seq<Json>, decode: string -> string) returns (notes: seq<Note>)
    requires AllNotesShaped(resources)
    ensures notes == Notes(resources, decode)
  {
    notes := [];
    var i := 0;
    while i < |resources|
      invariant 0 <= i <= |resources|
      invariant notes == Notes(resources[..i], decode)
    {
      var r := resources[i];
      var docType := GetStr(GetObj(r, "type"), "text", DefaultNoteType);
      var text := DecodeAttachments(r, decode);
      notes := notes + [Note(docType, text)];
      assert resources[..i + 1][..i] == resources[..i];
      i := i + 1;
    }
    assert resources[..i] == resources;
  }

  /** An attachment without data after one with data leaves the earlier payload in place. */
  lemma EmptyLaterAttachmentKeepsText(cs: seq<Json>, c: Json)
    requires AllContentsShaped(cs) && ContentShaped(c) && Data(c) == ""
    ensures AllContentsShaped(cs + [c])
    ensures LastPayload(cs + [c]) == LastPayload(cs)
  {
    assert (cs + [c])[..|cs|] == cs;
  }

  function TextAttachment(data: string): Json {
    JObj(map["attachment" := JObj(map["contentType" := JStr("text/plain"), "data" := JStr(data)])])
  }

  /** An attachment with data at the end supplies the payload, whatever came before it. */
  lemma LaterPayloadWins(cs: seq<Json>, c: Json)
    requires AllContentsShaped(cs) && ContentShaped(c) && Data(c) != ""
    ensures AllContentsShaped(cs + [c])
    ensures LastPayload(cs + [c]) == Some(Data(c))
  {
  }

  /** A document with two payloads keeps the later one; a document without `type` is a "Clinical Note". */
  lemma TwoPayloadNote(decode: string -> string)
    ensures var doc := JObj(map["content" := JList([TextAttachment("Zmlyc3Q="), TextAttachment("c2Vjb25k")])]);
      NoteShaped(doc) && Notes([doc], decode) == [Note("Clinical Note", decode("c2Vjb25k"))]
  {
    var doc := JObj(map["content" := JList([TextAttachment("Zmlyc3Q="), TextAttachment("c2Vjb25k")])]);
    assert Contents(doc) == [TextAttachment("Zmlyc3Q="), TextAttachment("c2Vjb25k")];
    assert Data(TextAttachment("c2Vjb25k")) == "c2Vjb25k";
    assert Notes([doc], decode)[0] == Note(NoteType(doc), NoteText(doc, decode));
  }
}
