/** Factory Method: a creator picked by document type, whose template method generates the
    document made by its factory method. */
module Documents {
  import opened Outcomes

  datatype Generator = JsonDocumentGenerator | PdfDocumentGenerator
  {
    /** The fixed text each generator produces. */
    function Generate(): string
    {
      match this
      case JsonDocumentGenerator => "Generating a JSON document..."
      case PdfDocumentGenerator => "Generating a PDF document..."
    }
  }

  datatype DocumentCreator = JsonDocumentCreator | PdfDocumentCreator
  {
    /** The factory method each creator overrides. */
    function CreateDocument(): (g: Generator)
      ensures g == JsonDocumentGenerator <==> this == JsonDocumentCreator
      ensures g == PdfDocumentGenerator <==> this == PdfDocumentCreator
    {
      match this
      case JsonDocumentCreator => JsonDocumentGenerator
      case PdfDocumentCreator => PdfDocumentGenerator
    }

    /** The template method: generate the document the factory method makes. */
    function Create(): (s: string)
      ensures s == CreateDocument().Generate()
      ensures this == JsonDocumentCreator ==> s == "Generating a JSON document..."
      ensures this == PdfDocumentCreator ==> s == "Generating a PDF document..."
    {
      var document := CreateDocument();
      document.Generate()
    }
  }

  /** The type string that selects each creator. */
  function TypeOf(creator: DocumentCreator): string
  {
    match creator
    case JsonDocumentCreator => "json"
    case PdfDocumentCreator => "pdf"
  }

  /** "json" and "pdf" select their creator; any other type gives `null` rather than throwing. */
  function GetCreator(type_: string): (r: Option<DocumentCreator>)
    ensures r.Some? <==> type_ == "json" || type_ == "pdf"
    ensures r.Some? ==> TypeOf(r.value) == type_
  {
    if type_ == "json" then Some(JsonDocumentCreator)
    else if type_ == "pdf" then Some(PdfDocumentCreator)
    else None
  }

  /** Selecting by a creator's own type string gives back that creator. */
  lemma GetCreatorRoundTrip(creator: DocumentCreator)
    ensures GetCreator(TypeOf(creator)) == Some(creator)
  {
  }

  /** Different creators produce different documents. */
  lemma CreateDistinguishesCreators(a: DocumentCreator, b: DocumentCreator)
    ensures a.Create() == b.Create() <==> a == b
  {
    if a != b {
      assert a.Create()[13] != b.Create()[13];
    }
  }

  /** The demonstration script: "pdf" and "json" generate their documents; "null" gives no
      creator, which the caller checks before calling `create`. */
  method DocumentDemo() returns (pdf: string, json: string, none: Option<DocumentCreator>)
    ensures pdf == "Generating a PDF document..."
    ensures json == "Generating a JSON document..."
    ensures none == None
  {
    var creatorPdf := GetCreator("pdf");
    var creatorJson := GetCreator("json");
    var creatorNull := GetCreator("null");
    pdf := creatorPdf.value.Create();
    json := creatorJson.value.Create();
    none := creatorNull;
  }
}
