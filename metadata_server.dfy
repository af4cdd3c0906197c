/**
 * The two request handlers of the server over an abstract metadata store.
 * Each record lives in the file `./metadata/${id}.json`; the directory is
 * modelled as a map from that path to the record the file holds.
 */
module MetadataServer {
  import opened Wrappers
  import opened JsValues
  import opened NftMetadata

  /** The fields of a `POST /create-metadata` JSON body; a missing field is Undefined. */
  datatype CreateBody = CreateBody(id: JsValue, ticketType: JsValue, ccmCount: JsValue)

  /** Whether the filesystem call completed or reported an error. */
  datatype IoResult = Succeeded | Failed

  /** The JSON body of a response. */
  datatype Payload =
    | Message(message: string)
    | Created(message: string, metadata: Metadata)
    | Document(metadata: Metadata)
    | ErrorPage  // Express's default handler for an exception thrown in a route


  datatype Response = Response(status: nat, payload: Payload)

  /** The store after a request together with the response sent. */
  datatype CreateStep = CreateStep(response: Response, files: map<string, Metadata>)

  const MissingFields: string := "Missing required fields"
  const WriteError: string := "Error writing file"
  const CreatedMessage: string := "Metadata created successfully"
  const NotFound: string := "Metadata not found"

  /** The file a ticket's record is stored in. */
  function MetadataPath(id: string): (path: string)
  {
    "./metadata/" + id + ".json"
  }

  /**
   * Node's fs refuses a path holding a NUL character: it throws before any I/O,
   * so the exception escapes the route handler.
   */
  predicate PathRejected(path: string)
  {
    '\0' in path
  }

  /** The template adds no NUL character, so a path is refused exactly when its id holds one. */
  lemma PathRejectedIff(id: string)
    ensures PathRejected(MetadataPath(id)) <==> '\0' in id
  {
    var p := MetadataPath(id);
    if '\0' in p {
      var i :| 0 <= i < |p| && p[i] == '\0';
      assert 11 <= i < 11 + |id| && id[i - 11] == '\0';
    }
    if '\0' in id {
      var i :| 0 <= i < |id| && id[i] == '\0';
      assert p[11 + i] == '\0';
    }
  }

  /** Distinct ids are stored in distinct files. */
  lemma MetadataPathInjective(a: string, b: string)
    ensures MetadataPath(a) == MetadataPath(b) ==> a == b
  {
    if MetadataPath(a) == MetadataPath(b) {
      var p, q := MetadataPath(a), MetadataPath(b);
      assert |a| == |b|;
      assert a == p[11..11 + |a|];
      assert b == q[11..11 + |b|];
    }
  }

  /** The validation `!id || !ticketType || !ccmCount` passes. */
  predicate HasRequiredFields(body: CreateBody)
  {
    Truthy(body.id) && Truthy(body.ticketType) && Truthy(body.ccmCount)
  }

  /** The key a create request writes. */
  function CreateKey(body: CreateBody): (key: string)
  {
    MetadataPath(ToText(body.id))
  }

  /** `POST /create-metadata`: validate, generate the record, write its file, respond. */
  function HandleCreate(files: map<string, Metadata>, body: CreateBody, write: IoResult): (r: CreateStep)
    ensures r.response.status in {201, 400, 500}
    ensures r.response.status == 400 <==> !HasRequiredFields(body)
    ensures r.response.status == 400 ==>
      r.files == files && r.response.payload == Message(MissingFields)
    ensures r.response.status == 500 <==>
      HasRequiredFields(body) && ('\0' in ToText(body.id) || write == Failed)
    ensures r.response.status == 500 && '\0' in ToText(body.id) ==>
      r.files == files && r.response.payload == ErrorPage
    ensures r.response.status == 500 && '\0' !in ToText(body.id) ==>
      r.response.payload == Message(WriteError)
    ensures r.response.status == 201 ==>
      && CreateKey(body) in r.files
      && r.files[CreateKey(body)] == Generate(body.id, body.ticketType, body.ccmCount)
      && r.response.payload == Created(CreatedMessage, r.files[CreateKey(body)])
    ensures r.files.Keys <= files.Keys + {CreateKey(body)}
    ensures forall k :: k in files ==> k in r.files
    ensures forall k :: k in files && k != CreateKey(body) ==> r.files[k] == files[k]
  {
    if !HasRequiredFields(body) then
      CreateStep(Response(400, Message(MissingFields)), files)
    else
      var metadata := Generate(body.id, body.ticketType, body.ccmCount);
      PathRejectedIff(ToText(body.id));
      if PathRejected(CreateKey(body)) then
        CreateStep(Response(500, ErrorPage), files)
      else
        match write
        case Failed => CreateStep(Response(500, Message(WriteError)), files)
        case Succeeded =>
          CreateStep(Response(201, Created(CreatedMessage, metadata)), files[CreateKey(body) := metadata])
  }

  /**
   * `GET /metadata/:id`: read the record's file, or answer not found on any read
   * error the callback receives.
   */
  function HandleRead(files: map<string, Metadata>, id: string, read: IoResult): (r: Response)
    ensures r.status == 200 <==> '\0' !in id && MetadataPath(id) in files && read == Succeeded
    ensures r.status == 200 ==> r.payload == Document(files[MetadataPath(id)])
    ensures r.status == 500 <==> '\0' in id
    ensures r.status == 500 ==> r.payload == ErrorPage
    ensures r.status !in {200, 500} ==> r == Response(404, Message(NotFound))
  {
    var key := MetadataPath(id);
    PathRejectedIff(id);
    if PathRejected(key) then Response(500, ErrorPage)
    else if key in files && read == Succeeded then Response(200, Document(files[key]))
    else Response(404, Message(NotFound))
  }

  /** The server process: the metadata directory is its only state. */
  class Server {
    var files: map<string, Metadata>

    constructor (initial: map<string, Metadata>)
      ensures files == initial
    {
      files := initial;
    }

    method CreateMetadata(body: CreateBody, write: IoResult) returns (response: Response)
      modifies this
      ensures CreateStep(response, files) == HandleCreate(old(files), body, write)
      ensures response.status == 400 ==> files == old(files)
      ensures forall k :: k in old(files) && k != CreateKey(body) ==> k in files && files[k] == old(files)[k]
      ensures response.status == 201 ==> files == old(files)[CreateKey(body) := response.payload.metadata]
    {
      if !Truthy(body.id) || !Truthy(body.ticketType) || !Truthy(body.ccmCount) {
        return Response(400, Message(MissingFields));
      }
      var metadata := Generate(body.id, body.ticketType, body.ccmCount);
      var key := MetadataPath(ToText(body.id));
      if PathRejected(key) {
        return Response(500, ErrorPage);
      }
      if write == Failed {
        return Response(500, Message(WriteError));
      }
      files := files[key := metadata];
      response := Response(201, Created(CreatedMessage, metadata));
    }

    method GetMetadata(id: string, read: IoResult) returns (response: Response)
      ensures response == HandleRead(files, id, read)
      ensures response.status in {200, 404, 500}
    {
      var key := MetadataPath(id);
      if PathRejected(key) {
        response := Response(500, ErrorPage);
      } else if key in files && read == Succeeded {
        response := Response(200, Document(files[key]));
      } else {
        response := Response(404, Message(NotFound));
      }
    }
  }

  /**
   * A valid create whose write succeeds answers 201 unless the id's text holds a
   * NUL character, in which case both the create and a read of that id answer
   * 500. A 201 followed by a read of the same id answers 200 with the created
   * record, whose traits give back the three inputs.
   */
  lemma CreateThenRead(files: map<string, Metadata>, body: CreateBody)
    requires HasRequiredFields(body)
    ensures var step := HandleCreate(files, body, Succeeded);
      step.response.status == 201 <==> '\0' !in ToText(body.id)
    ensures var step := HandleCreate(files, body, Succeeded);
      var read := HandleRead(step.files, ToText(body.id), Succeeded);
      '\0' in ToText(body.id) ==> step.response.status == 500 && read == Response(500, ErrorPage)
    ensures var step := HandleCreate(files, body, Succeeded);
      var read := HandleRead(step.files, ToText(body.id), Succeeded);
      '\0' !in ToText(body.id) ==>
      && read == Response(200, Document(step.response.payload.metadata))
      && TraitValue(read.payload.metadata.attributes, "Ticket ID") == Some(ToText(body.id))
      && TraitValue(read.payload.metadata.attributes, "Ticket Type") == Some(ToText(body.ticketType))
      && TraitValue(read.payload.metadata.attributes, "CCM Count") == Some(ToText(body.ccmCount))
      && (body.ccmCount.Num? ==>
            ParseInt(TraitValue(read.payload.metadata.attributes, "CCM Count").value) == Some(body.ccmCount.n))
  {
    GeneratedTraitValues(body.id, body.ticketType, body.ccmCount);
    if body.ccmCount.Num? {
      IntTextRoundTrip(body.ccmCount.n);
    }
  }

  /** A create touches no other ticket: reads of any other id answer as before. */
  lemma CreateLeavesOtherTickets(files: map<string, Metadata>, body: CreateBody, write: IoResult, other: string, read: IoResult)
    requires other != ToText(body.id)
    ensures HandleRead(HandleCreate(files, body, write).files, other, read) == HandleRead(files, other, read)
  {
    MetadataPathInjective(other, ToText(body.id));
  }

  /** A create rejected by validation changes the store for no id. */
  lemma RejectedCreateInvisible(files: map<string, Metadata>, body: CreateBody, write: IoResult, id: string, read: IoResult)
    requires !HasRequiredFields(body)
    ensures HandleCreate(files, body, write).response == Response(400, Message(MissingFields))
    ensures HandleRead(HandleCreate(files, body, write).files, id, read) == HandleRead(files, id, read)
  {
  }

  /**
   * Two successful creates for the same id: the second record is the one read
   * back. (An id holding a NUL character makes both creates answer 500.)
   */
  lemma LastWriteWins(files: map<string, Metadata>, first: CreateBody, second: CreateBody)
    requires HasRequiredFields(first) && HasRequiredFields(second)
    requires ToText(first.id) == ToText(second.id)
    ensures var once := HandleCreate(files, first, Succeeded).files;
      var twice := HandleCreate(once, second, Succeeded).files;
      '\0' !in ToText(second.id) ==>
      HandleRead(twice, ToText(second.id), Succeeded)
        == Response(200, Document(Generate(second.id, second.ticketType, second.ccmCount)))
    ensures var once := HandleCreate(files, first, Succeeded).files;
      var twice := HandleCreate(once, second, Succeeded).files;
      '\0' !in ToText(second.id) ==>
      TraitValue(HandleRead(twice, ToText(first.id), Succeeded).payload.metadata.attributes, "Ticket Type")
        == Some(ToText(second.ticketType))
  {
    GeneratedTraitValues(second.id, second.ticketType, second.ccmCount);
  }

  /** The sample session: POST {id: "42", ticketType: "VIP", ccmCount: 3}, then GET /metadata/42. */
  lemma TicketFortyTwo()
    ensures var body := CreateBody(Str("42"), Str("VIP"), Num(3));
      var step := HandleCreate(map[], body, Succeeded);
      var read := HandleRead(step.files, "42", Succeeded);
      && step.response.status == 201
      && step.response.payload.metadata.name == "Ticket #42"
      && TraitValue(step.response.payload.metadata.attributes, "Ticket Type") == Some("VIP")
      && TraitValue(step.response.payload.metadata.attributes, "CCM Count") == Some("3")
      && read == Response(200, Document(step.response.payload.metadata))
  {
    var body := CreateBody(Str("42"), Str("VIP"), Num(3));
    GeneratedTraitValues(body.id, body.ticketType, body.ccmCount);
    assert ToText(Num(3)) == "3";
  }
}
