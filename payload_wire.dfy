/** The `data` part as a JSON object: what the client writes into it (`JSON.stringify` of
    its `CreateBlogPostDTO`) and what the server's derived decoder of its own
    `CreateBlogPostDTO` reads back. Objects are maps from key to value; the text encoding
    of JSON is not modelled. */
module PayloadWire {
  import opened Common
  import opened Models
  import opened ImageService
  import opened BlogpostHandler
  import NewPost

  /** A JSON value, as far as the two payloads need one. */
  datatype Json = JString(s: string) | JNull

  type JsonObject = map<string, Json>

  /** `JSON.stringify(dto)` of the client's payload: `text`, `username` and `avatar`, the
      last as `null` when no URL was given. No date is sent. */
  function ClientObject(dto: NewPost.CreatePostDto): (o: JsonObject)
    ensures o.Keys == {"text", "username", "avatar"}
  {
    map["text" := JString(dto.text), "username" := JString(dto.username),
        "avatar" := if dto.avatar.Some? then JString(dto.avatar.value) else JNull]
  }

  /** The server's `#[derive(Deserialize)]` for `CreateBlogPostDTO`: the three declared
      fields must be present as strings, the date in a form `parseDate` accepts; keys it
      does not declare are ignored. */
  function ServerDecode(o: JsonObject, parseDate: string -> Option<Date>): Option<BlogPostDto>
  {
    if && "text" in o && o["text"].JString?
       && "username" in o && o["username"].JString?
       && "date_of_publication" in o && o["date_of_publication"].JString?
       && parseDate(o["date_of_publication"].s).Some?
    then Some(BlogPostDto(o["text"].s, o["username"].s, parseDate(o["date_of_publication"].s).value))
    else None
  }

  /** As written: no payload the client can send decodes on the server, for want of the
      required `date_of_publication`. */
  lemma ClientPayloadNeverDecodes(dto: NewPost.CreatePostDto, parseDate: string -> Option<Date>)
    ensures ClientObject(dto).Keys * {"date_of_publication"} == {}
    ensures ServerDecode(ClientObject(dto), parseDate).None?
  {
    assert "date_of_publication" !in ClientObject(dto);
  }

  /** As written, at the handler: a post the form sends, whose `data` part (sent first)
      holds the encoded client object, is refused with 400 or, when that part is too large,
      413 — with force-close, no row and no file created. `encode` is the text encoding,
      which the server's decoder reads back as `ServerDecode`. */
  lemma FormPostIsRefused(req: NewPost.CreateRequest, encode: JsonObject -> seq<byte>, parseDate: string -> Option<Date>,
                          rest: seq<Event>, files: map<string, seq<byte>>, rows: seq<BlogPost>, env: Env, db: DbOutcome)
    requires env.parse(encode(ClientObject(req.dto))) == ServerDecode(ClientObject(req.dto), parseDate)
    ensures var bytes := encode(ClientObject(req.dto));
      var h := Handle([Part(Field(Some("data"), [Chunk(bytes)]))] + rest, files, rows, env, db);
      && h.exit == (if |bytes| > MAX_DATA_SIZE then DataTooLarge else DataMalformed)
      && h.response == Response(if |bytes| > MAX_DATA_SIZE then 413 else 400, true)
      && h.rows == rows && h.files == files
  {
    ClientPayloadNeverDecodes(req.dto, parseDate);
    var bytes := encode(ClientObject(req.dto));
    var request := [Part(Field(Some("data"), [Chunk(bytes)]))] + rest;
    assert request[0] == Part(Field(Some("data"), [Chunk(bytes)]));
  }

  // ---- Corrected definitions ----

  /** The evidently intended decoder: the publication date is assigned on the server (the
      day `today` of the server's clock) instead of being read from the payload, so only
      `text` and `username` are required. */
  function IntendedServerDecode(o: JsonObject, today: Date): Option<BlogPostDto>
  {
    if "text" in o && o["text"].JString? && "username" in o && o["username"].JString?
    then Some(BlogPostDto(o["text"].s, o["username"].s, today))
    else None
  }

  /** With the server assigning the date, every payload the client writes decodes, to its
      text and username dated `today`. */
  lemma IntendedServerDecodesClient(dto: NewPost.CreatePostDto, today: Date)
    ensures IntendedServerDecode(ClientObject(dto), today) == Some(BlogPostDto(dto.text, dto.username, today))
  {
    var o := ClientObject(dto);
    assert o["text"] == JString(dto.text) && o["username"] == JString(dto.username);
  }

  /** With the server assigning the date, the form's `data` part, when it fits, is accepted
      and the post dated `today` is held. */
  lemma IntendedServerAcceptsFormPost(req: NewPost.CreateRequest, encode: JsonObject -> seq<byte>, today: Date,
                                      p: Progress, env: Env)
    requires env.parse(encode(ClientObject(req.dto))) == IntendedServerDecode(ClientObject(req.dto), today)
    requires |encode(ClientObject(req.dto))| <= MAX_DATA_SIZE
    ensures DataStep([Chunk(encode(ClientObject(req.dto)))], p, env)
         == Continue(p.(held := p.held.(data := Some(BlogPostDto(req.dto.text, req.dto.username, today)))))
  {
    IntendedServerDecodesClient(req.dto, today);
  }

  /** With the server assigning the date, a post the form sends with no image, whose
      `data` part fits, is created (201): one row dated `today`, with no handles. */
  lemma IntendedServerCreatesFormPost(req: NewPost.CreateRequest, encode: JsonObject -> seq<byte>, today: Date,
                                      files: map<string, seq<byte>>, rows: seq<BlogPost>, env: Env)
    requires env.parse(encode(ClientObject(req.dto))) == IntendedServerDecode(ClientObject(req.dto), today)
    requires |encode(ClientObject(req.dto))| <= MAX_DATA_SIZE
    ensures var h := Handle([Part(Field(Some("data"), [Chunk(encode(ClientObject(req.dto)))]))], files, rows, env, Inserted);
      && h.response == Response(201, false)
      && h.rows == rows + [BlogPost(req.dto.text, req.dto.username, today, None, None)]
      && h.files == files
  {
    var chunks := [Chunk(encode(ClientObject(req.dto)))];
    IntendedServerAcceptsFormPost(req, encode, today, Initial(files), env);
    var dto := BlogPostDto(req.dto.text, req.dto.username, today);
    var q := Initial(files).(held := Initial(files).held.(data := Some(dto)));
    var request := [Part(Field(Some("data"), chunks))];
    assert FieldStep(request[0].field, Initial(files), env) == Continue(q);
    assert request[1..] == [];
    assert Run(request, Initial(files), env) == Ended(q);
    assert Record(dto, None, None) == BlogPost(req.dto.text, req.dto.username, today, None, None);
  }

  /** An alternative fix on the client side: the same object with the publication date
      the server requires, as date text. */
  function IntendedClientObject(dto: NewPost.CreatePostDto, dateText: string): (o: JsonObject)
    ensures o.Keys == {"text", "username", "avatar", "date_of_publication"}
  {
    ClientObject(dto)["date_of_publication" := JString(dateText)]
  }

  /** With the date included, the server decodes every client payload whose date text
      parses, and exactly those: to the post's text, username and that date. */
  lemma IntendedClientPayloadDecodes(dto: NewPost.CreatePostDto, dateText: string, parseDate: string -> Option<Date>)
    ensures ServerDecode(IntendedClientObject(dto, dateText), parseDate).Some? <==> parseDate(dateText).Some?
    ensures parseDate(dateText).Some? ==>
      ServerDecode(IntendedClientObject(dto, dateText), parseDate) == Some(BlogPostDto(dto.text, dto.username, parseDate(dateText).value))
  {
    var o := IntendedClientObject(dto, dateText);
    assert o["text"] == JString(dto.text) && o["username"] == JString(dto.username);
    assert o["date_of_publication"] == JString(dateText);
  }

  /** With the date included and parsing, a `data` part that fits is accepted and the
      decoded payload is held, as for any valid payload. */
  lemma IntendedFormPostIsAccepted(dto: NewPost.CreatePostDto, dateText: string, encode: JsonObject -> seq<byte>,
                                   parseDate: string -> Option<Date>, p: Progress, env: Env)
    requires env.parse(encode(IntendedClientObject(dto, dateText))) == ServerDecode(IntendedClientObject(dto, dateText), parseDate)
    requires |encode(IntendedClientObject(dto, dateText))| <= MAX_DATA_SIZE && parseDate(dateText).Some?
    ensures DataStep([Chunk(encode(IntendedClientObject(dto, dateText)))], p, env)
         == Continue(p.(held := p.held.(data := Some(BlogPostDto(dto.text, dto.username, parseDate(dateText).value)))))
  {
    IntendedClientPayloadDecodes(dto, dateText, parseDate);
  }
}
