/** The decisions the bookmark request handler takes: which requests it
    rejects and with what message, what it sends to the bookmark store, and
    what it replies with. Each route is a value-level function from the
    request and the store's answers to the calls issued and the replies
    produced; the two routes that validate with a loop are also written as
    methods proved equal to those functions.

    The two libraries the handler uses are parameters: `isWebUri` (URL
    validation) and `xss` (markup sanitizer). Nothing is assumed about either. */
module BookmarksRouter {
  import opened JsValues

  /** The fields POST and PATCH both require, in the order they are checked. */
  const REQUIRED_FIELDS: seq<string> := ["title", "url", "rating"]

  const RATING_MESSAGE := "'rating' must be a number between 0 and 5"
  const URL_MESSAGE := "'url' must be a valid URL"
  const NOT_FOUND_MESSAGE := "Bookmark Not Found"

  /** The Location of a created bookmark is built from the `id` of the record
      sent to the store. That record never has an `id`, and JavaScript renders
      the missing value as "undefined". */
  const CREATED_LOCATION := "http://localhost:8000/api/bookmarks/" + "undefined"

  /** The markup sanitizer; `None` stands for a null or missing text. */
  type Sanitizer = Option<string> -> string

  /** A bookmark row as the store returns it. The rating column is an
      integer column. */
  datatype Bookmark = Bookmark(id: int, title: string, url: string, description: Option<string>, rating: int)

  /** A bookmark as it is sent to clients. */
  datatype Serialized = Serialized(id: int, title: string, url: string, description: string, rating: int)

  /** The record built by POST from the request body: exactly these four
      properties, copied unchecked (description) or checked (the others). */
  datatype NewBookmark = NewBookmark(title: Value, url: Value, description: Value, rating: Value)

  /** The update object built by PATCH. */
  datatype ArticleFields = ArticleFields(title: Value, content: Value, style: Value)

  /** A call issued to the bookmark store. */
  datatype StoreCall =
    | GetAll
    | GetById(id: string)
    | Insert(record: NewBookmark)
    | Update(id: string, fields: ArticleFields)
    | Delete(id: string)

  /** What a reply carries: nothing, plain text, or a JSON document. */
  datatype Payload =
    | NoBody
    | Text(text: string)
    | Created(record: NewBookmark)
    | One(item: Serialized)
    | Many(items: seq<Serialized>)
    | ErrorBody(message: string)

  datatype Response = Response(status: int, location: Option<string>, payload: Payload)

  /** What a request handler does: the store calls it issues, in order, the
      reply of its main path, and the reply that the callback of a lookup whose
      result is otherwise discarded (DELETE and PATCH) attempts as well.
      In DELETE both replies come from store callbacks and either may be sent
      first. In PATCH the main reply is sent synchronously by the route
      callback, so the lookup's attempt always comes after it and fails
      because the reply has already been sent. */
  datatype Handled = Handled(calls: seq<StoreCall>, reply: Response, lookupReply: Option<Response>)

  /** The outcome of validating a POST body. */
  datatype Decision = Reject(status: int, message: string) | Accept(record: NewBookmark)

  function RequiredMessage(field: string): string
  {
    "'" + field + "' is required"
  }

  /** The first of `fields` whose value in `body` is falsy, as the for loop
      over the field list with its early return finds it. */
  function FirstFalsy(body: Body, fields: seq<string>): (r: Option<nat>)
    ensures r.Some? ==> r.value < |fields| && !Truthy(Field(body, fields[r.value]))
    ensures r.Some? ==> forall j :: 0 <= j < r.value ==> Truthy(Field(body, fields[j]))
    ensures r.None? <==> forall j :: 0 <= j < |fields| ==> Truthy(Field(body, fields[j]))
  {
    if |fields| == 0 then None
    else if !Truthy(Field(body, fields[0])) then Some(0)
    else
      match FirstFalsy(body, fields[1..])
      case None => None
      case Some(k) => Some(k + 1)
  }

  /** The for loop over the required fields: returns at the first falsy one. */
  method FindMissing(body: Body, fields: seq<string>) returns (missing: Option<nat>)
    ensures missing == FirstFalsy(body, fields)
  {
    var i := 0;
    while i < |fields|
      invariant 0 <= i <= |fields|
      invariant forall j :: 0 <= j < i ==> Truthy(Field(body, fields[j]))
    {
      if !Truthy(Field(body, fields[i])) {
        return Some(i);
      }
      i := i + 1;
    }
    return None;
  }

  /** The rating test of POST: `Number.isInteger(rating)` and within [0, 5]. */
  predicate RatingInRange(rating: Value)
    ensures RatingInRange(rating) <==> rating in {Int(0), Int(1), Int(2), Int(3), Int(4), Int(5)}
  {
    IsInteger(rating) && 0 <= rating.n <= 5
  }

  /** The POST validation chain: required fields in order, then the rating,
      then the URL; the first failure decides. */
  function ValidateCreate(body: Body, isWebUri: Value -> bool): (d: Decision)
    ensures d.Reject? ==> d.status == 400
    ensures d.Accept? ==> d.record.rating.Int? && 1 <= d.record.rating.n <= 5
    ensures d.Accept? ==> Truthy(d.record.title) && isWebUri(d.record.url)
  {
    match FirstFalsy(body, REQUIRED_FIELDS)
    case Some(i) => Reject(400, RequiredMessage(REQUIRED_FIELDS[i]))
    case None =>
      assert REQUIRED_FIELDS[0] == "title" && REQUIRED_FIELDS[2] == "rating";
      assert Truthy(Field(body, REQUIRED_FIELDS[0])) && Truthy(Field(body, REQUIRED_FIELDS[2]));
      var rating := Field(body, "rating");
      var url := Field(body, "url");
      if !RatingInRange(rating) then Reject(400, RATING_MESSAGE)
      else if !isWebUri(url) then Reject(400, URL_MESSAGE)
      else Accept(NewBookmark(Field(body, "title"), url, Field(body, "description"), rating))
  }

  /** POST /bookmarks: a rejection is sent as plain text and touches no store;
      an accepted record is inserted and echoed, as built, with status 201. */
  function CreateHandled(body: Body, isWebUri: Value -> bool): (h: Handled)
    ensures h.lookupReply == None
    ensures h.reply.status == 201 || h.reply.status == 400
    ensures h.reply.status == 201 <==> h.calls != []
    ensures h.reply.status == 400 ==> h.reply.location == None && h.reply.payload.Text?
    ensures h.calls != [] ==>
      ValidateCreate(body, isWebUri).Accept? &&
      h.calls == [Insert(ValidateCreate(body, isWebUri).record)] &&
      h.reply == Response(201, Some(CREATED_LOCATION), Created(h.calls[0].record))
  {
    match ValidateCreate(body, isWebUri)
    case Reject(status, message) => Handled([], Response(status, None, Text(message)), None)
    case Accept(record) => Handled([Insert(record)], Response(201, Some(CREATED_LOCATION), Created(record)), None)
  }

  /** The POST handler, step by step as the route callback runs. */
  method Post(body: Body, isWebUri: Value -> bool) returns (h: Handled)
    ensures h == CreateHandled(body, isWebUri)
  {
    var missing := FindMissing(body, REQUIRED_FIELDS);
    if missing.Some? {
      return Handled([], Response(400, None, Text(RequiredMessage(REQUIRED_FIELDS[missing.value]))), None);
    }
    var title, url, description, rating := Field(body, "title"), Field(body, "url"), Field(body, "description"), Field(body, "rating");
    if !IsInteger(rating) || rating.n < 0 || rating.n > 5 {
      return Handled([], Response(400, None, Text(RATING_MESSAGE)), None);
    }
    if !isWebUri(url) {
      return Handled([], Response(400, None, Text(URL_MESSAGE)), None);
    }
    var newBookmark := NewBookmark(title, url, description, rating);
    h := Handled([Insert(newBookmark)], Response(201, Some(CREATED_LOCATION), Created(newBookmark)), None);
  }

  /** `serializeBookmark`: `Number(rating)` is the identity on an integer. */
  function SerializeBookmark(xss: Sanitizer, b: Bookmark): (s: Serialized)
    ensures s.id == b.id && s.url == b.url && s.rating == b.rating
    ensures s.title == xss(Some(b.title)) && s.description == xss(b.description)
  {
    Serialized(b.id, xss(Some(b.title)), b.url, xss(b.description), b.rating)
  }

  /** `bookmarks.map(serializeBookmark)`. */
  function SerializeAll(xss: Sanitizer, rows: seq<Bookmark>): (r: seq<Serialized>)
    ensures |r| == |rows|
    ensures forall i :: 0 <= i < |rows| ==> r[i] == SerializeBookmark(xss, rows[i])
  {
    if rows == [] then [] else [SerializeBookmark(xss, rows[0])] + SerializeAll(xss, rows[1..])
  }

  /** GET /bookmarks, given the rows the store lists. */
  function List(xss: Sanitizer, rows: seq<Bookmark>): (h: Handled)
    ensures h.calls == [GetAll] && h.lookupReply == None
    ensures h.reply.status == 200 && h.reply.location == None && h.reply.payload.Many?
    ensures |h.reply.payload.items| == |rows|
    ensures forall i :: 0 <= i < |rows| ==> h.reply.payload.items[i] == SerializeBookmark(xss, rows[i])
  {
    Handled([GetAll], Response(200, None, Many(SerializeAll(xss, rows))), None)
  }

  /** The object GET /bookmarks/:id builds inline; it leaves out `Number`.
      It coincides with `SerializeBookmark` only because a row's rating is
      an integer here, on which `Number` is the identity; the agreement below
      is therefore definitional. */
  function SerializeForGet(xss: Sanitizer, b: Bookmark): (s: Serialized)
    ensures s == SerializeBookmark(xss, b)
  {
    Serialized(b.id, xss(Some(b.title)), b.url, xss(b.description), b.rating)
  }

  const NOT_FOUND := Response(404, None, ErrorBody(NOT_FOUND_MESSAGE))

  /** The reply the callback of a lookup attempts: 404 when there is no row. */
  function LookupReply(lookup: Option<Bookmark>): (r: Option<Response>)
    ensures r.Some? <==> lookup.None?
    ensures r.Some? ==> r.value == Response(404, None, ErrorBody("Bookmark Not Found"))
  {
    if lookup.None? then Some(NOT_FOUND) else None
  }

  /** GET /bookmarks/:id, given what the store's lookup found. */
  function GetBookmark(xss: Sanitizer, id: string, lookup: Option<Bookmark>): (h: Handled)
    ensures h.calls == [GetById(id)] && h.lookupReply == None
    ensures lookup.None? ==> h.reply == Response(404, None, ErrorBody("Bookmark Not Found"))
    ensures lookup.Some? ==> h.reply == Response(200, None, One(SerializeBookmark(xss, lookup.value)))
  {
    match lookup
    case None => Handled([GetById(id)], NOT_FOUND, None)
    case Some(b) => Handled([GetById(id)], Response(200, None, One(SerializeForGet(xss, b))), None)
  }

  /** DELETE /bookmarks/:id: the lookup's result only decides whether its
      callback attempts a 404; the delete is issued in every case, and its
      completion replies 204. */
  function DeleteBookmark(id: string, lookup: Option<Bookmark>): (h: Handled)
    ensures h.calls == [GetById(id), Delete(id)]
    ensures h.reply == Response(204, None, NoBody)
    ensures h.lookupReply.Some? <==> lookup.None?
  {
    Handled([GetById(id), Delete(id)], Response(204, None, NoBody), LookupReply(lookup))
  }

  /** PATCH /bookmarks/:id: the lookup is issued first and its result is
      discarded; then the required-field check of POST; then an update made
      of `title`, `content` and `style`. The 204 is sent without waiting
      for the update. Both the 400 and the 204 are sent synchronously, so the
      404 the lookup's callback attempts never reaches the client. */
  function PatchHandled(body: Body, id: string, lookup: Option<Bookmark>): (h: Handled)
    ensures |h.calls| > 0 && h.calls[0] == GetById(id)
    ensures h.reply.status == 400 || h.reply.status == 204
    ensures h.reply.status == 400 <==> h.calls == [GetById(id)]
    ensures h.reply.status == 204 ==> |h.calls| == 2 && h.calls[1].Update? && h.calls[1].id == id
    ensures h.lookupReply.Some? <==> lookup.None?
  {
    match FirstFalsy(body, REQUIRED_FIELDS)
    case Some(i) =>
      Handled([GetById(id)], Response(400, None, Text(RequiredMessage(REQUIRED_FIELDS[i]))), LookupReply(lookup))
    case None =>
      var update := ArticleFields(Field(body, "title"), Field(body, "content"), Field(body, "style"));
      Handled([GetById(id), Update(id, update)], Response(204, None, NoBody), LookupReply(lookup))
  }

  /** The PATCH handler, step by step as the route callback runs. */
  method Patch(body: Body, id: string, lookup: Option<Bookmark>) returns (h: Handled)
    ensures h == PatchHandled(body, id, lookup)
  {
    var calls := [GetById(id)];
    var lookupReply := LookupReply(lookup);
    var missing := FindMissing(body, REQUIRED_FIELDS);
    if missing.Some? {
      return Handled(calls, Response(400, None, Text(RequiredMessage(REQUIRED_FIELDS[missing.value]))), lookupReply);
    }
    var title, content, style := Field(body, "title"), Field(body, "content"), Field(body, "style");
    var articleToUpdate := ArticleFields(title, content, style);
    calls := calls + [Update(id, articleToUpdate)];
    h := Handled(calls, Response(204, None, NoBody), lookupReply);
  }
}
