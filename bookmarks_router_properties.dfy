/** What the bookmark request handler guarantees, and the quirks it has, as
    lemmas about the route functions of BookmarksRouter. */
module BookmarksRouterProperties {
  import opened JsValues
  import opened BookmarksRouter

  /** POST checks title, url and rating in that order; the first falsy one is
      reported as required, and nothing after it is looked at. */
  lemma CreateRequiredChecksInOrder(body: Body, isWebUri: Value -> bool)
    ensures !Truthy(Field(body, "title")) ==>
      ValidateCreate(body, isWebUri) == Reject(400, "'title' is required")
    ensures Truthy(Field(body, "title")) && !Truthy(Field(body, "url")) ==>
      ValidateCreate(body, isWebUri) == Reject(400, "'url' is required")
    ensures Truthy(Field(body, "title")) && Truthy(Field(body, "url")) && !Truthy(Field(body, "rating")) ==>
      ValidateCreate(body, isWebUri) == Reject(400, "'rating' is required")
  {
    RequiredFieldsInOrder(body);
  }

  /** The required-field check on the three literal field names. */
  lemma RequiredFieldsInOrder(body: Body)
    ensures !Truthy(Field(body, "title")) ==>
      FirstFalsy(body, REQUIRED_FIELDS) == Some(0) && RequiredMessage(REQUIRED_FIELDS[0]) == "'title' is required"
    ensures Truthy(Field(body, "title")) && !Truthy(Field(body, "url")) ==>
      FirstFalsy(body, REQUIRED_FIELDS) == Some(1) && RequiredMessage(REQUIRED_FIELDS[1]) == "'url' is required"
    ensures Truthy(Field(body, "title")) && Truthy(Field(body, "url")) && !Truthy(Field(body, "rating")) ==>
      FirstFalsy(body, REQUIRED_FIELDS) == Some(2) && RequiredMessage(REQUIRED_FIELDS[2]) == "'rating' is required"
    ensures FirstFalsy(body, REQUIRED_FIELDS) == None <==>
      Truthy(Field(body, "title")) && Truthy(Field(body, "url")) && Truthy(Field(body, "rating"))
  {
    assert REQUIRED_FIELDS[0] == "title" && REQUIRED_FIELDS[1] == "url" && REQUIRED_FIELDS[2] == "rating";
  }

  /** A rating of 0 is falsy: it is reported as missing, although the range
      check that it never reaches would accept it. */
  lemma ZeroRatingReportedMissing(body: Body, isWebUri: Value -> bool)
    requires Truthy(Field(body, "title")) && Truthy(Field(body, "url"))
    requires Field(body, "rating") == Int(0)
    ensures ValidateCreate(body, isWebUri) == Reject(400, "'rating' is required")
    ensures RatingInRange(Int(0))
  {
    CreateRequiredChecksInOrder(body, isWebUri);
  }

  /** Once the required fields are present, a rating that is not an integer
      in [0, 5] is reported, whatever the URL is. */
  lemma RatingCheckedBeforeUrl(body: Body, isWebUri: Value -> bool)
    requires Truthy(Field(body, "title")) && Truthy(Field(body, "url")) && Truthy(Field(body, "rating"))
    requires !IsInteger(Field(body, "rating")) || Field(body, "rating").n < 0 || Field(body, "rating").n > 5
    ensures ValidateCreate(body, isWebUri) == Reject(400, "'rating' must be a number between 0 and 5")
  {
  }

  /** After the required fields and the rating pass, a URL that `isWebUri`
      refuses is reported. */
  lemma InvalidUrlRejected(body: Body, isWebUri: Value -> bool)
    requires Truthy(Field(body, "title")) && Truthy(Field(body, "url")) && Truthy(Field(body, "rating"))
    requires RatingInRange(Field(body, "rating"))
    requires !isWebUri(Field(body, "url"))
    ensures ValidateCreate(body, isWebUri) == Reject(400, "'url' must be a valid URL")
  {
  }

  /** POST accepts exactly the bodies with a truthy title, a rating that is an
      integer in [1, 5] and a URL `isWebUri` accepts; the record it builds is
      the body's four fields, copied as they are. */
  lemma CreateAcceptsExactly(body: Body, isWebUri: Value -> bool)
    ensures ValidateCreate(body, isWebUri).Accept? <==>
      Truthy(Field(body, "title")) && Truthy(Field(body, "url")) && isWebUri(Field(body, "url")) &&
      Field(body, "rating").Int? && 1 <= Field(body, "rating").n <= 5
    ensures ValidateCreate(body, isWebUri).Accept? ==>
      ValidateCreate(body, isWebUri).record ==
        NewBookmark(Field(body, "title"), Field(body, "url"), Field(body, "description"), Field(body, "rating"))
  {
    RequiredFieldsInOrder(body);
  }

  /** A rejected POST issues no store call and replies 400 with its message
      as text; an accepted one inserts the record, replies 201 with the
      Location built from the missing id, and echoes the record unsanitized. */
  lemma CreateReplies(body: Body, isWebUri: Value -> bool)
    ensures ValidateCreate(body, isWebUri).Reject? ==>
      CreateHandled(body, isWebUri).calls == [] &&
      CreateHandled(body, isWebUri).reply == Response(400, None, Text(ValidateCreate(body, isWebUri).message))
    ensures ValidateCreate(body, isWebUri).Accept? ==>
      var record := NewBookmark(Field(body, "title"), Field(body, "url"), Field(body, "description"), Field(body, "rating"));
      CreateHandled(body, isWebUri).calls == [Insert(record)] &&
      CreateHandled(body, isWebUri).reply ==
        Response(201, Some("http://localhost:8000/api/bookmarks/undefined"), Created(record))
  {
    CreateAcceptsExactly(body, isWebUri);
    assert CREATED_LOCATION == "http://localhost:8000/api/bookmarks/undefined";
  }

  /** Every message POST can reply with. */
  lemma CreateMessages(body: Body, isWebUri: Value -> bool)
    ensures ValidateCreate(body, isWebUri).Reject? ==>
      ValidateCreate(body, isWebUri).message in
        {"'title' is required", "'url' is required", "'rating' is required",
         "'rating' must be a number between 0 and 5", "'url' must be a valid URL"}
  {
    RequiredFieldsInOrder(body);
  }

  /** The list reply keeps the store's order and serializes every row: id, url
      and rating unchanged, title and description through the sanitizer. */
  lemma ListSerializesEveryRow(xss: Sanitizer, rows: seq<Bookmark>)
    ensures List(xss, rows).calls == [GetAll] && List(xss, rows).reply.status == 200
    ensures List(xss, rows).reply.payload.Many?
    ensures var items := List(xss, rows).reply.payload.items;
      |items| == |rows| &&
      forall i :: 0 <= i < |rows| ==>
        items[i].id == rows[i].id && items[i].url == rows[i].url && items[i].rating == rows[i].rating &&
        items[i].title == xss(Some(rows[i].title)) && items[i].description == xss(rows[i].description)
  {
  }

  /** No text the list reply carries bypasses the sanitizer: whatever property
      `safe` holds of every output of `xss` holds of every title and
      description listed. */
  lemma ListTextIsSanitized(xss: Sanitizer, safe: string -> bool, rows: seq<Bookmark>)
    requires forall t :: safe(xss(t))
    ensures forall s :: s in List(xss, rows).reply.payload.items ==> safe(s.title) && safe(s.description)
  {
  }

  /** GET of a missing bookmark replies 404 with the fixed error body. */
  lemma GetMissingIsNotFound(xss: Sanitizer, id: string)
    ensures GetBookmark(xss, id, None).calls == [GetById(id)]
    ensures GetBookmark(xss, id, None).reply == Response(404, None, ErrorBody("Bookmark Not Found"))
  {
  }

  /** GET of a bookmark replies with the same item the list shows for it: the
      inline serializer agrees with `serializeBookmark` on integer ratings. */
  lemma GetAgreesWithList(xss: Sanitizer, id: string, rows: seq<Bookmark>, i: nat)
    requires i < |rows|
    ensures GetBookmark(xss, id, Some(rows[i])).reply ==
      Response(200, None, One(List(xss, rows).reply.payload.items[i]))
  {
  }

  /** DELETE issues the same calls and the same main reply whatever the
      lookup returned (the delete is never skipped); only a missing row makes
      the lookup's callback attempt a 404 besides. */
  lemma DeleteIgnoresLookup(id: string, l1: Option<Bookmark>, l2: Option<Bookmark>)
    ensures DeleteBookmark(id, l1).calls == DeleteBookmark(id, l2).calls == [GetById(id), Delete(id)]
    ensures DeleteBookmark(id, l1).reply == DeleteBookmark(id, l2).reply
    ensures DeleteBookmark(id, l1).lookupReply == Some(Response(404, None, ErrorBody("Bookmark Not Found"))) <==> l1.None?
  {
  }

  /** PATCH rejects exactly when POST would reject for a missing required
      field, and with the same message. */
  lemma PatchSharesCreateRequiredCheck(body: Body, id: string, lookup: Option<Bookmark>, isWebUri: Value -> bool)
    ensures PatchHandled(body, id, lookup).reply.status == 400 <==>
      ValidateCreate(body, isWebUri) in
        {Reject(400, "'title' is required"), Reject(400, "'url' is required"), Reject(400, "'rating' is required")}
    ensures PatchHandled(body, id, lookup).reply.status == 400 ==>
      PatchHandled(body, id, lookup).reply.payload == Text(ValidateCreate(body, isWebUri).message)
  {
    RequiredFieldsInOrder(body);
  }

  /** A rejected PATCH issues only the lookup; an accepted one updates the
      bookmark with `title`, `content` and `style` of the body, which it did
      not validate apart from the title, and replies 204. */
  lemma PatchUpdate(body: Body, id: string, lookup: Option<Bookmark>)
    ensures PatchHandled(body, id, lookup).reply.status == 400 ==>
      PatchHandled(body, id, lookup).calls == [GetById(id)]
    ensures PatchHandled(body, id, lookup).reply.status != 400 ==>
      PatchHandled(body, id, lookup).reply == Response(204, None, NoBody) &&
      PatchHandled(body, id, lookup).calls ==
        [GetById(id), Update(id, ArticleFields(Field(body, "title"), Field(body, "content"), Field(body, "style")))]
  {
  }

  /** `url` and `rating` are required by PATCH but never forwarded: two
      accepted bodies that agree on title, content and style issue the same
      calls, whatever their URLs and ratings. The lookup's result changes
      neither the calls nor the main reply. */
  lemma PatchForwardsOnlyArticleFields(b1: Body, b2: Body, id: string, l1: Option<Bookmark>, l2: Option<Bookmark>)
    requires PatchHandled(b1, id, l1).reply.status == 204 && PatchHandled(b2, id, l2).reply.status == 204
    requires Field(b1, "title") == Field(b2, "title")
    requires Field(b1, "content") == Field(b2, "content") && Field(b1, "style") == Field(b2, "style")
    ensures PatchHandled(b1, id, l1).calls == PatchHandled(b2, id, l2).calls
    ensures PatchHandled(b1, id, l1).reply == PatchHandled(b2, id, l2).reply
  {
  }
}
