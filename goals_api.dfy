/** The learning-goals HTTP function (src/api/goals/index.js). The handlers
    assign the function context's response; the database calls they issue are
    recorded in `calls`, and what the database answers is the `Replies`
    parameter. The clock is the `now` parameter; logging is left out. */
module GoalsApi {
  import opened Js
  import opened GoalList

  /** `req.method`. `OtherMethod` stands for any method name other than
      OPTIONS, GET, POST, PUT and DELETE, which have their own constructors. */
  datatype HttpMethod = Options | Get | Post | Put | Delete | OtherMethod(name: string)

  /** The JSON body; `None` is an absent body, whose destructuring throws. */
  datatype RequestBody = RequestBody(title: JsString, description: JsString)

  /** `req.method`, `req.params?.id` and `req.body` */
  datatype Request = Request(verb: HttpMethod, id: JsString, body: Option<RequestBody>)

  /** The `updates` object of `handlePut`; an absent member is `None`. */
  datatype Updates = Updates(title: Option<string>, description: Option<JsString>, updatedAt: string)

  datatype DbCall =
    | SelectOne(id: string)
    | SelectAll
    | Insert(title: string, description: JsString)
    | Update(id: string, updates: Updates)
    | Remove(id: string)

  datatype ListReply = ListError | Rows(rows: seq<Goal>)

  /** What the database would answer to each query the handlers can issue. */
  datatype Replies = Replies(selectOne: RowReply, selectAll: ListReply, insert: RowReply, update: RowReply, deleteFailed: bool)

  datatype ResponseBody = NoBody | ErrorBody(error: string) | GoalBody(goal: Goal) | GoalsBody(goals: seq<Goal>)

  /** `context.res`; `cors` tells whether the CORS headers are attached. */
  datatype Response = Response(status: int, cors: bool, body: ResponseBody)

  const MethodNotAllowed: string := "Method not allowed"
  const InternalError: string := "Internal server error"
  const NotFound: string := "Goal not found"
  const TitleRequired: string := "Title is required"
  const IdRequired: string := "Goal ID is required"

  /** `handlePut`'s `updates`, built member by member. */
  method BuildUpdates(body: RequestBody, now: string) returns (updates: Updates)
    ensures updates.title.Some? <==> Truthy(body.title)
    ensures updates.title.Some? ==> updates.title.value == body.title.text
    ensures updates.description.Some? <==> !body.description.Undefined?
    ensures updates.description.Some? ==> updates.description.value == body.description
    ensures updates.updatedAt == now
  {
    updates := Updates(None, None, "");
    if Truthy(body.title) {
      updates := updates.(title := Some(body.title.text));
    }
    if body.description != Undefined {
      updates := updates.(description := Some(body.description));
    }
    updates := updates.(updatedAt := now);
  }

  class FunctionContext {
    var res: Option<Response>
    var calls: seq<DbCall>

    constructor()
      ensures res.None? && calls == []
    {
      res := None;
      calls := [];
    }

    /** `handleGet`; `raised` is the rethrown error of the list query. */
    method HandleGet(goalId: JsString, replies: Replies) returns (raised: bool)
      modifies this
      ensures Truthy(goalId) ==> !raised && calls == old(calls) + [SelectOne(goalId.text)]
      ensures Truthy(goalId) && replies.selectOne.RowError? ==> res == Some(Response(404, false, ErrorBody(NotFound)))
      ensures Truthy(goalId) && replies.selectOne.Row? ==> res == Some(Response(200, false, GoalBody(replies.selectOne.row)))
      ensures !Truthy(goalId) ==> calls == old(calls) + [SelectAll] && (raised <==> replies.selectAll.ListError?)
      ensures !Truthy(goalId) && raised ==> res == old(res)
      ensures !Truthy(goalId) && !raised ==> res == Some(Response(200, false, GoalsBody(replies.selectAll.rows)))
    {
      raised := false;
      if Truthy(goalId) {
        calls := calls + [SelectOne(goalId.text)];
        if replies.selectOne.RowError? {
          res := Some(Response(404, false, ErrorBody(NotFound)));
          return;
        }
        res := Some(Response(200, false, GoalBody(replies.selectOne.row)));
      } else {
        calls := calls + [SelectAll];
        if replies.selectAll.ListError? {
          raised := true;
          return;
        }
        res := Some(Response(200, false, GoalsBody(replies.selectAll.rows)));
      }
    }

    /** `handlePost`; `raised` is a missing body or a failed insert. */
    method HandlePost(body: Option<RequestBody>, replies: Replies) returns (raised: bool)
      modifies this
      ensures body.None? ==> raised && res == old(res) && calls == old(calls)
      ensures body.Some? && !Truthy(body.value.title) ==>
                !raised && res == Some(Response(400, false, ErrorBody(TitleRequired))) && calls == old(calls)
      ensures body.Some? && Truthy(body.value.title) ==>
                calls == old(calls) + [Insert(body.value.title.text, body.value.description)] &&
                (raised <==> replies.insert.RowError?) &&
                (raised ==> res == old(res)) &&
                (!raised ==> res == Some(Response(201, false, GoalBody(replies.insert.row))))
    {
      if body.None? {
        return true;
      }
      var title, description := body.value.title, body.value.description;
      if !Truthy(title) {
        res := Some(Response(400, false, ErrorBody(TitleRequired)));
        return false;
      }
      calls := calls + [Insert(title.text, description)];
      if replies.insert.RowError? {
        return true;
      }
      res := Some(Response(201, false, GoalBody(replies.insert.row)));
      return false;
    }

    /** `handlePut`; `raised` is a missing body. */
    method HandlePut(goalId: JsString, body: Option<RequestBody>, replies: Replies, now: string) returns (raised: bool)
      modifies this
      ensures !Truthy(goalId) ==>
                !raised && res == Some(Response(400, false, ErrorBody(IdRequired))) && calls == old(calls)
      ensures Truthy(goalId) && body.None? ==> raised && res == old(res) && calls == old(calls)
      // the update object: the title only when truthy, the description whenever present
      ensures Truthy(goalId) && body.Some? ==>
                var b := body.value;
                var u := Updates(if Truthy(b.title) then Some(b.title.text) else None,
                                 if b.description.Undefined? then None else Some(b.description),
                                 now);
                !raised && calls == old(calls) + [Update(goalId.text, u)] &&
                (replies.update.RowError? ==> res == Some(Response(404, false, ErrorBody(NotFound)))) &&
                (replies.update.Row? ==> res == Some(Response(200, false, GoalBody(replies.update.row))))
    {
      if !Truthy(goalId) {
        res := Some(Response(400, false, ErrorBody(IdRequired)));
        return false;
      }
      if body.None? {
        return true;
      }
      var updates := BuildUpdates(body.value, now);
      calls := calls + [Update(goalId.text, updates)];
      if replies.update.RowError? {
        res := Some(Response(404, false, ErrorBody(NotFound)));
        return false;
      }
      res := Some(Response(200, false, GoalBody(replies.update.row)));
      return false;
    }

    /** `handleDelete` */
    method HandleDelete(goalId: JsString, replies: Replies)
      modifies this
      ensures !Truthy(goalId) ==> res == Some(Response(400, false, ErrorBody(IdRequired))) && calls == old(calls)
      ensures Truthy(goalId) ==> calls == old(calls) + [Remove(goalId.text)]
      ensures Truthy(goalId) && replies.deleteFailed ==> res == Some(Response(404, false, ErrorBody(NotFound)))
      ensures Truthy(goalId) && !replies.deleteFailed ==> res == Some(Response(204, false, NoBody))
    {
      if !Truthy(goalId) {
        res := Some(Response(400, false, ErrorBody(IdRequired)));
        return;
      }
      calls := calls + [Remove(goalId.text)];
      if replies.deleteFailed {
        res := Some(Response(404, false, ErrorBody(NotFound)));
        return;
      }
      res := Some(Response(204, false, NoBody));
    }

    /** The exported function: the preflight answer, the method dispatch, and
        the catch-all that turns a thrown error into status 500. */
    method Invoke(req: Request, replies: Replies, now: string)
      modifies this
      ensures res.Some?
      ensures res.value.status in {200, 201, 204, 400, 404, 405, 500}
      ensures req.verb.Options? ==> res == Some(Response(200, true, NoBody)) && calls == old(calls)
      ensures req.verb.OtherMethod? ==> res == Some(Response(405, true, ErrorBody(MethodNotAllowed))) && calls == old(calls)
      ensures res.value.status == 500 ==> res.value == Response(500, true, ErrorBody(InternalError))
      // only the list query and the insert can fail with 500; a missing body does too
      ensures res.value.status == 500 <==>
                (req.verb.Get? && !Truthy(req.id) && replies.selectAll.ListError?) ||
                (req.verb.Post? && (req.body.None? || (Truthy(req.body.value.title) && replies.insert.RowError?))) ||
                (req.verb.Put? && Truthy(req.id) && req.body.None?)
      // a 400 names what is missing and carries no CORS headers
      ensures res.value.status == 400 ==>
                res.value == Response(400, false, ErrorBody(if req.verb.Post? then TitleRequired else IdRequired))
      ensures res.value.status == 400 <==>
                (req.verb.Post? && req.body.Some? && !Truthy(req.body.value.title)) ||
                ((req.verb.Put? || req.verb.Delete?) && !Truthy(req.id))
      ensures |old(calls)| <= |calls| <= |old(calls)| + 1 && calls[..|old(calls)|] == old(calls)
      // GET: one goal by id (200 or 404), or the whole list (200 or the rethrown error)
      ensures req.verb.Get? && Truthy(req.id) ==>
                calls == old(calls) + [SelectOne(req.id.text)] &&
                res.value == (if replies.selectOne.RowError? then Response(404, false, ErrorBody(NotFound))
                              else Response(200, false, GoalBody(replies.selectOne.row)))
      ensures req.verb.Get? && !Truthy(req.id) ==>
                calls == old(calls) + [SelectAll] &&
                res.value == (if replies.selectAll.ListError? then Response(500, true, ErrorBody(InternalError))
                              else Response(200, false, GoalsBody(replies.selectAll.rows)))
      // POST with a title: one insert, 201 with the inserted row
      ensures req.verb.Post? && req.body.Some? && Truthy(req.body.value.title) ==>
                calls == old(calls) + [Insert(req.body.value.title.text, req.body.value.description)] &&
                (replies.insert.Row? ==> res.value == Response(201, false, GoalBody(replies.insert.row)))
      ensures req.verb.Post? && !(req.body.Some? && Truthy(req.body.value.title)) ==> calls == old(calls)
      // PUT with an id and a body: one update with the built object, 200 or 404
      ensures req.verb.Put? && Truthy(req.id) && req.body.Some? ==>
                var b := req.body.value;
                var u := Updates(if Truthy(b.title) then Some(b.title.text) else None,
                                 if b.description.Undefined? then None else Some(b.description),
                                 now);
                calls == old(calls) + [Update(req.id.text, u)] &&
                res.value == (if replies.update.RowError? then Response(404, false, ErrorBody(NotFound))
                              else Response(200, false, GoalBody(replies.update.row)))
      ensures req.verb.Put? && !(Truthy(req.id) && req.body.Some?) ==> calls == old(calls)
      // DELETE: one delete by id, 204 or 404; without an id no call
      ensures req.verb.Delete? && Truthy(req.id) ==>
                calls == old(calls) + [Remove(req.id.text)] &&
                res.value == (if replies.deleteFailed then Response(404, false, ErrorBody(NotFound))
                              else Response(204, false, NoBody))
      ensures req.verb.Delete? && !Truthy(req.id) ==> calls == old(calls)
    {
      if req.verb.Options? {
        res := Some(Response(200, true, NoBody));
        return;
      }
      var raised := false;
      match req.verb {
        case Get => raised := HandleGet(req.id, replies);
        case Post => raised := HandlePost(req.body, replies);
        case Put => raised := HandlePut(req.id, req.body, replies, now);
        case Delete => HandleDelete(req.id, replies);
        case OtherMethod(_) => res := Some(Response(405, true, ErrorBody(MethodNotAllowed)));
      }
      if raised {
        res := Some(Response(500, true, ErrorBody(InternalError)));
      }
    }
  }
}
