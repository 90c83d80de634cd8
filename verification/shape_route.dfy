/** The shape-saving route (apps/web/app/api/shape/route.ts): a guard chain,
    then one shape appended to the store. */
module ShapeRoute {
  import opened Base
  import opened Strokes
  import opened Store

  /** A JSON response: its status and body. */
  datatype Body = ErrorBody(error: string) | SuccessBody | MessageBody(message: string)
  datatype Response = Response(status: nat, body: Body)

  /** A route's effect: the new store, and the response, or `None` when the
      handler throws outside its `try` (unparseable request body). */
  datatype Handled = Handled(db: Db, response: Option<Response>)

  /** The parsed request body `{ roomId, stroke }`. */
  datatype SaveRequest = SaveRequest(roomId: Field<string>, stroke: Field<Stroke>)

  /** A field is truthy: present, not null, and not the empty string. */
  predicate TruthyText(f: Field<string>) {
    f.Value? && f.value != ""
  }

  /** `POST /api/shape`. `body` is `None` when the request body is not JSON;
      `freshId` is the id the database generates for the row; `fault` says
      the insert throws. */
  function SaveShape(db: Db, session: Option<Session>, body: Option<SaveRequest>, freshId: string, fault: bool): (r: Handled)
    ensures session.None? ==> r == Handled(db, Some(Response(401, ErrorBody("Unauthorized"))))
    ensures session.Some? && body.None? ==> r == Handled(db, None)
    ensures session.Some? && body.Some? && !(TruthyText(body.value.roomId) && body.value.stroke.Value?) ==>
              r == Handled(db, Some(Response(400, ErrorBody("Invalid data"))))
    ensures r.response == Some(Response(200, SuccessBody)) <==>
              && session.Some? && body.Some? && TruthyText(body.value.roomId) && body.value.stroke.Value?
              && session.value.userId.Some? && !fault
    ensures r.response == Some(Response(200, SuccessBody)) ==>
              r.db == db.(shapes := db.shapes + [Shape(freshId, body.value.stroke.value, session.value.userId.value, body.value.roomId.value)])
    ensures r.response != Some(Response(200, SuccessBody)) ==> r.db == db
    ensures r.response.Some? && r.response.value.status == 500 ==> r.response.value.body == ErrorBody("Database error")
  {
    if session.None? then Handled(db, Some(Response(401, ErrorBody("Unauthorized"))))
    else if body.None? then Handled(db, None)
    else if !(TruthyText(body.value.roomId) && body.value.stroke.Value?) then
      Handled(db, Some(Response(400, ErrorBody("Invalid data"))))
    else if session.value.userId.None? || fault then
      Handled(db, Some(Response(500, ErrorBody("Database error"))))
    else
      var shape := Shape(freshId, body.value.stroke.value, session.value.userId.value, body.value.roomId.value);
      Handled(db.(shapes := db.shapes + [shape]), Some(Response(200, SuccessBody)))
  }

  /** The saved row is attributed to the session's user, not to the author
      the stroke names, and is filed under the request's room. */
  lemma SavedUnderSessionUser(db: Db, user: UserId, token: Option<string>, roomId: string, stroke: Stroke, freshId: string)
    requires roomId != "" && stroke.userId != user
    ensures var r := SaveShape(db, Some(Session(Some(user), token)), Some(SaveRequest(Value(roomId), Value(stroke))), freshId, false);
            && r.response == Some(Response(200, SuccessBody))
            && r.db.shapes[|db.shapes|] == Shape(freshId, stroke, user, roomId)
            && r.db.shapes[|db.shapes|].userId != stroke.userId
  {
  }

  /** A saved stroke is returned by the project read of its room. */
  lemma SavedShapeIsListed(db: Db, user: UserId, token: Option<string>, roomId: string, stroke: Stroke, freshId: string)
    requires roomId != ""
    ensures var r := SaveShape(db, Some(Session(Some(user), token)), Some(SaveRequest(Value(roomId), Value(stroke))), freshId, false);
            Shape(freshId, stroke, user, roomId) in ShapesOf(r.db, roomId)
  {
    var r := SaveShape(db, Some(Session(Some(user), token)), Some(SaveRequest(Value(roomId), Value(stroke))), freshId, false);
    assert r.db.shapes[|db.shapes|] == Shape(freshId, stroke, user, roomId);
  }

  /** With a fresh id, saving keeps shape ids unique. */
  lemma SaveKeepsIdsUnique(db: Db, session: Option<Session>, body: Option<SaveRequest>, freshId: string, fault: bool)
    requires ShapeIdsUnique(db.shapes)
    requires forall s :: s in db.shapes ==> s.id != freshId
    ensures ShapeIdsUnique(SaveShape(db, session, body, freshId, fault).db.shapes)
  {
    var r := SaveShape(db, session, body, freshId, fault);
    if r.db != db {
      forall i, j | 0 <= i < j < |r.db.shapes|
        ensures r.db.shapes[i].id != r.db.shapes[j].id
      {
        if j == |db.shapes| {
          assert r.db.shapes[i] == db.shapes[i];
          assert db.shapes[i] in db.shapes;
        }
      }
    }
  }
}
