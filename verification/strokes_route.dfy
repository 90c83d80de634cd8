/** The stroke-deleting route (apps/web/app/api/strokes/route.ts): one guard,
    then every shape matching the (id, room) pair removed. No session is
    consulted. */
module StrokesRoute {
  import opened Base
  import opened Store
  import opened ShapeRoute

  /** The parsed request body `{ roomId, strokeId }`. */
  datatype DeleteRequest = DeleteRequest(roomId: Field<string>, strokeId: Field<string>)

  /** Whether a shape is the one a delete request names. */
  predicate Matches(s: Shape, roomId: string, strokeId: string) {
    s.id == strokeId && s.projectId == roomId
  }

  /** `POST /api/strokes`. `body` is `None` when the request body is not
      JSON; `fault` says the delete throws. */
  function DeleteStroke(db: Db, body: Option<DeleteRequest>, fault: bool): (r: Handled)
    ensures body.None? ==> r == Handled(db, None)
    ensures body.Some? && !(TruthyText(body.value.roomId) && TruthyText(body.value.strokeId)) ==>
              r == Handled(db, Some(Response(400, ErrorBody("Invalid data"))))
    ensures body.Some? && TruthyText(body.value.roomId) && TruthyText(body.value.strokeId) && fault ==>
              r == Handled(db, Some(Response(500, ErrorBody("Internal Server Error"))))
    ensures r.response == Some(Response(200, MessageBody("Stroke deleted"))) <==>
              body.Some? && TruthyText(body.value.roomId) && TruthyText(body.value.strokeId) && !fault
    ensures r.response == Some(Response(200, MessageBody("Stroke deleted"))) ==>
              && r.db.users == db.users && r.db.projects == db.projects && r.db.bookmarks == db.bookmarks
              && forall s :: s in r.db.shapes <==> s in db.shapes && !Matches(s, body.value.roomId.value, body.value.strokeId.value)
  {
    if body.None? then Handled(db, None)
    else if !(TruthyText(body.value.roomId) && TruthyText(body.value.strokeId)) then
      Handled(db, Some(Response(400, ErrorBody("Invalid data"))))
    else if fault then Handled(db, Some(Response(500, ErrorBody("Internal Server Error"))))
    else
      var roomId, strokeId := body.value.roomId.value, body.value.strokeId.value;
      Handled(db.(shapes := FilterShapes(db.shapes, (s: Shape) => !Matches(s, roomId, strokeId))),
              Some(Response(200, MessageBody("Stroke deleted"))))
  }

  /** Deleting twice is deleting once: the repeat still answers 200 and
      changes nothing further. */
  lemma {:induction false} DeleteIdempotent(db: Db, body: Option<DeleteRequest>)
    ensures var once := DeleteStroke(db, body, false);
            var twice := DeleteStroke(once.db, body, false);
            twice.response == once.response && twice.db == once.db
  {
    var once := DeleteStroke(db, body, false);
    if once.response == Some(Response(200, MessageBody("Stroke deleted"))) {
      var roomId, strokeId := body.value.roomId.value, body.value.strokeId.value;
      FilterAgain(db.shapes, (s: Shape) => !Matches(s, roomId, strokeId));
    }
  }

  /** Filtering a second time by the same test keeps everything. */
  lemma {:induction false} FilterAgain(shapes: seq<Shape>, keep: Shape -> bool)
    ensures FilterShapes(FilterShapes(shapes, keep), keep) == FilterShapes(shapes, keep)
    decreases |shapes|
  {
    if shapes != [] {
      FilterAgain(shapes[1..], keep);
      var rest := FilterShapes(shapes[1..], keep);
      if keep(shapes[0]) {
        assert ([shapes[0]] + rest)[1..] == rest;
      } else {
        assert [] + rest == rest;
      }
    }
  }

  /** A delete never makes two shapes share an id. */
  lemma DeleteKeepsIdsUnique(db: Db, body: Option<DeleteRequest>, fault: bool)
    requires ShapeIdsUnique(db.shapes)
    ensures ShapeIdsUnique(DeleteStroke(db, body, fault).db.shapes)
  {
    var r := DeleteStroke(db, body, fault);
    if r.response == Some(Response(200, MessageBody("Stroke deleted"))) {
      var roomId, strokeId := body.value.roomId.value, body.value.strokeId.value;
      FilterKeepsIdsUnique(db.shapes, (s: Shape) => !Matches(s, roomId, strokeId));
    }
  }

  /** The outcome is the same whoever calls: the route takes no session. A
      delete naming nothing in the store still answers 200. */
  lemma NothingMatchedStillDeleted(db: Db, roomId: string, strokeId: string)
    requires roomId != "" && strokeId != ""
    requires forall s :: s in db.shapes ==> !Matches(s, roomId, strokeId)
    ensures var r := DeleteStroke(db, Some(DeleteRequest(Value(roomId), Value(strokeId))), false);
            r.response == Some(Response(200, MessageBody("Stroke deleted")))
            && (forall s :: s in r.db.shapes <==> s in db.shapes)
  {
  }

  /** A stroke saved through the shape route is stored under the id the
      database generated, not the stroke's own id, so deleting by the
      stroke's id leaves that row in place whenever the two ids differ. */
  lemma DeleteByStrokeIdMissesSavedRow(db: Db, user: UserId, token: Option<string>, roomId: string, stroke: Strokes.Stroke, freshId: string)
    requires roomId != "" && stroke.id != "" && freshId != stroke.id
    ensures var saved := SaveShape(db, Some(Session(Some(user), token)), Some(SaveRequest(Value(roomId), Value(stroke))), freshId, false);
            var deleted := DeleteStroke(saved.db, Some(DeleteRequest(Value(roomId), Value(stroke.id))), false);
            && deleted.response == Some(Response(200, MessageBody("Stroke deleted")))
            && Shape(freshId, stroke, user, roomId) in deleted.db.shapes
  {
    var saved := SaveShape(db, Some(Session(Some(user), token)), Some(SaveRequest(Value(roomId), Value(stroke))), freshId, false);
    assert saved.db.shapes[|db.shapes|] == Shape(freshId, stroke, user, roomId);
  }
}
