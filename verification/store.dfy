/** The database the server actions and routes work on, as plain values:
    users, projects, shapes (saved strokes) and bookmarks. Only the
    constraint the code itself relies on is modelled: a bookmark is
    identified by its (user, project) pair. */
module Store {
  import opened Base
  import opened Strokes

  type UserId = string
  type ProjectId = string

  datatype User = User(id: UserId, email: string, password: string, name: string)

  datatype Project = Project(id: ProjectId, title: string, adminId: UserId)

  /** A saved stroke. `message` is the stroke the route serialised into the
      row's text column. */
  datatype Shape = Shape(id: string, message: Stroke, userId: UserId, projectId: ProjectId)

  datatype Bookmark = Bookmark(userId: UserId, projectId: ProjectId)

  datatype Db = Db(
    users: map<UserId, User>,
    projects: map<ProjectId, Project>,
    shapes: seq<Shape>,
    bookmarks: set<Bookmark>)

  /** What `getServerSession` yields when there is a session: the user's id
      (`session.user?.id`) and the access token, either possibly missing. */
  datatype Session = Session(userId: Option<UserId>, accessToken: Option<string>)

  /** The caller's id when the session has a truthy one. */
  function CallerOf(session: Option<Session>): (r: Option<UserId>)
    ensures r.Some? <==> session.Some? && Truthy(session.value.userId)
    ensures r.Some? ==> r.value != "" && Some(r.value) == session.value.userId
  {
    if session.Some? && Truthy(session.value.userId) then session.value.userId else None
  }

  /** The shapes of `shapes` that `keep` retains, in order. */
  function FilterShapes(shapes: seq<Shape>, keep: Shape -> bool): (r: seq<Shape>)
    ensures forall s :: s in r <==> s in shapes && keep(s)
    ensures r == [] <==> forall s :: s in shapes ==> !keep(s)
    ensures |r| <= |shapes|
    decreases |shapes|
  {
    if shapes == [] then []
    else (if keep(shapes[0]) then [shapes[0]] else []) + FilterShapes(shapes[1..], keep)
  }

  /** The shapes of one project (`include: { Shape: true }`). */
  function ShapesOf(db: Db, projectId: ProjectId): (r: seq<Shape>)
    ensures forall s :: s in r <==> s in db.shapes && s.projectId == projectId
    ensures r == [] <==> forall s :: s in db.shapes ==> s.projectId != projectId
  {
    FilterShapes(db.shapes, (s: Shape) => s.projectId == projectId)
  }

  /** No shape id is used twice. */
  predicate ShapeIdsUnique(shapes: seq<Shape>) {
    forall i, j :: 0 <= i < j < |shapes| ==> shapes[i].id != shapes[j].id
  }

  /** Filtering keeps order and a duplicate-free id column stays duplicate-free. */
  lemma {:induction false} FilterKeepsIdsUnique(shapes: seq<Shape>, keep: Shape -> bool)
    requires ShapeIdsUnique(shapes)
    ensures ShapeIdsUnique(FilterShapes(shapes, keep))
    decreases |shapes|
  {
    if shapes != [] {
      FilterKeepsIdsUnique(shapes[1..], keep);
      var rest := FilterShapes(shapes[1..], keep);
      forall s | s in rest
        ensures s.id != shapes[0].id
      {
        var j :| 0 <= j < |shapes[1..]| && shapes[1..][j] == s;
        assert shapes[j + 1] == s;
      }
    }
  }
}
