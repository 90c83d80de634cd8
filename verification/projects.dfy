/** The project server actions (apps/web/server/project.ts). Each action is
    one atomic step over the store. `fault` says that the action's first
    store call throws, which its `catch` turns into the action's generic
    error; the session is an input. */
module Projects {
  import opened Base
  import opened Store

  /** The `accessToken` cookie set by join and get. */
  datatype Cookie = Cookie(name: string, value: string, maxAge: nat, httpOnly: bool, path: string, sameSite: string, secure: bool)

  const CookieMaxAge: nat := 60 * 60 * 24 * 7

  function AccessTokenCookie(token: string): (c: Cookie)
    ensures c.name == "accessToken" && c.value == token
    ensures c.maxAge == 604800 && c.httpOnly && c.path == "/" && c.sameSite == "lax" && !c.secure
  {
    Cookie("accessToken", token, CookieMaxAge, true, "/", "lax", false)
  }

  /** The action's resolved value: `{ success: true, ... }`, `{ success:
      false, error }`, or `undefined`. */
  datatype Reply<+T> = Ok(value: T) | Failed(error: string) | Undefined

  /** A reading action's answer and the cookie it set, if any. */
  datatype Answer<+T> = Answer(reply: Reply<T>, cookie: Option<Cookie>)

  /** A writing action's new store and answer. */
  datatype Step<+T> = Step(db: Db, reply: Reply<T>)

  /** The shared body of `joinProject` and `getProject`: unknown project,
      then missing access token, then success with the cookie. */
  function Lookup<T>(db: Db, id: ProjectId, session: Option<Session>, fault: bool, genericError: string, found: Project -> T): (r: Answer<T>)
    ensures fault ==> r == Answer(Failed(genericError), None)
    ensures !fault && id !in db.projects ==> r == Answer(Failed("Project not found"), None)
    ensures !fault && id in db.projects && !(session.Some? && Truthy(session.value.accessToken)) ==> r == Answer(Undefined, None)
    ensures r.cookie.Some? <==> !fault && id in db.projects && session.Some? && Truthy(session.value.accessToken)
    ensures r.cookie.Some? ==> r == Answer(Ok(found(db.projects[id])), Some(AccessTokenCookie(session.value.accessToken.value)))
  {
    if fault then Answer(Failed(genericError), None)
    else if id !in db.projects then Answer(Failed("Project not found"), None)
    else if !(session.Some? && Truthy(session.value.accessToken)) then Answer(Undefined, None)
    else Answer(Ok(found(db.projects[id])), Some(AccessTokenCookie(session.value.accessToken.value)))
  }

  /** `joinProject`. */
  function JoinProject(db: Db, id: ProjectId, session: Option<Session>, fault: bool): (r: Answer<Project>)
    ensures id !in db.projects ==> r.reply.Failed? && r.cookie.None?
    ensures r.reply.Ok? <==> r.cookie.Some?
    ensures r.reply.Ok? ==> id in db.projects && r.reply.value == db.projects[id]
  {
    Lookup(db, id, session, fault, "Failed to join Project", p => p)
  }

  /** `getProject`: the project together with its shapes. */
  function GetProject(db: Db, id: ProjectId, session: Option<Session>, fault: bool): (r: Answer<(Project, seq<Shape>)>)
    ensures id !in db.projects ==> r.reply.Failed? && r.cookie.None?
    ensures r.reply.Ok? <==> r.cookie.Some?
    ensures r.reply.Ok? ==> id in db.projects && r.reply.value.0 == db.projects[id]
    ensures r.reply.Ok? ==> forall s :: s in r.reply.value.1 <==> s in db.shapes && s.projectId == id
  {
    Lookup(db, id, session, fault, "Failed to join project", p => (p, ShapesOf(db, id)))
  }

  /** `createProject`, with the id the database generates. */
  function CreateProject(db: Db, title: string, session: Option<Session>, freshId: ProjectId, fault: bool): (r: Step<Project>)
    requires freshId !in db.projects
    ensures CallerOf(session).None? ==> r == Step(db, Failed("User not found"))
    ensures CallerOf(session).Some? && fault ==> r == Step(db, Failed("Failed to create project"))
    ensures r.reply.Ok? <==> CallerOf(session).Some? && !fault
    ensures r.reply.Ok? ==>
              && r.reply.value == Project(freshId, title, CallerOf(session).value)
              && r.db == db.(projects := db.projects[freshId := r.reply.value])
  {
    var caller := CallerOf(session);
    if caller.None? then Step(db, Failed("User not found"))
    else if fault then Step(db, Failed("Failed to create project"))
    else
      var p := Project(freshId, title, caller.value);
      Step(db.(projects := db.projects[freshId := p]), Ok(p))
  }

  const NotAdmin: string := "Unauthorized User - Only project admin can delete the project"

  /** `deleteProject`: authentication, then existence, then the admin
      check; an admin's delete removes the project's shapes, then the
      project. */
  function DeleteProject(db: Db, id: ProjectId, session: Option<Session>, fault: bool): (r: Step<string>)
    ensures CallerOf(session).None? ==> r == Step(db, Failed("Authentication required"))
    ensures CallerOf(session).Some? && fault ==> r == Step(db, Failed("Failed to delete project"))
    ensures CallerOf(session).Some? && !fault && id !in db.projects ==> r == Step(db, Failed("Project not found"))
    ensures CallerOf(session).Some? && !fault && id in db.projects && db.projects[id].adminId != CallerOf(session).value ==>
              r == Step(db, Failed(NotAdmin))
    ensures r.reply.Ok? <==> CallerOf(session).Some? && !fault && id in db.projects && db.projects[id].adminId == CallerOf(session).value
    ensures r.reply.Ok? ==>
              && r.reply.value == "Project deleted successfully"
              && r.db.projects == db.projects - {id}
              && (forall s :: s in r.db.shapes <==> s in db.shapes && s.projectId != id)
              && r.db.users == db.users && r.db.bookmarks == db.bookmarks
  {
    var caller := CallerOf(session);
    if caller.None? then Step(db, Failed("Authentication required"))
    else if fault then Step(db, Failed("Failed to delete project"))
    else if id !in db.projects then Step(db, Failed("Project not found"))
    else if db.projects[id].adminId != caller.value then Step(db, Failed(NotAdmin))
    else
      var withoutShapes := db.(shapes := FilterShapes(db.shapes, (s: Shape) => s.projectId != id));
      Step(withoutShapes.(projects := withoutShapes.projects - {id}), Ok("Project deleted successfully"))
  }

  /** One row of `getUserProjects`. */
  datatype Summary = Summary(id: ProjectId, title: string, bookmarked: bool)

  /** `getUserProjects`: the caller's own projects, each flagged with whether
      the caller bookmarked it. */
  function GetUserProjects(db: Db, session: Option<Session>, fault: bool): (r: Reply<map<ProjectId, Summary>>)
    ensures CallerOf(session).None? ==> r == Failed("User not authenticated")
    ensures CallerOf(session).Some? && fault ==> r == Failed("Failed to fetch user projects")
    ensures r.Ok? <==> CallerOf(session).Some? && !fault
    ensures r.Ok? ==>
              var caller := CallerOf(session).value;
              && (forall p :: p in r.value <==> p in db.projects && db.projects[p].adminId == caller)
              && (forall p :: p in r.value ==> r.value[p].title == db.projects[p].title)
              && (forall p :: p in r.value ==> (r.value[p].bookmarked <==> Bookmark(caller, p) in db.bookmarks))
  {
    var caller := CallerOf(session);
    if caller.None? then Failed("User not authenticated")
    else if fault then Failed("Failed to fetch user projects")
    else
      Ok(map p | p in db.projects && db.projects[p].adminId == caller.value ::
           Summary(p, db.projects[p].title, Bookmark(caller.value, p) in db.bookmarks))
  }

  /** Why a bookmark action rejects: no user, or the store refused. */
  datatype Thrown = Unauthorized | StoreError

  datatype BookmarkStep = BookmarkStep(db: Db, thrown: Option<Thrown>)

  /** `onFavorite`: creating a (user, project) bookmark that exists violates
      the pair's uniqueness and throws. */
  function OnFavorite(db: Db, projectId: ProjectId, session: Option<Session>, fault: bool): (r: BookmarkStep)
    ensures CallerOf(session).None? ==> r == BookmarkStep(db, Some(Unauthorized))
    ensures r.thrown.None? <==> CallerOf(session).Some? && !fault && Bookmark(CallerOf(session).value, projectId) !in db.bookmarks
    ensures r.thrown.Some? ==> r.db == db
    ensures r.thrown.None? ==> r.db == db.(bookmarks := db.bookmarks + {Bookmark(CallerOf(session).value, projectId)})
  {
    var caller := CallerOf(session);
    if caller.None? then BookmarkStep(db, Some(Unauthorized))
    else
      var b := Bookmark(caller.value, projectId);
      if fault || b in db.bookmarks then BookmarkStep(db, Some(StoreError))
      else BookmarkStep(db.(bookmarks := db.bookmarks + {b}), None)
  }

  /** `onUnFavorite`: deleting a bookmark that does not exist throws. */
  function OnUnFavorite(db: Db, projectId: ProjectId, session: Option<Session>, fault: bool): (r: BookmarkStep)
    ensures CallerOf(session).None? ==> r == BookmarkStep(db, Some(Unauthorized))
    ensures r.thrown.None? <==> CallerOf(session).Some? && !fault && Bookmark(CallerOf(session).value, projectId) in db.bookmarks
    ensures r.thrown.Some? ==> r.db == db
    ensures r.thrown.None? ==> r.db == db.(bookmarks := db.bookmarks - {Bookmark(CallerOf(session).value, projectId)})
  {
    var caller := CallerOf(session);
    if caller.None? then BookmarkStep(db, Some(Unauthorized))
    else
      var b := Bookmark(caller.value, projectId);
      if fault || b !in db.bookmarks then BookmarkStep(db, Some(StoreError))
      else BookmarkStep(db.(bookmarks := db.bookmarks - {b}), None)
  }

  /** `isBookmarked`: whether the pair's bookmark exists. It takes the user
      id as an argument and consults no session. */
  function IsBookmarked(db: Db, projectId: ProjectId, userId: UserId, fault: bool): (r: Option<bool>)
    ensures fault <==> r.None?
    ensures r.Some? ==> (r.value <==> Bookmark(userId, projectId) in db.bookmarks)
  {
    if fault then None else Some(Bookmark(userId, projectId) in db.bookmarks)
  }

  /** A session without a truthy user id writes nothing: every writing
      action refuses it and leaves the store as it was, and the listing
      refuses it too. */
  lemma AnonymousCannotWrite(db: Db, session: Option<Session>, projectId: ProjectId, title: string, freshId: ProjectId, fault: bool)
    requires freshId !in db.projects
    requires session.None? || !Truthy(session.value.userId)
    ensures CreateProject(db, title, session, freshId, fault).db == db
    ensures DeleteProject(db, projectId, session, fault).db == db
    ensures OnFavorite(db, projectId, session, fault) == BookmarkStep(db, Some(Unauthorized))
    ensures OnUnFavorite(db, projectId, session, fault) == BookmarkStep(db, Some(Unauthorized))
    ensures !GetUserProjects(db, session, fault).Ok?
  {
  }

  /** A successful join or get hands the browser the session's own access
      token in a week-long, http-only, lax, site-wide cookie; any other
      answer sets no cookie. */
  lemma SuccessSetsSessionCookie(db: Db, id: ProjectId, session: Option<Session>, fault: bool)
    ensures var j := JoinProject(db, id, session, fault);
            j.reply.Ok? ==>
              && j.cookie.value.name == "accessToken"
              && Some(j.cookie.value.value) == session.value.accessToken
              && j.cookie.value.maxAge == 7 * 24 * 60 * 60 && j.cookie.value.httpOnly
              && j.cookie.value.path == "/" && j.cookie.value.sameSite == "lax"
    ensures GetProject(db, id, session, fault).cookie == JoinProject(db, id, session, fault).cookie
    ensures !JoinProject(db, id, session, fault).reply.Ok? ==> JoinProject(db, id, session, fault).cookie.None?
  {
  }

  /** The two ways of asking agree: for each of the caller's projects,
      `isBookmarked` with the caller's id answers the `bookmarked` flag of
      the caller's listing. */
  lemma IsBookmarkedAgreesWithList(db: Db, session: Option<Session>, p: ProjectId)
    requires CallerOf(session).Some?
    requires p in db.projects && db.projects[p].adminId == CallerOf(session).value
    ensures var l := GetUserProjects(db, session, false);
            && l.Ok? && p in l.value
            && IsBookmarked(db, p, CallerOf(session).value, false) == Some(l.value[p].bookmarked)
  {
  }

  /** Favouriting then asking gives true; unfavouriting then asking gives
      false; favouriting then unfavouriting restores the store. */
  lemma FavoriteRoundTrip(db: Db, projectId: ProjectId, session: Option<Session>)
    requires CallerOf(session).Some?
    requires Bookmark(CallerOf(session).value, projectId) !in db.bookmarks
    ensures var on := OnFavorite(db, projectId, session, false);
            && on.thrown.None?
            && IsBookmarked(on.db, projectId, CallerOf(session).value, false) == Some(true)
            && var off := OnUnFavorite(on.db, projectId, session, false);
               && off.thrown.None?
               && IsBookmarked(off.db, projectId, CallerOf(session).value, false) == Some(false)
               && off.db == db
  {
    var b := Bookmark(CallerOf(session).value, projectId);
    assert db.bookmarks + {b} - {b} == db.bookmarks;
  }

  /** A second favourite of the same project throws and changes nothing. */
  lemma FavoriteTwiceThrows(db: Db, projectId: ProjectId, session: Option<Session>)
    requires CallerOf(session).Some?
    ensures var once := OnFavorite(db, projectId, session, false);
            OnFavorite(once.db, projectId, session, false) == BookmarkStep(once.db, Some(StoreError))
  {
  }

  /** A created project shows up in its creator's list, unbookmarked unless
      a bookmark for the fresh id already existed. */
  lemma CreatedProjectListed(db: Db, title: string, session: Option<Session>, freshId: ProjectId)
    requires freshId !in db.projects && CallerOf(session).Some?
    ensures var c := CreateProject(db, title, session, freshId, false);
            var l := GetUserProjects(c.db, session, false);
            && l.Ok? && freshId in l.value && l.value[freshId].title == title
  {
  }

  /** After an admin's delete the project is gone: join and get both report
      it missing, and none of its shapes remains. */
  lemma DeletedProjectIsGone(db: Db, id: ProjectId, session: Option<Session>, other: Option<Session>)
    requires CallerOf(session).Some? && id in db.projects && db.projects[id].adminId == CallerOf(session).value
    ensures var d := DeleteProject(db, id, session, false);
            && d.reply.Ok?
            && JoinProject(d.db, id, other, false).reply == Failed("Project not found")
            && GetProject(d.db, id, other, false).reply == Failed("Project not found")
            && ShapesOf(d.db, id) == []
  {
  }

  /** Only the admin can delete: any other caller is refused and the store
      is unchanged, whatever the project. */
  lemma OnlyAdminDeletes(db: Db, id: ProjectId, session: Option<Session>, fault: bool)
    requires DeleteProject(db, id, session, fault).db != db
    ensures CallerOf(session).Some? && id in db.projects && db.projects[id].adminId == CallerOf(session).value
  {
  }
}
