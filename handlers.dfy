/** The project and task request handlers of routes/api/projects.js and
    routes/api/tasks.js as operations on an in-memory document store. The
    caller id is the identity the authentication middleware attached to the
    request; user records, fresh object ids and the current date are
    inputs. */
module Handlers {
  import opened Records
  import opened Requests
  import opened Comments
  import opened Updates

  /** No record present in both maps changed its owner. */
  ghost predicate KeepsProjectOwners(before: map<Id, Project>, after: map<Id, Project>) {
    forall id | id in before && id in after :: after[id].user == before[id].user
  }

  /** No record present in both maps changed its owner. */
  ghost predicate KeepsTaskOwners(before: map<Id, Task>, after: map<Id, Task>) {
    forall id | id in before && id in after :: after[id].user == before[id].user
  }

  /** The `projects` and `tasks` collections. */
  class Store {
    var projects: map<Id, Project>
    var tasks: map<Id, Task>

    /** Every document is stored under its own id and has the fields its
        schema requires, so that no `save` of a handler can fail them. */
    ghost predicate Valid()
      reads this
    {
      && (forall id | id in projects :: projects[id].id == id && ProjectHasRequired(projects[id]))
      && (forall id | id in tasks :: tasks[id].id == id && TaskHasRequired(tasks[id]))
    }

    constructor ()
      ensures Valid() && projects == map[] && tasks == map[]
    {
      projects := map[];
      tasks := map[];
    }

    // ---------------------------------------------------------------
    // routes/api/projects.js
    // ---------------------------------------------------------------

    /** `POST /api/projects`: validate, read the caller's user record, and
        insert a new project owned by the caller with no comments. */
    method CreateProject(caller: Id, b: Body, users: map<Id, Profile>, newId: Id) returns (r: Reply<Project>)
      requires Valid()
      modifies this
      ensures Valid() && tasks == old(tasks)
      ensures CreateErrors(b) != [] ==> r == BadRequest(CreateErrors(b))
      ensures CreateErrors(b) == [] && caller !in users ==> r == ServerError
      ensures CreateErrors(b) == [] && caller in users && newId in old(projects) ==> r == ServerError
      ensures r.Ok? <==> CreateErrors(b) == [] && caller in users && newId !in old(projects)
      ensures !r.Ok? ==> projects == old(projects)
      ensures r.Ok? ==>
                && r.value == Project(newId, caller, users[caller].name, users[caller].avatar,
                                      b.title, b.description, b.from, b.to, b.state, [])
                && projects == old(projects)[newId := r.value]
                && GetProject(newId) == Ok(r.value)
    {
      var errors := CreateErrors(b);
      if errors != [] {
        return BadRequest(errors);
      }
      if caller !in users {
        // `user.name` on a missing user record throws.
        return ServerError;
      }
      if newId in projects {
        // duplicate `_id` on save
        return ServerError;
      }
      var user := users[caller];
      var project := Project(newId, caller, user.name, user.avatar,
                             b.title, b.description, b.from, b.to, b.state, []);
      projects := projects[newId := project];
      r := Ok(project);
    }

    /** `GET /api/projects/:id`: any authenticated caller may read any
        project; a missing one is 404. */
    function GetProject(id: Id): (r: Reply<Project>)
      reads this
      ensures r.Ok? <==> id in projects
      ensures r.Ok? ==> r.value == projects[id]
      ensures !r.Ok? ==> r == NotFound
    {
      if id in projects then Ok(projects[id]) else NotFound
    }

    /** `DELETE /api/projects/:id`: 404 before 401; only the owner removes
        the project, and its tasks are left in place. */
    method DeleteProject(id: Id, caller: Id) returns (r: Reply<()>)
      requires Valid()
      modifies this
      ensures Valid() && tasks == old(tasks)
      ensures id !in old(projects) ==> r == NotFound
      ensures id in old(projects) && old(projects)[id].user != caller ==> r == Unauthorized
      ensures r.Ok? <==> id in old(projects) && old(projects)[id].user == caller
      ensures projects == if r.Ok? then old(projects) - {id} else old(projects)
    {
      if id !in projects {
        return NotFound;
      }
      var project := projects[id];
      if project.user != caller {
        return Unauthorized;
      }
      projects := projects - {id};
      r := Ok(());
    }

    /** `POST /api/projects/update/:id`: 404, then 401; the owner's call
        builds `projectFields` one field at a time and `$set`s it. */
    method UpdateProject(id: Id, caller: Id, b: Body) returns (r: Reply<Project>)
      requires Valid()
      modifies this
      ensures Valid() && tasks == old(tasks)
      ensures KeepsProjectOwners(old(projects), projects)
      ensures id !in old(projects) ==> r == NotFound
      ensures id in old(projects) && old(projects)[id].user != caller ==> r == Unauthorized
      ensures r.Ok? <==> id in old(projects) && old(projects)[id].user == caller
      ensures !r.Ok? ==> projects == old(projects)
      ensures r.Ok? ==>
                && r.value == UpdatedProject(old(projects)[id], caller, b)
                && projects == old(projects)[id := r.value]
    {
      if id !in projects {
        return NotFound;
      }
      var project := projects[id];
      if project.user != caller {
        return Unauthorized;
      }
      var fields := ProjectFields(caller, None);
      if Truthy(b.title) { fields := fields.(title := Some(b.title)); }
      if Truthy(b.description) { fields := fields.(title := Some(b.description)); }
      if Truthy(b.from) { fields := fields.(title := Some(b.from)); }
      if Truthy(b.to) { fields := fields.(title := Some(b.to)); }
      if Truthy(b.state) { fields := fields.(title := Some(b.state)); }
      var updated := SetProject(project, fields);
      ProjectUpdateTitle(project, caller, b);
      LastTruthyNonEmpty(UpdateCandidates(b), project.title);
      projects := projects[id := updated];
      r := Ok(updated);
    }

    /** `POST /api/projects/comment/:id`: 400 on empty text, 404, 401 for a
        non-owner, 500 without a user record; otherwise the new comment by
        the caller is put in front of the list, which is returned. */
    method AddProjectComment(id: Id, caller: Id, text: string, users: map<Id, Profile>, cid: Id, now: Date)
      returns (r: Reply<seq<Comment>>)
      requires Valid()
      modifies this
      ensures Valid() && tasks == old(tasks)
      ensures text == "" ==> r == BadRequest([Text])
      ensures text != "" && id !in old(projects) ==> r == NotFound
      ensures text != "" && id in old(projects) && old(projects)[id].user != caller ==> r == Unauthorized
      ensures (text != "" && id in old(projects) && old(projects)[id].user == caller && caller !in users)
                ==> r == ServerError
      ensures r.Ok? <==> text != "" && id in old(projects) && old(projects)[id].user == caller && caller in users
      ensures !r.Ok? ==> projects == old(projects)
      ensures r.Ok? ==>
                && r.value == [Comment(cid, caller, users[caller].name, users[caller].avatar, text, now)]
                              + old(projects)[id].comments
                && projects == old(projects)[id := old(projects)[id].(comments := r.value)]
    {
      if text == "" {
        return BadRequest([Text]);
      }
      if id !in projects {
        return NotFound;
      }
      var project := projects[id];
      if project.user != caller {
        return Unauthorized;
      }
      if caller !in users {
        // `user.name` on a missing user record throws.
        return ServerError;
      }
      var user := users[caller];
      var comment := Comment(cid, caller, user.name, user.avatar, text, now);
      var comments := Unshift(project.comments, comment);
      projects := projects[id := project.(comments := comments)];
      r := Ok(comments);
    }

    /** `DELETE /api/projects/comment/:id/:comment_id`: 500 for a missing
        project (the handler reads `project.comment` from null), then the
        delete-comment rule on its list. */
    method DeleteProjectComment(id: Id, cid: Id, caller: Id) returns (r: Reply<seq<Comment>>)
      requires Valid()
      modifies this
      ensures Valid() && tasks == old(tasks)
      ensures KeepsProjectOwners(old(projects), projects)
      ensures id !in old(projects) ==> r == ServerError
      ensures id in old(projects) ==> r == DeleteOwnComment(old(projects)[id].comments, cid, caller)
      ensures !r.Ok? ==> projects == old(projects)
      ensures r.Ok? ==> projects == old(projects)[id := old(projects)[id].(comments := r.value)]
    {
      if id !in projects {
        return ServerError;
      }
      var project := projects[id];
      var comment := FindComment(project.comments, cid);
      if comment.None? {
        return NotFound;
      }
      if comment.value.user != caller {
        return Unauthorized;
      }
      var removeIndex := IndexOfUser(project.comments, caller);
      var comments := SpliceOne(project.comments, removeIndex);
      projects := projects[id := project.(comments := comments)];
      r := Ok(comments);
    }

    // ---------------------------------------------------------------
    // routes/api/tasks.js
    // ---------------------------------------------------------------

    /** `POST /api/tasks/:id`: validate, then load the parent project (a
        missing one makes `project.user` throw: 500); only the project's
        owner may add a task, which copies the project's owner snapshot,
        id and title. */
    method CreateTask(projectId: Id, caller: Id, b: Body, newId: Id) returns (r: Reply<Task>)
      requires Valid()
      modifies this
      ensures Valid() && projects == old(projects)
      ensures CreateErrors(b) != [] ==> r == BadRequest(CreateErrors(b))
      ensures CreateErrors(b) == [] && projectId !in projects ==> r == ServerError
      ensures (CreateErrors(b) == [] && projectId in projects && projects[projectId].user != caller)
                ==> r == Unauthorized
      ensures (CreateErrors(b) == [] && projectId in projects && projects[projectId].user == caller
               && newId in old(tasks))
                ==> r == ServerError
      ensures r.Ok? <==> CreateErrors(b) == [] && projectId in projects
                         && projects[projectId].user == caller && newId !in old(tasks)
      ensures !r.Ok? ==> tasks == old(tasks)
      ensures r.Ok? ==>
                && var p := projects[projectId];
                && r.value == Task(newId, caller, p.name, p.avatar, projectId, p.title,
                                   b.title, b.description, b.from, b.to, b.state, [])
                && tasks == old(tasks)[newId := r.value]
                && GetTask(newId, caller) == Ok(r.value)
    {
      var errors := CreateErrors(b);
      if errors != [] {
        return BadRequest(errors);
      }
      if projectId !in projects {
        return ServerError;
      }
      var project := projects[projectId];
      if project.user != caller {
        return Unauthorized;
      }
      if newId in tasks {
        // duplicate `_id` on save
        return ServerError;
      }
      var task := Task(newId, caller, project.name, project.avatar, project.id, project.title,
                       b.title, b.description, b.from, b.to, b.state, []);
      tasks := tasks[newId := task];
      r := Ok(task);
    }

    /** `GET /api/tasks`: the caller's own tasks. */
    function TasksOf(caller: Id): (r: map<Id, Task>)
      reads this
      ensures forall id :: id in r <==> id in tasks && tasks[id].user == caller
      ensures forall id | id in r :: r[id] == tasks[id]
    {
      map id | id in tasks && tasks[id].user == caller :: tasks[id]
    }

    /** `GET /api/tasks/:id`: 404 for a missing task, 401 unless the caller
        owns it. */
    function GetTask(id: Id, caller: Id): (r: Reply<Task>)
      reads this
      ensures r.Ok? <==> id in tasks && tasks[id].user == caller
      ensures r.Ok? ==> r.value == tasks[id]
      ensures id !in tasks ==> r == NotFound
      ensures id in tasks && tasks[id].user != caller ==> r == Unauthorized
    {
      if id !in tasks then NotFound
      else if tasks[id].user != caller then Unauthorized
      else Ok(tasks[id])
    }

    /** `DELETE /api/tasks/:id`: 404 before 401; only the owner removes the
        task. */
    method DeleteTask(id: Id, caller: Id) returns (r: Reply<()>)
      requires Valid()
      modifies this
      ensures Valid() && projects == old(projects)
      ensures id !in old(tasks) ==> r == NotFound
      ensures id in old(tasks) && old(tasks)[id].user != caller ==> r == Unauthorized
      ensures r.Ok? <==> id in old(tasks) && old(tasks)[id].user == caller
      ensures tasks == if r.Ok? then old(tasks) - {id} else old(tasks)
    {
      if id !in tasks {
        return NotFound;
      }
      var task := tasks[id];
      if task.user != caller {
        return Unauthorized;
      }
      tasks := tasks - {id};
      r := Ok(());
    }

    /** `POST /api/tasks/update/:id`: 404, then 401; the owner's call builds
        `taskFields` from the truthy request fields and `$set`s it. */
    method UpdateTask(id: Id, caller: Id, b: Body) returns (r: Reply<Task>)
      requires Valid()
      modifies this
      ensures Valid() && projects == old(projects)
      ensures KeepsTaskOwners(old(tasks), tasks)
      ensures id !in old(tasks) ==> r == NotFound
      ensures id in old(tasks) && old(tasks)[id].user != caller ==> r == Unauthorized
      ensures r.Ok? <==> id in old(tasks) && old(tasks)[id].user == caller
      ensures !r.Ok? ==> tasks == old(tasks)
      ensures r.Ok? ==>
                && r.value == UpdatedTask(old(tasks)[id], caller, b)
                && tasks == old(tasks)[id := r.value]
    {
      if id !in tasks {
        return NotFound;
      }
      var task := tasks[id];
      if task.user != caller {
        return Unauthorized;
      }
      var fields := TaskFields(caller, None, None, None, None, None);
      if Truthy(b.title) { fields := fields.(title := Some(b.title)); }
      if Truthy(b.description) { fields := fields.(description := Some(b.description)); }
      if Truthy(b.from) { fields := fields.(from := Some(b.from)); }
      if Truthy(b.to) { fields := fields.(to := Some(b.to)); }
      if Truthy(b.state) { fields := fields.(state := Some(b.state)); }
      var updated := SetTask(task, fields);
      tasks := tasks[id := updated];
      r := Ok(updated);
    }

    /** `POST /api/tasks/comment/:id`: 400 on empty text, 404, 401 for a
        non-owner, 500 without a user record; otherwise the new comment by
        the caller is put in front of the list, which is returned. */
    method AddTaskComment(id: Id, caller: Id, text: string, users: map<Id, Profile>, cid: Id, now: Date)
      returns (r: Reply<seq<Comment>>)
      requires Valid()
      modifies this
      ensures Valid() && projects == old(projects)
      ensures text == "" ==> r == BadRequest([Text])
      ensures text != "" && id !in old(tasks) ==> r == NotFound
      ensures text != "" && id in old(tasks) && old(tasks)[id].user != caller ==> r == Unauthorized
      ensures (text != "" && id in old(tasks) && old(tasks)[id].user == caller && caller !in users)
                ==> r == ServerError
      ensures r.Ok? <==> text != "" && id in old(tasks) && old(tasks)[id].user == caller && caller in users
      ensures !r.Ok? ==> tasks == old(tasks)
      ensures r.Ok? ==>
                && r.value == [Comment(cid, caller, users[caller].name, users[caller].avatar, text, now)]
                              + old(tasks)[id].comments
                && tasks == old(tasks)[id := old(tasks)[id].(comments := r.value)]
    {
      if text == "" {
        return BadRequest([Text]);
      }
      if id !in tasks {
        return NotFound;
      }
      var task := tasks[id];
      if task.user != caller {
        return Unauthorized;
      }
      if caller !in users {
        // `user.name` on a missing user record throws.
        return ServerError;
      }
      var user := users[caller];
      var comment := Comment(cid, caller, user.name, user.avatar, text, now);
      var comments := Unshift(task.comments, comment);
      tasks := tasks[id := task.(comments := comments)];
      r := Ok(comments);
    }

    /** `DELETE /api/tasks/comment/:id/:comment_id`: 500 for a missing task
        (the handler reads `task.comment` from null), then the
        delete-comment rule on its list. */
    method DeleteTaskComment(id: Id, cid: Id, caller: Id) returns (r: Reply<seq<Comment>>)
      requires Valid()
      modifies this
      ensures Valid() && projects == old(projects)
      ensures KeepsTaskOwners(old(tasks), tasks)
      ensures id !in old(tasks) ==> r == ServerError
      ensures id in old(tasks) ==> r == DeleteOwnComment(old(tasks)[id].comments, cid, caller)
      ensures !r.Ok? ==> tasks == old(tasks)
      ensures r.Ok? ==> tasks == old(tasks)[id := old(tasks)[id].(comments := r.value)]
    {
      if id !in tasks {
        return ServerError;
      }
      var task := tasks[id];
      var comment := FindComment(task.comments, cid);
      if comment.None? {
        return NotFound;
      }
      if comment.value.user != caller {
        return Unauthorized;
      }
      var removeIndex := IndexOfUser(task.comments, caller);
      var comments := SpliceOne(task.comments, removeIndex);
      tasks := tasks[id := task.(comments := comments)];
      r := Ok(comments);
    }
  }

  /** A client run: U creates a project, V may neither delete nor update it,
      U's comments come back newest first, U deletes it, and it is gone. */
  method LifecycleScenario(u: Id, v: Id, users: map<Id, Profile>, d1: Date, d2: Date)
    requires u != v && u in users && d1 != "" && d2 != ""
  {
    var store := new Store();
    var created := store.CreateProject(u, Body("Launch", "", d1, d2, ""), users, "p1");
    assert created.Ok? && created.value.user == u;
    var c1 := store.AddProjectComment("p1", u, "one", users, "c1", d1);
    var c2 := store.AddProjectComment("p1", u, "two", users, "c2", d2);
    assert c2.Ok? && |c2.value| == 2 && c2.value[0].id == "c2" && c2.value[1].id == "c1";
    var rename := store.UpdateProject("p1", v, Body("Taken", "", "", "", ""));
    assert rename == Unauthorized && rename.Status() == 401;
    var denied := store.DeleteProject("p1", v);
    assert denied == Unauthorized && store.GetProject("p1").Ok?;
    var deleted := store.DeleteProject("p1", u);
    assert deleted.Ok?;
    assert store.GetProject("p1") == NotFound && store.GetProject("p1").Status() == 404;
  }
}
