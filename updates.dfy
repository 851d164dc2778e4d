/** The partial-update rules of `POST /update/:id` for tasks and projects:
    the `$set` document each handler builds, and what applying it does to
    the stored record. */
module Updates {
  import opened Records
  import opened Requests

  /** The `taskFields` document: `user` is always set, every other field
      only when the request's value is truthy. */
  datatype TaskFields = TaskFields(
    user: Id,
    title: Option<string>,
    description: Option<string>,
    from: Option<Date>,
    to: Option<Date>,
    state: Option<string>)

  /** The `projectFields` document: as written, the project handler only
      ever sets `user` and `title`. */
  datatype ProjectFields = ProjectFields(user: Id, title: Option<string>)

  /** `$set` of one optional field. */
  function SetField(v: Option<string>, stored: string): string {
    if v.Some? then v.value else stored
  }

  /** A task after `findByIdAndUpdate(id, { $set: f })`. */
  function SetTask(t: Task, f: TaskFields): Task {
    t.(user := f.user,
       title := SetField(f.title, t.title),
       description := SetField(f.description, t.description),
       from := SetField(f.from, t.from),
       to := SetField(f.to, t.to),
       state := SetField(f.state, t.state))
  }

  /** A project after `findByIdAndUpdate(id, { $set: f })`. */
  function SetProject(p: Project, f: ProjectFields): Project {
    p.(user := f.user, title := SetField(f.title, p.title))
  }

  /** The value a request field leaves in the record: the request's value
      if truthy, the stored one otherwise. */
  function SetIfTruthy(requested: string, stored: string): string {
    if Truthy(requested) then requested else stored
  }

  /** The task update rule: the owner becomes the caller; each of title,
      description, from, to and state takes the request's value when that
      value is truthy and keeps the stored one otherwise; the id, the parent
      project and its title snapshot, the name/avatar snapshot and the
      comments never change. */
  function UpdatedTask(t: Task, caller: Id, b: Body): (r: Task)
    ensures r.id == t.id && r.project == t.project && r.projectName == t.projectName
    ensures r.name == t.name && r.avatar == t.avatar && r.comments == t.comments
    ensures r.user == caller
    ensures r.title == (if Truthy(b.title) then b.title else t.title)
    ensures r.description == (if Truthy(b.description) then b.description else t.description)
    ensures r.from == (if Truthy(b.from) then b.from else t.from)
    ensures r.to == (if Truthy(b.to) then b.to else t.to)
    ensures r.state == (if Truthy(b.state) then b.state else t.state)
  {
    t.(user := caller,
       title := SetIfTruthy(b.title, t.title),
       description := SetIfTruthy(b.description, t.description),
       from := SetIfTruthy(b.from, t.from),
       to := SetIfTruthy(b.to, t.to),
       state := SetIfTruthy(b.state, t.state))
  }

  /** The last truthy string of `xs`, or `d` when none is truthy: what a
      run of `if (x) field = x;` statements leaves in one field that started
      out as `d`. */
  function LastTruthy(xs: seq<string>, d: string): (r: string)
    ensures (forall k | 0 <= k < |xs| :: xs[k] == "") ==> r == d
    ensures forall k | 0 <= k < |xs| && xs[k] != "" && (forall j | k < j < |xs| :: xs[j] == "") :: r == xs[k]
  {
    if xs == [] then d
    else if xs[|xs| - 1] != "" then xs[|xs| - 1]
    else LastTruthy(xs[..|xs| - 1], d)
  }

  /** The fields of a project update request in the order the handler
      tests them. */
  function UpdateCandidates(b: Body): seq<string> {
    [b.title, b.description, b.from, b.to, b.state]
  }

  /** The project update rule as written: the owner becomes the caller and
      `title` takes the last truthy value among the request's title,
      description, from, to and state (every optional field is written into
      `title`); description, from, to, state and everything else are never
      modified. */
  function UpdatedProject(p: Project, caller: Id, b: Body): (r: Project)
    ensures r.(user := p.user, title := p.title) == p
    ensures r.user == caller
    ensures r.title == LastTruthy(UpdateCandidates(b), p.title)
  {
    p.(user := caller, title := LastTruthy(UpdateCandidates(b), p.title))
  }

  /** A title that starts out non-empty stays non-empty: the schema's
      required `title` survives every project update. */
  lemma {:induction false} LastTruthyNonEmpty(xs: seq<string>, d: string)
    requires d != ""
    ensures LastTruthy(xs, d) != ""
  {
    if xs != [] && xs[|xs| - 1] == "" {
      LastTruthyNonEmpty(xs[..|xs| - 1], d);
    }
  }

  /** The project title after an update is either the old title (when no
      field is truthy) or the value of the last truthy request field; in
      particular a request that only sets `state` renames the project to
      that state. */
  lemma {:induction false} ProjectUpdateTitle(p: Project, caller: Id, b: Body)
    ensures (!Truthy(b.title) && !Truthy(b.description) && !Truthy(b.from) && !Truthy(b.to) && !Truthy(b.state))
              ==> UpdatedProject(p, caller, b).title == p.title
    ensures Truthy(b.state) ==> UpdatedProject(p, caller, b).title == b.state
    ensures !Truthy(b.state) && Truthy(b.to) ==> UpdatedProject(p, caller, b).title == b.to
    ensures !Truthy(b.state) && !Truthy(b.to) && Truthy(b.from) ==> UpdatedProject(p, caller, b).title == b.from
    ensures (!Truthy(b.state) && !Truthy(b.to) && !Truthy(b.from) && Truthy(b.description))
              ==> UpdatedProject(p, caller, b).title == b.description
    ensures (!Truthy(b.state) && !Truthy(b.to) && !Truthy(b.from) && !Truthy(b.description) && Truthy(b.title))
              ==> UpdatedProject(p, caller, b).title == b.title
  {
    var xs := UpdateCandidates(b);
    assert xs[0] == b.title && xs[1] == b.description && xs[2] == b.from && xs[3] == b.to && xs[4] == b.state;
  }
}
