/** The documents kept by the store: projects and tasks, each carrying an
    ordered list of embedded comments (models/Project.js, models/Task.js).
    Object ids and dates are opaque values; only their equality matters. */
module Records {

  /** An object id (a user, a project, a task or a comment). */
  type Id = string

  /** A date; the model never orders or parses dates. */
  type Date = string

  datatype Option<T> = None | Some(value: T)

  /** An embedded comment: its author `user`, the author's display name and
      avatar copied when the comment was written, the text and its date. */
  datatype Comment = Comment(id: Id, user: Id, name: string, avatar: string, text: string, date: Date)

  /** A project document. `user` is the owner; `name` and `avatar` are a
      snapshot of the owner's user record taken at creation. Absent optional
      fields are the empty string. Newest comment first. */
  datatype Project = Project(
    id: Id,
    user: Id,
    name: string,
    avatar: string,
    title: string,
    description: string,
    from: Date,
    to: Date,
    state: string,
    comments: seq<Comment>)

  /** A task document. Besides the project's fields it refers to its parent
      project and keeps a snapshot of that project's title (`project_name`),
      which later renames of the project do not update. */
  datatype Task = Task(
    id: Id,
    user: Id,
    name: string,
    avatar: string,
    project: Id,
    projectName: string,
    title: string,
    description: string,
    from: Date,
    to: Date,
    state: string,
    comments: seq<Comment>)

  /** What the handlers read from a user record: display name and avatar. */
  datatype Profile = Profile(name: string, avatar: string)

  /** Every comment has the text the comment schema requires. */
  predicate CommentsHaveText(cs: seq<Comment>) {
    forall c | c in cs :: c.text != ""
  }

  /** The project schema's required fields are set: title, from and to,
      and the text of every comment. */
  predicate ProjectHasRequired(p: Project) {
    p.title != "" && p.from != "" && p.to != "" && CommentsHaveText(p.comments)
  }

  /** The task schema's required fields are set: the project title
      snapshot, title, from and to, and the text of every comment. */
  predicate TaskHasRequired(t: Task) {
    t.projectName != "" && t.title != "" && t.from != "" && t.to != "" && CommentsHaveText(t.comments)
  }
}
