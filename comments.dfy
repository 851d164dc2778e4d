/** Operations on a record's embedded comment list, as the comment handlers
    in routes/api/tasks.js and routes/api/projects.js perform them: `unshift`
    of a new comment, `find` by comment id, `map(...).indexOf(caller)` and
    `splice(index, 1)`. */
module Comments {
  import opened Records
  import opened Requests

  /** Position of the first comment with id `cid`, or -1 (the position
      `Array.prototype.find` stops at). */
  function PosOfId(cs: seq<Comment>, cid: Id): (r: int)
    ensures -1 <= r < |cs|
    ensures r >= 0 ==> cs[r].id == cid && forall j | 0 <= j < r :: cs[j].id != cid
    ensures r == -1 <==> forall j | 0 <= j < |cs| :: cs[j].id != cid
  {
    if cs == [] then -1
    else if cs[0].id == cid then 0
    else
      var k := PosOfId(cs[1..], cid);
      if k < 0 then -1 else k + 1
  }

  /** Position of the first comment written by `u`, or -1: what
      `comments.map(c => c.user.toString()).indexOf(u)` returns. */
  function PosOfUser(cs: seq<Comment>, u: Id): (r: int)
    ensures -1 <= r < |cs|
    ensures r >= 0 ==> cs[r].user == u && forall j | 0 <= j < r :: cs[j].user != u
    ensures r == -1 <==> forall j | 0 <= j < |cs| :: cs[j].user != u
  {
    if cs == [] then -1
    else if cs[0].user == u then 0
    else
      var k := PosOfUser(cs[1..], u);
      if k < 0 then -1 else k + 1
  }

  /** `find(c => c.id === cid)`: the first comment with that id, if any. */
  function FindById(cs: seq<Comment>, cid: Id): Option<Comment> {
    var k := PosOfId(cs, cid);
    if k < 0 then None else Some(cs[k])
  }

  /** `cs.splice(start, 1)` on a JavaScript array, returning the array
      afterwards. A negative start counts from the end (`-1` is the last
      element); a start at or past the end removes nothing. */
  function SpliceOne(cs: seq<Comment>, start: int): (r: seq<Comment>)
    ensures 0 <= start < |cs| ==> r == cs[..start] + cs[start + 1..]
    ensures start == -1 && cs != [] ==> r == cs[..|cs| - 1]
    ensures start >= |cs| ==> r == cs
    ensures |r| == if cs == [] || start >= |cs| then |cs| else |cs| - 1
  {
    var k := if start < 0 then (if |cs| + start < 0 then 0 else |cs| + start)
             else start;
    if k < |cs| then cs[..k] + cs[k + 1..] else cs
  }

  /** The comment list after `unshift(c)`: the new comment goes first. */
  function Unshift(cs: seq<Comment>, c: Comment): (r: seq<Comment>)
    ensures |r| == |cs| + 1 && r[0] == c && r[1..] == cs
  {
    [c] + cs
  }

  /** The delete-comment rule on one comment list, as written: 404 when no
      comment has id `cid`, 401 when that comment's author is not the caller,
      and otherwise the list with the FIRST comment written by the caller
      removed (which need not be comment `cid`). */
  function DeleteOwnComment(cs: seq<Comment>, cid: Id, caller: Id): (r: Reply<seq<Comment>>)
    ensures PosOfId(cs, cid) < 0 ==> r == NotFound
    ensures PosOfId(cs, cid) >= 0 && cs[PosOfId(cs, cid)].user != caller ==> r == Unauthorized
    ensures r.Ok? <==> PosOfId(cs, cid) >= 0 && cs[PosOfId(cs, cid)].user == caller
    ensures r.Ok? ==> |r.value| == |cs| - 1
    ensures r.Ok? ==> 0 <= PosOfUser(cs, caller) <= PosOfId(cs, cid)
    ensures r.Ok? ==> r.value == cs[..PosOfUser(cs, caller)] + cs[PosOfUser(cs, caller) + 1..]
    ensures r.Ok? ==> forall c | c in r.value :: c in cs
  {
    match FindById(cs, cid)
    case None => NotFound
    case Some(c) =>
      if c.user != caller then Unauthorized
      else
        FirstOwnBeforeTarget(cs, PosOfId(cs, cid), caller);
        Ok(SpliceOne(cs, PosOfUser(cs, caller)))
  }

  /** If the caller wrote the comment at `i`, the caller's first comment is
      at or before `i`: the removal index is never -1, so the handler never
      runs `splice(-1, 1)` (which would drop the last comment). */
  lemma FirstOwnBeforeTarget(cs: seq<Comment>, i: int, caller: Id)
    requires 0 <= i < |cs| && cs[i].user == caller
    ensures 0 <= PosOfUser(cs, caller) <= i
  {
  }

  /** Deleting a comment keeps the other comments in their order: the
      comments before the removed one stay in place, those after it move up
      by one. */
  lemma DeleteKeepsOrder(cs: seq<Comment>, cid: Id, caller: Id)
    requires DeleteOwnComment(cs, cid, caller).Ok?
    ensures var r := DeleteOwnComment(cs, cid, caller).value;
            var k := PosOfUser(cs, caller);
            0 <= k < |cs| && cs[k].user == caller
            && (forall j | 0 <= j < k :: r[j] == cs[j] && cs[j].user != caller)
            && (forall j | k <= j < |r| :: r[j] == cs[j + 1])
  {
    var r := DeleteOwnComment(cs, cid, caller).value;
    var k := PosOfUser(cs, caller);
    assert r == cs[..k] + cs[k + 1..];
    forall j | k <= j < |r| ensures r[j] == cs[j + 1] {
      assert r[j] == cs[k + 1..][j - k];
    }
  }

  /** No two comments of the list share an id. */
  predicate UniqueIds(cs: seq<Comment>) {
    forall i, j | 0 <= i < j < |cs| :: cs[i].id != cs[j].id
  }

  /** With unique comment ids, a successful delete removes the requested
      comment exactly when the caller's first comment is that comment;
      otherwise the requested comment survives and another one is gone. */
  lemma RemovesRequestedIff(cs: seq<Comment>, cid: Id, caller: Id)
    requires UniqueIds(cs)
    requires DeleteOwnComment(cs, cid, caller).Ok?
    ensures var r := DeleteOwnComment(cs, cid, caller).value;
            (forall c | c in r :: c.id != cid) <==> PosOfUser(cs, caller) == PosOfId(cs, cid)
  {
  }

  /** The deletion is by author, not by id: a caller who wrote two comments
      and asks to delete the older one loses the newer one instead. */
  lemma DeleteMayRemoveAnother()
    ensures var newer := Comment("c2", "u", "", "", "second", "d2");
            var older := Comment("c1", "u", "", "", "first", "d1");
            DeleteOwnComment([newer, older], "c1", "u") == Ok([older])
  {
    var newer := Comment("c2", "u", "", "", "second", "d2");
    var older := Comment("c1", "u", "", "", "first", "d1");
    var cs := [newer, older];
    assert cs[1..] == [older];
    assert PosOfId(cs, "c1") == 1;
    assert FindById(cs, "c1") == Some(older);
    assert PosOfUser(cs, "u") == 0;
    assert SpliceOne(cs, 0) == [older];
  }

  /** The `find` scan of the delete-comment handlers. */
  method FindComment(cs: seq<Comment>, cid: Id) returns (found: Option<Comment>)
    ensures found == FindById(cs, cid)
  {
    var i := 0;
    while i < |cs|
      invariant 0 <= i <= |cs|
      invariant forall j | 0 <= j < i :: cs[j].id != cid
    {
      if cs[i].id == cid {
        return Some(cs[i]);
      }
      i := i + 1;
    }
    return None;
  }

  /** The `map(c => c.user.toString()).indexOf(caller)` scan of the
      delete-comment handlers. */
  method IndexOfUser(cs: seq<Comment>, u: Id) returns (index: int)
    ensures index == PosOfUser(cs, u)
  {
    index := 0;
    while index < |cs|
      invariant 0 <= index <= |cs|
      invariant forall j | 0 <= j < index :: cs[j].user != u
    {
      if cs[index].user == u {
        return;
      }
      index := index + 1;
    }
    index := -1;
  }
}
