/**
 * The assignment routes of routes/assignments.js over an in-memory model of
 * their two stores: the Redis cache `cache` (key to cached JSON, kept as the
 * value it encodes) and the Assignment and Submission tables, keyed by
 * primary key. Every handler runs after `authenticateToken` (line 46), so it
 * receives the decoded token payload as `user`.
 *
 * The class invariant includes cache coherence for item keys: an entry under
 * `assignment:<id>` is always the current row `id`. Reads fill it, and every
 * write to a row deletes it, so GET /one/:id with the id in its canonical
 * decimal spelling never answers with a superseded row. (The route keys the
 * cache by the raw path text, so a spelling such as `05` gets an entry that
 * writes to row 5 do not delete; ids here are integers, which leaves that
 * out.) List entries carry no such promise: writes leave them in place.
 */
module Assignments {
  import opened Wrappers
  import opened Records
  import opened OrderClause
  import opened StoreKeys
  import opened Gates

  /** A response body, and what the cache holds (a cached JSON text is kept as the value it encodes). */
  datatype Body =
    | AssignmentList(items: seq<Assignment>)
    | OneAssignment(item: Assignment)
    | OneSubmission(submission: Submission)
    | Message

  /** How a request ends. */
  datatype Reply =
    | Ok(body: Body)       // 200
    | Created(body: Body)  // 201
    | NotFound            // 404
    | Forbidden           // 403
    | InternalError       // 500
    | Uncaught            // an exception escapes the async handler: the route sends no response

  /**
   * `Assignment.findAll({ order })` on a table: the rows in the order the
   * database returns them, or None when the query fails (an unknown column,
   * a direction the store rejects).
   */
  type FindAll = (map<int, Assignment>, seq<OrderPair>) -> Option<seq<Assignment>>

  /** `given || current` for a body field: the given text unless it is absent or empty. */
  function OrElse(given: Option<string>, current: string): string {
    if given.Some? && given.value != "" then given.value else current
  }

  /** The row after PUT /:id (lines 145-147): each of the three fields is replaced by a truthy given value. */
  function Revise(a: Assignment, title: Option<string>, description: Option<string>, dueDate: Option<string>): (r: Assignment)
    ensures r.id == a.id && r.teacherId == a.teacherId
    ensures title.Some? && title.value != "" ==> r.title == title.value
    ensures title.None? || title == Some("") ==> r.title == a.title
    ensures description.Some? && description.value != "" ==> r.description == description.value
    ensures description.None? || description == Some("") ==> r.description == a.description
    ensures dueDate.Some? && dueDate.value != "" ==> r.dueDate == dueDate.value
    ensures dueDate.None? || dueDate == Some("") ==> r.dueDate == a.dueDate
  {
    a.(title := OrElse(title, a.title), description := OrElse(description, a.description), dueDate := OrElse(dueDate, a.dueDate))
  }

  /** Repeating the same update changes nothing more. */
  lemma ReviseIdempotent(a: Assignment, title: Option<string>, description: Option<string>, dueDate: Option<string>)
    ensures Revise(Revise(a, title, description, dueDate), title, description, dueDate) == Revise(a, title, description, dueDate)
  {
  }

  /** Every cached item entry is the current row of its id. */
  ghost predicate CacheCoherent(cache: map<string, Body>, rows: map<int, Assignment>) {
    forall id :: ItemKey(id) in cache ==> id in rows && cache[ItemKey(id)] == OneAssignment(rows[id])
  }

  /** No list entry of `after` differs from `before`: list keys were neither added, removed nor rewritten. */
  ghost predicate ListEntriesKept(before: map<string, Body>, after: map<string, Body>) {
    forall c :: ListKey(c) in before ==> ListKey(c) in after && after[ListKey(c)] == before[ListKey(c)]
  }

  class AssignmentRouter {
    var cache: map<string, Body>
    var assignments: map<int, Assignment>
    var submissions: map<int, Submission>
    var nextAssignmentId: int
    var nextSubmissionId: int
    const findAll: FindAll

    ghost predicate Valid()
      reads this
    {
      && (forall id :: id in assignments ==> assignments[id].id == id && id < nextAssignmentId)
      && (forall id :: id in submissions ==> submissions[id].id == id && id < nextSubmissionId)
      && CacheCoherent(cache, assignments)
    }

    constructor (findAll: FindAll)
      ensures Valid()
      ensures cache == map[] && assignments == map[] && submissions == map[]
      ensures this.findAll == findAll
    {
      this.findAll := findAll;
      cache := map[];
      assignments := map[];
      submissions := map[];
      nextAssignmentId := 1;
      nextSubmissionId := 1;
    }

    /** GET / (lines 49-78): the list under its cache key, loaded and cached on a miss. */
    method ListAll(sortBy: Option<string>) returns (reply: Reply)
      requires Valid()
      modifies this`cache
      ensures Valid()
      ensures ParseSortBy(sortBy).None? ==> reply == Uncaught && cache == old(cache)
      ensures ParseSortBy(sortBy).Some? ==>
                var clause := ParseSortBy(sortBy).value;
                var key := ListKey(clause);
                && (key in old(cache) ==> reply == Ok(old(cache)[key]) && cache == old(cache))
                && (key !in old(cache) && findAll(assignments, clause).None? ==>
                      reply == InternalError && cache == old(cache))
                && (key !in old(cache) && findAll(assignments, clause).Some? ==>
                      var rows := findAll(assignments, clause).value;
                      reply == Ok(AssignmentList(rows)) && cache == old(cache)[key := AssignmentList(rows)])
    {
      var clause := ParseSortBy(sortBy);
      if clause.None? {
        return Uncaught;
      }
      var key := ListKey(clause.value);
      if key in cache {
        return Ok(cache[key]);
      }
      var loaded := findAll(assignments, clause.value);
      if loaded.None? {
        return InternalError;
      }
      cache := cache[key := AssignmentList(loaded.value)];
      forall id | ItemKey(id) in cache
        ensures id in assignments && cache[ItemKey(id)] == OneAssignment(assignments[id])
      {
        KeyFamiliesDisjoint("", "", clause.value, id);
      }
      reply := Ok(AssignmentList(loaded.value));
    }

    /**
     * GET /one/:id (lines 104-125): the cached entry on a hit, otherwise the
     * row, cached; 404 without caching when there is no row. By coherence the
     * answer is always the current row, for the canonical spelling of `id`.
     */
    method GetOne(id: int) returns (reply: Reply)
      requires Valid()
      modifies this`cache
      ensures Valid()
      ensures reply == if id in assignments then Ok(OneAssignment(assignments[id])) else NotFound
      ensures ItemKey(id) in old(cache) ==> reply == Ok(old(cache)[ItemKey(id)]) && cache == old(cache)
      ensures ItemKey(id) !in old(cache) && id !in assignments ==> cache == old(cache)
      ensures ItemKey(id) !in old(cache) && id in assignments ==>
                cache == old(cache)[ItemKey(id) := OneAssignment(assignments[id])]
    {
      var key := ItemKey(id);
      if key in cache {
        return Ok(cache[key]);
      }
      if id !in assignments {
        return NotFound;
      }
      var row := assignments[id];
      cache := cache[key := OneAssignment(row)];
      forall j | ItemKey(j) in cache
        ensures j in assignments && cache[ItemKey(j)] == OneAssignment(assignments[j])
      {
        ItemKeyInjective(j, id);
      }
      reply := Ok(OneAssignment(row));
    }

    /**
     * PUT /:id (lines 129-156): 404 for a missing row, 403 for another
     * teacher's row, otherwise the revised row is saved and only its item key
     * is deleted.
     */
    method Update(id: int, callerId: int, title: Option<string>, description: Option<string>, dueDate: Option<string>)
      returns (reply: Reply)
      requires Valid()
      modifies this`cache, this`assignments
      ensures Valid()
      ensures id !in old(assignments) ==>
                reply == NotFound && assignments == old(assignments) && cache == old(cache)
      ensures id in old(assignments) && old(assignments)[id].teacherId != callerId ==>
                reply == Forbidden && assignments == old(assignments) && cache == old(cache)
      ensures id in old(assignments) && old(assignments)[id].teacherId == callerId ==>
                var revised := Revise(old(assignments)[id], title, description, dueDate);
                && reply == Ok(OneAssignment(revised))
                && assignments == old(assignments)[id := revised]
                && cache == old(cache) - {ItemKey(id)}
      ensures ListEntriesKept(old(cache), cache)
    {
      if id !in assignments {
        return NotFound;
      }
      var row := assignments[id];
      if row.teacherId != callerId {
        return Forbidden;
      }
      var revised := Revise(row, title, description, dueDate);
      assignments := assignments[id := revised];
      ghost var before := cache;
      cache := cache - {ItemKey(id)};
      forall c | ListKey(c) in before
        ensures ListKey(c) in cache && cache[ListKey(c)] == before[ListKey(c)]
      {
        KeyFamiliesDisjoint("", "", c, id);
      }
      reply := Ok(OneAssignment(revised));
    }

    /**
     * DELETE /:id (lines 158-181): 404 for a missing row, 403 for another
     * teacher's row, otherwise the row and its item key are removed.
     */
    method Delete(id: int, callerId: int) returns (reply: Reply)
      requires Valid()
      modifies this`cache, this`assignments
      ensures Valid()
      ensures id !in old(assignments) ==>
                reply == NotFound && assignments == old(assignments) && cache == old(cache)
      ensures id in old(assignments) && old(assignments)[id].teacherId != callerId ==>
                reply == Forbidden && assignments == old(assignments) && cache == old(cache)
      ensures id in old(assignments) && old(assignments)[id].teacherId == callerId ==>
                && reply == Ok(Message)
                && assignments == old(assignments) - {id}
                && cache == old(cache) - {ItemKey(id)}
      ensures ListEntriesKept(old(cache), cache)
    {
      if id !in assignments {
        return NotFound;
      }
      if assignments[id].teacherId != callerId {
        return Forbidden;
      }
      assignments := assignments - {id};
      ghost var before := cache;
      cache := cache - {ItemKey(id)};
      forall c | ListKey(c) in before
        ensures ListKey(c) in cache && cache[ListKey(c)] == before[ListKey(c)]
      {
        KeyFamiliesDisjoint("", "", c, id);
      }
      reply := Ok(Message);
    }

    /** POST /assignments (lines 82-99), behind `requireRole('teacher')`: a new row owned by the caller. */
    method Create(user: Claims, title: string, description: string, dueDate: string) returns (reply: Reply)
      requires Valid()
      modifies this`assignments, this`nextAssignmentId
      ensures Valid()
      ensures cache == old(cache)
      ensures RequireRole(user, "teacher") == RoleForbidden ==>
                reply == Forbidden && assignments == old(assignments)
      ensures RequireRole(user, "teacher") == CallNext ==>
                var row := Assignment(old(nextAssignmentId), title, description, dueDate, user.id);
                && row.id !in old(assignments)
                && assignments == old(assignments)[row.id := row]
                && reply == Created(OneAssignment(row))
    {
      if RequireRole(user, "teacher") == RoleForbidden {
        return Forbidden;
      }
      var row := Insert(title, description, dueDate, user.id);
      reply := Created(OneAssignment(row));
    }

    /**
     * POST / (lines 235-247): the row is created, then the notification
     * e-mail throws (its template names an undefined variable), so the
     * answer is 500 although the row stays.
     */
    method CreateAndNotify(user: Claims, title: string, description: string, dueDate: string) returns (reply: Reply)
      requires Valid()
      modifies this`assignments, this`nextAssignmentId
      ensures Valid()
      ensures cache == old(cache)
      ensures var row := Assignment(old(nextAssignmentId), title, description, dueDate, user.id);
              && row.id !in old(assignments)
              && assignments == old(assignments)[row.id := row]
              && reply == InternalError
    {
      var row := Insert(title, description, dueDate, user.id);
      reply := InternalError;
    }

    /** `Assignment.create`: the row under the next primary key. */
    method Insert(title: string, description: string, dueDate: string, teacherId: int) returns (row: Assignment)
      requires Valid()
      modifies this`assignments, this`nextAssignmentId
      ensures Valid()
      ensures row == Assignment(old(nextAssignmentId), title, description, dueDate, teacherId)
      ensures row.id !in old(assignments)
      ensures assignments == old(assignments)[row.id := row]
      ensures nextAssignmentId > row.id
    {
      row := Assignment(nextAssignmentId, title, description, dueDate, teacherId);
      assignments := assignments[row.id := row];
      nextAssignmentId := nextAssignmentId + 1;
    }

    /** POST /assignments/:id/submit (lines 183-201), behind `requireRole('student')`: a new ungraded submission. */
    method Submit(user: Claims, assignmentId: int, content: string) returns (reply: Reply)
      requires Valid()
      modifies this`submissions, this`nextSubmissionId
      ensures Valid()
      ensures RequireRole(user, "student") == RoleForbidden ==>
                reply == Forbidden && submissions == old(submissions)
      ensures RequireRole(user, "student") == CallNext ==>
                var sub := Submission(old(nextSubmissionId), user.id, assignmentId, content, None);
                && sub.id !in old(submissions)
                && submissions == old(submissions)[sub.id := sub]
                && reply == Created(OneSubmission(sub))
    {
      if RequireRole(user, "student") == RoleForbidden {
        return Forbidden;
      }
      var sub := Submission(nextSubmissionId, user.id, assignmentId, content, None);
      submissions := submissions[sub.id := sub];
      nextSubmissionId := nextSubmissionId + 1;
      reply := Created(OneSubmission(sub));
    }

    /** PUT /submissions/:id/grade (lines 203-221): only the `grade` field changes, or 404. */
    method Grade(id: int, grade: Option<string>) returns (reply: Reply)
      requires Valid()
      modifies this`submissions
      ensures Valid()
      ensures id !in old(submissions) ==> reply == NotFound && submissions == old(submissions)
      ensures id in old(submissions) ==>
                var graded := old(submissions)[id].(grade := grade);
                submissions == old(submissions)[id := graded] && reply == Ok(OneSubmission(graded))
    {
      if id !in submissions {
        return NotFound;
      }
      var graded := submissions[id].(grade := grade);
      submissions := submissions[id := graded];
      reply := Ok(OneSubmission(graded));
    }

    /** The store dropping a cache entry whose time to live has elapsed. */
    method Expire(key: string)
      requires Valid()
      modifies this`cache
      ensures Valid()
      ensures cache == old(cache) - {key}
    {
      cache := cache - {key};
    }
  }
}
