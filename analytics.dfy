/** The analytics service (services/analytics.rs): queries are created
    Pending and processed through Processing to Completed or Failed. The AI
    call is a function parameter from the query text to the model's answer
    or an error; a fresh query id and the clock are parameters. */
module Analytics {
  import opened Wrappers
  import opened Models
  import Text

  datatype CreateQueryDto = CreateQueryDto(queryText: string, projectId: string)

  /** What each status says about the rest of the record: a query still
      Pending has neither answer nor completion time, and a finished one has
      both. A query being processed again may still carry its last answer. */
  predicate WellFormed(q: AnalyticsQuery) {
    (q.status == Pending ==> q.responseText.None? && q.completedAt.None?)
    && (q.status == Completed || q.status == Failed ==> q.responseText.Some? && q.completedAt.Some?)
  }

  /** The status writes `process_query` may make, in order. */
  predicate Step(from: QueryStatus, to: QueryStatus) {
    (to == Processing)
    || (from == Processing && (to == Completed || to == Failed))
  }

  /** Every status run `process_query` writes is a walk of `Step`, and no
      walk ever returns to Pending. */
  predicate IsWalk(statuses: seq<QueryStatus>) {
    forall i :: 0 < i < |statuses| ==> Step(statuses[i - 1], statuses[i])
  }

  lemma {:induction false} WalkNeverPending(statuses: seq<QueryStatus>)
    requires IsWalk(statuses)
    ensures forall i :: 0 < i < |statuses| ==> statuses[i] != Pending
  {
    forall i | 0 < i < |statuses| ensures statuses[i] != Pending {
      assert Step(statuses[i - 1], statuses[i]);
    }
  }

  /** The status a `$set` writes, with the answer and the completion time
      when given. */
  function Written(q: AnalyticsQuery, status: QueryStatus, response: Option<string>, completedAt: Option<int>): (q': AnalyticsQuery)
    ensures q'.status == status && q'.queryId == q.queryId && q'.queryText == q.queryText
    ensures q'.responseText == (if response.Some? then response else q.responseText)
    ensures q'.completedAt == (if completedAt.Some? then completedAt else q.completedAt)
    ensures q' == q.(status := status, responseText := q'.responseText, completedAt := q'.completedAt)
  {
    q.(status := status,
       responseText := if response.Some? then response else q.responseText,
       completedAt := if completedAt.Some? then completedAt else q.completedAt)
  }

  /** How `process_query` leaves a query once the model has answered: Completed
      with the answer, or Failed with "Error: " and the message; either way
      with the completion time. */
  function Finished(q: AnalyticsQuery, response: Result<string>, now: int): (q': AnalyticsQuery)
    ensures WellFormed(q')
    ensures q'.queryId == q.queryId && q'.queryText == q.queryText && q'.projectId == q.projectId
    ensures q'.completedAt == Some(now)
    ensures response.Ok? <==> q'.status == Completed
    ensures response.Ok? ==> q'.responseText == Some(response.value)
    ensures response.Err? ==> q'.status == Failed && q'.responseText == Some("Error: " + response.error)
  {
    match response
    case Ok(text) => q.(status := Completed, responseText := Some(text), completedAt := Some(now))
    case Err(e) => q.(status := Failed, responseText := Some("Error: " + e), completedAt := Some(now))
  }

  /** Every stored query is well formed, and its write history starts
      Pending, follows `Step` and ends in its current status. */
  predicate QueriesValid(queries: map<string, AnalyticsQuery>, writes: map<string, seq<QueryStatus>>) {
    (forall id :: id in queries ==> queries[id].queryId == id && WellFormed(queries[id]))
    && writes.Keys == queries.Keys
    && (forall id :: id in writes ==>
          |writes[id]| > 0 && writes[id][0] == Pending
          && IsWalk(writes[id]) && writes[id][|writes[id]| - 1] == queries[id].status)
  }

  /** A write along `Step` that brings an answer and a time with a final
      status keeps the collection valid. */
  lemma ValidAfterWrite(queries: map<string, AnalyticsQuery>, writes: map<string, seq<QueryStatus>>,
                        id: string, status: QueryStatus, response: Option<string>, completedAt: Option<int>)
    requires QueriesValid(queries, writes) && id in queries
    requires Step(queries[id].status, status)
    requires status == Completed || status == Failed ==> response.Some? && completedAt.Some?
    ensures QueriesValid(queries[id := Written(queries[id], status, response, completedAt)],
                         writes[id := writes[id] + [status]])
  {
    var w := writes[id] + [status];
    assert w[|w| - 2] == queries[id].status;
    assert IsWalk(w) by {
      forall i | 0 < i < |w| ensures Step(w[i - 1], w[i]) {
        if i < |w| - 1 {
          assert w[i - 1] == writes[id][i - 1] && w[i] == writes[id][i];
        }
      }
    }
  }

  /** A second write to a key replaces the first. */
  lemma Overwrite<K, V>(m: map<K, V>, k: K, a: V, b: V)
    ensures m[k := a][k := b] == m[k := b]
  {
  }

  class AnalyticsService {
    var queries: map<string, AnalyticsQuery>
    /** The statuses written to each query, in order. */
    ghost var writes: map<string, seq<QueryStatus>>

    ghost predicate Valid()
      reads this
    {
      QueriesValid(queries, writes)
    }

    constructor ()
      ensures Valid() && queries == map[]
    {
      queries := map[];
      writes := map[];
    }

    /** `create_query`: the project id must parse as a UUID; the new query is
        Pending, unanswered and incomplete. */
    method CreateQuery(dto: CreateQueryDto, userId: string, newId: string, now: int) returns (r: Result<AnalyticsQuery>)
      requires Valid() && newId !in queries
      modifies this
      ensures Valid()
      ensures !Text.IsUuidText(dto.projectId) ==> r == Err("Invalid project ID format") && queries == old(queries)
      ensures Text.IsUuidText(dto.projectId) ==>
        r.Ok? && queries == old(queries)[newId := r.value]
        && r.value == AnalyticsQuery(newId, dto.projectId, userId, dto.queryText, None, Pending, now, None)
    {
      if !Text.IsUuidText(dto.projectId) {
        return Err("Invalid project ID format");
      }
      var q := AnalyticsQuery(newId, dto.projectId, userId, dto.queryText, None, Pending, now, None);
      queries := queries[newId := q];
      writes := writes[newId := [Pending]];
      r := Ok(q);
    }

    /** One `$set` of the status (and, for a final status, the answer and the
        completion time), recorded in the write history. */
    method SetStatus(id: string, status: QueryStatus, response: Option<string>, completedAt: Option<int>)
      requires Valid() && id in queries
      requires Step(queries[id].status, status)
      requires status == Completed || status == Failed ==> response.Some? && completedAt.Some?
      modifies this
      ensures Valid()
      ensures queries == old(queries)[id := Written(old(queries)[id], status, response, completedAt)]
      ensures writes == old(writes)[id := old(writes)[id] + [status]]
    {
      ValidAfterWrite(queries, writes, id, status, response, completedAt);
      queries := queries[id := Written(queries[id], status, response, completedAt)];
      writes := writes[id := writes[id] + [status]];
    }

    /** `process_query`: an unknown id changes nothing. Otherwise the query is
        set to Processing, the model is asked, and the query ends as
        `Finished` says; the writes are Processing and then the final status. */
    method ProcessQuery(id: string, ai: string -> Result<string>, now: int) returns (r: Result<string>)
      requires Valid()
      modifies this
      ensures Valid()
      ensures id !in old(queries) ==> r == Err("Query not found") && queries == old(queries) && writes == old(writes)
      ensures id in old(queries) ==>
        r == ai(old(queries)[id].queryText)
        && queries == old(queries)[id := Finished(old(queries)[id], r, now)]
        && writes == old(writes)[id := old(writes)[id] + [Processing, Finished(old(queries)[id], r, now).status]]
    {
      if id !in queries {
        return Err("Query not found");
      }
      ghost var q0, w0 := queries, writes;
      ghost var q, w := queries[id], writes[id];
      var text := queries[id].queryText;
      SetStatus(id, Processing, None, None);
      var response := ai(text);
      if response.Err? {
        SetStatus(id, Failed, Some("Error: " + response.error), Some(now));
        r := Err(response.error);
      } else {
        SetStatus(id, Completed, Some(response.value), Some(now));
        r := Ok(response.value);
      }
      ghost var f := Finished(q, r, now);
      Overwrite(q0, id, Written(q, Processing, None, None), f);
      assert w + [Processing] + [f.status] == w + [Processing, f.status];
      Overwrite(w0, id, w + [Processing], w + [Processing, f.status]);
    }
  }
}
