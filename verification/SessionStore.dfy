/**
 * Agent session repositories with optimistic revision checks: the
 * compare-and-swap they promise, and the two stores that implement it.
 */
module SessionStore {
  import opened Options
  import opened Transcript

  /** `investigationIds` is the sorted tuple of distinct IDs, that is, a set. */
  datatype Session = Session(id: string, revision: nat, messages: seq<Message>, investigationIds: set<string>)

  datatype SwapResult = Saved(session: Session) | Missing | Conflict(actual: nat)

  type Sessions = map<string, Session>

  /** The compare-and-swap both stores promise: new contents and the answer. */
  function Swap(sessions: Sessions, session: Session, expected: nat): (Sessions, SwapResult) {
    if session.id !in sessions then (sessions, Missing)
    else if sessions[session.id].revision != expected then (sessions, Conflict(sessions[session.id].revision))
    else
      var updated := session.(revision := expected + 1);
      (sessions[session.id := updated], Saved(updated))
  }

  /** A save either fences the writer out and changes nothing, or advances one session by one revision. */
  lemma SaveFencesOrAdvances(sessions: Sessions, session: Session, expected: nat)
    ensures var (after, r) := Swap(sessions, session, expected);
            if r.Saved? then
              && session.id in sessions && sessions[session.id].revision == expected
              && after.Keys == sessions.Keys
              && after[session.id].revision == sessions[session.id].revision + 1
              && after[session.id].id == session.id && after[session.id].messages == session.messages
              && after[session.id].investigationIds == session.investigationIds
              && r.session == after[session.id]
              && (forall other <- sessions :: other != session.id ==> after[other] == sessions[other])
              && Swap(after, session, expected) == (after, Conflict(expected + 1))
            else after == sessions && (session.id in sessions ==> sessions[session.id].revision != expected)
  {
  }

  class InMemoryAgentSessionStore {
    var sessions: Sessions

    constructor ()
      ensures sessions == map[]
    {
      sessions := map[];
    }

    /** The caller draws `id`, as `uuid4` does in the source. */
    method Create(id: string) returns (session: Session)
      modifies this
      ensures session == Session(id, 1, [], {})
      ensures sessions == old(sessions)[id := session]
    {
      session := Session(id, 1, [], {});
      sessions := sessions[id := session];
    }

    method Get(id: string) returns (r: Option<Session>)
      ensures r == if id in sessions then Some(sessions[id]) else None
    {
      r := if id in sessions then Some(sessions[id]) else None;
    }

    method Save(session: Session, expectedRevision: nat) returns (r: SwapResult)
      modifies this
      ensures (sessions, r) == Swap(old(sessions), session, expectedRevision)
    {
      if session.id !in sessions {
        return Missing;
      }
      var current := sessions[session.id];
      if current.revision != expectedRevision {
        return Conflict(current.revision);
      }
      var updated := session.(revision := expectedRevision + 1);
      sessions := sessions[session.id := updated];
      return Saved(updated);
    }
  }

  /** A row keeps the revision twice: as a column, and inside the payload. */
  datatype Row = Row(revision: nat, payload: Session)

  class SQLiteAgentSessionStore {
    var rows: map<string, Row>

    ghost predicate Valid()
      reads this
    {
      forall id <- rows :: rows[id].revision == rows[id].payload.revision && rows[id].payload.id == id
    }

    ghost function Contents(): Sessions
      reads this
    {
      map id | id in rows :: rows[id].payload
    }

    constructor ()
      ensures Valid() && Contents() == map[]
    {
      rows := map[];
    }

    /** `None` is the integrity error of inserting an existing primary key. */
    method Create(id: string) returns (session: Option<Session>)
      requires Valid()
      modifies this
      ensures Valid()
      ensures id in old(rows) ==> session.None? && rows == old(rows)
      ensures id !in old(rows) ==> session == Some(Session(id, 1, [], {})) &&
                                   Contents() == old(Contents())[id := session.value]
    {
      if id in rows {
        return None;
      }
      var created := Session(id, 1, [], {});
      rows := rows[id := Row(created.revision, created)];
      return Some(created);
    }

    method Get(id: string) returns (r: Option<Session>)
      requires Valid()
      ensures r == if id in Contents() then Some(Contents()[id]) else None
    {
      r := if id in rows then Some(rows[id].payload) else None;
    }

    /** UPDATE … WHERE session_id = ? AND revision = ?, then a look at why no row matched. */
    method Save(session: Session, expectedRevision: nat) returns (r: SwapResult)
      requires Valid()
      modifies this
      ensures Valid()
      ensures (Contents(), r) == Swap(old(Contents()), session, expectedRevision)
    {
      var updated := session.(revision := expectedRevision + 1);
      var rowcount := 0;
      if session.id in rows && rows[session.id].revision == expectedRevision {
        rows := rows[session.id := Row(updated.revision, updated)];
        rowcount := 1;
      }
      if rowcount == 0 {
        if session.id !in rows {
          return Missing;
        }
        return Conflict(rows[session.id].revision);
      }
      assert Contents() == old(Contents())[session.id := updated];
      return Saved(updated);
    }
  }
}
