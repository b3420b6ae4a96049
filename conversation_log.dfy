/** The conversation log: one append-only list of records per conversation id
    (the `logging/<id>/conversations.jsonl` files). */
module ConversationLog {
  import opened Types

  type Logs = map<nat, seq<LogEntry>>

  /** A conversation's records; a conversation with no file yet has none. */
  function LogOf(logs: Logs, id: nat): seq<LogEntry> {
    if id in logs then logs[id] else []
  }

  /** One `save_conversation` write: `entry` goes at the end of conversation `id`,
      whose log is created if it is absent. */
  function Append(logs: Logs, id: nat, entry: LogEntry): (r: Logs)
    ensures r.Keys == logs.Keys + {id}
    ensures |r[id]| == |LogOf(logs, id)| + 1
    ensures r[id][..|LogOf(logs, id)|] == LogOf(logs, id) && r[id][|LogOf(logs, id)|] == entry
    ensures forall other :: other in logs && other != id ==> r[other] == logs[other]
  {
    logs[id := LogOf(logs, id) + [entry]]
  }

  /** Every conversation of `before` is still there in `after`, its records kept
      as a prefix: nothing was removed or rewritten. */
  predicate Extends(before: Logs, after: Logs) {
    forall id :: id in before ==> id in after && before[id] <= after[id]
  }

  lemma AppendExtends(logs: Logs, id: nat, entry: LogEntry)
    ensures Extends(logs, Append(logs, id, entry))
  {
  }

  lemma ExtendsTransitive(a: Logs, b: Logs, c: Logs)
    requires Extends(a, b) && Extends(b, c)
    ensures Extends(a, c)
  {
    forall id | id in a ensures id in c && a[id] <= c[id] {
      assert a[id] == b[id][..|a[id]|];
      assert b[id] == c[id][..|b[id]|];
    }
  }

  /** Appending to one conversation adds exactly that record to it and never touches
      another conversation's records. */
  lemma LogOfAppend(logs: Logs, id: nat, entry: LogEntry, other: nat)
    ensures LogOf(Append(logs, id, entry), other) ==
              if other == id then LogOf(logs, id) + [entry] else LogOf(logs, other)
  {
  }
}
