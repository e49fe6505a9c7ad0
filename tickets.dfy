/**
 * The tickets the current pipeline works on: an issue as the Jira search
 * returns it, and the flat record one row of the report frame holds.
 */
module Tickets {
  import opened Wrappers

  /**
   * A Jira issue. A field the issue lacks (no summary attribute, an empty
   * priority, status or assignee object) is None; `priority`, `status` and
   * `assignee` hold the object's display name.
   */
  datatype Issue = Issue(
    key: string,
    summary: Option<string>,
    priority: Option<string>,
    status: Option<string>,
    created: Option<string>,
    assignee: Option<string>)

  /** One row of the report frame. */
  datatype Record = Record(
    key: string,
    summary: string,
    priority: string,
    status: string,
    created: Option<string>,
    cluster: string,
    namespace: string,
    assignee: string,
    cancelled: bool)

  type Frame = seq<Record>

  /** The ticket keys present in a frame. */
  function Keys(df: Frame): set<string> {
    set i | 0 <= i < |df| :: df[i].key
  }

  /** No two rows share a ticket key. */
  predicate UniqueKeys(df: Frame) {
    forall i, j :: 0 <= i < j < |df| ==> df[i].key != df[j].key
  }
}
