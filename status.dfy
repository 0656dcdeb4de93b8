/** The status record every bot writes for the dashboard: a JSON object with exactly the keys
    `state`, `message`, `progress` and `timestamp`, rewritten whole on every update. */
module Status {
  import opened Wrappers

  /** One `update_status(state, message, progress)` call, before the clock adds the timestamp. */
  datatype Update = Update(state: string, message: string, progress: real)

  /** The JSON values of the record. */
  datatype Field = Text(s: string) | Number(r: real)

  /** The object `update_status` dumps, with the formatted wall-clock time `timestamp`. */
  function Record(u: Update, timestamp: string): (r: map<string, Field>)
    ensures r.Keys == {"state", "message", "progress", "timestamp"}
    ensures r["state"] == Text(u.state) && r["message"] == Text(u.message)
    ensures r["progress"] == Number(u.progress) && r["timestamp"] == Text(timestamp)
  {
    map["state" := Text(u.state), "message" := Text(u.message),
        "progress" := Number(u.progress), "timestamp" := Text(timestamp)]
  }

  /** The status file of one bot (`bot_status_grant.json`, `bot_status_stock.json`, ...). */
  class StatusFile {
    var content: Option<map<string, Field>>

    constructor (initial: Option<map<string, Field>>)
      ensures content == initial
    {
      content := initial;
    }

    /** `update_status`: opening the file for writing either fails (the error is only printed and the
        old content stays) or the new record replaces everything that was there. */
    method Write(u: Update, timestamp: string, writable: bool)
      modifies this
      ensures writable ==> content == Some(Record(u, timestamp))
      ensures !writable ==> content == old(content)
    {
      if writable {
        content := Some(Record(u, timestamp));
      }
    }
  }
}
