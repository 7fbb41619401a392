/**
 * The heartbeat job (crm/cron.py): one line saying the CRM is alive, with a
 * suffix that reports how the GraphQL `hello` query went, appended to the
 * heartbeat log and echoed to the console.
 */
module Heartbeat {
  import opened Results
  import opened Text
  import opened Clock
  import opened PyJson
  import Sinks

  const Alive := " CRM is alive"
  const Responsive := " - GraphQL endpoint responsive: "
  const NoHello := " - GraphQL endpoint responded but no hello field"
  const Unreachable := " - GraphQL endpoint unreachable: "

  /** How the endpoint answered, as the message reports it. */
  datatype Status = Said(hello: string) | Silent | Down(error: string)

  function StatusOf(response: Response): Status {
    match response
    case Failed(e) => Down(e)
    case Answered(data) => if HasKey(data, "hello") then Said(Str(Lookup(data, "hello").value)) else Silent
  }

  function Suffix(status: Status): string {
    match status
    case Said(h) => Responsive + h
    case Silent => NoHello
    case Down(e) => Unreachable + e
  }

  /** The heartbeat message: stamp, " CRM is alive", then the one suffix for the outcome. */
  function HeartbeatMessage(now: DateTime, response: Response): (m: string)
    requires Valid(now)
    ensures |m| >= 19 + |Alive| && m[..19] == HeartbeatStamp(now) && m[19..19 + |Alive|] == Alive
  {
    HeartbeatStamp(now) + Alive + Suffix(StatusOf(response))
  }

  /** Reads a heartbeat message back into its time and the endpoint's status. */
  function ReadHeartbeat(m: string): Option<(DateTime, Status)> {
    var head := 19 + |Alive|;
    if |m| < head || m[19..head] != Alive then None
    else
      match ParseHeartbeatStamp(m[..19])
      case None => None
      case Some(t) =>
        match ReadStatus(m[head..])
        case None => None
        case Some(status) => Some((t, status))
  }

  /** Reads the suffix after " CRM is alive" back into the status it reports. */
  function ReadStatus(rest: string): Option<Status> {
    if StartsWith(rest, Responsive) then Some(Said(rest[|Responsive|..]))
    else if StartsWith(rest, Unreachable) then Some(Down(rest[|Unreachable|..]))
    else if rest == NoHello then Some(Silent)
    else None
  }

  /** No suffix is a prefix of another, so each reads back as the status it reports. */
  lemma SuffixRoundTrip(status: Status)
    ensures ReadStatus(Suffix(status)) == Some(status)
  {
    var rest := Suffix(status);
    match status
    case Said(h) =>
      PrefixOfJoin(Responsive, h);
    case Down(e) =>
      PrefixOfJoin(Unreachable, e);
      assert Responsive[21] != Unreachable[21];
      assert rest[21] == Unreachable[21];
    case Silent =>
      assert Responsive[26] != NoHello[26];
      assert Unreachable[21] != NoHello[21];
  }

  /**
   * The message determines the time it was written and the outcome it
   * reports, so each message carries exactly one of the three suffixes.
   */
  lemma HeartbeatRoundTrip(now: DateTime, response: Response)
    requires Valid(now)
    ensures ReadHeartbeat(HeartbeatMessage(now, response)) == Some((now, StatusOf(response)))
  {
    var m := HeartbeatMessage(now, response);
    HeartbeatStampRoundTrip(now);
    var rest := Suffix(StatusOf(response));
    PrefixOfJoin(HeartbeatStamp(now) + Alive, rest);
    assert m[19 + |Alive|..] == rest;
    SuffixRoundTrip(StatusOf(response));
  }

  /** The three outcomes of the query each give their documented suffix. */
  lemma HeartbeatCases(now: DateTime, response: Response)
    requires Valid(now)
    ensures response.Failed? ==>
      HeartbeatMessage(now, response) == HeartbeatStamp(now) + Alive + Unreachable + response.message
    ensures response.Answered? && HasKey(response.data, "hello") ==>
      HeartbeatMessage(now, response) ==
        HeartbeatStamp(now) + Alive + Responsive + Str(Lookup(response.data, "hello").value)
    ensures response.Answered? && !HasKey(response.data, "hello") ==>
      HeartbeatMessage(now, response) == HeartbeatStamp(now) + Alive + NoHello
  {
    var head := HeartbeatStamp(now) + Alive;
    match response
    case Failed(e) => Assoc(head, Unreachable, e);
    case Answered(data) =>
      if HasKey(data, "hello") { Assoc(head, Responsive, Str(Lookup(data, "hello").value)); }
  }

  /**
   * log_crm_heartbeat: builds the message, appends it and a newline to the
   * log in one write, and prints it. A failed query does not propagate.
   */
  method LogHeartbeat(now: DateTime, response: Response, log: Sinks.TextSink, console: Sinks.TextSink)
    requires Valid(now) && log != console
    modifies log, console
    ensures log.writes == old(log.writes) + [HeartbeatMessage(now, response) + "\n"]
    ensures console.writes == old(console.writes) + [HeartbeatMessage(now, response) + "\n"]
  {
    var message := HeartbeatStamp(now) + Alive;
    match response {
      case Failed(e) =>
        Assoc(message, Unreachable, e);
        message := message + Unreachable + e;
      case Answered(data) =>
        if HasKey(data, "hello") {
          Assoc(message, Responsive, Str(Lookup(data, "hello").value));
          message := message + Responsive + Str(Lookup(data, "hello").value);
        } else {
          message := message + NoHello;
        }
    }
    assert message == HeartbeatMessage(now, response);
    log.Write(message + "\n");
    console.Print(message);
  }
}
