/** The Rust copy's message log: every handled message is recorded with its
    arguments mapped to a tag and a JSON value, newest first, in a ring of at
    most 100 entries (`OSC_LOG`). */
module OscLog {
  import opened Wrappers
  import opened Osc

  /** The JSON values the log writes (`serde_json::json!`). */
  datatype Json = JInt(i: int) | JNum(x: real) | JStr(s: string)

  datatype LoggedArg = LoggedArg(tag: string, value: Json)

  datatype LogEntry = LogEntry(timestamp: string, address: string, args: seq<LoggedArg>)

  const Capacity: nat := 100

  /** The tag and value recorded for one argument: the OSC type tag for the
      four known types, `"?"` with the text `"unknown"` for every other. */
  function LogArg(a: Arg): (r: LoggedArg)
    ensures r.tag in {"i", "f", "s", "d", "?"}
    ensures r.tag == "?" <==> a.Other?
    ensures a.Other? ==> r.value == JStr("unknown")
  {
    match a
    case I(i) => LoggedArg("i", JInt(i))
    case F(x) => LoggedArg("f", JNum(x))
    case S(s) => LoggedArg("s", JStr(s))
    case D(d) => LoggedArg("d", JNum(d))
    case Other(_, _) => LoggedArg("?", JStr("unknown"))
  }

  /** The argument list as the log records it (`iter().map(..).collect()`):
      same length, same order, each argument mapped by `LogArg`. */
  function LogArgs(args: seq<Arg>): (r: seq<LoggedArg>)
    ensures |r| == |args|
    ensures forall k :: 0 <= k < |args| ==> r[k] == LogArg(args[k])
  {
    if args == [] then [] else [LogArg(args[0])] + LogArgs(args[1..])
  }

  /** Reads a logged argument back: the inverse of `LogArg` on the four known
      types. */
  function ArgOfLogged(l: LoggedArg): Option<Arg> {
    match l.value
    case JInt(i) => if l.tag == "i" then Some(I(i)) else None
    case JNum(x) => if l.tag == "f" then Some(F(x)) else if l.tag == "d" then Some(D(x)) else None
    case JStr(s) => if l.tag == "s" then Some(S(s)) else None
  }

  /** The log keeps every known argument recoverable, and only those. */
  lemma LogArgRoundTrip(a: Arg)
    ensures ArgOfLogged(LogArg(a)) == if a.Other? then None else Some(a)
  {
  }

  /** `push_front` followed by `pop_back` when the log grew past capacity. */
  function Pushed(log: seq<LogEntry>, e: LogEntry): (r: seq<LogEntry>)
    ensures |r| == if |log| < Capacity then |log| + 1 else |log|
    ensures |log| <= Capacity ==> |r| <= Capacity
    ensures r[0] == e
    ensures r[1..] == log[..|r| - 1]
  {
    var grown := [e] + log;
    if |grown| > Capacity then grown[..|grown| - 1] else grown
  }

  function Take<T>(xs: seq<T>, n: nat): seq<T> {
    if |xs| <= n then xs else xs[..n]
  }

  function Reverse<T>(xs: seq<T>): (r: seq<T>)
    ensures |r| == |xs|
  {
    if xs == [] then [] else Reverse(xs[1..]) + [xs[0]]
  }

  /** The log after handling `es` in order. */
  function PushAll(log: seq<LogEntry>, es: seq<LogEntry>): seq<LogEntry>
    decreases |es|
  {
    if es == [] then log else PushAll(Pushed(log, es[0]), es[1..])
  }

  lemma TakeTake<T>(a: seq<T>, b: seq<T>, n: nat)
    ensures Take(a + Take(b, n), n) == Take(a + b, n)
  {
    if |b| > n {
      if |a + b[..n]| > n {
        assert (a + b[..n])[..n] == (a + b)[..n];
      }
    }
  }

  /** Starting from a log within capacity, the log holds the newest
      `Capacity` entries, newest first: older entries are dropped first. */
  lemma {:induction false} PushAllNewestFirst(log: seq<LogEntry>, es: seq<LogEntry>)
    requires |log| <= Capacity
    ensures PushAll(log, es) == Take(Reverse(es) + log, Capacity)
    decreases |es|
  {
    if es == [] {
    } else {
      var e := es[0];
      assert Pushed(log, e) == Take([e] + log, Capacity);
      PushAllNewestFirst(Pushed(log, e), es[1..]);
      TakeTake(Reverse(es[1..]), [e] + log, Capacity);
      assert Reverse(es[1..]) + ([e] + log) == Reverse(es) + log;
    }
  }
}
