/** Event records as they arrive, their validation, the cleaning of the
    historical log, and the two run parameters read from its first line. */
module Events {
  import opened Basics

  /** One line of an event log. A field that is missing or NaN is `None`;
      `t` and `d` are only meaningful on the first line of the historical log. */
  datatype RawEvent = RawEvent(
    eventType: string,
    id: Option<int>,
    id1: Option<int>,
    id2: Option<int>,
    amount: Option<real>,
    t: Option<int>,
    d: Option<int>)

  /** A validated event, with its required fields. */
  datatype Event = Befriend(a: int, b: int) | Unfriend(a: int, b: int) | Buy(id: int, amount: real)

  /** `t`: how many recent purchases make a window; `d`: how many hops make
      a neighbourhood. */
  datatype Config = Config(t: int, d: int)

  datatype ExecError = MissingParameters

  /** The parameters on the first line of the historical log; the run aborts
      when that line is missing or lacks either of them. */
  function ReadConfig(hist: seq<RawEvent>): Result<Config, ExecError>
  {
    if |hist| == 0 || hist[0].t.None? || hist[0].d.None? then Failure(MissingParameters)
    else Success(Config(hist[0].t.value, hist[0].d.value))
  }

  /** The row filter of the historical cleaning: unknown event types are
      dropped, as are purchases without id or amount and friendship events
      without both ids. */
  function Parse(e: RawEvent): Option<Event>
  {
    if e.eventType !in {"befriend", "purchase", "unfriend"} then None
    else if e.eventType == "purchase" then
      if e.amount.None? || e.id.None? then None else Some(Buy(e.id.value, e.amount.value))
    else if e.id1.None? || e.id2.None? then None
    else if e.eventType == "befriend" then Some(Befriend(e.id1.value, e.id2.value))
    else Some(Unfriend(e.id1.value, e.id2.value))
  }

  /** The rows that pass `Parse`, in their original order. */
  function Validated(rows: seq<RawEvent>): (r: seq<Event>)
    ensures |r| <= |rows|
  {
    if rows == [] then []
    else
      var n := |rows| - 1;
      Validated(rows[..n]) + (if Parse(rows[n]).Some? then [Parse(rows[n]).value] else [])
  }

  /** `clean_hist_data`: the historical log without its first (parameter)
      line, filtered by `Parse`. */
  function Clean(hist: seq<RawEvent>): seq<Event>
  {
    if hist == [] then [] else Validated(hist[1..])
  }

  /** Validation is a filter: it commutes with concatenation, so it keeps the
      relative order of the rows it keeps. */
  lemma {:induction false} ValidatedConcat(a: seq<RawEvent>, b: seq<RawEvent>)
    ensures Validated(a + b) == Validated(a) + Validated(b)
    decreases |b|
  {
    if b == [] {
      assert a + b == a;
    } else {
      var n := |b| - 1;
      ValidatedConcat(a, b[..n]);
      assert (a + b)[..|a + b| - 1] == a + b[..n];
    }
  }

  lemma {:induction false} ValidatedMembers(rows: seq<RawEvent>, x: Event)
    ensures x in Validated(rows) <==> exists i :: 0 <= i < |rows| && Parse(rows[i]) == Some(x)
  {
    if rows != [] {
      var n := |rows| - 1;
      ValidatedMembers(rows[..n], x);
      if exists i :: 0 <= i < |rows| && Parse(rows[i]) == Some(x) {
        var i :| 0 <= i < |rows| && Parse(rows[i]) == Some(x);
        if i < n {
          assert rows[..n][i] == rows[i];
        }
      }
      if exists i :: 0 <= i < n && Parse(rows[..n][i]) == Some(x) {
        var i :| 0 <= i < n && Parse(rows[..n][i]) == Some(x);
        assert rows[i] == rows[..n][i];
      }
    }
  }

  /** The cleaned log holds exactly the valid rows after the first line. */
  lemma CleanKeepsExactlyValidRows(hist: seq<RawEvent>, x: Event)
    ensures x in Clean(hist) <==> exists i :: 1 <= i < |hist| && Parse(hist[i]) == Some(x)
    ensures hist != [] ==> |Clean(hist)| < |hist|
  {
    if hist != [] {
      var rest := hist[1..];
      ValidatedMembers(rest, x);
      if exists i :: 1 <= i < |hist| && Parse(hist[i]) == Some(x) {
        var i :| 1 <= i < |hist| && Parse(hist[i]) == Some(x);
        assert rest[i - 1] == hist[i];
      }
      if exists j :: 0 <= j < |rest| && Parse(rest[j]) == Some(x) {
        var j :| 0 <= j < |rest| && Parse(rest[j]) == Some(x);
        assert hist[j + 1] == rest[j];
      }
    }
  }
}
