/** cmd/api/helpers.go: the URL and query-string readers and the
    background-task wrapper. The goroutine that runs a background task is
    modelled as running to completion at the point it is started. */
module Helpers {
  import opened Wrappers
  import opened GoStrings
  import opened StrConv
  import opened Http
  import opened Validator

  const InvalidIDMessage: string := "invalid id parameter"

  /** readIDParam on the "id" router parameter: the id, or 0 and an error. */
  function ReadIDParam(param: string): (r: (int, Option<string>))
    ensures r.1.None? <==> ParseInt(param, Bits64).Some? && ParseInt(param, Bits64).value >= 1
    ensures r.1.None? ==> r.0 == ParseInt(param, Bits64).value && r.0 >= 1
    ensures r.1.Some? ==> r.0 == 0 && r.1.value == InvalidIDMessage
  {
    match ParseInt(param, Bits64)
    case None => (0, Some(InvalidIDMessage))
    case Some(id) => if id < 1 then (0, Some(InvalidIDMessage)) else (id, None)
  }

  /** Every positive int64 written in decimal reads back as itself. */
  lemma ReadIDParamFormat(id: int)
    requires 1 <= id <= MaxInt(Bits64)
    ensures ReadIDParam(FormatInt(id)) == (id, None)
  {
    ParseFormatInt(id, Bits64);
  }

  /** readString: the value under key, or the default when it is empty or missing. */
  function ReadString(qs: Values, key: string, defaultValue: string): (r: string)
    ensures Get(qs, key) == "" ==> r == defaultValue
    ensures Get(qs, key) != "" ==> r == Get(qs, key) && r == qs[key][0]
  {
    var s := Get(qs, key);
    if s == "" then defaultValue else s
  }

  const NumberMessage: string := "must be a number"

  /** readInt: the default for an empty value; otherwise strconv.Atoi of the
      value, with "must be a number" under key (first wins) and the default
      when it is not an integer. */
  method ReadInt(qs: Values, key: string, defaultValue: int, v: Validator) returns (n: int)
    modifies v
    ensures Get(qs, key) == "" ==> n == defaultValue && v.errors == old(v.errors)
    ensures Get(qs, key) != "" && Atoi(Get(qs, key)).None? ==>
              n == defaultValue && v.errors == WithError(old(v.errors), key, NumberMessage)
    ensures Get(qs, key) != "" && Atoi(Get(qs, key)).Some? ==>
              n == Atoi(Get(qs, key)).value && v.errors == old(v.errors)
  {
    var value := Get(qs, key);
    if value == "" {
      return defaultValue;
    }
    var intVal := Atoi(value);
    v.Check(intVal.Some?, key, NumberMessage);
    if intVal.None? {
      return defaultValue;
    }
    return intVal.value;
  }

  /** Negative numbers are read as such: every int64 written in decimal is
      read back by readInt without an error. */
  lemma ReadIntNegative(i: int)
    requires MinInt(Bits64) <= i < 0
    ensures FormatInt(i) != "" && Atoi(FormatInt(i)) == Some(i)
  {
    ParseFormatInt(i, Bits64);
  }

  function CsvMessage(allowedValues: seq<string>): string {
    "must contain elements included in the array: " + FormatList(allowedValues)
  }

  /** The error map after readCSV's checks: an existing error under key
      stays; otherwise the message is added when some element is not allowed. */
  function CsvChecks(errors: map<string, string>, key: string, elements: seq<string>, allowedValues: seq<string>)
    : (r: map<string, string>)
    ensures key in r <==> key in errors || exists i :: 0 <= i < |elements| && elements[i] !in allowedValues
    ensures forall k :: k != key ==> (k in r <==> k in errors) && (k in r ==> r[k] == errors[k])
    ensures key in errors ==> r[key] == errors[key]
    ensures key !in errors && key in r ==> r[key] == CsvMessage(allowedValues)
  {
    if key in errors then errors
    else if exists i :: 0 <= i < |elements| && elements[i] !in allowedValues then errors[key := CsvMessage(allowedValues)]
    else errors
  }

  /** readCSV: the default for an empty value, otherwise the comma-separated
      pieces. A non-nil validator is checked element by element, and the scan
      stops as soon as an error is present under key. */
  method ReadCSV(qs: Values, key: string, defaultValue: seq<string>, allowedValues: seq<string>, v: Validator?)
    returns (r: seq<string>)
    modifies v
    ensures Get(qs, key) == "" ==> r == defaultValue
    ensures Get(qs, key) != "" ==> r == Split(Get(qs, key), ',') && Join(r, ',') == Get(qs, key)
    ensures v != null && Get(qs, key) != "" ==> v.errors == CsvChecks(old(v.errors), key, r, allowedValues)
    ensures v != null && Get(qs, key) == "" ==> v.errors == old(v.errors)
  {
    var csv := Get(qs, key);
    if csv == "" {
      return defaultValue;
    }
    var sliceVal := Split(csv, ',');
    JoinSplit(csv, ',');
    if v != null {
      for i := 0 to |sliceVal|
        invariant key !in old(v.errors) ==> v.errors == old(v.errors)
        invariant key in old(v.errors) ==> i == 0 && v.errors == old(v.errors)
        invariant key !in old(v.errors) ==> forall j :: 0 <= j < i ==> sliceVal[j] in allowedValues
      {
        v.Check(PermittedValue(sliceVal[i], allowedValues), key, CsvMessage(allowedValues));
        if key in v.errors {
          return sliceVal;
        }
      }
    }
    return sliceVal;
  }

  /** A background task runs to its end or panics with a value. */
  datatype TaskOutcome = Normal | Panic(value: string)

  /** What happens around a background task, in order. */
  datatype Event = Added | Started(pending: int) | Finished(outcome: TaskOutcome) | LoggedError(message: string) | Done

  /** The application's sync.WaitGroup counter and its error log. */
  class App {
    var pending: int
    var events: seq<Event>

    constructor ()
      ensures pending == 0 && events == []
    {
      pending := 0;
      events := [];
    }

    /** background(fn): the counter goes up before fn starts and down once
        after it ends, whether it returned or panicked; a panic is logged
        and recovered, so the goroutine itself always returns. */
    method Background(fn: TaskOutcome) returns (goroutine: Completion)
      modifies this
      ensures pending == old(pending)
      ensures events == old(events) + [Added, Started(old(pending) + 1), Finished(fn)]
        + (if fn.Panic? then [LoggedError(fn.value)] else []) + [Done]
      ensures goroutine == Returned
    {
      pending := pending + 1;
      events := events + [Added];
      events := events + [Started(pending), Finished(fn)];
      if fn.Panic? {
        events := events + [LoggedError(fn.value)];
      }
      pending := pending - 1;
      events := events + [Done];
      return Returned;
    }
  }

  /** The counter as the events leave it, from a start value. */
  function Counter(start: int, events: seq<Event>): int {
    if events == [] then start
    else
      var c := Counter(start, events[..|events| - 1]);
      match events[|events| - 1]
      case Added => c + 1
      case Done => c - 1
      case _ => c
  }

  lemma {:induction false} CounterAppend(start: int, a: seq<Event>, b: seq<Event>)
    ensures Counter(start, a + b) == Counter(Counter(start, a), b)
    decreases |b|
  {
    if b != [] {
      assert (a + b)[..|a + b| - 1] == a + b[..|b| - 1];
      assert (a + b)[|a + b| - 1] == b[|b| - 1];
      CounterAppend(start, a, b[..|b| - 1]);
    } else {
      assert a + b == a;
    }
  }

  /** One background run adds exactly one Added and one Done, so the counter
      ends where it began, and it is one higher while the task runs. */
  lemma {:induction false} BackgroundBalanced(start: int, fn: TaskOutcome)
    ensures var run := [Added, Started(start + 1), Finished(fn)]
                       + (if fn.Panic? then [LoggedError(fn.value)] else []) + [Done];
            Counter(start, run) == start && Counter(start, run[..2]) == start + 1
  {
    var run := [Added, Started(start + 1), Finished(fn)]
               + (if fn.Panic? then [LoggedError(fn.value)] else []) + [Done];
    var mid := run[..|run| - 1];
    assert run == mid + [Done];
    CounterAppend(start, mid, [Done]);
    assert run[..2] == [Added, Started(start + 1)];
    assert Counter(start, [Added]) == start + 1 by {
      assert [Added][..0] == [];
    }
    assert [Added, Started(start + 1)][..1] == [Added];
    CounterAppend(start, [Added, Started(start + 1)], mid[2..]);
    assert mid == [Added, Started(start + 1)] + mid[2..];
    assert forall k :: 0 <= k < |mid[2..]| ==> !mid[2..][k].Added? && !mid[2..][k].Done?;
    NoCounterChange(start + 1, mid[2..]);
  }

  lemma {:induction false} NoCounterChange(start: int, events: seq<Event>)
    requires forall k :: 0 <= k < |events| ==> !events[k].Added? && !events[k].Done?
    ensures Counter(start, events) == start
    decreases |events|
  {
    if events != [] {
      var init := events[..|events| - 1];
      assert forall k :: 0 <= k < |init| ==> init[k] == events[k];
      NoCounterChange(start, init);
    }
  }
}
