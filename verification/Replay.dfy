/** The replay job's send loop against an environment that writes pause, resume, cancel and
    speed commands into its control hash at any moment. */
module Replay {
  import opened Arithmetic
  import opened Options

  const DEFAULT_LIMIT := 500
  const MAX_LIMIT := 5000
  const DEFAULT_MESSAGES_PER_SECOND := 10.0
  const MAX_MESSAGES_PER_SECOND := 100.0
  const LOG_EVERY := 50

  /** A parameter as the job's JSON carries it; the browser sends text, other callers may send numbers, or
      booleans, which Python takes for 1 and 0. */
  datatype Param = Missing | Number(value: real) | Text(text: string)

  /** What `or` replaces by the default. The text of a zero is not among them. */
  predicate Falsy(p: Param) { p.Missing? || p == Number(0.0) || p == Text("") }

  /** int() of a number cuts towards zero. */
  function Truncated(x: real): int { if x >= 0.0 then x.Floor else -((-x).Floor) }

  /** The limit, or None where int() raises on a text; asInt is Python's int() on texts. */
  function ResolveLimit(limit: Param, asInt: string -> Option<int>): (r: Option<int>)
    ensures r.Some? ==> 1 <= r.value <= 5000
    ensures r.None? <==> limit.Text? && limit.text != "" && asInt(limit.text).None?
  {
    var given := if Falsy(limit) then Some(DEFAULT_LIMIT)
                 else if limit.Number? then Some(Truncated(limit.value)) else asInt(limit.text);
    if given.None? then None else Some(Max(1, Min(given.value, MAX_LIMIT)))
  }

  /** The rate, or None where float() raises on a text. */
  function ResolveRate(rate: Param, asReal: string -> Option<real>): (r: Option<real>)
    ensures r.Some? ==> 0.1 <= r.value <= 100.0
    ensures r.None? <==> rate.Text? && rate.text != "" && asReal(rate.text).None?
  {
    var given := if Falsy(rate) then Some(DEFAULT_MESSAGES_PER_SECOND)
                 else if rate.Number? then Some(rate.value) else asReal(rate.text);
    if given.None? then None else Some(MaxReal(0.1, MinReal(given.value, MAX_MESSAGES_PER_SECOND)))
  }

  /** A limit within bounds is kept, as a number and as a text; so the zero that is a number becomes the default
      and the zero that is a text becomes the least limit. */
  lemma {:induction false} LimitKept(limit: Param, asInt: string -> Option<int>, n: int)
    requires limit == Number(n as real) || (limit.Text? && limit.text != "" && asInt(limit.text) == Some(n))
    ensures 1 <= n <= 5000 ==> ResolveLimit(limit, asInt) == Some(n)
    ensures n > 5000 ==> ResolveLimit(limit, asInt) == Some(5000)
    ensures n <= 0 ==> ResolveLimit(limit, asInt) == Some(if limit == Number(0.0) then 500 else 1)
    ensures ResolveLimit(Missing, asInt) == ResolveLimit(Text(""), asInt) == Some(500)
  {
    assert (n as real).Floor == n && (-(n as real)).Floor == -n;
  }

  /** A number that is no integer is cut, towards zero. */
  lemma {:induction false} LimitCut(x: real, n: int, asInt: string -> Option<int>)
    requires 1 <= n <= 5000 && n as real <= x < n as real + 1.0
    ensures ResolveLimit(Number(x), asInt) == Some(n)
  {}

  /** A rate within bounds is kept, as a number and as a text; the zeros differ as the limit's do. */
  lemma {:induction false} RateKept(rate: Param, asReal: string -> Option<real>, x: real)
    requires rate == Number(x) || (rate.Text? && rate.text != "" && asReal(rate.text) == Some(x))
    ensures 0.1 <= x <= 100.0 ==> ResolveRate(rate, asReal) == Some(x)
    ensures x > 100.0 ==> ResolveRate(rate, asReal) == Some(100.0)
    ensures x < 0.1 ==> ResolveRate(rate, asReal) == Some(if rate == Number(0.0) then 10.0 else 0.1)
    ensures ResolveRate(Missing, asReal) == ResolveRate(Text(""), asReal) == Some(10.0)
  {}

  // ---- the control hash and the commands that reach it ----

  datatype Control = Control(paused: Option<bool>, speed: Option<int>, cancelled: Option<bool>)

  const EMPTY := Control(None, None, None)

  datatype Command = Pause | Resume | CancelRun | SetSpeed(multiplier: int) | Expire

  /** The request body of POST /api/jobs/{id}/control. */
  datatype ControlRequest = ControlRequest(action: string, speedMultiplier: Option<real>)

  const VALID_SPEEDS: set<real> := {1.0, 2.0, 3.0, 5.0, 10.0}

  /** The command a request is accepted as, or None for the 400 answers. */
  function Accepted(req: ControlRequest): Option<Command> {
    if req.action == "pause" then Some(Pause)
    else if req.action == "resume" then Some(Resume)
    else if req.action == "cancel" then Some(CancelRun)
    else if req.action == "setSpeed" then
      if req.speedMultiplier.None? || req.speedMultiplier.value !in VALID_SPEEDS then None
      else Some(SetSpeed(req.speedMultiplier.value.Floor))
    else None
  }

  /** Commands that can reach the hash: accepted requests, and the key's expiry. */
  predicate Reachable(c: Command) {
    c.SetSpeed? ==> c.multiplier in {1, 2, 3, 5, 10}
  }

  lemma {:induction false} AcceptedIsReachable(req: ControlRequest)
    ensures Accepted(req).Some? ==> Reachable(Accepted(req).value)
  {}

  function Written(h: Control, c: Command): Control {
    match c
    case Pause => h.(paused := Some(true))
    case Resume => h.(paused := Some(false))
    case CancelRun => h.(cancelled := Some(true))
    case SetSpeed(m) => h.(speed := Some(m))
    case Expire => EMPTY
  }

  function WrittenAll(h: Control, cs: seq<Command>): Control {
    if cs == [] then h else Written(WrittenAll(h, cs[..|cs| - 1]), cs[|cs| - 1])
  }

  /** HSETNX of the three defaults. */
  function Initialised(h: Control): Control {
    Control(if h.paused.Some? then h.paused else Some(false), if h.speed.Some? then h.speed else Some(1),
            if h.cancelled.Some? then h.cancelled else Some(false))
  }

  /** Initialising fills what nobody has written: not paused, not cancelled, speed 1; and keeps what is there. */
  lemma {:induction false} InitialisedKeeps(h: Control)
    ensures Initialised(EMPTY) == Control(Some(false), Some(1), Some(false))
    ensures forall b :: h.paused == Some(b) ==> Initialised(h).paused == Some(b)
    ensures forall b :: h.cancelled == Some(b) ==> Initialised(h).cancelled == Some(b)
    ensures forall m :: h.speed == Some(m) ==> Initialised(h).speed == Some(m)
    ensures h.paused == None ==> Initialised(h).paused == Some(false)
    ensures h.cancelled == None ==> Initialised(h).cancelled == Some(false)
    ensures h.speed == None ==> Initialised(h).speed == Some(1)
  {}

  /** What each request does to the hash, by its action: pause, resume, cancel and setSpeed with one of the five
      speeds write one field, anything else is refused. */
  lemma {:induction false} RequestWrites(req: ControlRequest, h: Control)
    ensures Accepted(req).Some? <==>
      || req.action == "pause" || req.action == "resume" || req.action == "cancel"
      || (req.action == "setSpeed"
          && (req.speedMultiplier == Some(1.0) || req.speedMultiplier == Some(2.0) || req.speedMultiplier == Some(3.0)
              || req.speedMultiplier == Some(5.0) || req.speedMultiplier == Some(10.0)))
    ensures Accepted(req).Some? ==>
      var after := Written(h, Accepted(req).value);
      && (req.action == "pause" ==> after == Control(Some(true), h.speed, h.cancelled))
      && (req.action == "resume" ==> after == Control(Some(false), h.speed, h.cancelled))
      && (req.action == "cancel" ==> after == Control(h.paused, h.speed, Some(true)))
      && (req.action == "setSpeed" ==>
            after.paused == h.paused && after.cancelled == h.cancelled && after.speed.Some?
            && req.speedMultiplier == Some(after.speed.value as real))
  {
    assert "pause" != "resume" && "pause" != "cancel" && "pause" != "setSpeed" && "resume" != "cancel"
      && "resume" != "setSpeed" && "cancel" != "setSpeed";
  }

  /** Whether the hash says paused after some commands is decided by the last of pause, resume and expiry. */
  lemma {:induction false} PausedByTheLast(h: Control, cs: seq<Command>, i: nat)
    requires i < |cs| && cs[i] in {Pause, Resume, Expire}
    requires forall j :: i < j < |cs| ==> cs[j] !in {Pause, Resume, Expire}
    ensures WrittenAll(h, cs).paused == Some(true) <==> cs[i] == Pause
    ensures WrittenAll(h, cs).paused == Some(false) <==> cs[i] == Resume
  {
    if i < |cs| - 1 {
      PausedByTheLast(h, cs[..|cs| - 1], i);
    }
  }

  /** The speed is the last one set, unless the hash has expired since. */
  lemma {:induction false} SpeedByTheLast(h: Control, cs: seq<Command>, i: nat)
    requires i < |cs| && (cs[i].SetSpeed? || cs[i] == Expire)
    requires forall j :: i < j < |cs| ==> !cs[j].SetSpeed? && cs[j] != Expire
    ensures SpeedOf(WrittenAll(h, cs)) == if cs[i].SetSpeed? then cs[i].multiplier as real else 1.0
  {
    if i < |cs| - 1 {
      SpeedByTheLast(h, cs[..|cs| - 1], i);
    }
  }

  /** Commands of other kinds change neither. */
  lemma {:induction false} OthersKeep(h: Control, cs: seq<Command>)
    ensures (forall j :: 0 <= j < |cs| ==> cs[j] !in {Pause, Resume, Expire}) ==> WrittenAll(h, cs).paused == h.paused
    ensures (forall j :: 0 <= j < |cs| ==> !cs[j].SetSpeed? && cs[j] != Expire) ==>
      WrittenAll(h, cs).speed == h.speed
    ensures (forall j :: 0 <= j < |cs| ==> cs[j] !in {CancelRun, Expire}) ==> WrittenAll(h, cs).cancelled == h.cancelled
  {
    if cs != [] {
      OthersKeep(h, cs[..|cs| - 1]);
    }
  }

  predicate Paused(h: Control) { h.paused == Some(true) }
  predicate Cancelled(h: Control) { h.cancelled == Some(true) }

  /** float(state.get("speed") or "1"). */
  function SpeedOf(h: Control): real {
    if h.speed.Some? then h.speed.value as real else 1.0
  }

  // ---- traces of the job ----

  datatype Line =
    | Replaying(total: nat) | NoTrips | PausedLine | ResumedLine | CancelledAfter(sent: nat, total: nat)
    | Progress(sent: nat, total: nat) | ErrorLine | SentAll(sent: nat)

  /** What one run does, in order: reads of the control hash, sends, sleeps and log lines. */
  datatype Act<Trip> = Poll(h: Control) | Send(trip: Trip) | Sleep(seconds: real) | Log(line: Line)

  /** What happens just before one read of the hash: commands, or Redis failing. */
  datatype Moment = Commands(cs: seq<Command>) | RedisError

  /** Which calls raise, apart from reads of the hash: Redis on initialising the hash, on publishing the log
      lines with these numbers, or on deleting the hash; Kafka on making the producer, on sending the trips with
      these numbers, or on the flush. */
  datatype Faults = Faults(setup: bool, lines: set<nat>, delete: bool, connect: bool, sends: set<nat>, flush: bool)

  /** Escaped: an exception leaves run, and with it handle_message. */
  datatype Ending =
    | Unfinished
    | Succeeded(rows: Option<nat>)
    | CancelledRun(rows: Option<nat>)
    | Failed(rows: Option<nat>)
    | Escaped

  function LineCount<Trip>(acts: seq<Act<Trip>>): nat {
    if acts == [] then 0 else LineCount(acts[..|acts| - 1]) + (if acts[|acts| - 1].Log? then 1 else 0)
  }

  /** Every line so far was published. */
  predicate Heard<Trip>(acts: seq<Act<Trip>>, f: Faults) {
    forall i :: 0 <= i < LineCount(acts) ==> i !in f.lines
  }

  /** Publishing the latest line raised. */
  predicate LastUnheard<Trip>(acts: seq<Act<Trip>>, f: Faults) {
    LineCount(acts) > 0 && LineCount(acts) - 1 in f.lines
  }

  function Sends<Trip>(acts: seq<Act<Trip>>): seq<Trip> {
    if acts == [] then [] else
      Sends(acts[..|acts| - 1]) + (if acts[|acts| - 1].Send? then [acts[|acts| - 1].trip] else [])
  }

  /** The "paused"/"resumed" lines, as true/false. */
  function PauseLines<Trip>(acts: seq<Act<Trip>>): seq<bool> {
    if acts == [] then [] else
      PauseLines(acts[..|acts| - 1])
      + (if acts[|acts| - 1] == Log(PausedLine) then [true] else if acts[|acts| - 1] == Log(ResumedLine) then [false]
        else [])
  }

  /** The reads of the hash, in order. */
  function PollsOf<Trip>(acts: seq<Act<Trip>>): seq<Control> {
    if acts == [] then [] else
      PollsOf(acts[..|acts| - 1]) + (if acts[|acts| - 1].Poll? then [acts[|acts| - 1].h] else [])
  }

  /** What the hash holds after these moments, and what reads after each of them return. */
  function HashAfter(h: Control, env: seq<Moment>): Control {
    if env == [] then h else
      var before := HashAfter(h, env[..|env| - 1]);
      if env[|env| - 1].Commands? then WrittenAll(before, env[|env| - 1].cs) else before
  }

  function Readings(h: Control, env: seq<Moment>): seq<Control> {
    if env == [] then [] else Readings(h, env[..|env| - 1]) + [HashAfter(h, env)]
  }

  /** The trace's reads are what the hash really held at those moments. */
  predicate TrueReads<Trip>(acts: seq<Act<Trip>>, h: Control, env: seq<Moment>) {
    && |PollsOf(acts)| <= |env| && PollsOf(acts) == Readings(h, env[..|PollsOf(acts)|])
    && forall i :: 0 <= i < |PollsOf(acts)| ==> env[i].Commands?
  }

  /** The speed of the last read, 1 before any. */
  function LastSpeed<Trip>(acts: seq<Act<Trip>>): (r: real)
  {
    if acts == [] then 1.0
    else if acts[|acts| - 1].Poll? then SpeedOf(acts[|acts| - 1].h)
    else LastSpeed(acts[..|acts| - 1])
  }

  predicate Paces(seconds: real, speed: real, rate: real) { seconds * speed * rate == 1.0 }

  /** Every sleep lasts 1/rate divided by the speed last read. */
  predicate PacedBy<Trip>(acts: seq<Act<Trip>>, rate: real)
    requires rate > 0.0
  {
    acts == [] ||
      (PacedBy(acts[..|acts| - 1], rate)
       && var a := acts[|acts| - 1]; a.Sleep? ==> Paces(a.seconds, LastSpeed(acts[..|acts| - 1]), rate))
  }

  predicate Alternating(bs: seq<bool>) {
    forall i :: 0 <= i < |bs| ==> (bs[i] <==> i % 2 == 0)
  }

  /** The last read of the hash before j saw neither flag, and nothing was sent since. */
  ghost predicate ClearedAt<Trip>(acts: seq<Act<Trip>>, j: int)
    requires j <= |acts|
  {
    exists k :: 0 <= k < j && acts[k].Poll? && !Paused(acts[k].h) && !Cancelled(acts[k].h)
             && forall m :: k < m < j ==> !acts[m].Poll? && !acts[m].Send?
  }

  ghost predicate NoCancelSeen<Trip>(acts: seq<Act<Trip>>) {
    forall i :: 0 <= i < |acts| && acts[i].Poll? ==> !Cancelled(acts[i].h)
  }

  predicate Rests<Trip>(a: Act<Trip>) { a.Sleep? && a.seconds >= 0.001 }

  ghost predicate RestBetween<Trip>(acts: seq<Act<Trip>>, i: int, j: int)
    requires 0 <= i && j <= |acts|
  {
    exists k :: i < k < j && Rests(acts[k])
  }

  ghost predicate Rested<Trip>(acts: seq<Act<Trip>>) {
    forall i :: 0 <= i < |acts| && acts[i].Send? ==> RestBetween(acts, i, |acts|)
  }

  /** What every trace of the job keeps; the first two clauses when live control is on. */
  ghost predicate Safe<Trip>(acts: seq<Act<Trip>>, live: bool) {
    && (live ==> forall j :: 0 <= j < |acts| && acts[j].Send? ==> ClearedAt(acts, j))
    && (forall i, j :: 0 <= i < j < |acts| && acts[i].Poll? && Cancelled(acts[i].h) ==> !acts[j].Send?)
    && (forall i, j :: 0 <= i < j < |acts| && acts[i].Send? && acts[j].Send? ==> RestBetween(acts, i, j))
    && Alternating(PauseLines(acts))
  }

  lemma {:induction false} ClearedKept<Trip>(acts: seq<Act<Trip>>, a: Act<Trip>, j: int)
    requires j <= |acts| && ClearedAt(acts, j)
    ensures ClearedAt(acts + [a], j)
    ensures j == |acts| && !a.Poll? && !a.Send? ==> ClearedAt(acts + [a], j + 1)
  {
    var k :| 0 <= k < j && acts[k].Poll? && !Paused(acts[k].h) && !Cancelled(acts[k].h)
             && forall m :: k < m < j ==> !acts[m].Poll? && !acts[m].Send?;
    assert (acts + [a])[k] == acts[k];
  }

  lemma {:induction false} RestKept<Trip>(acts: seq<Act<Trip>>, a: Act<Trip>, i: int, j: int)
    requires 0 <= i && j <= |acts| && RestBetween(acts, i, j)
    ensures RestBetween(acts + [a], i, j) && RestBetween(acts + [a], i, |acts| + 1)
  {
    var k :| i < k < j && Rests(acts[k]);
    assert (acts + [a])[k] == acts[k];
  }

  /** One more act keeps a trace safe: a send when cleared and rested, a pause line when due. */
  lemma {:induction false} SafeAppend<Trip>(acts: seq<Act<Trip>>, a: Act<Trip>, live: bool)
    requires Safe(acts, live)
    requires a.Send? ==> (live ==> ClearedAt(acts, |acts|)) && NoCancelSeen(acts) && Rested(acts)
    requires a == Log(PausedLine) ==> |PauseLines(acts)| % 2 == 0
    requires a == Log(ResumedLine) ==> |PauseLines(acts)| % 2 == 1
    ensures Safe(acts + [a], live)
    ensures Sends(acts + [a]) == Sends(acts) + (if a.Send? then [a.trip] else [])
    ensures PauseLines(acts + [a])
      == PauseLines(acts) + (if a == Log(PausedLine) then [true] else if a == Log(ResumedLine) then [false] else [])
    ensures Rested(acts) && (!a.Send? || Rests(a)) ==> Rested(acts + [a])
    ensures Rests(a) ==> Rested(acts + [a])
    ensures NoCancelSeen(acts) && !(a.Poll? && Cancelled(a.h)) ==> NoCancelSeen(acts + [a])
    ensures a.Poll? && !Paused(a.h) && !Cancelled(a.h) ==> ClearedAt(acts + [a], |acts| + 1)
    ensures !a.Poll? && !a.Send? && ClearedAt(acts, |acts|) ==> ClearedAt(acts + [a], |acts| + 1)
  {
    var more := acts + [a];
    assert more[..|more| - 1] == acts && more[|acts|] == a;
    forall j | 0 <= j <= |acts| && ClearedAt(acts, j)
      ensures ClearedAt(more, j) && (j == |acts| && !a.Poll? && !a.Send? ==> ClearedAt(more, j + 1))
    {
      ClearedKept(acts, a, j);
    }
    forall i, j | 0 <= i && j <= |acts| && RestBetween(acts, i, j)
      ensures RestBetween(more, i, j) && RestBetween(more, i, |acts| + 1)
    {
      RestKept(acts, a, i, j);
    }
    if Rests(a) {
      forall i | 0 <= i < |acts| && acts[i].Send? ensures RestBetween(more, i, |more|) {
        assert i < |acts| < |more| && Rests(more[|acts|]);
      }
    }
  }

  // ---- a monitor that reads a trace once, act by act ----

  datatype Watch = Watch(cleared: bool, cancelSeen: bool, rested: bool, inPause: bool)

  function WatchStep<Trip>(w: Watch, a: Act<Trip>, live: bool): Option<Watch> {
    match a
    case Poll(h) => Some(w.(cleared := !Paused(h) && !Cancelled(h), cancelSeen := w.cancelSeen || Cancelled(h)))
    case Send(_) =>
      if (live ==> w.cleared) && !w.cancelSeen && w.rested then Some(w.(cleared := false, rested := false)) else None
    case Sleep(d) => Some(w.(rested := w.rested || d >= 0.001))
    case Log(PausedLine) => if w.inPause then None else Some(w.(inPause := true))
    case Log(ResumedLine) => if w.inPause then Some(w.(inPause := false)) else None
    case Log(_) => Some(w)
  }

  function Watched<Trip>(acts: seq<Act<Trip>>, live: bool): Option<Watch> {
    if acts == [] then Some(Watch(false, false, true, false)) else
      var w := Watched(acts[..|acts| - 1], live);
      if w.None? then None else WatchStep(w.value, acts[|acts| - 1], live)
  }

  lemma {:induction false} Push<Trip>(acts: seq<Act<Trip>>, a: Act<Trip>, live: bool)
    ensures Watched(acts + [a], live)
      == (var w := Watched(acts, live); if w.None? then None else WatchStep(w.value, a, live))
    ensures Sends(acts + [a]) == Sends(acts) + (if a.Send? then [a.trip] else [])
    ensures PollsOf(acts + [a]) == PollsOf(acts) + (if a.Poll? then [a.h] else [])
    ensures LineCount(acts + [a]) == LineCount(acts) + (if a.Log? then 1 else 0)
    ensures LastSpeed(acts + [a]) == if a.Poll? then SpeedOf(a.h) else LastSpeed(acts)
  {
    assert (acts + [a])[..|acts + [a]| - 1] == acts;
  }

  lemma {:induction false} PushPaced<Trip>(acts: seq<Act<Trip>>, a: Act<Trip>, rate: real)
    requires rate > 0.0
    ensures PacedBy(acts + [a], rate) <==> PacedBy(acts, rate) && (a.Sleep? ==> Paces(a.seconds, LastSpeed(acts), rate))
  {
    assert (acts + [a])[..|acts + [a]| - 1] == acts;
  }

  /** What a monitor state says about the trace behind it. */
  ghost predicate Attests<Trip>(w: Watch, acts: seq<Act<Trip>>, live: bool) {
    && Safe(acts, live)
    && (w.cleared ==> ClearedAt(acts, |acts|)) && (!w.cancelSeen ==> NoCancelSeen(acts)) && (w.rested ==> Rested(acts))
    && |PauseLines(acts)| % 2 == (if w.inPause then 1 else 0)
  }

  lemma {:induction false} AttestsPoll<Trip>(w: Watch, acts: seq<Act<Trip>>, h: Control, live: bool)
    requires Attests(w, acts, live)
    ensures Attests(WatchStep(w, Act<Trip>.Poll(h), live).value, acts + [Poll(h)], live)
  {
    SafeAppend(acts, Poll(h), live);
  }

  lemma {:induction false} AttestsSend<Trip>(w: Watch, acts: seq<Act<Trip>>, trip: Trip, live: bool)
    requires Attests(w, acts, live) && WatchStep(w, Send(trip), live).Some?
    ensures Attests(WatchStep(w, Send(trip), live).value, acts + [Send(trip)], live)
  {
    SafeAppend(acts, Send(trip), live);
  }

  lemma {:induction false} AttestsSleep<Trip>(w: Watch, acts: seq<Act<Trip>>, seconds: real, live: bool)
    requires Attests(w, acts, live)
    ensures Attests(WatchStep(w, Act<Trip>.Sleep(seconds), live).value, acts + [Sleep(seconds)], live)
  {
    SafeAppend(acts, Sleep(seconds), live);
  }

  lemma {:induction false} AttestsPaused<Trip>(w: Watch, acts: seq<Act<Trip>>, live: bool)
    requires Attests(w, acts, live) && !w.inPause
    ensures Attests(w.(inPause := true), acts + [Log(PausedLine)], live)
  {
    SafeAppend(acts, Log(PausedLine), live);
  }

  lemma {:induction false} AttestsResumed<Trip>(w: Watch, acts: seq<Act<Trip>>, live: bool)
    requires Attests(w, acts, live) && w.inPause
    ensures Attests(w.(inPause := false), acts + [Log(ResumedLine)], live)
  {
    SafeAppend(acts, Log(ResumedLine), live);
  }

  lemma {:induction false} AttestsLog<Trip>(w: Watch, acts: seq<Act<Trip>>, line: Line, live: bool)
    requires Attests(w, acts, live) && WatchStep(w, Act<Trip>.Log(line), live).Some?
    ensures Attests(WatchStep(w, Act<Trip>.Log(line), live).value, acts + [Log(line)], live)
  {
    if line.PausedLine? {
      AttestsPaused(w, acts, live);
    } else if line.ResumedLine? {
      AttestsResumed(w, acts, live);
    } else {
      SafeAppend(acts, Log(line), live);
    }
  }

  /** Whatever the monitor lets through is safe. */
  lemma {:induction false} WatchedIsSafe<Trip>(acts: seq<Act<Trip>>, live: bool)
    requires Watched(acts, live).Some?
    ensures Attests(Watched(acts, live).value, acts, live)
  {
    if acts != [] {
      var before, a := acts[..|acts| - 1], acts[|acts| - 1];
      WatchedIsSafe(before, live);
      var w := Watched(before, live).value;
      match a {
        case Poll(h) => AttestsPoll(w, before, h, live);
        case Send(trip) => AttestsSend(w, before, trip, live);
        case Sleep(seconds) => AttestsSleep(w, before, seconds, live);
        case Log(line) => AttestsLog(w, before, line, live);
      }
      assert acts == before + [a];
    }
  }

  // ---- the job ----

  predicate ValidSpeed(h: Control) { h.speed.Some? ==> h.speed.value in {1, 2, 3, 5, 10} }

  predicate AllReachable(env: seq<Moment>) {
    forall i :: 0 <= i < |env| && env[i].Commands? ==> forall c :: c in env[i].cs ==> Reachable(c)
  }

  lemma {:induction false} SpeedStaysValid(h: Control, cs: seq<Command>)
    requires ValidSpeed(h) && forall c :: c in cs ==> Reachable(c)
    ensures ValidSpeed(WrittenAll(h, cs))
  {
    if cs != [] {
      SpeedStaysValid(h, cs[..|cs| - 1]);
      assert Reachable(cs[|cs| - 1]);
    }
  }

  /** Some cancel follows the i-th command. */
  ghost predicate Renewed(cs: seq<Command>, i: nat) { exists j :: i < j < |cs| && cs[j] == CancelRun }

  /** A cancel survives these commands: every expiry is followed by one more cancel. */
  ghost predicate KeepsCancel(cs: seq<Command>) { forall i :: 0 <= i < |cs| && cs[i] == Expire ==> Renewed(cs, i) }

  lemma {:induction false} RenewedNext(cs: seq<Command>, c: Command, i: nat)
    requires i < |cs|
    ensures Renewed(cs + [c], i) <==> Renewed(cs, i) || c == CancelRun
  {
    var more := cs + [c];
    assert more[|cs|] == c && forall k :: 0 <= k < |cs| ==> more[k] == cs[k];
    if j :| i < j < |cs| && cs[j] == CancelRun {
      assert more[j] == CancelRun;
    }
  }

  lemma {:induction false} KeepsCancelNext(cs: seq<Command>, c: Command)
    ensures KeepsCancel(cs + [c]) <==> c == CancelRun || (KeepsCancel(cs) && c != Expire)
  {
    var more := cs + [c];
    assert more[|cs|] == c && forall k :: 0 <= k < |cs| ==> more[k] == cs[k];
    assert !Renewed(more, |cs|);
    forall i | 0 <= i < |cs|
      ensures Renewed(more, i) <==> Renewed(cs, i) || c == CancelRun
    {
      RenewedNext(cs, c, i);
    }
  }

  /** On a hash that says cancelled, the commands leave it saying so exactly if they keep the cancel. */
  lemma {:induction false} CancelVisibleExactly(h: Control, cs: seq<Command>)
    requires h.cancelled == Some(true)
    ensures WrittenAll(h, cs).cancelled == Some(true) <==> KeepsCancel(cs)
  {
    if cs != [] {
      var front, last := cs[..|cs| - 1], cs[|cs| - 1];
      CancelVisibleExactly(h, front);
      KeepsCancelNext(front, last);
      assert cs == front + [last];
    }
  }

  lemma {:induction false} PositiveFactor(a: real, b: real)
    requires a * b >= 0.0 && b > 0.0
    ensures a >= 0.0
  {}

  /** The pause between two sends is never shorter than a millisecond. */
  lemma {:induction false} DelayAtLeast(rate: real, speed: real)
    requires 0.1 <= rate <= MAX_MESSAGES_PER_SECOND && 1.0 <= speed <= 10.0
    ensures 1.0 / rate / speed >= 0.001
  {
    var delay := 1.0 / rate;
    assert delay * rate == 1.0;
    assert (delay - 0.01) * rate == 1.0 - 0.01 * rate;
    PositiveFactor(delay - 0.01, rate);
    var pause := delay / speed;
    assert pause * speed == delay;
    assert (pause - 0.001) * speed == delay - 0.001 * speed;
    PositiveFactor(pause - 0.001, speed);
  }

  datatype PollOutcome = Go(h: Control) | SawCancelled | Raised | CutOff

  /** Between two polls: nothing cancelled, rested, not in a pause. */
  ghost predicate Steady<Trip>(acts: seq<Act<Trip>>, live: bool) {
    var w := Watched(acts, live);
    w.Some? && !w.value.cancelSeen && w.value.rested && !w.value.inPause
  }

  /** After k reads: the trace has read the hash k times, truly. */
  ghost predicate InStep<Trip>(acts: seq<Act<Trip>>, hash: Control, hash0: Control, env: seq<Moment>, k: nat) {
    && k <= |env| && ValidSpeed(hash) && hash == HashAfter(hash0, env[..k])
    && PollsOf(acts) == Readings(hash0, env[..k]) && |PollsOf(acts)| == k
    && (forall i :: 0 <= i < k ==> env[i].Commands?)
  }

  lemma {:induction false} ReadStep(hash0: Control, env: seq<Moment>, k: nat)
    requires k < |env|
    ensures env[..k + 1][..k] == env[..k] && env[..k + 1][k] == env[k]
    ensures Readings(hash0, env[..k + 1]) == Readings(hash0, env[..k]) + [HashAfter(hash0, env[..k + 1])]
    ensures HashAfter(hash0, env[..k + 1]) ==
      if env[k].Commands? then WrittenAll(HashAfter(hash0, env[..k]), env[k].cs) else HashAfter(hash0, env[..k])
  {
    assert env[..k + 1][..k] == env[..k];
  }

  predicate AnyCancelled(polls: seq<Control>) {
    exists i :: 0 <= i < |polls| && Cancelled(polls[i])
  }

  lemma {:induction false} AnyCancelledAppend(polls: seq<Control>, h: Control)
    ensures AnyCancelled(polls + [h]) <==> AnyCancelled(polls) || Cancelled(h)
  {
    assert (polls + [h])[|polls|] == h;
    if i :| 0 <= i < |polls| && Cancelled(polls[i]) {
      assert (polls + [h])[i] == polls[i];
    }
  }

  /** One HGETALL: the commands of env[k] have landed by then. */
  method ReadHash<Trip>(hash: Control, ghost hash0: Control, env: seq<Moment>, k: nat, acts: seq<Act<Trip>>,
      ghost rate: real)
    returns (hash': Control, acts': seq<Act<Trip>>)
    requires AllReachable(env) && InStep(acts, hash, hash0, env, k) && k < |env| && env[k].Commands?
    requires rate > 0.0 && PacedBy(acts, rate)
    ensures InStep(acts', hash', hash0, env, k + 1) && acts' == acts + [Poll(hash')]
    ensures Sends(acts') == Sends(acts) && PacedBy(acts', rate) && LastSpeed(acts') == SpeedOf(hash')
    ensures LineCount(acts') == LineCount(acts)
    ensures AnyCancelled(PollsOf(acts')) <==> AnyCancelled(PollsOf(acts)) || Cancelled(hash')
    ensures Watched(acts', true)
      == (var w := Watched(acts, true); if w.None? then None else WatchStep(w.value, acts'[|acts|], true))
  {
    ReadStep(hash0, env, k);
    SpeedStaysValid(hash, env[k].cs);
    hash' := WrittenAll(hash, env[k].cs);
    Push(acts, Poll(hash'), true);
    PushPaced(acts, Poll(hash'), rate);
    AnyCancelledAppend(PollsOf(acts), hash');
    acts' := acts + [Poll(hash')];
  }

  /** A log line that the monitor lets through; publishing it may raise. */
  method Say<Trip>(acts: seq<Act<Trip>>, line: Line, f: Faults, ghost rate: real, ghost live: bool)
    returns (acts': seq<Act<Trip>>, raised: bool)
    requires rate > 0.0 && PacedBy(acts, rate) && Watched(acts, live).Some?
    requires WatchStep(Watched(acts, live).value, Act<Trip>.Log(line), live).Some?
    ensures acts' == acts + [Log(line)] && LineCount(acts') == LineCount(acts) + 1
    ensures Watched(acts', live) == WatchStep(Watched(acts, live).value, Act<Trip>.Log(line), live)
    ensures Sends(acts') == Sends(acts) && PollsOf(acts') == PollsOf(acts) && PacedBy(acts', rate)
      && LastSpeed(acts') == LastSpeed(acts)
    ensures raised <==> LastUnheard(acts', f)
    ensures Heard(acts', f) <==> Heard(acts, f) && !raised
  {
    Push(acts, Log(line), live);
    PushPaced(acts, Log(line), rate);
    raised := LineCount(acts) in f.lines;
    acts' := acts + [Log(line)];
    assert raised ==> LineCount(acts') - 1 in f.lines;
  }

  /** What one read of the hash leads to: return, or poll again in a pause. */
  method ActOn<Trip>(h: Control, acts: seq<Act<Trip>>, pausedFlag: bool, f: Faults, ghost rate: real)
    returns (outcome: Option<PollOutcome>, acts': seq<Act<Trip>>)
    requires rate > 0.0 && PacedBy(acts, rate) && Heard(acts, f)
    requires Watched(acts, true) == Some(Watch(!Paused(h) && !Cancelled(h), Cancelled(h), true, pausedFlag))
    ensures Watched(acts', true).Some? && PacedBy(acts', rate)
    ensures Sends(acts') == Sends(acts) && PollsOf(acts') == PollsOf(acts) && LastSpeed(acts') == LastSpeed(acts)
    ensures outcome.None? ==> Watched(acts', true) == Some(Watch(false, false, true, true))
    ensures outcome.Some? ==> outcome.value in {Go(h), SawCancelled, Raised}
    ensures outcome == Some(Go(h)) ==> Watched(acts', true) == Some(Watch(true, false, true, false))
    ensures outcome == Some(SawCancelled) <==> Cancelled(h)
    ensures if outcome == Some(Raised) then LastUnheard(acts', f) else Heard(acts', f)
  {
    acts' := acts;
    var raised := false;
    if h.cancelled == Some(true) {
      return Some(SawCancelled), acts';
    }
    if h.paused != Some(true) {
      if pausedFlag {
        acts', raised := Say(acts, ResumedLine, f, rate, true);
      }
      return Some(if raised then Raised else Go(h)), acts';
    }
    if !pausedFlag {
      acts', raised := Say(acts, PausedLine, f, rate, true);
    }
    outcome := if raised then Some(Raised) else None;
  }

  /** _poll_control: reads the hash once, and while it says paused, again and again. The k-th
      read comes after the commands of env[k]; when env is used up the run is cut off there. */
  method PollControl<Trip>(hash: Control, ghost hash0: Control, env: seq<Moment>, k: nat, acts: seq<Act<Trip>>,
      f: Faults, ghost rate: real)
    returns (outcome: PollOutcome, hash': Control, k': nat, acts': seq<Act<Trip>>)
    requires AllReachable(env) && Steady(acts, true) && InStep(acts, hash, hash0, env, k)
      && !AnyCancelled(PollsOf(acts))
    requires rate > 0.0 && PacedBy(acts, rate) && Heard(acts, f)
    ensures InStep(acts', hash', hash0, env, k') && k <= k'
    ensures Watched(acts', true).Some? && Sends(acts') == Sends(acts) && PacedBy(acts', rate)
    ensures outcome.Go? ==>
      Steady(acts', true) && Watched(acts', true).value.cleared && outcome.h == hash' && k < k'
        && LastSpeed(acts') == SpeedOf(hash')
    ensures outcome.SawCancelled? <==> AnyCancelled(PollsOf(acts'))
    ensures !outcome.Raised? ==> Heard(acts', f)
    ensures outcome.Raised? ==> LastUnheard(acts', f) || (k' < |env| && env[k'].RedisError?)
    ensures outcome.CutOff? ==> k' == |env|
  {
    hash', k', acts' := hash, k, acts;
    var pausedFlag := false;
    while k' < |env|
      invariant k <= k' && InStep(acts', hash', hash0, env, k') && Sends(acts') == Sends(acts) && PacedBy(acts', rate)
      invariant !AnyCancelled(PollsOf(acts')) && Heard(acts', f)
      invariant var w := Watched(acts', true);
        w.Some? && !w.value.cancelSeen && w.value.rested && w.value.inPause == pausedFlag
    {
      if env[k'].RedisError? {
        return Raised, hash', k', acts';
      }
      hash', acts' := ReadHash(hash', hash0, env, k', acts', rate);
      k' := k' + 1;
      var decided;
      decided, acts' := ActOn(hash', acts', pausedFlag, f, rate);
      if decided.Some? {
        return decided.value, hash', k', acts';
      }
      pausedFlag := true;
    }
    outcome := CutOff;
  }

  lemma {:induction false} DelayPaces(rate: real, speed: real)
    requires 0.1 <= rate <= MAX_MESSAGES_PER_SECOND && 1.0 <= speed <= 10.0
    ensures 1.0 / rate / speed >= 0.001 && Paces(1.0 / rate / speed, speed, rate)
  {
    DelayAtLeast(rate, speed);
    var pause := 1.0 / rate / speed;
    assert (1.0 / rate) * rate == 1.0;
    assert pause * speed == 1.0 / rate;
  }

  /** A send or a sleep changes nothing about lines and reads. */
  lemma {:induction false} ActAppended<Trip>(acts: seq<Act<Trip>>, a: Act<Trip>, f: Faults, rate: real, live: bool)
    requires rate > 0.0 && PacedBy(acts, rate) && Watched(acts, live).Some? && Heard(acts, f)
    requires a.Send? || (a.Sleep? && Paces(a.seconds, LastSpeed(acts), rate))
    ensures var more := acts + [a];
      && Watched(more, live) == WatchStep(Watched(acts, live).value, a, live) && PacedBy(more, rate) && Heard(more, f)
      && Sends(more) == Sends(acts) + (if a.Send? then [a.trip] else []) && PollsOf(more) == PollsOf(acts)
      && LastSpeed(more) == LastSpeed(acts)
  {
    Push(acts, a, live);
    PushPaced(acts, a, rate);
  }

  /** time.sleep(delay_seconds / speed). */
  method Rest<Trip>(acts: seq<Act<Trip>>, rate: real, speed: real, ghost live: bool, ghost f: Faults)
    returns (acts': seq<Act<Trip>>)
    requires 0.1 <= rate <= MAX_MESSAGES_PER_SECOND && 1.0 <= speed <= 10.0 && LastSpeed(acts) == speed
    requires PacedBy(acts, rate) && Watched(acts, live).Some? && Heard(acts, f)
    ensures Watched(acts', live) == Some(Watched(acts, live).value.(rested := true))
    ensures Sends(acts') == Sends(acts) && PollsOf(acts') == PollsOf(acts) && LastSpeed(acts') == speed
    ensures PacedBy(acts', rate) && Heard(acts', f)
    ensures |acts'| == |acts| + 1 && acts <= acts' && acts'[|acts|].Sleep?
  {
    var pause := 1.0 / rate / speed;
    DelayPaces(rate, speed);
    ActAppended(acts, Sleep(pause), f, rate, live);
    acts' := acts + [Sleep(pause)];
  }

  /** A send, and a progress line after every fiftieth. */
  method SendTrip<Trip>(acts: seq<Act<Trip>>, trip: Trip, sent: nat, total: nat, ghost rate: real, ghost live: bool,
      f: Faults)
    returns (acts': seq<Act<Trip>>, raised: bool)
    requires Steady(acts, live) && (live ==> Watched(acts, live).value.cleared)
    requires rate > 0.0 && PacedBy(acts, rate) && Heard(acts, f)
    ensures acts' == acts + [Send(trip)] + (if (sent + 1) % 50 == 0 then [Log(Progress(sent + 1, total))] else [])
    ensures Watched(acts', live) == Some(Watched(acts, live).value.(cleared := false, rested := false))
    ensures Sends(acts') == Sends(acts) + [trip] && PollsOf(acts') == PollsOf(acts)
    ensures PacedBy(acts', rate) && LastSpeed(acts') == LastSpeed(acts)
    ensures if raised then LastUnheard(acts', f) else Heard(acts', f)
  {
    ActAppended(acts, Send(trip), f, rate, live);
    acts', raised := acts + [Send(trip)], false;
    if (sent + 1) % LOG_EVERY == 0 {
      acts', raised := Say(acts', Progress(sent + 1, total), f, rate, live);
    }
  }

  /** The tail of one pass of the send loop: send, maybe log progress, sleep. */
  method SendOne<Trip>(acts: seq<Act<Trip>>, trip: Trip, sent: nat, total: nat, rate: real, speed: real, live: bool,
      f: Faults)
    returns (acts': seq<Act<Trip>>, raised: bool)
    requires Steady(acts, live) && (live ==> Watched(acts, live).value.cleared)
    requires 0.1 <= rate <= MAX_MESSAGES_PER_SECOND && 1.0 <= speed <= 10.0 && LastSpeed(acts) == speed
      && PacedBy(acts, rate) && Heard(acts, f)
    ensures Watched(acts', live).Some? && Sends(acts') == Sends(acts) + [trip] && PollsOf(acts') == PollsOf(acts)
    ensures PacedBy(acts', rate) && LastSpeed(acts') == speed
    ensures raised ==> LastUnheard(acts', f)
    ensures !raised ==> Steady(acts', live) && Heard(acts', f)
  {
    acts', raised := SendTrip(acts, trip, sent, total, rate, live, f);
    if !raised {
      acts' := Rest(acts', rate, speed, live, f);
    }
  }

  function CountOrNone(sent: nat): Option<nat> {
    if sent == 0 then None else Some(sent)
  }

  /** What can have raised inside the try, when this much has been done. */
  ghost predicate Cause<Trip>(acts: seq<Act<Trip>>, trips: seq<Trip>, live: bool, env: seq<Moment>, f: Faults) {
    var sent, polls := |Sends(acts)|, |PollsOf(acts)|;
    || LastUnheard(acts, f)
    || (f.connect && trips != [] && sent == 0)
    || (sent < |trips| && sent in f.sends)
    || (f.flush && trips != [] && Sends(acts) == trips)
    || (live && polls < |env| && env[polls].RedisError?)
    || (live && f.delete && AnyCancelled(PollsOf(acts)))
  }

  /** The last thing done is the exception's own line, and there was a cause; a cancel that was seen gives way
      only to its own line or the hash's deletion failing. */
  ghost predicate GaveUp<Trip>(acts: seq<Act<Trip>>, trips: seq<Trip>, live: bool, env: seq<Moment>, f: Faults) {
    && acts != [] && acts[|acts| - 1] == Log(ErrorLine)
    && var before := acts[..|acts| - 1];
       && Cause(before, trips, live, env, f)
       && (AnyCancelled(PollsOf(acts)) ==> LastUnheard(before, f) || f.delete)
  }

  /** Why a send loop over `trips` ended as it did. */
  ghost predicate EndsRightly<Trip>(acts: seq<Act<Trip>>, ending: Ending, trips: seq<Trip>, live: bool,
      env: seq<Moment>, f: Faults) {
    var sent, polls := |Sends(acts)|, |PollsOf(acts)|;
    && (AnyCancelled(PollsOf(acts)) ==> ending.CancelledRun? || GaveUp(acts, trips, live, env, f))
    && match ending
       case Succeeded(rows) =>
         && Sends(acts) == trips && rows == Some(sent) && Heard(acts, f)
         && (trips != [] ==> !f.connect && !f.flush && !(live && f.delete))
         && (forall i :: 0 <= i < sent ==> i !in f.sends)
       case CancelledRun(rows) =>
         AnyCancelled(PollsOf(acts)) && rows == CountOrNone(sent) && Heard(acts, f) && !f.delete
       case Failed(rows) =>
         GaveUp(acts, trips, live, env, f) && rows == CountOrNone(sent) && !LastUnheard(acts, f)
       case Escaped =>
         || (GaveUp(acts, trips, live, env, f) && LastUnheard(acts, f))
         || (trips != [] && Sends(acts) == trips && !f.flush && ((live && f.delete) || LastUnheard(acts, f)))
       case Unfinished => live && polls == |env| && Heard(acts, f)
  }

  /** The endings spelt out: the rows each reports, and that cancelled means a read saw the flag and succeeded
      that none did. */
  lemma {:induction false} EndingsMean<Trip>(acts: seq<Act<Trip>>, ending: Ending, trips: seq<Trip>, live: bool,
      env: seq<Moment>, f: Faults)
    requires EndsRightly(acts, ending, trips, live, env, f) && (!live ==> PollsOf(acts) == [])
    ensures ending.Succeeded? ==> Sends(acts) == trips && ending.rows == Some(|trips|)
    ensures ending.Failed? || ending.CancelledRun? ==>
      ending.rows == if Sends(acts) == [] then None else Some(|Sends(acts)|)
    ensures ending.CancelledRun? ==> exists i :: 0 <= i < |PollsOf(acts)| && PollsOf(acts)[i].cancelled == Some(true)
    ensures ending.Succeeded? && trips != [] ==>
      forall i :: 0 <= i < |PollsOf(acts)| ==> PollsOf(acts)[i].cancelled != Some(true)
  {
    forall i | 0 <= i < |PollsOf(acts)| && !AnyCancelled(PollsOf(acts))
      ensures PollsOf(acts)[i].cancelled != Some(true)
    {
      assert !Cancelled(PollsOf(acts)[i]);
    }
  }

  /** A trace that a part of the job may end with. */
  ghost predicate Sound<Trip>(acts: seq<Act<Trip>>, trips: seq<Trip>, rate: real, live: bool, hash0: Control,
      env: seq<Moment>)
    requires rate > 0.0
  {
    Watched(acts, live).Some? && Sends(acts) <= trips && PacedBy(acts, rate) && TrueReads(acts, hash0, env)
  }

  /** The except branch: the error is logged and, if that succeeds, returned. */
  method GiveUp<Trip>(acts: seq<Act<Trip>>, sent: nat, ghost trips: seq<Trip>, ghost rate: real, ghost live: bool,
      ghost hash0: Control, ghost env: seq<Moment>, f: Faults)
    returns (acts': seq<Act<Trip>>, ending: Ending)
    requires rate > 0.0 && Sound(acts, trips, rate, live, hash0, env) && sent == |Sends(acts)|
    requires Cause(acts, trips, live, env, f)
    requires AnyCancelled(PollsOf(acts)) ==> LastUnheard(acts, f) || f.delete
    ensures Sound(acts', trips, rate, live, hash0, env) && EndsRightly(acts', ending, trips, live, env, f)
    ensures acts' == acts + [Log(ErrorLine)] && Sends(acts') == Sends(acts)
    ensures ending == if LineCount(acts) in f.lines then Escaped else Failed(CountOrNone(sent))
  {
    var raised;
    acts', raised := Say(acts, ErrorLine, f, rate, live);
    assert acts'[..|acts'| - 1] == acts;
    ending := if raised then Escaped else Failed(CountOrNone(sent));
  }

  /** A read saw the cancel: its line, the hash's deletion, and the return; either call may still raise. */
  method StopCancelled<Trip>(acts: seq<Act<Trip>>, sent: nat, hash: Control, trips: seq<Trip>, ghost rate: real,
      ghost hash0: Control, ghost env: seq<Moment>, f: Faults)
    returns (acts': seq<Act<Trip>>, ending: Ending, hash': Control)
    requires rate > 0.0 && Sound(acts, trips, rate, true, hash0, env) && sent == |Sends(acts)|
    requires AnyCancelled(PollsOf(acts)) && Heard(acts, f)
    ensures Sound(acts', trips, rate, true, hash0, env) && EndsRightly(acts', ending, trips, true, env, f)
    ensures !ending.Succeeded? && (ending.CancelledRun? ==> hash' == EMPTY)
  {
    var raised;
    acts', raised := Say(acts, CancelledAfter(sent, |trips|), f, rate, true);
    if raised || f.delete {
      hash' := hash;
      acts', ending := GiveUp(acts', sent, trips, rate, true, hash0, env, f);
    } else {
      ending, hash' := CancelledRun(CountOrNone(sent)), EMPTY;
    }
  }

  /** After the last send: the flush inside the try; the hash's deletion and the last line outside it. */
  method Flush<Trip>(trips: seq<Trip>, rate: real, live: bool, hash: Control, ghost hash0: Control, env: seq<Moment>,
                     f: Faults, acts: seq<Act<Trip>>)
    returns (acts': seq<Act<Trip>>, ending: Ending, hash': Control)
    requires 0.1 <= rate <= MAX_MESSAGES_PER_SECOND && trips != [] && !f.connect
    requires Sound(acts, trips, rate, live, hash0, env) && Sends(acts) == trips
    requires Heard(acts, f) && !AnyCancelled(PollsOf(acts)) && forall i :: 0 <= i < |trips| ==> i !in f.sends
    ensures Sound(acts', trips, rate, live, hash0, env) && EndsRightly(acts', ending, trips, live, env, f)
    ensures Sends(acts') == trips && (ending.Succeeded? || ending.Failed? || ending.Escaped?)
    ensures ending.Failed? ==> f.flush
    ensures ending.Succeeded? ==> !f.flush && (live ==> hash' == EMPTY)
  {
    acts', ending, hash' := acts, Escaped, hash;
    if f.flush {
      acts', ending := GiveUp(acts, |trips|, trips, rate, live, hash0, env, f);
      return;
    }
    if live {
      if f.delete {
        return;
      }
      hash' := EMPTY;
    }
    var raised;
    acts', raised := Say(acts, SentAll(|trips|), f, rate, live);
    if !raised {
      ending := Succeeded(Some(|trips|));
    }
  }

  /** Between two passes of the send loop: the first `sent` trips are sent, and nothing has raised. */
  ghost predicate Going<Trip>(acts: seq<Act<Trip>>, sent: nat, trips: seq<Trip>, rate: real, live: bool,
      hash: Control, hash0: Control, env: seq<Moment>, k: nat, f: Faults)
    requires rate > 0.0
  {
    && sent <= |trips| && Sends(acts) == trips[..sent] && Steady(acts, live) && PacedBy(acts, rate)
    && InStep(acts, hash, hash0, env, k) && !AnyCancelled(PollsOf(acts)) && (!live ==> LastSpeed(acts) == 1.0)
    && Heard(acts, f) && forall i :: 0 <= i < sent ==> i !in f.sends
  }

  /** The first half of a pass under live control: the speed to send at, or the end. */
  method Consult<Trip>(acts0: seq<Act<Trip>>, sent: nat, trips: seq<Trip>, ghost rate: real, hash0: Control,
      ghost start: Control, env: seq<Moment>, k0: nat, f: Faults)
    returns (acts: seq<Act<Trip>>, stopped: Option<Ending>, speed: real, hash: Control, k: nat)
    requires AllReachable(env) && rate > 0.0
    requires Going(acts0, sent, trips, rate, true, hash0, start, env, k0, f)
    ensures stopped.None? ==>
      && Going(acts, sent, trips, rate, true, hash, start, env, k, f) && Watched(acts, true).value.cleared
      && LastSpeed(acts) == speed && 1.0 <= speed <= 10.0
    ensures stopped.Some? ==>
      && Sound(acts, trips, rate, true, start, env) && EndsRightly(acts, stopped.value, trips, true, env, f)
      && !stopped.value.Succeeded? && (stopped.value.CancelledRun? ==> hash == EMPTY)
  {
    var outcome, ending;
    speed := 1.0;
    outcome, hash, k, acts := PollControl(hash0, start, env, k0, acts0, f, rate);
    match outcome
    case Go(h) =>
      stopped, speed := None, SpeedOf(h);
    case CutOff =>
      stopped := Some(Unfinished);
    case Raised =>
      acts, ending := GiveUp(acts, sent, trips, rate, true, start, env, f);
      stopped := Some(ending);
    case SawCancelled =>
      acts, ending, hash := StopCancelled(acts, sent, hash, trips, rate, start, env, f);
      stopped := Some(ending);
  }

  /** The second half: the send and what follows it. */
  method Deliver<Trip>(acts0: seq<Act<Trip>>, sent: nat, trips: seq<Trip>, rate: real, speed: real, live: bool,
      ghost hash: Control, ghost start: Control, ghost env: seq<Moment>, ghost k: nat, f: Faults)
    returns (acts: seq<Act<Trip>>, stopped: Option<Ending>)
    requires 0.1 <= rate <= MAX_MESSAGES_PER_SECOND && 1.0 <= speed <= 10.0 && sent < |trips|
    requires Going(acts0, sent, trips, rate, live, hash, start, env, k, f)
    requires (live ==> Watched(acts0, live).value.cleared) && LastSpeed(acts0) == speed
    ensures stopped.None? ==> Going(acts, sent + 1, trips, rate, live, hash, start, env, k, f)
    ensures stopped.Some? ==>
      && Sound(acts, trips, rate, live, start, env) && EndsRightly(acts, stopped.value, trips, live, env, f)
      && (stopped.value.Failed? || stopped.value.Escaped?)
  {
    var ending, raised;
    assert |Sends(acts0)| == sent;
    if sent in f.sends {
      acts, ending := GiveUp(acts0, sent, trips, rate, live, start, env, f);
      return acts, Some(ending);
    }
    acts, raised := SendOne(acts0, trips[sent], sent, |trips|, rate, speed, live, f);
    assert Sends(acts) == trips[..sent + 1];
    if raised {
      acts, ending := GiveUp(acts, sent + 1, trips, rate, live, start, env, f);
      return acts, Some(ending);
    }
    stopped := None;
  }

  /** One pass: read the controls, if any, and send a trip; or stop. */
  method Pass<Trip>(acts0: seq<Act<Trip>>, sent: nat, trips: seq<Trip>, rate: real, live: bool, hash0: Control,
      ghost start: Control, env: seq<Moment>, k0: nat, f: Faults)
    returns (acts: seq<Act<Trip>>, stopped: Option<Ending>, hash: Control, k: nat)
    requires AllReachable(env) && 0.1 <= rate <= MAX_MESSAGES_PER_SECOND && sent < |trips|
    requires Going(acts0, sent, trips, rate, live, hash0, start, env, k0, f)
    ensures stopped.None? ==> Going(acts, sent + 1, trips, rate, live, hash, start, env, k, f)
    ensures stopped.Some? ==>
      && Sound(acts, trips, rate, live, start, env) && EndsRightly(acts, stopped.value, trips, live, env, f)
      && !stopped.value.Succeeded? && (stopped.value.CancelledRun? ==> hash == EMPTY)
  {
    var speed := 1.0;
    acts, stopped, hash, k := acts0, None, hash0, k0;
    if live {
      acts, stopped, speed, hash, k := Consult(acts, sent, trips, rate, hash, start, env, k, f);
    }
    if stopped.None? {
      acts, stopped := Deliver(acts, sent, trips, rate, speed, live, hash, start, env, k, f);
    }
  }

  /** The send loop over the trips cut to the limit. */
  method SendLoop<Trip>(trips: seq<Trip>, rate: real, live: bool, hash0: Control, env: seq<Moment>, f: Faults,
      acts0: seq<Act<Trip>>)
    returns (acts: seq<Act<Trip>>, ending: Ending, hash: Control)
    requires ValidSpeed(hash0) && AllReachable(env) && 0.1 <= rate <= MAX_MESSAGES_PER_SECOND
    requires trips != [] && !f.connect
    requires Steady(acts0, live) && Sends(acts0) == [] && PollsOf(acts0) == [] && LastSpeed(acts0) == 1.0
      && PacedBy(acts0, rate) && Heard(acts0, f)
    ensures Sound(acts, trips, rate, live, hash0, env) && EndsRightly(acts, ending, trips, live, env, f)
    ensures live && (ending.CancelledRun? || ending.Succeeded?) ==> hash == EMPTY
  {
    var sent, k, stopped := 0, 0, None;
    acts, hash := acts0, hash0;
    assert env[..0] == [];
    while sent < |trips|
      invariant Going(acts, sent, trips, rate, live, hash, hash0, env, k, f)
    {
      acts, stopped, hash, k := Pass(acts, sent, trips, rate, live, hash, hash0, env, k, f);
      if stopped.Some? {
        return acts, stopped.value, hash;
      }
      sent := sent + 1;
    }
    assert trips[..sent] == trips;
    acts, ending, hash := Flush(trips, rate, live, hash, hash0, env, f, acts);
  }

  function DayCut<Trip>(day: seq<Trip>, limit: nat): (trips: seq<Trip>)
    ensures trips <= day && |trips| == Min(|day|, limit)
  {
    if |day| > limit then day[..limit] else day
  }

  lemma {:induction false} InitialisedValid(h: Control)
    requires ValidSpeed(h)
    ensures ValidSpeed(Initialised(h))
  {}

  /** The replay of the day cut to the limit. */
  method Replayed<Trip>(trips: seq<Trip>, rate: real, live: bool, hash0: Control, env: seq<Moment>, f: Faults)
    returns (acts: seq<Act<Trip>>, ending: Ending, hash: Control)
    requires ValidSpeed(hash0) && AllReachable(env) && 0.1 <= rate <= MAX_MESSAGES_PER_SECOND
    ensures Sound(acts, trips, rate, live, hash0, env) && EndsRightly(acts, ending, trips, live, env, f)
    ensures live && (ending.CancelledRun? || (ending.Succeeded? && Sends(acts) != [])) ==> hash == EMPTY
  {
    var raised;
    acts, hash := [], hash0;
    assert env[..0] == [];
    acts, raised := Say(acts, Replaying(|trips|), f, rate, live);
    if !raised && |trips| == 0 {
      acts, raised := Say(acts, NoTrips, f, rate, live);
      if !raised {
        return acts, Succeeded(Some(0)), hash;
      }
    }
    if raised || f.connect {
      acts, ending := GiveUp(acts, 0, trips, rate, live, hash0, env, f);
    } else {
      acts, ending, hash := SendLoop(trips, rate, live, hash, env, f, acts);
    }
  }

  lemma {:induction false} NothingYet<Trip>(acts: seq<Act<Trip>>, rate: real, live: bool, hash0: Control,
      env: seq<Moment>)
    requires rate > 0.0 && acts == []
    ensures Sound(acts, [], rate, live, hash0, env) && LineCount(acts) == 0
  {
    assert env[..0] == [];
  }

  /** Loading the day raised. */
  method NotLoaded<Trip>(ghost rate: real, ghost live: bool, ghost hash0: Control, ghost env: seq<Moment>, f: Faults)
    returns (acts: seq<Act<Trip>>, ending: Ending)
    requires rate > 0.0
    ensures Sound(acts, [], rate, live, hash0, env) && ending == if 0 in f.lines then Escaped else Failed(None)
  {
    acts := [];
    NothingYet(acts, rate, live, hash0, env);
    var raised;
    acts, raised := Say(acts, ErrorLine, f, rate, live);
    ending := if raised then Escaped else Failed(None);
  }

  /** The try block over `day`: the sorted trips, or None if loading them raised. */
  method Tried<Trip>(day: Option<seq<Trip>>, limit: nat, rate: real, live: bool, hash0: Control, env: seq<Moment>,
      f: Faults)
    returns (acts: seq<Act<Trip>>, ending: Ending, hash: Control)
    requires ValidSpeed(hash0) && AllReachable(env) && 0.1 <= rate <= MAX_MESSAGES_PER_SECOND
    ensures day.None? ==>
      Sound(acts, [], rate, live, hash0, env) && ending == if 0 in f.lines then Escaped else Failed(None)
    ensures day.Some? ==>
      && Sound(acts, DayCut(day.value, limit), rate, live, hash0, env)
      && EndsRightly(acts, ending, DayCut(day.value, limit), live, env, f)
    ensures live && (ending.CancelledRun? || (ending.Succeeded? && Sends(acts) != [])) ==> hash == EMPTY
  {
    if day.None? {
      hash := hash0;
      acts, ending := NotLoaded(rate, live, hash0, env, f);
    } else {
      acts, ending, hash := Replayed(DayCut(day.value, limit), rate, live, hash0, env, f);
    }
  }

  /** run: the whole job, for every sequence of moments and whatever raises. `live` is whether the params carried
      a job_id. */
  method Run<Trip>(day: Option<seq<Trip>>, limitParam: Param, rateParam: Param, asInt: string -> Option<int>,
                   asReal: string -> Option<real>, live: bool, hash0: Control, env: seq<Moment>, f: Faults)
    returns (acts: seq<Act<Trip>>, ending: Ending, hash: Control)
    requires ValidSpeed(hash0) && AllReachable(env)
    ensures Safe(acts, live) && |Sends(acts)| <= 5000
    ensures TrueReads(acts, if live then Initialised(hash0) else hash0, env)
    ensures var limit, rate := ResolveLimit(limitParam, asInt), ResolveRate(rateParam, asReal);
      if limit.None? || rate.None? || (live && f.setup) then acts == [] && ending == Escaped
      else
        && PacedBy(acts, rate.value)
        && if day.None? then Sends(acts) == [] && ending == if 0 in f.lines then Escaped else Failed(None)
           else
             var trips := DayCut(day.value, limit.value);
             Sends(acts) <= trips && EndsRightly(acts, ending, trips, live, env, f)
    ensures live && (ending.CancelledRun? || (ending.Succeeded? && Sends(acts) != [])) ==> hash == EMPTY
  {
    var limit, rate := ResolveLimit(limitParam, asInt), ResolveRate(rateParam, asReal);
    if limit.None? || rate.None? || (live && f.setup) {
      assert env[..0] == [];
      return [], Escaped, hash0;
    }
    hash := if live then Initialised(hash0) else hash0;
    InitialisedValid(hash0);
    acts, ending, hash := Tried(day, limit.value, rate.value, live, hash, env, f);
    WatchedIsSafe(acts, live);
  }

  lemma {:induction false} ReadingIs(h: Control, env: seq<Moment>, k: nat)
    requires k < |env|
    ensures |Readings(h, env)| == |env| && Readings(h, env)[k] == HashAfter(h, env[..k + 1])
  {
    if k == |env| - 1 {
      assert env[..k + 1] == env;
      if k > 0 {
        ReadingIs(h, env[..k], 0);
      }
    } else {
      ReadingIs(h, env[..|env| - 1], k);
      assert env[..|env| - 1][..k + 1] == env[..k + 1];
    }
  }

  /** A cancel written before the job starts is what its first read sees exactly if the commands before that
      read keep it: initialising the hash does not overwrite it. */
  lemma {:induction false} FirstReadSeesCancelExactly<Trip>(acts: seq<Act<Trip>>, hash0: Control, env: seq<Moment>)
    requires TrueReads(acts, Initialised(hash0), env) && hash0.cancelled == Some(true) && PollsOf(acts) != []
    ensures env[0].Commands? && (PollsOf(acts)[0].cancelled == Some(true) <==> KeepsCancel(env[0].cs))
  {
    var n := |PollsOf(acts)|;
    ReadingIs(Initialised(hash0), env[..n], 0);
    ReadStep(Initialised(hash0), env, 0);
    assert env[..n][..1] == env[..1] && env[..0] == [];
    CancelVisibleExactly(Initialised(hash0), env[0].cs);
  }

  /** Then no trip is ever sent; nor if the first read fails or never comes. */
  lemma {:induction false} CancelledBeforeStartSendsNothing<Trip>(
    acts: seq<Act<Trip>>, hash0: Control, env: seq<Moment>, j: int)
    requires Safe(acts, true) && TrueReads(acts, Initialised(hash0), env) && hash0.cancelled == Some(true)
    requires env == [] || env[0].RedisError? || KeepsCancel(env[0].cs)
    requires 0 <= j < |acts|
    ensures !acts[j].Send?
  {
    if acts[j].Send? {
      assert ClearedAt(acts, j);
      var k :| 0 <= k < j && acts[k].Poll? && !Paused(acts[k].h) && !Cancelled(acts[k].h)
               && forall m :: k < m < j ==> !acts[m].Poll? && !acts[m].Send?;
      var i := FirstPoll(acts, k);
      FirstReadSeesCancelExactly(acts, hash0, env);
    }
  }

  lemma {:induction false} FirstPoll<Trip>(acts: seq<Act<Trip>>, k: int) returns (i: int)
    requires 0 <= k < |acts| && acts[k].Poll?
    ensures 0 <= i <= k && acts[i].Poll? && |PollsOf(acts)| > 0 && PollsOf(acts)[0] == acts[i].h
  {
    var n := |acts| - 1;
    if exists m :: 0 <= m < n && m <= k && acts[m].Poll? {
      var m :| 0 <= m < n && m <= k && acts[m].Poll?;
      i := FirstPoll(acts[..n], m);
    } else {
      assert k == n;
      i := k;
      NoPolls(acts[..n]);
    }
  }

  lemma {:induction false} NoPolls<Trip>(acts: seq<Act<Trip>>)
    requires forall m :: 0 <= m < |acts| ==> !acts[m].Poll?
    ensures PollsOf(acts) == []
  {
    if acts != [] {
      NoPolls(acts[..|acts| - 1]);
    }
  }

  /** The commands of these moments, in order. */
  function CommandsOf(env: seq<Moment>): seq<Command> {
    if env == [] then [] else
      CommandsOf(env[..|env| - 1]) + (if env[|env| - 1].Commands? then env[|env| - 1].cs else [])
  }

  lemma {:induction false} WrittenConcat(h: Control, a: seq<Command>, b: seq<Command>)
    ensures WrittenAll(h, a + b) == WrittenAll(WrittenAll(h, a), b)
  {
    if b == [] {
      assert a + b == a;
    } else {
      WrittenConcat(h, a, b[..|b| - 1]);
      assert (a + b)[..|a + b| - 1] == a + b[..|b| - 1];
    }
  }

  lemma {:induction false} HashAfterCommands(h: Control, env: seq<Moment>)
    ensures HashAfter(h, env) == WrittenAll(h, CommandsOf(env))
  {
    if env != [] {
      var n := |env| - 1;
      HashAfterCommands(h, env[..n]);
      if env[n].Commands? {
        WrittenConcat(h, CommandsOf(env[..n]), env[n].cs);
      } else {
        assert CommandsOf(env) == CommandsOf(env[..n]);
      }
    }
  }

  /** Every read returns the hash as all commands before it have left it, in their order: in particular it says
      paused exactly if the last pause, resume or expiry before it is a pause. */
  lemma {:induction false} ReadsSeeCommands<Trip>(acts: seq<Act<Trip>>, h: Control, env: seq<Moment>, k: nat, i: nat)
    requires TrueReads(acts, h, env) && k < |PollsOf(acts)|
    ensures PollsOf(acts)[k] == WrittenAll(h, CommandsOf(env[..k + 1]))
    ensures var cs := CommandsOf(env[..k + 1]);
      i < |cs| && cs[i] in {Pause, Resume, Expire} && (forall j :: i < j < |cs| ==> cs[j] !in {Pause, Resume, Expire})
      ==> (PollsOf(acts)[k].paused == Some(true) <==> cs[i] == Pause)
  {
    var seen := env[..|PollsOf(acts)|];
    ReadingIs(h, seen, k);
    assert seen[..k + 1] == env[..k + 1];
    HashAfterCommands(h, env[..k + 1]);
    var cs := CommandsOf(env[..k + 1]);
    if i < |cs| && cs[i] in {Pause, Resume, Expire} && forall j :: i < j < |cs| ==> cs[j] !in {Pause, Resume, Expire} {
      PausedByTheLast(h, cs, i);
    }
  }

  // ---- what safety means for the person watching ----

  /** Between a read that saw paused and a later send, some read saw it lifted. */
  lemma {:induction false} NoSendWhilePaused<Trip>(acts: seq<Act<Trip>>, i: int, j: int)
    requires Safe(acts, true) && 0 <= i < j < |acts|
    requires acts[i].Poll? && acts[i].h.paused == Some(true) && acts[j].Send?
    ensures exists k :: i < k < j && acts[k].Poll? && acts[k].h.paused != Some(true)
  {
    assert ClearedAt(acts, j);
    var k :| 0 <= k < j && acts[k].Poll? && !Paused(acts[k].h) && !Cancelled(acts[k].h)
             && forall m :: k < m < j ==> !acts[m].Poll? && !acts[m].Send?;
    assert i < k;
  }

  /** After a read that saw the cancel nothing is sent; and every send follows a read that saw neither flag, with
      no other send in between. */
  lemma {:induction false} SendsFollowClearReads<Trip>(acts: seq<Act<Trip>>, j: int)
    requires Safe(acts, true) && 0 <= j < |acts| && acts[j].Send?
    ensures forall i :: 0 <= i < j && acts[i].Poll? ==> acts[i].h.cancelled != Some(true)
    ensures exists k ::
        && 0 <= k < j && acts[k].Poll? && acts[k].h.paused != Some(true)
        && forall m :: k < m < j ==> !acts[m].Poll? && !acts[m].Send?
  {
    assert ClearedAt(acts, j);
    forall i | 0 <= i < j && acts[i].Poll?
      ensures acts[i].h.cancelled != Some(true)
    {
      assert !Cancelled(acts[i].h);
    }
  }

  /** A sleep lasts one over the rate over the speed of the last read before it, a missing speed counting 1. */
  lemma {:induction false} SleepsArePaced<Trip>(acts: seq<Act<Trip>>, rate: real, k: int, i: int)
    requires rate > 0.0 && PacedBy(acts, rate) && 0 <= k < i < |acts| && acts[k].Poll? && acts[i].Sleep?
    requires forall m :: k < m < i ==> !acts[m].Poll?
    ensures acts[i].seconds * rate * (if acts[k].h.speed.Some? then acts[k].h.speed.value as real else 1.0) == 1.0
  {
    var n := |acts| - 1;
    if i < n {
      SleepsArePaced(acts[..n], rate, k, i);
    } else {
      LastSpeedIs(acts[..n], k);
      var d, speed := acts[i].seconds, LastSpeed(acts[..n]);
      assert d * speed * rate == 1.0;
      assert d * rate * speed == d * speed * rate;
    }
  }

  lemma {:induction false} LastSpeedIs<Trip>(acts: seq<Act<Trip>>, k: int)
    requires 0 <= k < |acts| && acts[k].Poll? && forall m :: k < m < |acts| ==> !acts[m].Poll?
    ensures LastSpeed(acts) == if acts[k].h.speed.Some? then acts[k].h.speed.value as real else 1.0
  {
    if k < |acts| - 1 {
      LastSpeedIs(acts[..|acts| - 1], k);
    }
  }

  /** "resumed" is logged only after a "paused" that nothing has resumed, and "paused" only outside a pause. */
  lemma {:induction false} PauseLinesPair<Trip>(acts: seq<Act<Trip>>, live: bool, j: int) returns (i: int)
    requires Safe(acts, live) && 0 <= j < |acts| && acts[j] in {Log(PausedLine), Log(ResumedLine)}
    ensures -1 <= i < j && forall m :: i < m < j ==> acts[m] !in {Log(PausedLine), Log(ResumedLine)}
    ensures acts[j] == Log(ResumedLine) ==> i >= 0 && acts[i] == Log(PausedLine)
    ensures acts[j] == Log(PausedLine) ==> i >= 0 ==> acts[i] == Log(ResumedLine)
  {
    i := LastPauseLine(acts[..j]);
    PauseLinesPrefix(acts, j);
    var lines := PauseLines(acts[..j]);
    assert PauseLines(acts)[|lines|] <==> acts[j] == Log(PausedLine);
    if i >= 0 {
      assert PauseLines(acts)[|lines| - 1] == lines[|lines| - 1];
    }
  }

  lemma {:induction false} LastPauseLine<Trip>(acts: seq<Act<Trip>>) returns (i: int)
    ensures -1 <= i < |acts| && forall m :: i < m < |acts| ==> acts[m] !in {Log(PausedLine), Log(ResumedLine)}
    ensures if i < 0 then PauseLines(acts) == [] else
      && acts[i] in {Log(PausedLine), Log(ResumedLine)} && PauseLines(acts) != []
      && (PauseLines(acts)[|PauseLines(acts)| - 1] <==> acts[i] == Log(PausedLine))
  {
    if acts == [] {
      i := -1;
    } else if acts[|acts| - 1] in {Log(PausedLine), Log(ResumedLine)} {
      i := |acts| - 1;
    } else {
      i := LastPauseLine(acts[..|acts| - 1]);
    }
  }

  lemma {:induction false} PauseLinesPrefix<Trip>(acts: seq<Act<Trip>>, j: int)
    requires 0 <= j < |acts| && acts[j] in {Log(PausedLine), Log(ResumedLine)}
    ensures PauseLines(acts[..j]) + [acts[j] == Log(PausedLine)] <= PauseLines(acts)
  {
    var n := |acts| - 1;
    if j < n {
      PauseLinesPrefix(acts[..n], j);
      assert acts[..n][..j] == acts[..j];
    }
  }

  // ---- the rate bound ----

  /** A clock reading for every act: time never runs backwards and a sleep takes its length. */
  ghost predicate Timed<Trip>(acts: seq<Act<Trip>>, at: seq<real>) {
    && |at| == |acts|
    && (forall i, j :: 0 <= i <= j < |acts| ==> at[i] <= at[j])
    && (forall i :: 0 <= i < |acts| - 1 && acts[i].Sleep? ==> at[i + 1] >= at[i] + acts[i].seconds)
  }

  /** Successive sends are at least a millisecond apart. */
  lemma {:induction false} SendsApart<Trip>(acts: seq<Act<Trip>>, at: seq<real>, live: bool, i: int, j: int)
    requires Safe(acts, live) && Timed(acts, at) && 0 <= i < j < |acts| && acts[i].Send? && acts[j].Send?
    ensures at[j] - at[i] >= 0.001
  {
    assert RestBetween(acts, i, j);
    var k :| i < k < j && Rests(acts[k]);
    assert at[i] <= at[k] && at[k + 1] >= at[k] + acts[k].seconds && at[k + 1] <= at[j];
  }

  ghost function SendsWithin<Trip>(acts: seq<Act<Trip>>, at: seq<real>, from: real, to: real): set<nat>
    requires |at| == |acts|
  {
    set i: nat | i < |acts| && acts[i].Send? && from <= at[i] <= to
  }

  lemma {:induction false} Latest(s: set<nat>) returns (m: nat)
    requires |s| > 0
    ensures m in s && forall i :: i in s ==> i <= m
  {
    var one :| one in s;
    var rest := s - {one};
    m := one;
    if rest != {} {
      var r := Latest(rest);
      m := if one <= r then r else one;
      forall i | i in s ensures i <= m { assert i == one || i in rest; }
    } else {
      assert s == {one};
    }
  }

  /** In any interval of T seconds at most 1000 T + 1 trips are sent, whatever commands arrive. */
  lemma {:induction false} RateBounded<Trip>(acts: seq<Act<Trip>>, at: seq<real>, live: bool, from: real, to: real)
    requires Safe(acts, live) && Timed(acts, at) && from <= to
    ensures |SendsWithin(acts, at, from, to)| as real <= 1000.0 * (to - from) + 1.0
    decreases |SendsWithin(acts, at, from, to)|
  {
    var s := SendsWithin(acts, at, from, to);
    if s != {} {
      var m := Latest(s);
      var rest := s - {m};
      assert |s| == |rest| + 1;
      if rest != {} {
        var before := at[m] - 0.001;
        assert rest == SendsWithin(acts, at, from, before) by {
          forall i | i in rest ensures at[i] <= before { SendsApart(acts, at, live, i, m); }
        }
        var one :| one in rest;
        RateBounded(acts, at, live, from, before);
      }
    }
  }
}
