/** What one execution leaves behind: the in-memory result, and the event in the shared log. */
module Recording {
  import opened Prelude

  const MAX_RECORDED_OUTPUT := 200_000

  type RunId = string

  datatype Kind = Code | Shell | Background | FileWrite | FileRead | Setup | MockService | Device | Remote

  /** A normalized result, without its timestamps and the raw reply, which are not recorded. */
  datatype ExecResult = ExecResult(kind: Kind, input: string, language: Option<string>, stdout: string, stderr: string,
                                   exitCode: Option<int>, isError: bool, time: Option<real>,
                                   taskId: Option<string>, taskStatus: Option<string>)

  datatype Actor = User | Agent | System

  /** File contents as the caller gave them, and as the log stores them. */
  datatype Data = Text(text: string) | Bytes(bytes: seq<bv8>)
  datatype Stored = Plain(text: string) | Base64(bytes: seq<bv8>)

  /** `Other` is every event that is not an execution: notes, messages, snapshots, evaluations. */
  datatype Payload = Exec(result: ExecResult, files: map<string, Stored>) | Other(what: string)

  datatype Event = Event(number: nat, run: RunId, actor: Actor, payload: Payload)

  // ---- results ------------------------------------------------------------------------

  function Output(r: ExecResult): string {
    if r.stdout == "" then r.stderr
    else if r.stderr == "" then r.stdout
    else r.stdout + "\n" + r.stderr
  }

  function Digits(n: nat): string {
    if n < 10 then [('0' as int + n) as char] else Digits(n / 10) + [('0' as int + n % 10) as char]
  }

  /** Long texts keep their two ends. */
  function Clip(t: string): string {
    if |t| <= MAX_RECORDED_OUTPUT then t
    else
      var dropped := "\n... (" + Digits(|t| - MAX_RECORDED_OUTPUT) + " chars truncated in recording) ...\n";
      t[..MAX_RECORDED_OUTPUT / 2] + dropped + t[|t| - MAX_RECORDED_OUTPUT / 2..]
  }

  /** What a clipped text keeps are its two ends, 100000 characters each. */
  lemma ClipKeepsTheEnds(t: string)
    ensures |t| <= 200_000 ==> Clip(t) == t
    ensures |t| > 200_000 ==>
      && |Clip(t)| >= 200_000
      && Clip(t)[..100_000] == t[..100_000] && Clip(t)[|Clip(t)| - 100_000..] == t[|t| - 100_000..]
  {
    if |t| > 200_000 {
      var dropped := "\n... (" + Digits(|t| - 200_000) + " chars truncated in recording) ...\n";
      EndsOf(t[..100_000], dropped, t[|t| - 100_000..]);
    }
  }

  lemma EndsOf(a: string, between: string, z: string)
    ensures var t := a + between + z;
      t[..|a|] == a && t[|t| - |z|..] == z && |t| == |a| + |between| + |z|
  {
  }

  function ClipResult(r: ExecResult): ExecResult {
    r.(stdout := Clip(r.stdout), stderr := Clip(r.stderr))
  }

  predicate WithinLimit(r: ExecResult) {
    |r.stdout| <= MAX_RECORDED_OUTPUT && |r.stderr| <= MAX_RECORDED_OUTPUT
  }

  function ClipAll(rs: seq<ExecResult>): (c: seq<ExecResult>)
    ensures |c| == |rs| && forall i :: 0 <= i < |rs| ==> c[i] == ClipResult(rs[i])
  {
    seq(|rs|, i requires 0 <= i < |rs| => ClipResult(rs[i]))
  }

  function Encode(d: Data): Stored {
    match d
    case Text(t) => Plain(t)
    case Bytes(b) => Base64(b)
  }

  function Decode(s: Stored): Data {
    match s
    case Plain(t) => Text(t)
    case Base64(b) => Bytes(b)
  }

  function EncodeFiles(files: map<string, Data>): map<string, Stored> {
    map p | p in files :: Encode(files[p])
  }

  // ---- the log read back ----------------------------------------------------------------

  /** The executions of one run, from the shared log. */
  function ResultsFromEvents(log: seq<Event>, run: RunId): seq<ExecResult> {
    if log == [] then [] else
      var e := log[|log| - 1];
      ResultsFromEvents(log[..|log| - 1], run) + if e.run == run && e.payload.Exec? then [e.payload.result] else []
  }

  /** How many executions of a run were not made by the system itself. */
  function Billed(log: seq<Event>, run: RunId): nat {
    if log == [] then 0 else
      var e := log[|log| - 1];
      Billed(log[..|log| - 1], run) + if e.run == run && e.payload.Exec? && !e.actor.System? then 1 else 0
  }

  function Errors(rs: seq<ExecResult>): nat {
    if rs == [] then 0 else Errors(rs[..|rs| - 1]) + if rs[|rs| - 1].isError then 1 else 0
  }

  function Seconds(r: ExecResult): real {
    if r.time.Some? then r.time.value else 0.0
  }

  function TotalTime(rs: seq<ExecResult>): real {
    if rs == [] then 0.0 else TotalTime(rs[..|rs| - 1]) + Seconds(rs[|rs| - 1])
  }

  lemma LogPush(log: seq<Event>, e: Event, run: RunId)
    ensures ResultsFromEvents(log + [e], run)
         == ResultsFromEvents(log, run) + if e.run == run && e.payload.Exec? then [e.payload.result] else []
    ensures Billed(log + [e], run) ==
      Billed(log, run) + if e.run == run && e.payload.Exec? && !e.actor.System? then 1 else 0
  {
    assert (log + [e])[..|log|] == log;
  }

  lemma ResultsPush(rs: seq<ExecResult>, r: ExecResult)
    ensures Errors(rs + [r]) == Errors(rs) + if r.isError then 1 else 0
    ensures TotalTime(rs + [r]) == TotalTime(rs) + Seconds(r)
    ensures ClipAll(rs + [r]) == ClipAll(rs) + [ClipResult(r)]
  {
    assert (rs + [r])[..|rs|] == rs;
  }

  lemma ClipAllWithinLimit(rs: seq<ExecResult>)
    requires forall i :: 0 <= i < |rs| ==> WithinLimit(rs[i])
    ensures ClipAll(rs) == rs
  {
  }

  lemma {:induction false} NoEvents(log: seq<Event>, run: RunId)
    requires forall i :: 0 <= i < |log| ==> log[i].run != run || !log[i].payload.Exec?
    ensures ResultsFromEvents(log, run) == [] && Billed(log, run) == 0
  {
    if log != [] { NoEvents(log[..|log| - 1], run); }
  }
}
