/** Replaying a recording: the same inputs give back the recorded results, and the files come back. */
module Replay {
  import opened Prelude
  import opened Recording

  // ---- what a recording holds -------------------------------------------------------------

  /** The recorded results for one input, in order. */
  function Recordings(events: seq<Event>, input: string): seq<ExecResult> {
    if events == [] then [] else
      var e := events[|events| - 1];
      Recordings(events[..|events| - 1], input)
      + if e.payload.Exec? && e.payload.result.input == input then [e.payload.result] else []
  }

  function DecodeFiles(files: map<string, Stored>): map<string, Data> {
    map p | p in files :: Decode(files[p])
  }

  /** All file writes of a recording, the last one of each path winning. */
  function Written(events: seq<Event>): map<string, Data> {
    if events == [] then map[] else
      var e := events[|events| - 1];
      var before := Written(events[..|events| - 1]);
      if e.payload.Exec? && e.payload.result.kind.FileWrite? then before + DecodeFiles(e.payload.files) else before
  }

  function Lookup<T>(m: map<string, seq<T>>, s: string): seq<T> {
    if s in m then m[s] else []
  }

  function At(m: map<string, nat>, s: string): nat {
    if s in m then m[s] else 0
  }

  class ReplaySandbox {
    const strict: bool
    var byInput: map<string, seq<ExecResult>>
    var files: map<string, Data>
    var cursor: map<string, nat>

    constructor (events: seq<Event>, strict: bool)
      ensures this.strict == strict && cursor == map[] && files == Written(events)
      ensures forall s :: Lookup(byInput, s) == Recordings(events, s)
    {
      this.strict := strict;
      byInput, files, cursor := map[], map[], map[];
      new;
      for i := 0 to |events|
        invariant cursor == map[] && files == Written(events[..i])
        invariant forall s :: Lookup(byInput, s) == Recordings(events[..i], s)
      {
        assert events[..i + 1][..i] == events[..i];
        var e := events[i];
        if e.payload.Exec? {
          var p := e.payload.result;
          byInput := byInput[p.input := Lookup(byInput, p.input) + [p]];
          if p.kind.FileWrite? {
            RestoreFiles(e.payload.files);
          }
        }
      }
      assert events[..|events|] == events;
    }

    /** One recorded write: bytes are decoded, text is taken as it is. */
    method RestoreFiles(stored: map<string, Stored>)
      modifies this`files
      ensures files == old(files) + DecodeFiles(stored)
    {
      var rest := stored.Keys;
      while rest != {}
        invariant rest <= stored.Keys
        invariant files.Keys == old(files.Keys) + (stored.Keys - rest)
        invariant forall p :: p in files ==>
                    files[p] == if p in stored && p !in rest then Decode(stored[p]) else old(files)[p]
        decreases rest
      {
        var p :| p in rest;
        files := files[p := Decode(stored[p])];
        rest := rest - {p};
      }
    }

    /** The next recorded result for an input; the last one again when they are used up. The language is the
        caller's for an input that was not recorded, and the recorded one otherwise. */
    method Next(kind: Kind, input: string, language: Option<string>) returns (r: Result<ExecResult>)
      modifies this`cursor
      ensures var recorded, i := Lookup(byInput, input), old(At(cursor, input));
        if recorded == [] then
          && cursor == old(cursor)
          && (strict ==> r.Err?)
          && (!strict ==> r == Ok(ExecResult(kind, input, language, "", "", Some(0), false, None, None, None)))
        else
          && cursor == old(cursor)[input := i + 1]
          && r == Ok(recorded[Min(i, |recorded| - 1)].(kind := kind, input := input))
    {
      var recorded := Lookup(byInput, input);
      if recorded == [] {
        if strict { return Err("no recording"); }
        return Ok(ExecResult(kind, input, language, "", "", Some(0), false, None, None, None));
      }
      var i := At(cursor, input);
      var p := recorded[if i < |recorded| - 1 then i else |recorded| - 1];
      cursor := cursor[input := i + 1];
      r := Ok(p.(kind := kind, input := input));
    }

    method WriteFiles(written: map<string, Data>)
      modifies this`files
      ensures files == old(files) + written
      // a later read finds what was written last, and everything else as it was
      ensures forall p :: p in written ==> p in files && files[p] == written[p]
      ensures forall p :: p !in written ==>
        (p in files <==> p in old(files)) && (p in files ==> files[p] == old(files)[p])
    {
      files := files + written;
    }

    method ReadFiles(paths: set<string>) returns (r: map<string, Data>)
      ensures r.Keys == paths * files.Keys && forall p :: p in r ==> r[p] == files[p]
    {
      r := map p | p in paths && p in files :: files[p];
    }
  }

  // ---- replay undoes recording ---------------------------------------------------------------

  /** What was handed to the recorder for one execution. */
  datatype Entry = Entry(result: ExecResult, actor: Actor, files: map<string, Data>)

  /** The events `record_exec` makes of it. */
  function Record(run: RunId, entries: seq<Entry>): seq<Event> {
    seq(|entries|, i requires 0 <= i < |entries| =>
      Event(i + 1, run, entries[i].actor, Exec(ClipResult(entries[i].result), EncodeFiles(entries[i].files))))
  }

  /** Executions that are asked of the sandbox again; file writes and device and remote operations are not. */
  predicate IsCall(k: Kind) {
    !k.FileWrite? && !k.Device? && !k.Remote?
  }

  function Calls(entries: seq<Entry>): seq<ExecResult> {
    if entries == [] then [] else
      var r := entries[|entries| - 1].result;
      Calls(entries[..|entries| - 1]) + if IsCall(r.kind) then [r] else []
  }

  function FilesOf(entries: seq<Entry>): map<string, Data> {
    if entries == [] then map[] else
      var e := entries[|entries| - 1];
      if e.result.kind.FileWrite? then FilesOf(entries[..|entries| - 1]) + e.files
      else FilesOf(entries[..|entries| - 1])
  }

  /** No call has the input of something that is not one. */
  ghost predicate Separate(entries: seq<Entry>) {
    forall i, j :: 0 <= i < |entries| && 0 <= j < |entries| ==>
      IsCall(entries[i].result.kind) && !IsCall(entries[j].result.kind) ==>
        entries[i].result.input != entries[j].result.input
  }

  function WithInput(rs: seq<ExecResult>, input: string): seq<ExecResult> {
    if rs == [] then [] else
      WithInput(rs[..|rs| - 1], input) + if rs[|rs| - 1].input == input then [rs[|rs| - 1]] else []
  }

  lemma {:induction false} RecordingsOfCalls(run: RunId, entries: seq<Entry>, input: string)
    requires forall i :: 0 <= i < |entries| ==> WithinLimit(entries[i].result)
    requires forall i :: 0 <= i < |entries| && entries[i].result.input == input ==> IsCall(entries[i].result.kind)
    ensures Recordings(Record(run, entries), input) == WithInput(Calls(entries), input)
  {
    if entries != [] {
      var n := |entries| - 1;
      assert Record(run, entries)[..n] == Record(run, entries[..n]);
      RecordingsOfCalls(run, entries[..n], input);
      var r := entries[n].result;
      assert ClipResult(r) == r;
      var before := Calls(entries[..n]);
      if IsCall(r.kind) {
        assert (before + [r])[..|before|] == before;
      } else {
        assert Calls(entries) == before;
      }
    }
  }

  lemma WithInputPush(rs: seq<ExecResult>, r: ExecResult, input: string)
    ensures WithInput(rs + [r], input) == WithInput(rs, input) + if r.input == input then [r] else []
  {
    assert (rs + [r])[..|rs|] == rs;
  }

  /** The k-th element is the one its own input's list has at the number of earlier occurrences. */
  lemma {:induction false} NthOccurrence(rs: seq<ExecResult>, k: nat)
    requires k < |rs|
    ensures var s := rs[k].input; var i := |WithInput(rs[..k], s)|;
      i < |WithInput(rs, s)| && WithInput(rs, s)[i] == rs[k]
  {
    var n := |rs| - 1;
    var s := rs[k].input;
    if k < n {
      NthOccurrence(rs[..n], k);
      assert rs[..n][..k] == rs[..k] && rs[..n][k] == rs[k];
    }
  }

  lemma {:induction false} FilesRestored(run: RunId, entries: seq<Entry>)
    ensures Written(Record(run, entries)) == FilesOf(entries)
  {
    if entries != [] {
      var n := |entries| - 1;
      assert Record(run, entries)[..n] == Record(run, entries[..n]);
      FilesRestored(run, entries[..n]);
      assert DecodeFiles(EncodeFiles(entries[n].files)) == entries[n].files;
    }
  }

  lemma {:induction false} CallInputs(entries: seq<Entry>, k: nat) returns (i: nat)
    requires k < |Calls(entries)|
    ensures i < |entries| && entries[i].result == Calls(entries)[k] && IsCall(entries[i].result.kind)
  {
    var n := |entries| - 1;
    if k < |Calls(entries[..n])| {
      i := CallInputs(entries[..n], k);
    } else {
      i := n;
    }
  }

  /** Replaying all calls of a fresh sandbox in order gives them back position by position. */
  method ReplayCalls(sandbox: ReplaySandbox, calls: seq<ExecResult>, kinds: seq<Kind>)
    returns (outs: seq<Result<ExecResult>>)
    requires sandbox.cursor == map[] && |kinds| == |calls|
    requires forall k :: 0 <= k < |calls| ==>
      Lookup(sandbox.byInput, calls[k].input) == WithInput(calls, calls[k].input)
    modifies sandbox`cursor
    ensures |outs| == |calls| && forall k :: 0 <= k < |outs| ==> outs[k] == Ok(calls[k].(kind := kinds[k]))
    ensures forall s :: At(sandbox.cursor, s) == |WithInput(calls, s)|
  {
    outs := [];
    for k := 0 to |calls|
      invariant |outs| == k
      invariant forall s :: At(sandbox.cursor, s) == |WithInput(calls[..k], s)|
      invariant forall j :: 0 <= j < k ==> outs[j] == Ok(calls[j].(kind := kinds[j]))
    {
      NthOccurrence(calls, k);
      var r := sandbox.Next(kinds[k], calls[k].input, calls[k].language);
      outs := outs + [r];
      assert calls[..k + 1] == calls[..k] + [calls[k]];
      forall x { WithInputPush(calls[..k], calls[k], x); }
    }
    assert calls[..|calls|] == calls;
  }

  /** An input whose recordings are used up yields its last one, however often it is asked. */
  method ReplayExhausted(sandbox: ReplaySandbox, input: string, kind: Kind, times: nat)
    returns (outs: seq<Result<ExecResult>>)
    requires Lookup(sandbox.byInput, input) != [] && At(sandbox.cursor, input) >= |Lookup(sandbox.byInput, input)|
    modifies sandbox`cursor
    ensures |outs| == times
    ensures var recorded := Lookup(sandbox.byInput, input);
      forall k :: 0 <= k < times ==> outs[k] == Ok(recorded[|recorded| - 1].(kind := kind, input := input))
  {
    outs := [];
    for k := 0 to times
      invariant |outs| == k && At(sandbox.cursor, input) >= |Lookup(sandbox.byInput, input)|
      invariant var recorded := Lookup(sandbox.byInput, input);
        forall j :: 0 <= j < k ==> outs[j] == Ok(recorded[|recorded| - 1].(kind := kind, input := input))
    {
      var r := sandbox.Next(kind, input, None);
      outs := outs + [r];
    }
  }

  /** Record any sequence of executions within the clip limit, replay its calls in order: every result comes
      back position by position, however the inputs repeat, and so do all files. */
  method RecordAndReplay(run: RunId, entries: seq<Entry>, kinds: seq<Kind>)
    returns (outs: seq<Result<ExecResult>>, files: map<string, Data>)
    requires Separate(entries) && |kinds| == |Calls(entries)|
    requires forall i :: 0 <= i < |entries| ==> WithinLimit(entries[i].result)
    ensures |outs| == |Calls(entries)|
    ensures forall k :: 0 <= k < |outs| ==> outs[k] == Ok(Calls(entries)[k].(kind := kinds[k]))
    ensures files == FilesOf(entries)
  {
    var sandbox := new ReplaySandbox(Record(run, entries), true);
    FilesRestored(run, entries);
    files := sandbox.files;
    var calls := Calls(entries);
    forall k | 0 <= k < |calls| ensures Lookup(sandbox.byInput, calls[k].input) == WithInput(calls, calls[k].input) {
      var i := CallInputs(entries, k);
      RecordingsOfCalls(run, entries, calls[k].input);
    }
    outs := ReplayCalls(sandbox, calls, kinds);
  }
}
