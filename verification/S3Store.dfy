/** The append-only log kept as one rewritten object, with its append cache. */
module S3Store {
  import opened Prelude
  import opened Text

  type Key = string
  type Line = string

  /** An event line: no line break, not blank. */
  predicate Clean(line: Line) {
    OneLine(line) && !Blank(line)
  }

  predicate AllClean(lines: seq<Line>) {
    forall i :: 0 <= i < |lines| ==> Clean(lines[i])
  }

  // ---- the object's contents -----------------------------------------------------------

  function Join(lines: seq<Line>): string {
    if lines == [] then "" else if |lines| == 1 then lines[0] else lines[0] + "\n" + Join(lines[1..])
  }

  function Body(lines: seq<Line>): string {
    Join(lines) + "\n"
  }

  function NonBlank(lines: seq<Line>): seq<Line> {
    if lines == [] then [] else (if Blank(lines[0]) then [] else [lines[0]]) + NonBlank(lines[1..])
  }

  /** `read_lines` of an object's body. */
  function Parse(body: string): seq<Line> {
    NonBlank(SplitLines(body))
  }

  lemma BodyOfMore(line: Line, rest: seq<Line>)
    requires rest != []
    ensures Body([line] + rest) == line + "\n" + Body(rest)
  {
    assert ([line] + rest)[1..] == rest;
  }

  lemma {:induction false} SplitBody(lines: seq<Line>)
    requires lines != [] && forall i :: 0 <= i < |lines| ==> OneLine(lines[i])
    ensures SplitLines(Body(lines)) == lines
  {
    var line, rest := lines[0], lines[1..];
    assert lines == [line] + rest;
    if rest == [] {
      assert Body(lines) == line + "\n" + "";
      SplitFirst(line, "");
    } else {
      SplitBody(rest);
      BodyOfMore(line, rest);
      SplitFirst(line, Body(rest));
    }
  }

  lemma {:induction false} NothingBlank(lines: seq<Line>)
    requires forall i :: 0 <= i < |lines| ==> !Blank(lines[i])
    ensures NonBlank(lines) == lines
  {
    if lines != [] { NothingBlank(lines[1..]); }
  }

  lemma {:induction false} NonBlankKeeps(lines: seq<Line>)
    requires forall i :: 0 <= i < |lines| ==> OneLine(lines[i])
    ensures AllClean(NonBlank(lines))
  {
    if lines != [] { NonBlankKeeps(lines[1..]); }
  }

  /** Whatever an object holds, the lines read from it are clean. */
  lemma ParseIsClean(body: string)
    ensures AllClean(Parse(body))
  {
    LinesAreLines(body);
    NonBlankKeeps(SplitLines(body));
  }

  /** A rewritten log reads back as it was exactly if every line in it is clean. */
  lemma ReadBackExactly(lines: seq<Line>)
    ensures Parse(Body(lines)) == lines <==> AllClean(lines)
  {
    ParseIsClean(Body(lines));
    if lines == [] {
      assert Body(lines) == "" + "\n" + "";
      SplitFirst("", "");
      assert SplitLines(Body(lines)) == [""] && [""][1..] == [];
    } else if AllClean(lines) {
      SplitBody(lines);
      NothingBlank(lines);
    }
  }

  /** A line with a line separator inside, such as U+2028, which JSON allows unescaped, comes back as two. */
  lemma SeparatorSplitsLine(a: string, c: char, b: string)
    requires Clean(a) && Clean(b) && IsLineBreak(c)
    ensures Parse(Body([a + [c] + b])) == [a, b]
  {
    var rest := b + "\n" + "";
    assert Body([a + [c] + b]) == a + [c] + rest;
    assert b != "" && rest[0] == b[0] && b[0] != '\n';
    SplitAtBreak(a, c, rest);
    SplitFirst(b, "");
    assert [a] + ([b] + []) == [a, b];
    NothingBlank([a, b]);
  }

  // ---- keys -------------------------------------------------------------------------------

  predicate IdChar(c: char) {
    'A' <= c <= 'Z' || 'a' <= c <= 'z' || '0' <= c <= '9' || c == '_'
  }

  predicate ValidId(sid: string) {
    && 1 <= |sid| <= 128 && IdChar(sid[0])
    && forall i :: 0 <= i < |sid| ==> IdChar(sid[i]) || sid[i] == '.' || sid[i] == '-'
  }

  function Segments(name: string): (r: seq<string>)
    ensures r != []
  {
    if name == "" then [""]
    else if name[0] == '/' then [""] + Segments(name[1..])
    else
      var rest := Segments(name[1..]);
      [[name[0]] + rest[0]] + rest[1..]
  }

  function Path(segments: seq<string>): string
    requires segments != []
  {
    if |segments| == 1 then segments[0] else segments[0] + "/" + Path(segments[1..])
  }

  /** The segments of a name are what lies between its slashes. */
  lemma {:induction false} SegmentsMakeThePath(name: string)
    ensures Path(Segments(name)) == name
    ensures forall i :: 0 <= i < |Segments(name)| ==> '/' !in Segments(name)[i]
  {
    if name != "" {
      SegmentsMakeThePath(name[1..]);
      var rest := Segments(name[1..]);
      if name[0] == '/' {
        assert Segments(name)[1..] == rest;
        assert "" + "/" + Path(rest) == name;
      } else {
        var first := [name[0]] + rest[0];
        assert Segments(name)[1..] == rest[1..];
        assert [name[0]] + name[1..] == name;
        if |rest| > 1 { assert first + "/" + Path(rest[1..]) == [name[0]] + (rest[0] + "/" + Path(rest[1..])); }
      }
    }
  }

  predicate ValidName(name: string) {
    name != "" && name[0] != '/' && forall i :: 0 <= i < |Segments(name)| ==> Segments(name)[i] !in {"", ".", ".."}
  }

  predicate ValidKey(sid: string, name: string) {
    ValidId(sid) && ValidName(name)
  }

  function KeyOf(prefix: string, sid: string, name: string): Key {
    if prefix == "" then sid + "/" + name else prefix + "/" + sid + "/" + name
  }

  /** What every key of a session starts with: the key of a one-letter name without the letter. */
  function SessionPrefix(prefix: string, sid: string): string {
    var k := KeyOf(prefix, sid, "x");
    k[..|k| - 1]
  }

  lemma SessionPrefixIs(prefix: string, sid: string, name: string)
    ensures KeyOf(prefix, sid, name) == SessionPrefix(prefix, sid) + name
  {
    var k := KeyOf(prefix, sid, "x");
    assert k == (if prefix == "" then sid + "/" else prefix + "/" + sid + "/") + "x";
  }

  lemma NoSlash(sid: string, i: nat)
    requires ValidId(sid) && i < |sid|
    ensures sid[i] != '/'
  {
  }

  lemma SlashMarksId(a: string, b: string, m: string, n: string)
    requires ValidId(a) && ValidId(b) && a + "/" + m == b + "/" + n
    ensures a == b && m == n
  {
    var s, t := a + "/" + m, b + "/" + n;
    assert s[|a|] == '/' && t[|b|] == '/';
    if |a| < |b| { assert t[|a|] == b[|a|]; NoSlash(b, |a|); }
    if |b| < |a| { assert s[|b|] == a[|b|]; NoSlash(a, |b|); }
    assert a == s[..|a|] && b == t[..|b|] && m == s[|a| + 1..] && n == t[|b| + 1..];
  }

  /** Different objects have different keys. */
  lemma KeysAreInjective(prefix: string, a: string, m: string, b: string, n: string)
    requires ValidId(a) && ValidId(b) && KeyOf(prefix, a, m) == KeyOf(prefix, b, n)
    ensures a == b && m == n
  {
    if prefix == "" {
      SlashMarksId(a, b, m, n);
    } else {
      var k := KeyOf(prefix, a, m);
      assert k[|prefix| + 1..] == a + "/" + m;
      assert KeyOf(prefix, b, n)[|prefix| + 1..] == b + "/" + n;
      SlashMarksId(a, b, m, n);
    }
  }

  /** A key starts with a session's prefix exactly when it is that session's. */
  lemma PrefixMarksSession(prefix: string, a: string, m: string, b: string)
    requires ValidId(a) && ValidId(b)
    ensures SessionPrefix(prefix, b) <= KeyOf(prefix, a, m) <==> a == b
  {
    SessionPrefixIs(prefix, a, m);
    if SessionPrefix(prefix, b) <= KeyOf(prefix, a, m) {
      var rest := KeyOf(prefix, a, m)[|SessionPrefix(prefix, b)|..];
      SessionPrefixIs(prefix, b, rest);
      KeysAreInjective(prefix, a, m, b, rest);
    }
  }

  // ---- several writers of one object ---------------------------------------------------------

  /** One object's lines, and what each writer that has a cache entry for it takes them to be. */
  datatype Log = Log(stored: seq<Line>, views: map<nat, seq<Line>>)

  datatype Op = Append(writer: nat, line: Line, net: Net) | Forget(writer: nat)

  function View(s: Log, w: nat): seq<Line> {
    if w in s.views then s.views[w] else s.stored
  }

  function Step(s: Log, op: Op): Log {
    match op
    case Append(w, line, net) =>
      var lines := View(s, w) + [line];
      Log(if net.Dropped? then s.stored else lines, s.views[w := lines])
    case Forget(w) => Log(s.stored, s.views - {w})
  }

  function After(ops: seq<Op>): Log {
    if ops == [] then Log([], map[]) else Step(After(ops[..|ops| - 1]), ops[|ops| - 1])
  }

  lemma AfterPush(ops: seq<Op>, op: Op)
    ensures After(ops + [op]) == Step(After(ops), op)
  {
    assert (ops + [op])[..|ops|] == ops;
  }

  predicate Puts(op: Op) {
    op.Append? && !op.net.Dropped?
  }

  /** The writer's entry dates from before another writer's put. */
  ghost predicate Overtaken(ops: seq<Op>, w: nat) {
    exists i, k :: 0 <= i < k < |ops| && ops[i].Append? && ops[i].writer == w && Puts(ops[k]) && ops[k].writer != w
                   && Forget(w) !in ops[i..]
  }

  /** Nobody appends from an entry that was overtaken. */
  ghost predicate TurnsAreHandedOver(ops: seq<Op>) {
    forall j :: 0 <= j < |ops| && ops[j].Append? ==> !Overtaken(ops[..j], ops[j].writer)
  }

  /** An entry stems from an append that was not forgotten, and lacks stored lines only if it was overtaken. */
  ghost predicate Dated(ops: seq<Op>, w: nat) {
    w in After(ops).views ==>
      && (exists i :: 0 <= i < |ops| && ops[i].Append? && ops[i].writer == w && Forget(w) !in ops[i..])
      && (After(ops).stored <= After(ops).views[w] || Overtaken(ops, w))
  }

  lemma OvertakenStays(ops: seq<Op>, op: Op, w: nat)
    requires Overtaken(ops, w) && op != Forget(w)
    ensures Overtaken(ops + [op], w)
  {
    var i, k :| 0 <= i < k < |ops| && ops[i].Append? && ops[i].writer == w && Puts(ops[k]) && ops[k].writer != w
                && Forget(w) !in ops[i..];
    var all := ops + [op];
    assert all[i..] == ops[i..] + [op];
    assert all[i] == ops[i] && all[k] == ops[k];
  }

  lemma OwnAppendDated(ops: seq<Op>, op: Op, w: nat)
    requires Dated(ops, w) && op.Append? && op.writer == w
    ensures Dated(ops + [op], w)
  {
    var all := ops + [op];
    AfterPush(ops, op);
    assert all[|ops|] == op && all[|ops|..] == [op];
    if Overtaken(ops, w) { OvertakenStays(ops, op, w); }
  }

  /** The entry stays; a put of another overtakes it. */
  lemma OthersDated(ops: seq<Op>, op: Op, w: nat)
    requires Dated(ops, w) && op.writer != w
    ensures Dated(ops + [op], w)
  {
    var all := ops + [op];
    AfterPush(ops, op);
    if w in After(ops).views {
      var i :| 0 <= i < |ops| && ops[i].Append? && ops[i].writer == w && Forget(w) !in ops[i..];
      assert all[i] == ops[i] && all[i..] == ops[i..] + [op];
      if Overtaken(ops, w) {
        OvertakenStays(ops, op, w);
      } else if Puts(op) {
        assert Puts(all[|ops|]);
      }
    }
  }

  lemma DatedStays(ops: seq<Op>, op: Op, w: nat)
    requires Dated(ops, w)
    ensures Dated(ops + [op], w)
  {
    if op.writer != w {
      OthersDated(ops, op, w);
    } else if op.Append? {
      OwnAppendDated(ops, op, w);
    } else {
      AfterPush(ops, op);
    }
  }

  lemma {:induction false} RunDated(ops: seq<Op>, w: nat)
    ensures Dated(ops, w)
  {
    if ops != [] {
      RunDated(ops[..|ops| - 1], w);
      DatedStays(ops[..|ops| - 1], ops[|ops| - 1], w);
      assert ops == ops[..|ops| - 1] + [ops[|ops| - 1]];
    }
  }

  function OwnLine(op: Op, w: nat): seq<Line> {
    if op.Append? && op.writer == w then [op.line] else []
  }

  /** What one writer appended. */
  function Own(ops: seq<Op>, w: nat): seq<Line> {
    if ops == [] then [] else
      Own(ops[..|ops| - 1], w) + OwnLine(ops[|ops| - 1], w)
  }

  lemma OwnPush(ops: seq<Op>, op: Op, w: nat)
    ensures Own(ops + [op], w) == Own(ops, w) + OwnLine(op, w)
  {
    assert (ops + [op])[..|ops|] == ops;
  }

  lemma EntryPush(ops: seq<Op>, op: Op, w: nat)
    requires op != Forget(w) && (w in After(ops).views || (op.Append? && op.writer == w))
    ensures w in After(ops + [op]).views
    ensures After(ops + [op]).views[w] == View(After(ops), w) + OwnLine(op, w)
  {
    AfterPush(ops, op);
  }

  /** A writer's entry is what the object held when the entry was made, at `i`, and the writer's own lines since. */
  lemma {:induction false} EntryIs(ops: seq<Op>, w: nat, i: nat)
    requires i < |ops| && ops[i].Append? && ops[i].writer == w && w !in After(ops[..i]).views && Forget(w) !in ops[i..]
    ensures w in After(ops).views && After(ops).views[w] == After(ops[..i]).stored + Own(ops[i..], w)
    decreases |ops|, 0
  {
    var n := |ops| - 1;
    var before, op := ops[..n], ops[n];
    assert before + [op] == ops && before[i..] + [op] == ops[i..] && before[..i] == ops[..i];
    assert op in ops[i..] by { assert ops[i..][n - i] == op; }
    OwnPush(before[i..], op, w);
    if i == n {
      assert before[i..] == [] && before == ops[..i];
      EntryPush(before, op, w);
    } else {
      EntryStays(before, op, w, i);
      EntryPush(before, op, w);
      Regroup(After(ops[..i]).stored, Own(before[i..], w), OwnLine(op, w));
    }
  }

  lemma EntryStays(before: seq<Op>, op: Op, w: nat, i: nat)
    requires i < |before| && before[i].Append? && before[i].writer == w && w !in After(before[..i]).views
    requires Forget(w) !in before[i..] + [op]
    ensures w in After(before).views && View(After(before), w) == After(before[..i]).stored + Own(before[i..], w)
    decreases |before|, 1
  {
    assert forall x :: x in before[i..] ==> x in before[i..] + [op];
    EntryIs(before, w, i);
  }

  lemma Regroup(a: seq<Line>, b: seq<Line>, d: seq<Line>)
    ensures (a + b) + d == a + (b + d)
  {
  }

  /** So exactly those lines survive a put that arrives: none that another writer has stored since `i` does. */
  lemma SurvivesExactly(ops: seq<Op>, i: nat)
    requires i < |ops| && Puts(ops[|ops| - 1])
    requires var w := ops[|ops| - 1].writer;
      ops[i].Append? && ops[i].writer == w && w !in After(ops[..i]).views && Forget(w) !in ops[i..]
    ensures After(ops).stored == After(ops[..i]).stored + Own(ops[i..], ops[|ops| - 1].writer)
  {
    EntryIs(ops, ops[|ops| - 1].writer, i);
  }

  lemma {:induction false} StoredGrows(ops: seq<Op>, i: nat)
    requires TurnsAreHandedOver(ops) && i <= |ops|
    ensures After(ops[..i]).stored <= After(ops).stored
  {
    if i == |ops| {
      assert ops[..i] == ops;
    } else {
      var n := |ops| - 1;
      assert forall j :: 0 <= j < n ==> ops[..n][..j] == ops[..j] && ops[..n][j] == ops[j];
      assert ops[..n][..i] == ops[..i];
      StoredGrows(ops[..n], i);
      assert After(ops[..n]).stored <= After(ops).stored by {
        if ops[n].Append? { RunDated(ops[..n], ops[n].writer); }
      }
    }
  }

  /** Whatever the number of writers and whichever puts fail: as long as no writer appends from an entry that was
      overtaken, the stored lines only ever grow, so every line whose put arrived stays. */
  lemma NothingIsLost(ops: seq<Op>, i: nat)
    requires TurnsAreHandedOver(ops) && i < |ops| && Puts(ops[i])
    ensures After(ops[..i + 1]).stored <= After(ops).stored && ops[i].line in After(ops).stored
  {
    StoredGrows(ops, i + 1);
    PutStays(ops, i, After(ops).stored);
  }

  lemma PutStays(ops: seq<Op>, i: nat, stored: seq<Line>)
    requires i < |ops| && Puts(ops[i]) && After(ops[..i + 1]).stored <= stored
    ensures ops[i].line in stored
  {
    assert ops[..i + 1] == ops[..i] + [ops[i]];
    PutIsLast(ops[..i], ops[i]);
    PrefixKeeps(After(ops[..i + 1]).stored, stored, ops[i].line);
  }

  lemma PutIsLast(ops: seq<Op>, op: Op)
    requires Puts(op)
    ensures op.line in After(ops + [op]).stored
  {
    AfterPush(ops, op);
    var stored := View(After(ops), op.writer) + [op.line];
    assert stored[|stored| - 1] == op.line;
  }

  lemma PrefixKeeps(some: seq<Line>, all: seq<Line>, line: Line)
    requires some <= all && line in some
    ensures line in all
  {
    var i :| 0 <= i < |some| && some[i] == line;
    assert all[i] == line;
  }

  /** Without that, they do not: a session that comes back to a process that had only let go of it. */
  lemma ComingBackLosesLines(a: Line, b: Line, d: Line)
    requires b != d
    ensures var ops := [Append(0, a, Acked)] + [Append(1, b, Acked)] + [Append(0, d, Acked)];
      After(ops).stored == [a, d] && !TurnsAreHandedOver(ops)
    ensures After([Append(0, a, Acked)] + [Forget(0)] + [Append(1, b, Acked)] + [Append(0, d, Acked)]).stored ==
      [a, b, d]
  {
    var first, second, last := [Append(0, a, Acked)], [Append(1, b, Acked)], [Append(0, d, Acked)];
    var s1 := Step(After([]), first[0]);
    AfterPush([], first[0]);
    AfterPush(first, second[0]);
    AfterPush(first + second, last[0]);
    assert [] + first == first && s1 == Log([a], map[0 := [a]]);
    assert Overtaken((first + second + last)[..2], 0) by {
      assert (first + second + last)[..2] == first + second;
      assert (first + second)[0..] == first + second;
    }
    assert (first + second + last)[2] == last[0];
    AfterPush(first, Forget(0));
    AfterPush(first + [Forget(0)], second[0]);
    AfterPush(first + [Forget(0)] + second, last[0]);
  }

  lemma StepOfView(stored: seq<Line>, view: seq<Line>, line: Line, net: Net)
    ensures Step(Log(stored, map[0 := view]), Append(0, line, net)) ==
      Log(if net.Dropped? then stored else view + [line], map[0 := view + [line]])
  {
  }

  // ---- the store -----------------------------------------------------------------------------

  /** The bucket, which the stores of all processes share. */
  class Bucket {
    var objects: map<Key, string>

    constructor (objects: map<Key, string>)
      ensures this.objects == objects
    {
      this.objects := objects;
    }
  }

  class Store {
    const prefix: string
    const bucket: Bucket
    var cache: map<Key, seq<Line>>

    constructor (prefix: string, bucket: Bucket)
      ensures this.prefix == prefix && this.bucket == bucket && cache == map[]
    {
      this.prefix, this.bucket, cache := prefix, bucket, map[];
    }

    function Stored(k: Key): seq<Line>
      reads bucket
    {
      if k in bucket.objects then Parse(bucket.objects[k]) else []
    }

    /** The log as this process takes it to be: every line appended so far, whether or not the last put went
        through, unless another process has written the object since. */
    function Appended(k: Key): seq<Line>
      reads this, bucket
    {
      if k in cache then cache[k] else Stored(k)
    }

    /** Cached lines are clean, and the object holds the first of them. */
    ghost predicate Agrees()
      reads this, bucket
    {
      forall k :: k in cache ==> Stored(k) <= cache[k] && AllClean(cache[k])
    }

    method ReadLines(sid: string, name: string) returns (r: Result<seq<Line>>)
      ensures r == if ValidKey(sid, name) then Ok(Stored(KeyOf(prefix, sid, name))) else Err("invalid key")
      // whatever wrote the object, its lines are non-blank single lines, and a log of such lines comes back as it was
      ensures r.Ok? ==> AllClean(r.value) && (KeyOf(prefix, sid, name) !in bucket.objects ==> r.value == [])
      ensures r.Ok? ==> forall lines ::
        KeyOf(prefix, sid, name) in bucket.objects && bucket.objects[KeyOf(prefix, sid, name)] == Body(lines) ==>
          (r.value == lines <==> AllClean(lines))
    {
      if !ValidKey(sid, name) { return Err("invalid key"); }
      if KeyOf(prefix, sid, name) in bucket.objects { ParseIsClean(bucket.objects[KeyOf(prefix, sid, name)]); }
      forall lines ensures Parse(Body(lines)) == lines <==> AllClean(lines) {
        ReadBackExactly(lines);
      }
      r := Ok(Stored(KeyOf(prefix, sid, name)));
    }

    /** The append itself, a step of the log. A failed put keeps the line in the cache, and the next successful put
        stores it too. */
    method AppendTo(k: Key, line: Line, net: Net)
      modifies this`cache, bucket
      ensures Appended(k) == old(Appended(k)) + [line]
      ensures cache == old(cache)[k := Appended(k)]
      ensures bucket.objects == if net.Dropped? then old(bucket.objects)
                                else old(bucket.objects)[k := Body(Appended(k))]
      ensures !net.Dropped? ==> (Stored(k) == Appended(k) <==> AllClean(Appended(k)))
      ensures AllClean(Appended(k)) ==>
        Log(Stored(k), map[0 := Appended(k)]) ==
          Step(Log(old(Stored(k)), map[0 := old(Appended(k))]), Append(0, line, net))
      ensures old(Agrees()) && Clean(line) ==> Agrees() && AllClean(Appended(k))
    {
      StepOfView(Stored(k), Appended(k), line, net);
      var lines := Appended(k) + [line];
      if k in bucket.objects { ParseIsClean(bucket.objects[k]); }
      ReadBackExactly(lines);
      cache := cache[k := lines];
      if !net.Dropped? {
        bucket.objects := bucket.objects[k := Body(lines)];
      }
      assert old(Agrees()) && Clean(line) ==> AllClean(lines) && Stored(k) <= lines;
    }

    /** `readable` is whether the read before the append succeeds; `net` is how the put ends. */
    method AppendLine(sid: string, name: string, line: Line, readable: bool, net: Net) returns (r: Result<Unit>)
      modifies this`cache, bucket
      ensures r.Ok? <==> ValidKey(sid, name) && readable && net.Acked?
      ensures !ValidKey(sid, name) || !readable ==> cache == old(cache) && bucket.objects == old(bucket.objects)
      // the log grows by the line unless nothing was tried, and every put that arrives writes all of it
      ensures ValidKey(sid, name) && readable ==>
        var k := KeyOf(prefix, sid, name);
        && Appended(k) == old(Appended(k)) + [line] && k in cache
        && bucket.objects == (if net.Dropped? then old(bucket.objects) else old(bucket.objects)[k := Body(Appended(k))])
        && (!net.Dropped? ==> (Stored(k) == Appended(k) <==> AllClean(Appended(k))))
      ensures forall q :: q != KeyOf(prefix, sid, name) ==>
        Appended(q) == old(Appended(q)) && Stored(q) == old(Stored(q))
      // as long as only clean lines are appended, the object is a prefix of the log, and all of it after a success
      ensures old(Agrees()) && Clean(line) ==>
        && Agrees()
        && (r.Ok? ==> Stored(KeyOf(prefix, sid, name)) == old(Appended(KeyOf(prefix, sid, name))) + [line])
    {
      if !ValidKey(sid, name) { return Err("invalid key"); }
      if !readable { return Err("read failed"); }
      AppendTo(KeyOf(prefix, sid, name), line, net);
      r := if net.Acked? then Ok(Unit) else Err("put failed");
    }

    /** Forgets the cached lines of one session and of no other: its keys are those with its prefix. What it
        loses are the lines whose put failed. */
    method Evict(sid: string)
      requires ValidId(sid)
      modifies this`cache
      ensures old(Agrees()) ==> Agrees()
      ensures forall k :: k in cache <==> k in old(cache) && !(SessionPrefix(prefix, sid) <= k)
      ensures forall k :: k in cache ==> cache[k] == old(cache)[k]
      ensures forall k :: Appended(k) == if SessionPrefix(prefix, sid) <= k then Stored(k) else old(Appended(k))
      ensures forall s, n :: ValidId(s) ==> (SessionPrefix(prefix, sid) <= KeyOf(prefix, s, n) <==> s == sid)
    {
      var start := SessionPrefix(prefix, sid);
      var doomed := set k | k in cache && start <= k;
      var rest := doomed;
      while rest != {}
        invariant rest <= doomed
        invariant cache == old(cache) - (doomed - rest)
        decreases rest
      {
        var k :| k in rest;
        cache := cache - {k};
        rest := rest - {k};
      }
      forall s, n | ValidId(s) ensures start <= KeyOf(prefix, s, n) <==> s == sid {
        PrefixMarksSession(prefix, s, n, sid);
      }
    }
  }

  /** An append that succeeds, to a log of clean lines. */
  method Appends(s: Store, sid: string, name: string, line: Line)
    requires ValidKey(sid, name) && AllClean(s.Appended(KeyOf(s.prefix, sid, name))) && Clean(line)
    modifies s`cache, s.bucket
    ensures var k := KeyOf(s.prefix, sid, name);
      k in s.cache && s.Stored(k) == s.cache[k] == old(s.Appended(k)) + [line]
  {
    var _ := s.AppendLine(sid, name, line, true, Acked);
  }

  /** A session served by one process, then by another, then by the first again. Letting go of it does not evict its
      cached lines, so what the second process recorded is gone; had they been evicted, nothing would be. */
  method ComeBack(a: Store, b: Store, sid: string, name: string, x: Line, y: Line, z: Line, evicts: bool)
    requires a != b && a.bucket == b.bucket && a.prefix == b.prefix && ValidKey(sid, name)
    requires a.cache == map[] && b.cache == map[] && Clean(x) && Clean(y) && Clean(z)
    modifies a`cache, b`cache, a.bucket
    ensures var k := KeyOf(a.prefix, sid, name);
      a.Stored(k) == old(a.Stored(k)) + [x] + (if evicts then [y] else []) + [z]
  {
    ghost var k := KeyOf(a.prefix, sid, name);
    if k in a.bucket.objects { ParseIsClean(a.bucket.objects[k]); }
    Appends(a, sid, name, x);
    if evicts {
      a.Evict(sid);
      assert SessionPrefix(a.prefix, sid) <= k;
    }
    Appends(b, sid, name, y);
    Appends(a, sid, name, z);
  }
}
