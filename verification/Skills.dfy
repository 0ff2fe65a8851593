/** Skill documents: a header of `key: value` lines between fences, and a body. */
module Skills {
  import opened Prelude
  import opened Text

  datatype Skill = Skill(name: string, description: string, status: string, session: string, run: string, body: string)

  const FENCE := "\n---\n"

  // ---- printing ---------------------------------------------------------------------------

  type Entry = (string, string)

  function Field(e: Entry): string {
    e.0 + ": " + e.1
  }

  /** The header of the template, in its order. */
  function Entries(s: Skill): seq<Entry> {
    [("name", s.name), ("description", s.description), ("status", s.status),
     ("source_session", s.session), ("source_run", s.run)]
  }

  function Header(es: seq<Entry>): (h: string)
    requires es != []
  {
    if |es| == 1 then Field(es[0]) else Field(es[0]) + "\n" + Header(es[1..])
  }

  function Render(s: Skill): string {
    "---\n" + (Header(Entries(s)) + FENCE + ("\n" + Strip(s.body) + "\n"))
  }

  // ---- parsing ----------------------------------------------------------------------------

  /** Where the first closing fence starts. */
  function Fence(s: string): (r: Option<nat>)
    ensures r.Some? ==> r.value + 5 <= |s|
  {
    if |s| < 5 then None
    else if s[..5] == FENCE then Some(0)
    else
      var r := Fence(s[1..]);
      if r.None? then None else Some(r.value + 1)
  }

  function Colon(line: string): (r: Option<nat>)
    ensures r.Some? ==> r.value < |line| && line[r.value] == ':'
  {
    if line == "" then None
    else if line[0] == ':' then Some(0)
    else
      var r := Colon(line[1..]);
      if r.None? then None else Some(r.value + 1)
  }

  function Enter(meta: map<string, string>, line: string): map<string, string> {
    var c := Colon(line);
    if c.None? then meta else meta[Strip(line[..c.value]) := Strip(line[c.value + 1..])]
  }

  function Meta(meta: map<string, string>, lines: seq<string>): map<string, string>
    decreases |lines|
  {
    if lines == [] then meta else Meta(Enter(meta, lines[0]), lines[1..])
  }

  function Get(meta: map<string, string>, key: string, default: string): string {
    if key in meta then meta[key] else default
  }

  function FromMeta(meta: map<string, string>, body: string): Skill {
    Skill(Get(meta, "name", ""), Get(meta, "description", ""), Get(meta, "status", "draft"),
          Get(meta, "source_session", ""), Get(meta, "source_run", ""), Strip(body))
  }

  /** The text between the fences, if the document has both, and what is left. */
  datatype Parts = Parts(header: Option<string>, body: string)

  function Split(text: string): Parts {
    var end := if |text| >= 4 && text[..4] == "---\n" then Fence(text[4..]) else None;
    if end.None? then Parts(None, text)
    else Parts(Some(text[4..4 + end.value]), text[4 + end.value + 5..])
  }

  function Parse(text: string): Skill {
    var p := Split(text);
    FromMeta(if p.header.None? then map[] else Meta(map[], SplitLines(p.header.value)), p.body)
  }

  method ParseHeader(lines: seq<string>) returns (meta: map<string, string>)
    ensures meta == Meta(map[], lines)
  {
    meta := map[];
    for i := 0 to |lines|
      invariant Meta(meta, lines[i..]) == Meta(map[], lines)
    {
      var c := Colon(lines[i]);
      assert lines[i..][0] == lines[i] && lines[i..][1..] == lines[i + 1..];
      if c.Some? {
        meta := meta[Strip(lines[i][..c.value]) := Strip(lines[i][c.value + 1..])];
      }
    }
  }

  method ParseSkill(text: string) returns (s: Skill)
    ensures s == Parse(text)
  {
    var meta: map<string, string> := map[];
    var body := text;
    if |text| >= 4 && text[..4] == "---\n" {
      var end := Fence(text[4..]);
      if end.Some? {
        meta := ParseHeader(SplitLines(text[4..4 + end.value]));
        body := text[4 + end.value + 5..];
      }
    }
    s := FromMeta(meta, body);
  }

  // ---- round trip ---------------------------------------------------------------------------

  predicate PlainField(v: string) {
    OneLine(v) && Stripped(v)
  }

  predicate PlainSkill(s: Skill) {
    PlainField(s.name) && PlainField(s.description) && PlainField(s.status) && PlainField(s.session)
      && PlainField(s.run)
  }

  predicate FenceAt(s: string, i: nat) {
    i + 5 <= |s| && s[i..i + 5] == FENCE
  }

  lemma TailSlice(s: string, i: nat)
    requires 0 < i && i + 5 <= |s|
    ensures s[1..][i - 1..i + 4] == s[i..i + 5]
  {
    var a, b := s[1..][i - 1..i + 4], s[i..i + 5];
    assert forall j :: 0 <= j < 5 ==> a[j] == b[j];
  }

  lemma FenceInTheTail(s: string, i: nat)
    requires 0 < i && i + 5 <= |s|
    ensures FenceAt(s[1..], i - 1) <==> FenceAt(s, i)
  {
    TailSlice(s, i);
  }

  lemma {:induction false} FenceIsThere(s: string)
    ensures Fence(s).Some? ==> FenceAt(s, Fence(s).value)
  {
    if |s| < 5 {
    } else if s[..5] == FENCE {
      assert s[0..5] == s[..5];
    } else {
      FenceIsThere(s[1..]);
      var r := Fence(s[1..]);
      if r.Some? { FenceInTheTail(s, r.value + 1); }
    }
  }

  lemma {:induction false} NoEarlierFence(s: string, i: nat)
    requires FenceAt(s, i)
    ensures Fence(s).Some? && Fence(s).value <= i
  {
    if s[..5] != FENCE {
      assert i != 0;
      FenceInTheTail(s, i);
      NoEarlierFence(s[1..], i - 1);
    }
  }

  /** The closing fence is the first one there is. */
  lemma FenceIsFirst(s: string)
    ensures Fence(s).Some? ==> FenceAt(s, Fence(s).value) && forall i: nat :: i < Fence(s).value ==> !FenceAt(s, i)
    ensures Fence(s).None? ==> forall i: nat :: !FenceAt(s, i)
  {
    FenceIsThere(s);
    forall i: nat | FenceAt(s, i) ensures Fence(s).Some? && Fence(s).value <= i {
      NoEarlierFence(s, i);
    }
  }

  /** A document without an opening line of dashes, or without a closing one, is all body, and a draft. */
  lemma WithoutHeader(text: string)
    requires !("---\n" <= text) || forall i: nat :: !FenceAt(text[4..], i)
    ensures Parse(text) == Skill("", "", "draft", "", "", Strip(text))
  {
    if "---\n" <= text {
      FenceIsFirst(text[4..]);
    }
  }

  /** A line that is not followed by a dash cannot end at the fence. */
  lemma {:induction false} FenceSkips(line: string, rest: string)
    requires OneLine(line) && rest != "" && rest[0] != '-'
    ensures Fence(line + "\n" + rest) == if Fence(rest).None? then None else Some(|line| + 1 + Fence(rest).value)
  {
    var s := line + "\n" + rest;
    if line == "" {
      assert s == "\n" + rest && s[1..] == rest;
      assert s[1] == rest[0];
      assert |s| >= 5 ==> s[..5][1] == rest[0];
    } else {
      assert s[1..] == line[1..] + "\n" + rest;
      FenceSkips(line[1..], rest);
      assert s[0] == line[0] && FENCE[0] == '\n';
      assert |s| >= 5 ==> s[..5][0] == line[0];
    }
  }

  lemma {:induction false} FenceFound(line: string, rest: string)
    requires OneLine(line)
    ensures Fence(line + FENCE + rest) == Some(|line|)
  {
    var s := line + FENCE + rest;
    if line == "" {
      assert s[..5] == FENCE;
    } else {
      assert s[1..] == line[1..] + FENCE + rest;
      FenceFound(line[1..], rest);
      assert s[..5][0] == line[0] && FENCE[0] == '\n';
    }
  }

  /** What the printer needs of a header entry: its line stays one line and does not look like a fence. */
  predicate PlainKey(k: string) {
    OneLine(k) && Stripped(k) && k != "" && k[0] != '-' && ':' !in k
  }

  predicate PlainEntry(e: Entry) {
    PlainKey(e.0) && PlainField(e.1)
  }

  predicate PlainEntries(es: seq<Entry>) {
    es != [] && forall i :: 0 <= i < |es| ==> PlainEntry(es[i])
  }

  lemma FieldStarts(e: Entry)
    requires PlainEntry(e)
    ensures OneLine(Field(e)) && Field(e) != "" && Field(e)[0] != '-'
  {
    assert Field(e)[0] == e.0[0];
  }

  lemma HeaderStarts(es: seq<Entry>)
    requires PlainEntries(es)
    ensures Header(es) != "" && Header(es)[0] != '-'
  {
    FieldStarts(es[0]);
  }

  function Lines(es: seq<Entry>): (ls: seq<string>) {
    if es == [] then [] else [Field(es[0])] + Lines(es[1..])
  }

  /** The closing fence of a printed header is the first one. */
  lemma {:induction false} HeaderFence(es: seq<Entry>, rest: string)
    requires PlainEntries(es)
    ensures Fence(Header(es) + FENCE + rest) == Some(|Header(es)|)
  {
    var line := Field(es[0]);
    FieldStarts(es[0]);
    if |es| == 1 {
      FenceFound(line, rest);
    } else {
      var more := Header(es[1..]);
      HeaderFence(es[1..], rest);
      HeaderStarts(es[1..]);
      FenceBelow(line, more, rest);
    }
  }

  lemma FenceBelow(line: string, more: string, rest: string)
    requires OneLine(line) && more != "" && more[0] != '-' && Fence(more + FENCE + rest) == Some(|more|)
    ensures Fence(line + "\n" + more + FENCE + rest) == Some(|line + "\n" + more|)
  {
    assert line + "\n" + more + FENCE + rest == line + "\n" + (more + FENCE + rest);
    FenceSkips(line, more + FENCE + rest);
  }

  /** A printed header splits into its lines. */
  lemma {:induction false} HeaderSplits(es: seq<Entry>)
    requires PlainEntries(es)
    ensures SplitLines(Header(es)) == Lines(es)
  {
    FieldStarts(es[0]);
    if |es| == 1 {
      SplitLast(Field(es[0]));
    } else {
      HeaderSplits(es[1..]);
      SplitFirst(Field(es[0]), Header(es[1..]));
    }
  }

  lemma {:induction false} ColonFound(key: string, rest: string)
    requires ':' !in key
    ensures Colon(key + ":" + rest) == Some(|key|)
  {
    if key != "" {
      assert (key + ":" + rest)[1..] == key[1..] + ":" + rest;
      ColonFound(key[1..], rest);
    }
  }

  lemma FieldParses(meta: map<string, string>, e: Entry)
    requires PlainEntry(e)
    ensures Enter(meta, Field(e)) == meta[e.0 := e.1]
  {
    var line := Field(e);
    assert line == e.0 + ":" + (" " + e.1);
    ColonFound(e.0, " " + e.1);
    assert line[..|e.0|] == e.0 && line[|e.0| + 1..] == " " + e.1 + "";
    StripStripped(e.0);
    StripPadded(" ", e.1, "");
  }

  /** A Python dict filled from pairs: later pairs win. */
  function Dict(meta: map<string, string>, es: seq<Entry>): map<string, string>
    decreases |es|
  {
    if es == [] then meta else Dict(meta[es[0].0 := es[0].1], es[1..])
  }

  lemma {:induction false} MetaOfLines(meta: map<string, string>, es: seq<Entry>)
    requires forall i :: 0 <= i < |es| ==> PlainEntry(es[i])
    ensures Meta(meta, Lines(es)) == Dict(meta, es)
    decreases |es|
  {
    if es != [] {
      FieldParses(meta, es[0]);
      assert Lines(es)[0] == Field(es[0]) && Lines(es)[1..] == Lines(es[1..]);
      MetaOfLines(meta[es[0].0 := es[0].1], es[1..]);
    }
  }

  lemma KeysArePlain()
    ensures PlainKey("name") && PlainKey("description") && PlainKey("status")
    ensures PlainKey("source_session") && PlainKey("source_run")
  {
  }

  lemma EntriesArePlain(s: Skill)
    requires PlainSkill(s)
    ensures PlainEntries(Entries(s))
  {
    KeysArePlain();
  }

  lemma EntriesToSkill(s: Skill, body: string)
    ensures FromMeta(Dict(map[], Entries(s)), body) == s.(body := Strip(body))
  {
    var es := Entries(s);
    var m := map["name" := s.name];
    var m2 := m["description" := s.description]["status" := s.status];
    assert Dict(map[], es) == Dict(m, es[1..]);
    assert Dict(m, es[1..]) == Dict(m["description" := s.description], es[2..]);
    assert Dict(m["description" := s.description], es[2..]) == Dict(m2, es[3..]);
    assert Dict(m2, es[3..]) == Dict(m2["source_session" := s.session], es[4..]);
    assert es[5..] == [];
  }

  /** A rendered document parses to its fields and its stripped body, whatever the body contains. */
  lemma ParseRender(s: Skill)
    requires PlainSkill(s)
    ensures Parse(Render(s)) == s.(body := Strip(s.body))
  {
    var rest := "\n" + Strip(s.body) + "\n";
    EntriesArePlain(s);
    SplitDocument(Entries(s), rest);
    HeaderSplits(Entries(s));
    MetaOfLines(map[], Entries(s));
    EntriesToSkill(s, rest);
    StripIsStripped(s.body);
    StripPadded("\n", Strip(s.body), "\n");
  }

  /** The printed header is what the parser takes for the header, and nothing of the body is lost. */
  lemma SplitDocument(es: seq<Entry>, rest: string)
    requires PlainEntries(es)
    ensures Split("---\n" + (Header(es) + FENCE + rest)) == Parts(Some(Header(es)), rest)
  {
    var text := "---\n" + (Header(es) + FENCE + rest);
    assert text[..4] == "---\n" && text[4..] == Header(es) + FENCE + rest;
    HeaderFence(es, rest);
    assert text[4..4 + |Header(es)|] == Header(es);
    assert text[4 + |Header(es)| + 5..] == rest;
  }

  // ---- any document -----------------------------------------------------------------------------

  predicate PlainMeta(meta: map<string, string>) {
    forall k :: k in meta ==> PlainField(meta[k])
  }

  lemma EnterIsPlain(meta: map<string, string>, line: string)
    requires OneLine(line) && PlainMeta(meta)
    ensures PlainMeta(Enter(meta, line))
  {
    var c := Colon(line);
    if c.Some? { StripIsStripped(line[c.value + 1..]); }
  }

  lemma {:induction false} MetaIsPlain(meta: map<string, string>, lines: seq<string>)
    requires forall i :: 0 <= i < |lines| ==> OneLine(lines[i])
    requires PlainMeta(meta)
    ensures PlainMeta(Meta(meta, lines))
    decreases |lines|
  {
    if lines != [] {
      EnterIsPlain(meta, lines[0]);
      MetaIsPlain(Enter(meta, lines[0]), lines[1..]);
    }
  }

  /** What is parsed from any document at all has stripped, single-line fields and a stripped body. */
  lemma ParseIsPlain(text: string)
    ensures PlainSkill(Parse(text)) && Strip(Parse(text).body) == Parse(text).body
  {
    var p := Split(text);
    StripIsStripped(p.body);
    StripStripped(Strip(p.body));
    if p.header.Some? {
      LinesAreLines(p.header.value);
      MetaIsPlain(map[], SplitLines(p.header.value));
    }
  }

  /** Exactly the documents whose fields are stripped single lines survive the round trip; any body does. */
  lemma RoundTrip(s: Skill)
    ensures Parse(Render(s)) == s.(body := Strip(s.body)) <==> PlainSkill(s)
  {
    if PlainSkill(s) {
      ParseRender(s);
    } else {
      ParseIsPlain(Render(s));
    }
  }

  // ---- the store --------------------------------------------------------------------------------

  predicate ValidName(name: string) {
    && 1 <= |name| <= 64 && name[0] != '-'
    && forall i :: 0 <= i < |name| ==> 'a' <= name[i] <= 'z' || '0' <= name[i] <= '9' || name[i] == '-'
  }

  lemma ValidNamesArePlain(name: string)
    requires ValidName(name)
    ensures PlainField(name)
  {
  }

  function Approved(name: string, text: string): string {
    Render(Parse(text).(name := name, status := "approved"))
  }

  /** Approving changes the status and, if the file was filed under another name, the name; nothing else. */
  lemma ApproveChangesStatusOnly(name: string, text: string)
    requires ValidName(name)
    ensures Parse(Approved(name, text)) == Parse(text).(name := name, status := "approved")
    ensures Approved(name, Approved(name, text)) == Approved(name, text)
  {
    ParseIsPlain(text);
    ValidNamesArePlain(name);
    ParseRender(Parse(text).(name := name, status := "approved"));
  }

  class SkillStore {
    var docs: map<string, string>

    constructor ()
      ensures docs == map[]
    {
      docs := map[];
    }

    /** An invalid name is an error in all three operations. */
    method Save(name: string, s: Skill) returns (r: Result<Unit>)
      modifies this
      ensures r.Ok? <==> ValidName(name)
      ensures docs == if r.Ok? then old(docs)[name := Render(s.(name := name))] else old(docs)
      // what was saved is what a load returns
      ensures r.Ok? && PlainSkill(s) ==> Parse(docs[name]) == s.(name := name, body := Strip(s.body))
    {
      if !ValidName(name) { return Err("invalid skill name"); }
      ValidNamesArePlain(name);
      docs := docs[name := Render(s.(name := name))];
      if PlainSkill(s) { ParseRender(s.(name := name)); }
      r := Ok(Unit);
    }

    method Load(name: string) returns (r: Result<Option<Skill>>)
      ensures r.Err? <==> !ValidName(name)
      ensures r.Ok? ==> r.value == if name in docs then Some(Parse(docs[name])) else None
    {
      if !ValidName(name) { return Err("invalid skill name"); }
      if name !in docs { return Ok(None); }
      var sk := ParseSkill(docs[name]);
      r := Ok(Some(sk));
    }

    method Approve(name: string) returns (r: Result<bool>)
      modifies this
      ensures r.Err? <==> !ValidName(name)
      ensures r.Ok? ==> (r.value <==> name in old(docs))
      ensures docs == if r == Ok(true) then old(docs)[name := Approved(name, old(docs)[name])] else old(docs)
      ensures r == Ok(true) ==>
        && Parse(docs[name]) == Parse(old(docs)[name]).(name := name, status := "approved")
        && Approved(name, docs[name]) == docs[name]
    {
      var sk := Load(name);
      if sk.Err? { return Err(sk.error); }
      if sk.value.None? { return Ok(false); }
      var _ := Save(name, sk.value.value.(status := "approved"));
      ApproveChangesStatusOnly(name, old(docs)[name]);
      r := Ok(true);
    }
  }
}
