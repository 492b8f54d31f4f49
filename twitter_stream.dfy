/** src/twitter_stream.py: synchronising the filtered-stream rules (get, delete, add) and reading
    the stream, run by create_thread's retry loop. */
module TwitterStream {
  import opened Wrappers
  import opened Errors
  import opened Json
  import opened Strings
  import opened Utils
  import opened Http
  import opened Retry

  /** What one run of main() meets outside the program: the server's reply to each request, the
      stream, json.loads, and the clock as time.time() reads it in an except clause. */
  datatype StreamEnv = StreamEnv(
    serve: Request -> Reply,
    stream: StreamReply,
    parse: string -> Option<Json>,
    now: real)

  /** config["LINKS"][key] used as a URL; httpx refuses a URL that is not text. */
  function Link(cfg: Parser, key: string): (r: Result<string, Error>)
    ensures Lookup(cfg, "LINKS", key).Err? ==> r == Err(Lookup(cfg, "LINKS", key).error)
    ensures r.Ok? <==> Lookup(cfg, "LINKS", key).Ok? && Lookup(cfg, "LINKS", key).value.Text?
    ensures r.Ok? ==> r.value == Lookup(cfg, "LINKS", key).value.s
    ensures Lookup(cfg, "LINKS", key).Ok? && Lookup(cfg, "LINKS", key).value.Items? ==> r == Err(TypeError)
  {
    var v :- Lookup(cfg, "LINKS", key);
    if v.Text? then Ok(v.s) else Err(TypeError)
  }

  const RulesLink := "twitter_stream_rules_link"
  const StreamLink := "twitter_stream_link"

  /** The four kinds of request main() makes. */
  datatype Stage = Fetching | Deleting | Adding | Opening

  function StageOf(req: Request): Stage {
    match req.verb
    case Get => Fetching
    case GetStreaming => Opening
    case Post =>
      if req.payload.Some? && req.payload.value.Obj? && "delete" in req.payload.value.fields then Deleting else Adding
  }

  function Stages(reqs: seq<Request>): (st: seq<Stage>)
    ensures |st| == |reqs| && forall i :: 0 <= i < |reqs| ==> st[i] == StageOf(reqs[i])
  {
    seq(|reqs|, i requires 0 <= i < |reqs| => StageOf(reqs[i]))
  }

  lemma StagesAppend(a: seq<Request>, b: seq<Request>)
    ensures Stages(a + b) == Stages(a) + Stages(b)
  {
  }

  /** A trace that sends no request, or one request of the given kind. */
  predicate AtMostOne(t: Trace, stage: Stage) {
    Stages(Requests(t)) == [] || Stages(Requests(t)) == [stage]
  }

  // ---------------------------------------------------------------- get_rules

  /** get_rules: GET the rules endpoint; anything but 200 raises; the body is logged and returned. */
  function GetRules(cfg: Parser, env: StreamEnv): (s: Step<Json>)
    ensures AtMostOne(s.trace, Fetching) && (s.result.Ok? ==> Stages(Requests(s.trace)) == [Fetching])
    ensures Link(cfg, RulesLink).Err? ==> s == Step([], Err(Link(cfg, RulesLink).error))
    ensures Link(cfg, RulesLink).Ok? ==> s == Exchange(env.serve, env.parse, Request(Get, Link(cfg, RulesLink).value, [], None), 200, GetRulesLog)
  {
    match Link(cfg, RulesLink)
    case Err(e) => Step([], Err(e))
    case Ok(url) => Exchange(env.serve, env.parse, Request(Get, url, [], None), 200, GetRulesLog)
  }

  /** get_rules fails exactly when the reply is not a 200 response with a JSON body, and then with
      HTTPStatusError for another status; on success it returns that body and has logged it. */
  lemma GetRulesStatus(cfg: Parser, env: StreamEnv)
    requires Link(cfg, RulesLink).Ok?
    ensures var req := Request(Get, Link(cfg, RulesLink).value, [], None);
      var reply := env.serve(req);
      var s := GetRules(cfg, env);
      && Requests(s.trace) == [req]
      && (s.result.Ok? <==> reply.Response? && reply.status == 200 && env.parse(reply.text).Some?)
      && (reply.Response? && reply.status != 200 ==> s.result == Err(HTTPStatusError(reply.status, reply.headers)))
      && (s.result.Ok? ==> s.result.value == env.parse(reply.text).value && s.trace == [Sent(req), Logged(GetRulesLog, s.result.value)])
  {
  }

  // ---------------------------------------------------------------- delete_all_rules

  /** `key in container` for a container that is not None: a dict's keys, a list's elements, a
      str's substrings; a number or a bool raises TypeError. */
  function Contains(container: Json, key: string): (r: Result<bool, Error>)
    ensures r.Err? <==> container.Null? || container.Bool? || container.Num?
    ensures r.Err? ==> r.error == TypeError
    ensures container.Obj? ==> (r == Ok(true) <==> key in container.fields)
    ensures container.Arr? ==> (r == Ok(true) <==> Str(key) in container.items)
  {
    match container
    case Obj(m) => Ok(key in m)
    case Arr(items) => Ok(Str(key) in items)
    case Str(s) => Ok(IsSubstring(key, s))
    case _ => Err(TypeError)
  }

  /** rule["id"]: a dict without "id" raises KeyError, anything but a dict raises TypeError. */
  function RuleId(rule: Json): (r: Result<Json, Error>)
    ensures r.Ok? <==> rule.Obj? && "id" in rule.fields
    ensures r.Ok? ==> r.value == rule.fields["id"]
    ensures rule.Obj? && "id" !in rule.fields ==> r == Err(KeyError("id"))
    ensures !rule.Obj? ==> r == Err(TypeError)
  {
    match rule
    case Obj(m) => if "id" in m then Ok(m["id"]) else Err(KeyError("id"))
    case _ => Err(TypeError)
  }

  /** list(map(lambda rule: rule["id"], rules)): the first rule without an id raises; otherwise one
      id per rule, in order. */
  function RuleIds(rules: seq<Json>): (r: Result<seq<Json>, Error>)
    ensures r.Ok? <==> forall i :: 0 <= i < |rules| ==> RuleId(rules[i]).Ok?
    ensures r.Ok? ==> |r.value| == |rules| && forall i :: 0 <= i < |rules| ==> RuleId(rules[i]) == Ok(r.value[i])
    ensures r.Err? ==> exists i :: FirstBadRule(rules, i) && RuleId(rules[i]) == Err(r.error)
  {
    if rules == [] then Ok([])
    else
      var id :- RuleId(rules[0]);
      assert FirstBadRule(rules, 0) || RuleId(rules[0]).Ok?;
      var rest := RuleIds(rules[1..]);
      assert forall i :: 1 <= i < |rules| ==> rules[i] == rules[1..][i - 1];
      if rest.Err? then
        FirstBadRuleShift(rules);
        Err(rest.error)
      else Ok([id] + rest.value)
  }

  /** Rule i is the first whose id cannot be read. */
  predicate FirstBadRule(rules: seq<Json>, i: int) {
    0 <= i < |rules| && RuleId(rules[i]).Err? && forall j :: 0 <= j < i ==> RuleId(rules[j]).Ok?
  }

  lemma FirstBadRuleShift(rules: seq<Json>)
    requires rules != [] && RuleId(rules[0]).Ok?
    ensures forall i :: FirstBadRule(rules[1..], i) ==> FirstBadRule(rules, i + 1)
  {
    forall i | FirstBadRule(rules[1..], i) ensures FirstBadRule(rules, i + 1) {
      assert rules[i + 1] == rules[1..][i];
      forall j | 0 <= j < i + 1 ensures RuleId(rules[j]).Ok? {
        if j > 0 {
          assert rules[j] == rules[1..][j - 1];
        }
      }
    }
  }

  /** The ids collected from rules["data"]: a list gives one id per element; iterating a non-empty
      dict or str yields str elements, and indexing a str with "id" raises TypeError; other values
      are not iterable. */
  function DataIds(data: Json): (r: Result<seq<Json>, Error>)
    ensures data.Arr? ==> r == RuleIds(data.items)
    ensures r.Ok? && !data.Arr? ==> r.value == []
    ensures data.Null? || data.Bool? || data.Num? ==> r == Err(TypeError)
  {
    match data
    case Arr(items) => RuleIds(items)
    case Obj(m) => if |m| == 0 then Ok([]) else Err(TypeError)
    case Str(s) => if s == "" then Ok([]) else Err(TypeError)
    case _ => Err(TypeError)
  }

  /** Whether delete_all_rules sends a request, and with which ids. */
  datatype DeletePlan = NoRequest | DeleteIds(ids: seq<Json>)

  /** The early return for None or a value without "data", then the id extraction. */
  function PlanDelete(rules: Json): (r: Result<DeletePlan, Error>)
    ensures r == Ok(NoRequest) <==> rules.Null? || Contains(rules, "data") == Ok(false)
    ensures r.Ok? && r.value.DeleteIds? ==>
      rules.Obj? && "data" in rules.fields && DataIds(rules.fields["data"]) == Ok(r.value.ids)
    ensures rules.Bool? || rules.Num? ==> r == Err(TypeError)
  {
    if rules.Null? then Ok(NoRequest)
    else
      var present :- Contains(rules, "data");
      if !present then Ok(NoRequest)
      else if !rules.Obj? then Err(TypeError)
      else
        var ids :- DataIds(rules.fields["data"]);
        Ok(DeleteIds(ids))
  }

  function DeletePayload(ids: seq<Json>): Json {
    Obj(map["delete" := Obj(map["ids" := Arr(ids)])])
  }

  /** delete_all_rules: POST the delete payload, expecting 200; nothing is sent when there is
      nothing to delete. */
  function DeleteAllRules(cfg: Parser, env: StreamEnv, rules: Json): (s: Step<()>)
    ensures PlanDelete(rules) == Ok(NoRequest) ==> s == Step([], Ok(()))
    ensures AtMostOne(s.trace, Deleting)
  {
    match PlanDelete(rules)
    case Err(e) => Step([], Err(e))
    case Ok(NoRequest) => Step([], Ok(()))
    case Ok(DeleteIds(ids)) =>
      match Link(cfg, RulesLink)
      case Err(e) => Step([], Err(e))
      case Ok(url) =>
        var x := Exchange(env.serve, env.parse, Request(Post, url, [], Some(DeletePayload(ids))), 200, DeleteRulesLog);
        Step(x.trace, if x.result.Ok? then Ok(()) else Err(x.result.error))
  }

  /** For None, or for a dict without "data", delete_all_rules returns None without any request;
      for a dict with "data", it is the id extraction, not the early return, that decides. */
  lemma DeleteSkipsWithoutData(cfg: Parser, env: StreamEnv, rules: Json)
    requires rules.Null? || rules.Obj?
    ensures PlanDelete(rules) == Ok(NoRequest) <==> rules.Null? || "data" !in rules.fields
    ensures rules.Null? || "data" !in rules.fields ==> DeleteAllRules(cfg, env, rules) == Step([], Ok(()))
  {
  }

  /** With a list of rules under "data", each with an id, the delete request carries every id, one
      per rule, in the rules' order; it fails exactly when the reply is not a 200 response with a
      JSON body. */
  lemma DeletePayloadIds(cfg: Parser, env: StreamEnv, rules: Json)
    requires rules.Obj? && "data" in rules.fields && rules.fields["data"].Arr?
    requires forall i :: 0 <= i < |rules.fields["data"].items| ==> RuleId(rules.fields["data"].items[i]).Ok?
    requires Link(cfg, RulesLink).Ok?
    ensures var data := rules.fields["data"].items;
      PlanDelete(rules).Ok? && PlanDelete(rules).value.DeleteIds? &&
      var ids := PlanDelete(rules).value.ids;
      var req := Request(Post, Link(cfg, RulesLink).value, [], Some(DeletePayload(ids)));
      var reply := env.serve(req);
      && |ids| == |data|
      && (forall i :: 0 <= i < |data| ==> data[i].fields["id"] == ids[i])
      && Requests(DeleteAllRules(cfg, env, rules).trace) == [req]
      && (DeleteAllRules(cfg, env, rules).result.Ok? <==> reply.Response? && reply.status == 200 && env.parse(reply.text).Some?)
  {
    var data := rules.fields["data"].items;
    assert Contains(rules, "data") == Ok(true);
    var ids := RuleIds(data).value;
    forall i | 0 <= i < |data| ensures data[i].fields["id"] == ids[i] {
      assert RuleId(data[i]) == Ok(ids[i]);
    }
  }

  /** One existing rule with id "1" gives the payload {"delete": {"ids": ["1"]}}. */
  lemma DeleteOneRule(cfg: Parser, env: StreamEnv)
    requires Link(cfg, RulesLink).Ok?
    ensures var rule := Obj(map["id" := Str("1"), "value" := Str("cats"), "tag" := Str("t")]);
      var rules := Obj(map["data" := Arr([rule]), "meta" := Obj(map["result_count" := Num(1)])]);
      Requests(DeleteAllRules(cfg, env, rules).trace)
        == [Request(Post, Link(cfg, RulesLink).value, [], Some(Obj(map["delete" := Obj(map["ids" := Arr([Str("1")])])])))]
  {
    var rule := Obj(map["id" := Str("1"), "value" := Str("cats"), "tag" := Str("t")]);
    var rules := Obj(map["data" := Arr([rule]), "meta" := Obj(map["result_count" := Num(1)])]);
    assert Contains(rules, "data") == Ok(true);
    assert RuleId(rule) == Ok(Str("1"));
    assert [rule][1..] == [] && RuleIds([]) == Ok([]);
    assert [Str("1")] + [] == [Str("1")];
    assert RuleIds([rule]) == Ok([Str("1")]);
  }

  // ---------------------------------------------------------------- set_rules

  /** What `for x in value` visits: the one-character strings of a text, the items of a list. */
  function Elements(v: Value): (r: seq<string>)
    ensures v.Items? ==> r == v.xs
    ensures v.Text? ==> |r| == |v.s| && forall i :: 0 <= i < |v.s| ==> r[i] == [v.s[i]]
  {
    match v
    case Items(xs) => xs
    case Text(s) => seq(|s|, i requires 0 <= i < |s| => [s[i]])
  }

  function Min(a: nat, b: nat): nat {
    if a < b then a else b
  }

  function RuleObject(value: string, tag: string): Json {
    Obj(map["value" := Str(value), "tag" := Str(tag)])
  }

  /** zip(rules, tags) turned into rule objects: as many as the shorter list, paired by position. */
  function AddRules(rules: seq<string>, tags: seq<string>): (add: seq<Json>)
    ensures |add| == Min(|rules|, |tags|)
    ensures forall i :: 0 <= i < |add| ==> add[i] == RuleObject(rules[i], tags[i])
  {
    if rules == [] || tags == [] then []
    else
      var rest := AddRules(rules[1..], tags[1..]);
      assert forall i :: 1 <= i < Min(|rules|, |tags|) ==> rules[i] == rules[1..][i - 1] && tags[i] == tags[1..][i - 1];
      [RuleObject(rules[0], tags[0])] + rest
  }

  /** The `for rule, tag in zip(...)` loop that appends one rule object per pair. */
  method CollectRules(rules: seq<string>, tags: seq<string>) returns (add: seq<Json>)
    ensures |add| == Min(|rules|, |tags|)
    ensures forall i :: 0 <= i < |add| ==> add[i] == RuleObject(rules[i], tags[i])
    ensures add == AddRules(rules, tags)
  {
    add := [];
    var i := 0;
    while i < |rules| && i < |tags|
      invariant i <= |rules| && i <= |tags|
      invariant |add| == i
      invariant forall j :: 0 <= j < i ==> add[j] == RuleObject(rules[j], tags[j])
    {
      add := add + [RuleObject(rules[i], tags[i])];
      i := i + 1;
    }
  }

  function AddPayload(add: seq<Json>): Json {
    Obj(map["add" := Arr(add)])
  }

  /** The request part of set_rules: POST the add payload, expecting 201. */
  function PostRules(cfg: Parser, env: StreamEnv, add: seq<Json>): (s: Step<()>)
    ensures AtMostOne(s.trace, Adding) && (s.result.Ok? ==> Stages(Requests(s.trace)) == [Adding])
  {
    match Link(cfg, RulesLink)
    case Err(e) => Step([], Err(e))
    case Ok(url) =>
      var x := Exchange(env.serve, env.parse, Request(Post, url, [], Some(AddPayload(add))), 201, SetRulesLog);
      Step(x.trace, if x.result.Ok? then Ok(()) else Err(x.result.error))
  }

  /** set_rules: read the configured rules and tags, pair them, and post them. */
  function SetRulesOutcome(cfg: Parser, env: StreamEnv): (s: Step<()>)
    ensures AtMostOne(s.trace, Adding) && (s.result.Ok? ==> Stages(Requests(s.trace)) == [Adding])
  {
    match Lookup(cfg, "STREAMTWEET", "rule")
    case Err(e) => Step([], Err(e))
    case Ok(rule) =>
      match Lookup(cfg, "STREAMTWEET", "tag")
      case Err(e) => Step([], Err(e))
      case Ok(tag) => PostRules(cfg, env, AddRules(Elements(rule), Elements(tag)))
  }

  method SetRules(cfg: Parser, env: StreamEnv) returns (s: Step<()>)
    ensures s == SetRulesOutcome(cfg, env)
  {
    var rule := Lookup(cfg, "STREAMTWEET", "rule");
    if rule.Err? {
      return Step([], Err(rule.error));
    }
    var tag := Lookup(cfg, "STREAMTWEET", "tag");
    if tag.Err? {
      return Step([], Err(tag.error));
    }
    var add := CollectRules(Elements(rule.value), Elements(tag.value));
    s := PostRules(cfg, env, add);
  }

  /** The add request pairs the i-th configured rule with the i-th tag, as many as the shorter
      list; it fails exactly when the reply is not a 201 response with a JSON body. */
  lemma SetRulesPayload(cfg: Parser, env: StreamEnv, rule: Value, tag: Value)
    requires Lookup(cfg, "STREAMTWEET", "rule") == Ok(rule)
    requires Lookup(cfg, "STREAMTWEET", "tag") == Ok(tag)
    requires Link(cfg, RulesLink).Ok?
    ensures var rules, tags := Elements(rule), Elements(tag);
      var add := AddRules(rules, tags);
      var req := Request(Post, Link(cfg, RulesLink).value, [], Some(AddPayload(add)));
      var reply := env.serve(req);
      var s := SetRulesOutcome(cfg, env);
      && |add| == Min(|rules|, |tags|)
      && (forall i :: 0 <= i < |add| ==> add[i] == Obj(map["value" := Str(rules[i]), "tag" := Str(tags[i])]))
      && Requests(s.trace) == [req]
      && (s.result.Ok? <==> reply.Response? && reply.status == 201 && env.parse(reply.text).Some?)
      && (reply.Response? && reply.status != 201 ==> s.result == Err(HTTPStatusError(reply.status, reply.headers)))
  {
  }

  /** Rules ["foo", "bar"] with tags ["t1", "t2"] give two rule objects, in that order. */
  lemma AddTwoRules()
    ensures AddRules(["foo", "bar"], ["t1", "t2"]) == [RuleObject("foo", "t1"), RuleObject("bar", "t2")]
  {
  }

  /** A rule or tag stored as text is iterated character by character, so zip pairs characters. */
  lemma TextRulesPairCharacters()
    ensures AddRules(Elements(Text("ab")), Elements(Text("xyz"))) == [RuleObject("a", "x"), RuleObject("b", "y")]
  {
    assert Elements(Text("ab")) == ["a", "b"];
    assert Elements(Text("xyz")) == ["x", "y", "z"];
  }

  // ---------------------------------------------------------------- get_stream

  /** A chunk that is neither empty nor exactly a "\r\n" or "\n" keep-alive. */
  predicate KeepChunk(chunk: string) {
    chunk != "" && chunk != "\r\n" && chunk != "\n"
  }

  /** The chunks that get_stream parses, in arrival order. */
  function Kept(chunks: seq<string>): (r: seq<string>)
    ensures |r| <= |chunks|
  {
    if chunks == [] then []
    else (if KeepChunk(chunks[0]) then [chunks[0]] else []) + Kept(chunks[1..])
  }

  /** The kept chunks are the chunks that are not keep-alives, and nothing else. */
  lemma {:induction false} KeptMembers(chunks: seq<string>)
    ensures forall c :: c in Kept(chunks) <==> c in chunks && KeepChunk(c)
  {
    if chunks != [] {
      KeptMembers(chunks[1..]);
      assert forall c :: c in chunks <==> c == chunks[0] || c in chunks[1..];
    }
  }

  /** The filter works chunk by chunk: filtering two runs of chunks one after the other keeps the
      kept chunks of each, in arrival order, repeats included. */
  lemma {:induction false} KeptAppend(a: seq<string>, b: seq<string>)
    ensures Kept(a + b) == Kept(a) + Kept(b)
  {
    if a == [] {
      assert a + b == b;
    } else {
      var head := if KeepChunk(a[0]) then [a[0]] else [];
      assert (a + b)[0] == a[0] && (a + b)[1..] == a[1..] + b;
      assert Kept(a + b) == head + Kept(a[1..] + b);
      KeptAppend(a[1..], b);
      assert head + (Kept(a[1..]) + Kept(b)) == (head + Kept(a[1..])) + Kept(b);
    }
  }

  /** One chunk is kept, unchanged, exactly when it is not a keep-alive. */
  lemma KeptOne(c: string)
    ensures Kept([c]) == (if KeepChunk(c) then [c] else [])
  {
    assert [c][1..] == [];
  }

  /** Reading the stream only logs. */
  lemma {:induction false} ReadChunksSendsNothing(chunks: seq<string>, parse: string -> Option<Json>)
    ensures Requests(ReadChunks(chunks, parse).0) == []
    ensures forall t :: Requests([Sent(t)] + ReadChunks(chunks, parse).0) == [t]
  {
    if chunks != [] {
      ReadChunksSendsNothing(chunks[1..], parse);
      if KeepChunk(chunks[0]) && parse(chunks[0]).Some? {
        RequestsAppend([Logged(StreamRecord, parse(chunks[0]).value)], ReadChunks(chunks[1..], parse).0);
      }
    }
    forall t {
      RequestsAppend([Sent(t)], ReadChunks(chunks, parse).0);
    }
  }

  /** The log lines of chunks that all parse. */
  function Records(chunks: seq<string>, parse: string -> Option<Json>): (t: Trace)
    requires forall i :: 0 <= i < |chunks| ==> parse(chunks[i]).Some?
    ensures |t| == |chunks|
    ensures forall i :: 0 <= i < |chunks| ==> t[i] == Logged(StreamRecord, parse(chunks[i]).value)
  {
    if chunks == [] then []
    else
      assert forall i :: 1 <= i < |chunks| ==> chunks[i] == chunks[1..][i - 1];
      [Logged(StreamRecord, parse(chunks[0]).value)] + Records(chunks[1..], parse)
  }

  /** The `async for` over the chunks: what it logs and how it ends. */
  function ReadChunks(chunks: seq<string>, parse: string -> Option<Json>): (r: (Trace, Result<(), Error>))
    ensures |r.0| <= |Kept(chunks)|
    ensures r.1.Ok? || r.1 == Err(JSONDecodeError)
    ensures r.1.Err? ==> exists i :: 0 <= i < |chunks| && KeepChunk(chunks[i]) && parse(chunks[i]).None?
  {
    if chunks == [] then ([], Ok(()))
    else if !KeepChunk(chunks[0]) then ReadChunks(chunks[1..], parse)
    else match parse(chunks[0])
      case None => ([], Err(JSONDecodeError))
      case Some(j) =>
        var rest := ReadChunks(chunks[1..], parse);
        ([Logged(StreamRecord, j)] + rest.0, rest.1)
  }

  /** get_stream: open the stream; anything but 200 raises before a chunk is read; then every kept
      chunk is parsed and logged; a transport failure during the read raises RequestError. */
  function GetStreamOutcome(cfg: Parser, env: StreamEnv): (s: Step<()>)
    ensures AtMostOne(s.trace, Opening) && (s.result.Ok? ==> Stages(Requests(s.trace)) == [Opening])
  {
    ReadChunksSendsNothing(if env.stream.Streamed? then env.stream.chunks else [], env.parse);
    match Link(cfg, StreamLink)
    case Err(e) => Step([], Err(e))
    case Ok(url) =>
      var req := Request(GetStreaming, url, [], None);
      match env.stream
      case StreamFailure => Step([Sent(req)], Err(RequestError))
      case Streamed(status, headers, chunks, broken) =>
        if status != 200 then Step([Sent(req)], Err(HTTPStatusError(status, headers)))
        else
          var (logged, res) := ReadChunks(chunks, env.parse);
          Step([Sent(req)] + logged, if res.Err? then res else if broken then Err(RequestError) else Ok(()))
  }

  method GetStream(cfg: Parser, env: StreamEnv) returns (s: Step<()>)
    ensures s == GetStreamOutcome(cfg, env)
  {
    var url := Link(cfg, StreamLink);
    if url.Err? {
      return Step([], Err(url.error));
    }
    var req := Request(GetStreaming, url.value, [], None);
    if env.stream.StreamFailure? {
      return Step([Sent(req)], Err(RequestError));
    }
    if env.stream.status != 200 {
      return Step([Sent(req)], Err(HTTPStatusError(env.stream.status, env.stream.headers)));
    }
    var chunks := env.stream.chunks;
    var logged: Trace := [];
    var i := 0;
    assert chunks[0..] == chunks;
    assert logged + ReadChunks(chunks, env.parse).0 == ReadChunks(chunks, env.parse).0;
    while i < |chunks|
      invariant i <= |chunks|
      invariant ReadChunks(chunks, env.parse) == (logged + ReadChunks(chunks[i..], env.parse).0, ReadChunks(chunks[i..], env.parse).1)
    {
      var chunk := chunks[i];
      assert chunks[i..][0] == chunk && chunks[i..][1..] == chunks[i + 1..];
      if KeepChunk(chunk) {
        var parsed := env.parse(chunk);
        if parsed.None? {
          return Step([Sent(req)] + logged, Err(JSONDecodeError));
        }
        assert logged + ([Logged(StreamRecord, parsed.value)] + ReadChunks(chunks[i + 1..], env.parse).0)
            == (logged + [Logged(StreamRecord, parsed.value)]) + ReadChunks(chunks[i + 1..], env.parse).0;
        logged := logged + [Logged(StreamRecord, parsed.value)];
      }
      i := i + 1;
    }
    assert chunks[i..] == [];
    assert logged + [] == logged;
    s := Step([Sent(req)] + logged, if env.stream.broken then Err(RequestError) else Ok(()));
  }

  lemma KeptAllParse(p: seq<string>, parse: string -> Option<Json>)
    requires forall i :: 0 <= i < |p| && KeepChunk(p[i]) ==> parse(p[i]).Some?
    ensures forall i :: 0 <= i < |Kept(p)| ==> parse(Kept(p)[i]).Some?
  {
    KeptMembers(p);
    forall i | 0 <= i < |Kept(p)| ensures parse(Kept(p)[i]).Some? {
      var c := Kept(p)[i];
      assert c in Kept(p);
      var j :| 0 <= j < |p| && p[j] == c;
    }
  }

  /** A run of chunks read without error leaves the rest of the stream to be read as if alone. */
  lemma {:induction false} ReadChunksAppend(p: seq<string>, q: seq<string>, parse: string -> Option<Json>)
    requires ReadChunks(p, parse).1.Ok?
    ensures ReadChunks(p + q, parse) == (ReadChunks(p, parse).0 + ReadChunks(q, parse).0, ReadChunks(q, parse).1)
  {
    var rest := ReadChunks(q, parse);
    if p == [] {
      assert p + q == q;
      assert [] + rest.0 == rest.0;
    } else {
      var p' := p[1..];
      var t := p + q;
      assert t[0] == p[0] && t[1..] == p' + q;
      if KeepChunk(p[0]) {
        var head := Logged(StreamRecord, parse(p[0]).value);
        ReadChunksAppend(p', q, parse);
        assert [head] + (ReadChunks(p', parse).0 + rest.0) == ([head] + ReadChunks(p', parse).0) + rest.0;
      } else {
        ReadChunksAppend(p', q, parse);
      }
    }
  }

  /** When every kept chunk parses, the reader logs exactly the kept chunks, parsed, in arrival
      order, and no other chunk. */
  lemma {:induction false} ReadChunksLogsKept(chunks: seq<string>, parse: string -> Option<Json>)
    requires forall i :: 0 <= i < |chunks| && KeepChunk(chunks[i]) ==> parse(chunks[i]).Some?
    ensures forall i :: 0 <= i < |Kept(chunks)| ==> parse(Kept(chunks)[i]).Some?
    ensures ReadChunks(chunks, parse) == (Records(Kept(chunks), parse), Ok(()))
  {
    KeptAllParse(chunks, parse);
    if chunks != [] {
      var rest := chunks[1..];
      assert forall i :: 0 <= i < |rest| ==> rest[i] == chunks[i + 1];
      ReadChunksLogsKept(rest, parse);
      if KeepChunk(chunks[0]) {
        assert Kept(chunks) == [chunks[0]] + Kept(rest);
        assert Kept(chunks)[1..] == Kept(rest);
      } else {
        assert Kept(chunks) == Kept(rest);
      }
    }
  }

  /** The first kept chunk that does not parse ends the read with JSONDecodeError, after the kept
      chunks before it were logged. */
  lemma ReadChunksStopsAtBadChunk(chunks: seq<string>, parse: string -> Option<Json>, k: nat)
    requires k < |chunks| && KeepChunk(chunks[k]) && parse(chunks[k]).None?
    requires forall i :: 0 <= i < k && KeepChunk(chunks[i]) ==> parse(chunks[i]).Some?
    ensures forall i :: 0 <= i < |Kept(chunks[..k])| ==> parse(Kept(chunks[..k])[i]).Some?
    ensures ReadChunks(chunks, parse) == (Records(Kept(chunks[..k]), parse), Err(JSONDecodeError))
  {
    var front := chunks[..k];
    assert forall i :: 0 <= i < k ==> front[i] == chunks[i];
    ReadChunksLogsKept(front, parse);
    assert chunks == front + chunks[k..];
    ReadChunksAppend(front, chunks[k..], parse);
    assert chunks[k..][0] == chunks[k];
    assert Records(Kept(front), parse) + [] == Records(Kept(front), parse);
  }

  /** A stream answered with a status other than 200 raises HTTPStatusError before any chunk is
      read: the only event is the request. */
  lemma StreamRejectedBeforeReading(cfg: Parser, env: StreamEnv)
    requires Link(cfg, StreamLink).Ok? && env.stream.Streamed? && env.stream.status != 200
    ensures GetStreamOutcome(cfg, env)
      == Step([Sent(Request(GetStreaming, Link(cfg, StreamLink).value, [], None))],
              Err(HTTPStatusError(env.stream.status, env.stream.headers)))
  {
  }

  /** Two records separated by a keep-alive chunk are logged, in order, and nothing else. */
  lemma TwoRecordsAndKeepAlive(parse: string -> Option<Json>)
    requires parse("{\"id\":1}\r\n") == Some(Obj(map["id" := Num(1)]))
    requires parse("{\"id\":2}\n") == Some(Obj(map["id" := Num(2)]))
    ensures ReadChunks(["{\"id\":1}\r\n", "\r\n", "{\"id\":2}\n"], parse)
      == ([Logged(StreamRecord, Obj(map["id" := Num(1)])), Logged(StreamRecord, Obj(map["id" := Num(2)]))], Ok(()))
  {
    var c1, c2 := "{\"id\":1}\r\n", "{\"id\":2}\n";
    var r1, r2 := Obj(map["id" := Num(1)]), Obj(map["id" := Num(2)]);
    assert |c1| == 10 && |c2| == 9;
    assert KeepChunk(c1) && KeepChunk(c2) && !KeepChunk("\r\n");
    var chunks := [c1, "\r\n", c2];
    assert chunks[1..] == ["\r\n", c2] && chunks[1..][1..] == [c2] && [c2][1..] == [];
    assert parse(c2) == Some(r2) && parse(c1) == Some(r1);
    assert ReadChunks([], parse) == ([], Ok(()));
    assert [Logged(StreamRecord, r2)] + [] == [Logged(StreamRecord, r2)];
    assert ReadChunks([c2], parse) == ([Logged(StreamRecord, r2)], Ok(()));
    assert ReadChunks(["\r\n", c2], parse) == ([Logged(StreamRecord, r2)], Ok(()));
    assert ReadChunks(chunks, parse) == ([Logged(StreamRecord, r1)] + [Logged(StreamRecord, r2)], Ok(()));
    assert [Logged(StreamRecord, r1)] + [Logged(StreamRecord, r2)] == [Logged(StreamRecord, r1), Logged(StreamRecord, r2)];
  }

  /** Only exact keep-alives are skipped: two keep-alives arriving in one chunk, or a blank, reach
      json.loads. */
  lemma CoalescedKeepAliveIsParsed()
    ensures KeepChunk("\r\n\r\n") && KeepChunk(" ") && !KeepChunk("\n") && !KeepChunk("")
  {
    assert |"\r\n\r\n"| == 4 && |" "| == 1;
  }

  // ---------------------------------------------------------------- main

  /** main(): get the rules, delete them, add the configured ones, read the stream; the first
      exception ends the run. */
  function SyncAndStreamOutcome(cfg: Parser, env: StreamEnv): (s: Step<()>)
    ensures GetRules(cfg, env).trace <= s.trace
    ensures GetRules(cfg, env).result.Err? ==> s.result == Err(GetRules(cfg, env).result.error)
    ensures s.result.Ok? ==> GetStreamOutcome(cfg, env).result.Ok? && SetRulesOutcome(cfg, env).result.Ok?
    ensures var g := GetRules(cfg, env);
      g.result.Ok? && DeleteAllRules(cfg, env, g.result.value).result.Err? ==>
        var d := DeleteAllRules(cfg, env, g.result.value);
        s == Step(g.trace + d.trace, d.result)
    ensures var g := GetRules(cfg, env);
      (&& g.result.Ok? && DeleteAllRules(cfg, env, g.result.value).result.Ok?
       && SetRulesOutcome(cfg, env).result.Err?) ==>
        var d, a := DeleteAllRules(cfg, env, g.result.value), SetRulesOutcome(cfg, env);
        s == Step(g.trace + d.trace + a.trace, a.result)
  {
    var g := GetRules(cfg, env);
    if g.result.Err? then Step(g.trace, Err(g.result.error))
    else
      var d := DeleteAllRules(cfg, env, g.result.value);
      if d.result.Err? then Step(g.trace + d.trace, d.result)
      else
        var a := SetRulesOutcome(cfg, env);
        if a.result.Err? then Step(g.trace + d.trace + a.trace, a.result)
        else
          var o := GetStreamOutcome(cfg, env);
          Step(g.trace + d.trace + a.trace + o.trace, o.result)
  }

  method SyncAndStream(cfg: Parser, env: StreamEnv) returns (s: Step<()>)
    ensures s == SyncAndStreamOutcome(cfg, env)
  {
    var g := GetRules(cfg, env);
    if g.result.Err? {
      return Step(g.trace, Err(g.result.error));
    }
    var d := DeleteAllRules(cfg, env, g.result.value);
    if d.result.Err? {
      return Step(g.trace + d.trace, d.result);
    }
    var a := SetRules(cfg, env);
    if a.result.Err? {
      return Step(g.trace + d.trace + a.trace, a.result);
    }
    var o := GetStream(cfg, env);
    s := Step(g.trace + d.trace + a.trace + o.trace, o.result);
  }

  const FullSync := [Fetching, Deleting, Adding, Opening]
  const SyncWithoutDelete := [Fetching, Adding, Opening]

  /** main() makes its requests in the order get, delete (only when there are rules to delete),
      add, stream, and stops at the first failure: the kinds of request sent are a prefix of one of
      the two orders, a run that returns normally made all requests of one of them, and a step's
      request is sent only when every step before it returned normally (SyncStopsAtFailure). */
  lemma SyncOrder(cfg: Parser, env: StreamEnv)
    ensures var st := Stages(Requests(SyncAndStreamOutcome(cfg, env).trace));
      && (st <= FullSync || st <= SyncWithoutDelete)
      && (SyncAndStreamOutcome(cfg, env).result.Ok? ==> st == FullSync || st == SyncWithoutDelete)
  {
    var out := SyncAndStreamOutcome(cfg, env);
    var g := GetRules(cfg, env);
    if g.result.Err? {
      return;
    }
    var d := DeleteAllRules(cfg, env, g.result.value);
    StagesOfConcat(g.trace, d.trace);
    if d.result.Err? {
      SyncOrderOf(Stages(Requests(g.trace)), Stages(Requests(d.trace)), [], [], false);
      return;
    }
    var a := SetRulesOutcome(cfg, env);
    StagesOfConcat(g.trace + d.trace, a.trace);
    if a.result.Err? {
      SyncOrderOf(Stages(Requests(g.trace)), Stages(Requests(d.trace)), Stages(Requests(a.trace)), [], false);
      return;
    }
    var o := GetStreamOutcome(cfg, env);
    StagesOfConcat(g.trace + d.trace + a.trace, o.trace);
    SyncOrderOf(Stages(Requests(g.trace)), Stages(Requests(d.trace)), Stages(Requests(a.trace)), Stages(Requests(o.trace)), o.result.Ok?);
  }

  /** main() has no handler of its own: once a step raises, no later step's request is sent. */
  lemma SyncStopsAtFailure(cfg: Parser, env: StreamEnv)
    ensures var st := Stages(Requests(SyncAndStreamOutcome(cfg, env).trace));
      var g := GetRules(cfg, env);
      && (Deleting in st ==> g.result.Ok?)
      && (Adding in st ==> g.result.Ok? && DeleteAllRules(cfg, env, g.result.value).result.Ok?)
      && (Opening in st ==>
            && g.result.Ok? && DeleteAllRules(cfg, env, g.result.value).result.Ok?
            && SetRulesOutcome(cfg, env).result.Ok?)
  {
    var g := GetRules(cfg, env);
    if g.result.Err? {
      FailedFetchSendsNothingElse(cfg, env);
      var st := Stages(Requests(SyncAndStreamOutcome(cfg, env).trace));
      assert st == [] || st == [Fetching];
    } else if DeleteAllRules(cfg, env, g.result.value).result.Err? {
      FailedDeleteStages(cfg, env);
    } else if SetRulesOutcome(cfg, env).result.Err? {
      FailedAddStages(cfg, env);
    }
  }

  /** A failed delete_all_rules ends main() before any add or stream request. */
  lemma FailedDeleteStages(cfg: Parser, env: StreamEnv)
    requires GetRules(cfg, env).result.Ok? && DeleteAllRules(cfg, env, GetRules(cfg, env).result.value).result.Err?
    ensures var st := Stages(Requests(SyncAndStreamOutcome(cfg, env).trace));
      Adding !in st && Opening !in st
  {
    var g := GetRules(cfg, env);
    var d := DeleteAllRules(cfg, env, g.result.value);
    StagesOfConcat(g.trace, d.trace);
    assert Stages(Requests(SyncAndStreamOutcome(cfg, env).trace)) == Stages(Requests(g.trace)) + Stages(Requests(d.trace));
  }

  /** A failed set_rules ends main() before the stream request. */
  lemma FailedAddStages(cfg: Parser, env: StreamEnv)
    requires GetRules(cfg, env).result.Ok? && DeleteAllRules(cfg, env, GetRules(cfg, env).result.value).result.Ok?
    requires SetRulesOutcome(cfg, env).result.Err?
    ensures Opening !in Stages(Requests(SyncAndStreamOutcome(cfg, env).trace))
  {
    var g := GetRules(cfg, env);
    var d := DeleteAllRules(cfg, env, g.result.value);
    var a := SetRulesOutcome(cfg, env);
    StagesOfConcat(g.trace, d.trace);
    StagesOfConcat(g.trace + d.trace, a.trace);
    assert Stages(Requests(SyncAndStreamOutcome(cfg, env).trace))
      == Stages(Requests(g.trace)) + Stages(Requests(d.trace)) + Stages(Requests(a.trace));
  }

  lemma StagesOfConcat(t: Trace, u: Trace)
    ensures Stages(Requests(t + u)) == Stages(Requests(t)) + Stages(Requests(u))
  {
    RequestsAppend(t, u);
    StagesAppend(Requests(t), Requests(u));
  }

  /** The kinds of request of main()'s four steps, each sending at most one request, in order. */
  lemma SyncOrderOf(sg: seq<Stage>, sd: seq<Stage>, sa: seq<Stage>, so: seq<Stage>, streamed: bool)
    requires sg == [Fetching] && (sd == [] || sd == [Deleting]) && (sa == [] || sa == [Adding]) && (so == [] || so == [Opening])
    requires so != [] ==> sa != []
    requires streamed ==> so == [Opening]
    ensures sg + sd + sa + so <= FullSync || sg + sd + sa + so <= SyncWithoutDelete
    ensures streamed ==> sg + sd + sa + so == FullSync || sg + sd + sa + so == SyncWithoutDelete
  {
  }

  /** A run whose rules fetch fails sends nothing after it. */
  lemma FailedFetchSendsNothingElse(cfg: Parser, env: StreamEnv)
    requires GetRules(cfg, env).result.Err?
    ensures SyncAndStreamOutcome(cfg, env) == Step(GetRules(cfg, env).trace, Err(GetRules(cfg, env).result.error))
    ensures Stages(Requests(SyncAndStreamOutcome(cfg, env).trace)) <= [Fetching]
  {
  }

  // ---------------------------------------------------------------- create_thread

  const ResetHeader := "x-rate-limit-reset"

  /** The except clauses of create_thread's loop. RequestError retries at once. HTTPStatusError
      retries at once unless the status is 429, where the handler reads the x-rate-limit-reset
      header (KeyError when it is missing), converts it with int() (ValueError) and sleeps until
      then (time.sleep raises ValueError for a negative time); those exceptions leave the loop.
      Any other exception is logged and breaks the loop. */
  function StreamAction(result: Result<(), Error>, now: real): (a: Action)
    ensures a == Break <==> result.Ok?
    ensures a.Escape? ==> result.Err? && result.error.HTTPStatusError? && result.error.status == 429
    ensures a.Escape? ==> a.error == KeyError(ResetHeader) || a.error == ValueError
    ensures a.Stop? ==> result == Err(a.error)
  {
    match result
    case Ok(_) => Break
    case Err(RequestError) => Retry(None)
    case Err(HTTPStatusError(status, headers)) =>
      if status != 429 then Retry(None)
      else if ResetHeader !in headers then Escape(KeyError(ResetHeader))
      else if ParseInt(headers[ResetHeader]).None? then Escape(ValueError)
      else
        var wait := ParseInt(headers[ResetHeader]).value as real - now;
        if wait < 0.0 then Escape(ValueError) else Retry(Some(wait))
    case Err(e) => Stop(e)
  }

  /** Only a rate-limited attempt sleeps, and it sleeps until exactly the reset time it was given. */
  lemma RateLimitSleepsUntilReset(result: Result<(), Error>, now: real)
    ensures var a := StreamAction(result, now);
      a.Retry? && a.sleep.Some? <==>
        && result.Err? && result.error.HTTPStatusError? && result.error.status == 429
        && ResetHeader in result.error.headers
        && ParseInt(result.error.headers[ResetHeader]).Some?
        && now <= ParseInt(result.error.headers[ResetHeader]).value as real
    ensures var a := StreamAction(result, now);
      a.Retry? && a.sleep.Some? ==> now + a.sleep.value == ParseInt(result.error.headers[ResetHeader]).value as real
  {
  }

  /** Which outcomes of main() keep the loop going: a request error, or a status error that is
      not a rate limit; a rate limit only when its reset time can be read and has not passed. A
      run that returns breaks the loop; every other exception stops it or leaves it. */
  lemma StreamRetriesOn(result: Result<(), Error>, now: real)
    ensures StreamAction(result, now) == Break <==> result.Ok?
    ensures StreamAction(result, now).Retry? <==>
      result.Err? && (result.error.RequestError? || (result.error.HTTPStatusError? && (result.error.status != 429 ||
        (ResetHeader in result.error.headers && ParseInt(result.error.headers[ResetHeader]).Some?
         && now <= ParseInt(result.error.headers[ResetHeader]).value as real))))
    ensures StreamAction(result, now).Stop? <==>
      result.Err? && !result.error.RequestError? && !result.error.HTTPStatusError?
    ensures StreamAction(result, now).Stop? ==> StreamAction(result, now).error == result.error
  {
  }

  /** A 429 whose header carries str() of the reset time sleeps for reset - now when that is not
      negative, and raises ValueError out of the loop when the reset has already passed. */
  lemma RateLimitWithHeader(headers: map<string, string>, reset: int, now: real)
    requires ResetHeader in headers && headers[ResetHeader] == DecimalString(reset)
    ensures now <= reset as real ==> StreamAction(Err(HTTPStatusError(429, headers)), now) == Retry(Some(reset as real - now))
    ensures now > reset as real ==> StreamAction(Err(HTTPStatusError(429, headers)), now) == Escape(ValueError)
  {
    ParseIntDecimalString(reset);
  }

  /** One attempt per environment, each as main() and the except clauses make it. */
  function StreamAttempt(cfg: Parser, env: StreamEnv): Attempt {
    var s := SyncAndStreamOutcome(cfg, env);
    Attempt(s.trace, StreamAction(s.result, env.now))
  }

  function StreamAttempts(cfg: Parser, envs: seq<StreamEnv>): (a: seq<Attempt>)
    ensures |a| == |envs| && forall i :: 0 <= i < |envs| ==> a[i] == StreamAttempt(cfg, envs[i])
  {
    seq(|envs|, i requires 0 <= i < |envs| => StreamAttempt(cfg, envs[i]))
  }

  const LogFileKey := "stream_tweet_log_file"

  /** create_thread: the log file handler needs config["FILEPATHS"]["stream_tweet_log_file"] as a
      path before the loop starts; then the loop runs one attempt per environment. */
  function CreateThreadOutcome(cfg: Parser, envs: seq<StreamEnv>): (r: Report)
    ensures r.attempts <= |envs|
    ensures Lookup(cfg, "FILEPATHS", LogFileKey).Err? ==> r == Report(0, [], Escaped(Lookup(cfg, "FILEPATHS", LogFileKey).error))
    ensures r.ending == Retrying <==>
      (&& Lookup(cfg, "FILEPATHS", LogFileKey).Ok? && Lookup(cfg, "FILEPATHS", LogFileKey).value.Text?
       && r.attempts == |envs| && forall i :: 0 <= i < |envs| ==> StreamAttempt(cfg, envs[i]).action.Retry?)
  {
    match Lookup(cfg, "FILEPATHS", LogFileKey)
    case Err(e) => Report(0, [], Escaped(e))
    case Ok(Items(_)) => Report(0, [], Escaped(TypeError))
    case Ok(Text(_)) => Run(StreamAttempts(cfg, envs))
  }

  method CreateThread(cfg: Parser, envs: seq<StreamEnv>) returns (r: Report)
    ensures r == CreateThreadOutcome(cfg, envs)
  {
    var path := Lookup(cfg, "FILEPATHS", LogFileKey);
    if path.Err? {
      return Report(0, [], Escaped(path.error));
    }
    if path.value.Items? {
      return Report(0, [], Escaped(TypeError));
    }
    ghost var attempts := StreamAttempts(cfg, envs);
    var trace: Trace := [];
    var i := 0;
    while i < |envs|
      invariant i <= |envs|
      invariant Run(attempts) == Shift(i, trace, Run(attempts[i..]))
    {
      var s := SyncAndStream(cfg, envs[i]);
      var action := StreamAction(s.result, envs[i].now);
      if !action.Retry? {
        RunFinalStep(attempts, i, trace);
        return Report(i + 1, trace + s.trace, EndingOf(action));
      }
      RunRetryStep(attempts, i, trace);
      trace := trace + s.trace + SleepEvents(action);
      i := i + 1;
    }
    assert attempts[i..] == [];
    assert trace + [] == trace;
    r := Report(i, trace, Retrying);
  }

  /** create_thread ends, as soon as an attempt does not retry, on the first attempt that does not
      retry, and what log_wrapper then logs is the exception that left the loop, if any. */
  lemma CreateThreadEnds(cfg: Parser, envs: seq<StreamEnv>, loggerKwarg: bool)
    requires Lookup(cfg, "FILEPATHS", LogFileKey).Ok? && Lookup(cfg, "FILEPATHS", LogFileKey).value.Text?
    requires exists i :: 0 <= i < |envs| && !StreamAttempts(cfg, envs)[i].action.Retry?
    ensures var r := CreateThreadOutcome(cfg, envs); var k := FirstFinal(StreamAttempts(cfg, envs));
      && k < |envs| && r.attempts == k + 1
      && r.ending == EndingOf(StreamAttempts(cfg, envs)[k].action)
      && r.trace == Transcript(StreamAttempts(cfg, envs)[..k + 1])
      && (LogWrapper(ThreadCall(r), loggerKwarg).logged.Some? <==> r.ending.Escaped?)
  {
    var attempts := StreamAttempts(cfg, envs);
    RunStopsAtFirstFinal(attempts);
  }

  /** Without the log file path, create_thread raises before any request, and log_wrapper logs the
      KeyError. */
  lemma CreateThreadWithoutLogFile(cfg: Parser, envs: seq<StreamEnv>)
    requires "FILEPATHS" in cfg.sections.entries
    requires LogFileKey !in cfg.sections.entries["FILEPATHS"].entries && LogFileKey !in cfg.defaults.entries
    ensures CreateThreadOutcome(cfg, envs) == Report(0, [], Escaped(KeyError(LogFileKey)))
    ensures LogWrapper(ThreadCall(CreateThreadOutcome(cfg, envs)), false) == Wrapped(None, Some((RootLogger, KeyError(LogFileKey))))
  {
  }

  /** A rate-limited run followed by a run that returns: the loop sleeps until the reset time
      between the two and then finishes. */
  lemma RateLimitThenStream(first: Trace, second: Trace, headers: map<string, string>, reset: int, now: real, later: real)
    requires ResetHeader in headers && headers[ResetHeader] == DecimalString(reset) && now <= reset as real
    ensures Run([Attempt(first, StreamAction(Err(HTTPStatusError(429, headers)), now)), Attempt(second, StreamAction(Ok(()), later))])
      == Report(2, first + [Slept(reset as real - now)] + second, Finished)
  {
    RateLimitWithHeader(headers, reset, now);
    RetryThenBreak(Attempt(first, StreamAction(Err(HTTPStatusError(429, headers)), now)), Attempt(second, StreamAction(Ok(()), later)));
  }

  /** A 429 without the reset header ends create_thread at once with KeyError, whatever later runs
      would have done, and log_wrapper logs it. */
  lemma RateLimitWithoutHeader(cfg: Parser, envs: seq<StreamEnv>, headers: map<string, string>)
    requires Lookup(cfg, "FILEPATHS", LogFileKey).Ok? && Lookup(cfg, "FILEPATHS", LogFileKey).value.Text?
    requires |envs| >= 1 && SyncAndStreamOutcome(cfg, envs[0]).result == Err(HTTPStatusError(429, headers))
    requires ResetHeader !in headers
    ensures CreateThreadOutcome(cfg, envs) == Report(1, SyncAndStreamOutcome(cfg, envs[0]).trace, Escaped(KeyError(ResetHeader)))
    ensures LogWrapper(ThreadCall(CreateThreadOutcome(cfg, envs)), true).logged == Some((KwargsLogger, KeyError(ResetHeader)))
  {
  }

  /** A chunk that is not JSON stops the loop for good: the catch-all clause breaks out and
      log_wrapper logs nothing. */
  lemma BadChunkStopsThread(cfg: Parser, envs: seq<StreamEnv>)
    requires Lookup(cfg, "FILEPATHS", LogFileKey).Ok? && Lookup(cfg, "FILEPATHS", LogFileKey).value.Text?
    requires |envs| >= 1 && SyncAndStreamOutcome(cfg, envs[0]).result == Err(JSONDecodeError)
    ensures CreateThreadOutcome(cfg, envs) == Report(1, SyncAndStreamOutcome(cfg, envs[0]).trace, Stopped(JSONDecodeError))
    ensures LogWrapper(ThreadCall(CreateThreadOutcome(cfg, envs)), false) == Wrapped(Some(()), None)
  {
  }
}
